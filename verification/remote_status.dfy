/** The health verdict an integration reports once per poll. */
module Remote {

  datatype RemoteStatus = Unknown | InProgress | Passing | Failing
}
