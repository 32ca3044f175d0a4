/**
 The commands an integration can give its RGB LED. Colours are the named
 constants of the LED driver; their intensities belong to the driver and are
 not modelled.
 */
module Led {

  datatype Color = RED | GREEN | BLUE | TEAL | YELLOW | PURPLE

  /** `set_led_rgb_values` (steady colour), `blink_led` and `glow_led`. */
  datatype LedCommand = Solid(color: Color) | Blink(color: Color) | Glow(color: Color)
}
