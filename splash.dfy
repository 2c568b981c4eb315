/** The splash spinner's look: platform colour, and the Earth Day override. */
module Splash {
  import opened Platforms

  /** The two calendar fields read from the local time: `tm_mon` (zero-based) and `tm_mday`. */
  datatype Date = Date(month: int, day: int)

  /** True on April 22 of any year; the month is zero-based, as in `struct tm`. */
  function IsEarthDay(today: Date): bool
  {
    today.month == 3 && today.day == 22
  }

  /** A background colour given by its red, green and blue components. */
  datatype Color = Rgb(red: int, green: int, blue: int)

  /** The background on Earth Day. */
  const EarthDayBackground: Color := Rgb(12, 156, 91)

  /** The spinner images: `res/spinner.png`, `res/spinner_red.png`, `res/spinner_green.png`. */
  datatype SpinnerImage = PlainSpinner | RedSpinner | GreenSpinner

  /**
   * The spinner image chosen when the splash ends: red on the Switch, plain elsewhere,
   * and green on Earth Day whatever the platform.
   */
  function SpinnerFor(platform: Platform, earthDay: bool): (image: SpinnerImage)
    ensures image == GreenSpinner <==> earthDay
    ensures image == RedSpinner <==> !earthDay && platform == Switch
    ensures image == PlainSpinner <==> !earthDay && platform != Switch
  {
    var image := if platform == Switch then RedSpinner else PlainSpinner;
    if earthDay then GreenSpinner else image
  }
}
