/** The build targets whose conditional compilation changes the startup sequence. */
module Platforms {
  /** `SWITCH`, `__WIIU__`, or any other target (3DS, PC), which share the defaults. */
  datatype Platform = Switch | WiiU | Other
}
