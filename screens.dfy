/**
 * The error screens the startup sequence can switch to, as data: the main message and
 * the troubleshooting text. Layout, icon and buttons are not modelled.
 */
module Screens {
  import opened Platforms

  /** The display's subscreen: none, or an error screen. */
  datatype Screen = NoScreen | ErrorScreen(message: string, troubleshooting: string)

  predicate StartsWith(s: string, prefix: string)
  {
    |prefix| <= |s| && s[..|prefix|] == prefix
  }

  predicate EndsWith(s: string, suffix: string)
  {
    |suffix| <= |s| && s[|s| - |suffix|..] == suffix
  }

  const InternetMessage: string := "Couldn't connect to the Internet!"
  const ServerMessage: string := "Couldn't connect to a server!"
  const CardMessage: string := "Cannot access SD card!"

  const InternetHelpHead: string := "Perform a connection test in the "
  const InternetHelpMiddle: string := " System Settings\nEnsure DNS isn't blocking: "

  /** Help for an unreachable network: the platform's settings, then the URL to check. */
  function InternetHelp(platformName: string, firstUrl: string): string
  {
    InternetHelpHead + platformName + InternetHelpMiddle + firstUrl
  }

  /** The network help names the platform's settings first and ends with the URL to check. */
  lemma InternetHelpShape(platformName: string, firstUrl: string)
    ensures StartsWith(InternetHelp(platformName, firstUrl), InternetHelpHead + platformName + InternetHelpMiddle)
    ensures EndsWith(InternetHelp(platformName, firstUrl), firstUrl)
  {
  }

  const ServerHelp: string := "No enabled repos found, check ./get/repos.json\nMake sure repo has at least one package"

  const WiiUCardHint: string := "Check the physical SD write lock slider\n"
  const SwitchCardHint: string := "Check for EXFAT FS corruption (no issues on FAT32)\n"

  /** The line that names the file that could not be written. */
  function CardLine(testFile: string): string
  {
    "Ensure " + testFile + " is writable"
  }

  /** Help for an unwritable card: the line naming the file, after a platform hint on Wii U and Switch. */
  function CardHelp(platform: Platform, testFile: string): string
  {
    match platform
    case WiiU => WiiUCardHint + CardLine(testFile)
    case Switch => SwitchCardHint + CardLine(testFile)
    case Other => CardLine(testFile)
  }

  /**
   * The card help always ends with the line naming the file, and that line is the
   * whole text except for the Wii U and Switch hints in front of it.
   */
  lemma CardHelpShape(platform: Platform, testFile: string)
    ensures EndsWith(CardHelp(platform, testFile), CardLine(testFile))
    ensures var line := CardLine(testFile);
      StartsWith(line, "Ensure ") && EndsWith(line, " is writable") && line[7..|line| - 12] == testFile
    ensures platform == WiiU ==> StartsWith(CardHelp(platform, testFile), WiiUCardHint)
    ensures platform == Switch ==> StartsWith(CardHelp(platform, testFile), SwitchCardHint)
    ensures platform == Other ==> CardHelp(platform, testFile) == CardLine(testFile)
  {
  }
}
