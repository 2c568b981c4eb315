/**
 * The startup checks in the order the display runs them (network, then server, then
 * card), the first failure winning, and the error screen each failure maps to.
 */
module Probes {
  import opened Platforms
  import opened Repos
  import opened StorageProbe
  import opened Screens

  /** Outcome of the startup checks. */
  datatype ProbeResult =
    | Ok
    | NetworkUnreachable(firstUrl: string)
    | NoEnabledRepos
    | StorageWriteFailed(path: string)

  /**
   * The checks, first failure winning: some repository not loaded, then no repository
   * enabled, then the write test. A network failure reports the first repository's URL.
   */
  function Probe(client: Client, storage: StorageOutcome): (r: ProbeResult)
    ensures r.NetworkUnreachable? ==> |client.repos| > 0 && r.firstUrl == client.repos[0].url
    ensures r.StorageWriteFailed? ==> r.path == TestFilePath(client.tmpPath)
  {
    if AnyUnloaded(client.repos) then NetworkUnreachable(client.repos[0].url)
    else if !AnyEnabled(client.repos) then NoEnabledRepos
    else if !WriteTestPasses(storage) then StorageWriteFailed(TestFilePath(client.tmpPath))
    else Ok
  }

  /** The error screen shown for a failed check. */
  function ErrorScreenFor(r: ProbeResult, platform: Platform, platformName: string): Screen
    requires !r.Ok?
  {
    match r
    case NetworkUnreachable(url) => ErrorScreen(InternetMessage, InternetHelp(platformName, url))
    case NoEnabledRepos => ErrorScreen(ServerMessage, ServerHelp)
    case StorageWriteFailed(path) => ErrorScreen(CardMessage, CardHelp(platform, path))
  }

  /**
   * Each failure has its own message; the network help ends with the URL reported,
   * the card help with the line naming the test file.
   */
  lemma ErrorScreenText(r: ProbeResult, platform: Platform, platformName: string)
    requires !r.Ok?
    ensures ErrorScreenFor(r, platform, platformName).ErrorScreen?
    ensures r.NetworkUnreachable? ==>
      var screen := ErrorScreenFor(r, platform, platformName);
      screen.message == InternetMessage && EndsWith(screen.troubleshooting, r.firstUrl)
    ensures r.NoEnabledRepos? ==> ErrorScreenFor(r, platform, platformName) == ErrorScreen(ServerMessage, ServerHelp)
    ensures r.StorageWriteFailed? ==>
      var screen := ErrorScreenFor(r, platform, platformName);
      screen.message == CardMessage && EndsWith(screen.troubleshooting, CardLine(r.path))
  {
    match r
    case NetworkUnreachable(url) => InternetHelpShape(platformName, url);
    case NoEnabledRepos =>
    case StorageWriteFailed(path) => CardHelpShape(platform, path);
  }

  /** One repository that did not load decides the outcome, whether or not others are enabled. */
  lemma UnloadedRepoWins(client: Client, storage: StorageOutcome, i: int)
    requires 0 <= i < |client.repos| && !client.repos[i].loaded
    ensures Probe(client, storage) == NetworkUnreachable(client.repos[0].url)
  {
    AnyUnloadedIff(client.repos);
  }

  /** With every repository loaded and none enabled (an empty list included), no server is usable. */
  lemma NoEnabledRepoIsServerError(client: Client, storage: StorageOutcome)
    requires forall i :: 0 <= i < |client.repos| ==> client.repos[i].loaded && !client.repos[i].enabled
    ensures Probe(client, storage) == NoEnabledRepos
  {
    AnyUnloadedIff(client.repos);
    AnyEnabledIff(client.repos);
  }

  /** The card is tested only after both repository checks passed; its failure names the test file. */
  lemma CardCheckedLast(client: Client, storage: StorageOutcome)
    requires forall i :: 0 <= i < |client.repos| ==> client.repos[i].loaded
    requires exists i :: 0 <= i < |client.repos| && client.repos[i].enabled
    ensures Probe(client, storage) == if WriteTestPasses(storage) then Ok
                                      else StorageWriteFailed(TestFilePath(client.tmpPath))
  {
    AnyUnloadedIff(client.repos);
    AnyEnabledIff(client.repos);
  }

  /** All checks pass exactly when every repository loaded, one is enabled, and the card round-trips the sentence. */
  lemma ProbeOkIff(client: Client, storage: StorageOutcome)
    ensures Probe(client, storage) == Ok <==>
      && (forall i :: 0 <= i < |client.repos| ==> client.repos[i].loaded)
      && (exists i :: 0 <= i < |client.repos| && client.repos[i].enabled)
      && storage.writeOpened && storage.readOpened
      && (storage.contents == Magic || Magic + "\n" <= storage.contents)
  {
    AnyUnloadedIff(client.repos);
    AnyEnabledIff(client.repos);
    FirstLineIsMagic(storage.contents);
  }
}
