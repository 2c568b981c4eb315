/**
 * The main display of the app store: the splash gate, the one-shot startup sequence,
 * the switch to the app list, the "Ignore This" recovery and the download-progress
 * redraw throttle.
 *
 * The display's observable fields are gathered in a DisplayState value; the spec
 * functions below say what each operation does to it, and the MainDisplay class
 * updates its fields in place and is proved to follow them.
 */
module Display {
  import opened Optional
  import opened Platforms
  import opened Repos
  import opened StorageProbe
  import opened Screens
  import opened Probes
  import opened Splash
  import opened Throttle

  /** The loading spinner: which image, and how far it has turned (in degrees). */
  datatype Spinner = Spinner(image: SpinnerImage, angle: int)

  /**
   * One call of the progress callback by the transfer layer: the tick read before the
   * throttle test, the tick read after drawing, and the download counters.
   */
  datatype Reading = Reading(now: int, ticksAfter: int, dltotal: real, dlnow: real)

  /**
   * What the startup sequence learns from outside the display: the platform and its
   * display name, today's date, the progress callbacks made while the package client
   * fetches the repository metadata, the client so constructed, and what the card did
   * during the write test.
   */
  datatype Environment = Environment(
    platform: Platform,
    platformName: string,
    today: Date,
    fetchProgress: seq<Reading>,
    fetched: Client,
    storage: StorageOutcome)

  /**
   * The display's observable fields. `networkingCallback` says whether the progress
   * callback is installed; `appListGet` is the client handed to the app list;
   * `appListUpdates` and `hintsAdded` count refreshes of the app list and of the
   * sidebar hints; `lastFrameTime` is the tick of the last throttled redraw.
   */
  datatype DisplayState = DisplayState(
    showingSplash: bool,
    renderedSplash: bool,
    error: bool,
    atLeastOneEnabled: bool,
    spinner: Option<Spinner>,
    networkingCallback: bool,
    get: Option<Client>,
    appListGet: Option<Client>,
    appListUpdates: nat,
    hintsAdded: nat,
    needsRedraw: bool,
    background: Color,
    subscreen: Screen,
    lastFrameTime: int)

  /**
   * What every operation keeps: while the splash shows, the two repository flags are
   * still clear (so a set error flag always comes from the current list), and an error
   * screen is only ever shown once a client exists. The progress callback is only
   * installed once the splash is gone.
   */
  predicate Inv(s: DisplayState)
  {
    && (s.showingSplash ==> !s.error && !s.atLeastOneEnabled && !s.networkingCallback)
    && (s.subscreen.ErrorScreen? ==> s.get.Some?)
  }

  /** A display as constructed: splash showing and not yet drawn, nothing loaded. */
  function InitialState(background: Color, lastFrameTime: int): (s: DisplayState)
    ensures Inv(s) && s.showingSplash && !s.renderedSplash
    ensures s.get.None? && s.appListGet.None? && s.spinner.None? && s.subscreen.NoScreen?
  {
    DisplayState(true, false, false, false, None, false, None, None, 0, 0, true, background, NoScreen, lastFrameTime)
  }

  /** Drawing the display marks the splash as drawn, if it is showing. */
  function RenderState(s: DisplayState): DisplayState
  {
    if s.showingSplash then s.(renderedSplash := true) else s
  }

  /** Handing the client to the app list: callback off, spinner gone, app list and hints refreshed. */
  function LoadedState(s: DisplayState): DisplayState
  {
    s.(networkingCallback := false,
       spinner := None,
       appListGet := s.get,
       appListUpdates := s.appListUpdates + 1,
       hintsAdded := s.hintsAdded + 1)
  }

  /** Whether an input event starts the sequence: no subscreen, splash showing and drawn, and a no-op event. */
  predicate StartupFires(s: DisplayState, noop: bool)
  {
    s.subscreen.NoScreen? && s.showingSplash && s.renderedSplash && noop
  }

  /** The sequence's set-up: splash off, spinner and progress callback up. */
  function SplashEndedState(s: DisplayState, env: Environment): DisplayState
  {
    var earthDay := IsEarthDay(env.today);
    s.(showingSplash := false,
       background := if earthDay then EarthDayBackground else s.background,
       spinner := Some(Spinner(SpinnerFor(env.platform, earthDay), 0)),
       networkingCallback := true)
  }

  /** The client constructed, the progress callback running once per reading of its fetch. */
  function FetchedState(s: DisplayState, env: Environment): DisplayState
  {
    LoaderRun(s, env.fetchProgress).(get := Some(env.fetched))
  }

  /** The repository scan: OR "not loaded" into the error flag and "enabled" into the enabled flag. */
  function ScannedState(s: DisplayState, repos: seq<Repo>): DisplayState
  {
    s.(error := s.error || AnyUnloaded(repos),
       atLeastOneEnabled := s.atLeastOneEnabled || AnyEnabled(repos))
  }

  /** The second half of the sequence: the first failed check's error screen, or the app list loaded. */
  function CheckedState(t: DisplayState, env: Environment): DisplayState
  {
    var r := Probe(env.fetched, env.storage);
    if r.Ok? then LoadedState(t)
    else t.(subscreen := ErrorScreenFor(r, env.platform, env.platformName))
  }

  /** The whole sequence. */
  function StartupState(s: DisplayState, env: Environment): DisplayState
  {
    CheckedState(ScannedState(FetchedState(SplashEndedState(s, env), env), env.fetched.repos), env)
  }

  /**
   * One input event: the startup sequence if it fires (always handled), otherwise an
   * app-list refresh when a redraw is pending and the toolkit's own answer.
   */
  function ProcessState(s: DisplayState, noop: bool, env: Environment, rootHandled: bool): (DisplayState, bool)
  {
    if StartupFires(s, noop) then (StartupState(s, env), true)
    else (if s.needsRedraw then s.(appListUpdates := s.appListUpdates + 1) else s, rootHandled)
  }

  /** "Ignore This": add a local repository, ask for a redraw, load the app list, close the error screen. */
  function IgnoreState(s: DisplayState, localRepo: Repo): DisplayState
    requires s.get.Some?
  {
    var client := s.get.value.(repos := s.get.value.repos + [localRepo]);
    LoadedState(s.(get := Some(client), needsRedraw := true)).(subscreen := NoScreen)
  }

  /** One progress callback: unless throttled, turn the spinner, draw, and note the time. */
  function LoaderState(s: DisplayState, now: int, ticksAfter: int, dltotal: real, dlnow: real): DisplayState
  {
    if !Redraws(now - s.lastFrameTime, dltotal, dlnow) then s
    else
      var turned := if s.spinner.Some? then Some(s.spinner.value.(angle := s.spinner.value.angle + 10)) else None;
      RenderState(s.(spinner := turned)).(lastFrameTime := ticksAfter)
  }
  /**
   * The progress callback run once per reading, in order. It touches only the spinner's
   * angle, the splash-drawn flag (which it may set, never clear, and only while the splash
   * shows) and the time of the last redraw; the spinner stays, with its image, and never
   * turns backwards.
   */
  function LoaderRun(s: DisplayState, readings: seq<Reading>): (t: DisplayState)
    ensures t == s.(spinner := t.spinner, renderedSplash := t.renderedSplash, lastFrameTime := t.lastFrameTime)
    ensures t.spinner.Some? <==> s.spinner.Some?
    ensures t.spinner.Some? ==>
      t.spinner.value.image == s.spinner.value.image && t.spinner.value.angle >= s.spinner.value.angle
    ensures !s.showingSplash ==> t.renderedSplash == s.renderedSplash
    ensures s.renderedSplash ==> t.renderedSplash
    decreases |readings|
  {
    if readings == [] then s
    else
      var last := readings[|readings| - 1];
      LoaderState(LoaderRun(s, readings[..|readings| - 1]), last.now, last.ticksAfter, last.dltotal, last.dlnow)
  }

  /**
   * A fetch whose last callback reports the download complete is always drawn: the
   * spinner has turned by at least 10 and the time of that last redraw is stored.
   */
  lemma CompletedFetchIsDrawn(s: DisplayState, readings: seq<Reading>)
    requires readings != []
    requires var last := readings[|readings| - 1]; last.dlnow == EffectiveTotal(last.dltotal)
    ensures LoaderRun(s, readings).lastFrameTime == readings[|readings| - 1].ticksAfter
    ensures s.spinner.Some? ==> LoaderRun(s, readings).spinner.value.angle >= s.spinner.value.angle + 10
  {
    var before := LoaderRun(s, readings[..|readings| - 1]);
    var last := readings[|readings| - 1];
    assert Redraws(last.now - before.lastFrameTime, last.dltotal, last.dlnow);
  }


  /**
   * The sequence loads the app list exactly when every check passed: every repository
   * loaded, one enabled, and the card gave the sentence back as its first line. On any
   * failure the app list is left alone and the spinner and callback stay up.
   */
  lemma StartupLoadsOnlyWhenChecksPass(s: DisplayState, env: Environment)
    requires Inv(s) && StartupFires(s, true)
    ensures var t := StartupState(s, env);
      && !t.showingSplash
      && (t.subscreen.NoScreen? <==>
            && (forall i :: 0 <= i < |env.fetched.repos| ==> env.fetched.repos[i].loaded)
            && (exists i :: 0 <= i < |env.fetched.repos| && env.fetched.repos[i].enabled)
            && env.storage.writeOpened && env.storage.readOpened
            && (env.storage.contents == Magic || Magic + "\n" <= env.storage.contents))
      && (t.subscreen.NoScreen? ==>
            t.appListGet == Some(env.fetched) && !t.networkingCallback && t.spinner.None?
            && t.appListUpdates == s.appListUpdates + 1)
      && (t.subscreen.ErrorScreen? ==>
            t.appListGet == s.appListGet && t.networkingCallback && t.spinner.Some?
            && t.appListUpdates == s.appListUpdates)
  {
    ProbeOkIff(env.fetched, env.storage);
  }

  /** A repository that did not load shows the network screen, naming the first repository's URL. */
  lemma UnloadedRepoShowsInternetScreen(s: DisplayState, env: Environment, i: int)
    requires Inv(s) && StartupFires(s, true)
    requires 0 <= i < |env.fetched.repos| && !env.fetched.repos[i].loaded
    ensures |env.fetched.repos| > 0
    ensures StartupState(s, env).subscreen
      == ErrorScreen(InternetMessage, InternetHelp(env.platformName, env.fetched.repos[0].url))
  {
    UnloadedRepoWins(env.fetched, env.storage, i);
  }

  /** Every repository loaded and none enabled (an empty list included) shows the server screen. */
  lemma NoEnabledRepoShowsServerScreen(s: DisplayState, env: Environment)
    requires Inv(s) && StartupFires(s, true)
    requires forall i :: 0 <= i < |env.fetched.repos| ==> env.fetched.repos[i].loaded && !env.fetched.repos[i].enabled
    ensures StartupState(s, env).subscreen == ErrorScreen(ServerMessage, ServerHelp)
  {
    NoEnabledRepoIsServerError(env.fetched, env.storage);
  }

  /** With the repositories fine, a failed write test shows the card screen naming the test file. */
  lemma FailedWriteShowsCardScreen(s: DisplayState, env: Environment)
    requires Inv(s) && StartupFires(s, true)
    requires forall i :: 0 <= i < |env.fetched.repos| ==> env.fetched.repos[i].loaded
    requires exists i :: 0 <= i < |env.fetched.repos| && env.fetched.repos[i].enabled
    requires !WriteTestPasses(env.storage)
    ensures StartupState(s, env).subscreen
      == ErrorScreen(CardMessage, CardHelp(env.platform, TestFilePath(env.fetched.tmpPath)))
  {
    CardCheckedLast(env.fetched, env.storage);
  }

  /**
   * On Earth Day the background turns green and the spinner is the green one on every
   * platform; on any other day the background is left as it was and the spinner is the
   * platform's. The spinner stays up exactly when the sequence ends on an error screen.
   */
  lemma EarthDayLook(s: DisplayState, env: Environment)
    requires Inv(s) && StartupFires(s, true)
    ensures var t := StartupState(s, env);
      && (t.background == if env.today.month == 3 && env.today.day == 22 then EarthDayBackground else s.background)
      && (t.spinner.Some? <==> t.subscreen.ErrorScreen?)
      && (t.spinner.Some? ==>
            t.spinner.value.image ==
              if env.today.month == 3 && env.today.day == 22 then GreenSpinner
              else if env.platform == Switch then RedSpinner
              else PlainSpinner)
  {
  }

  class MainDisplay {
    var showingSplash: bool
    var renderedSplash: bool
    var error: bool
    var atLeastOneEnabled: bool
    var spinner: Option<Spinner>
    var networkingCallback: bool
    var get: Option<Client>
    var appListGet: Option<Client>
    var appListUpdates: nat
    var hintsAdded: nat
    var needsRedraw: bool
    var backgroundColor: Color
    var subscreen: Screen
    /** Tick of the last throttled redraw (shared by all app views). */
    var lastFrameTime: int

    ghost function State(): DisplayState
      reads this
    {
      DisplayState(showingSplash, renderedSplash, error, atLeastOneEnabled, spinner,
                   networkingCallback, get, appListGet, appListUpdates, hintsAdded,
                   needsRedraw, backgroundColor, subscreen, lastFrameTime)
    }

    ghost predicate Valid()
      reads this
    {
      Inv(State())
    }

    constructor (background: Color, lastFrame: int)
      ensures Valid() && State() == InitialState(background, lastFrame)
    {
      showingSplash, renderedSplash := true, false;
      error, atLeastOneEnabled := false, false;
      spinner, networkingCallback := None, false;
      get, appListGet := None, None;
      appListUpdates, hintsAdded := 0, 0;
      needsRedraw := true;
      backgroundColor := background;
      subscreen := NoScreen;
      lastFrameTime := lastFrame;
    }

    method Render()
      requires Valid()
      modifies this
      ensures Valid() && State() == RenderState(old(State()))
    {
      if showingSplash {
        renderedSplash := true;
      }
    }

    method BeginInitialLoad()
      requires Valid()
      modifies this
      ensures Valid() && State() == LoadedState(old(State()))
    {
      networkingCallback := false;
      if spinner.Some? {
        spinner := None;
      }
      appListGet := get;
      appListUpdates := appListUpdates + 1;
      hintsAdded := hintsAdded + 1;
    }

    method Process(noop: bool, env: Environment, rootHandled: bool) returns (handled: bool)
      requires Valid()
      modifies this
      ensures Valid() && (State(), handled) == ProcessState(old(State()), noop, env, rootHandled)
    {
      if subscreen.NoScreen? && showingSplash && renderedSplash && noop {
        Startup(env);
        return true;
      }

      if needsRedraw {
        appListUpdates := appListUpdates + 1;
      }
      handled := rootHandled;
    }

    /** The startup branch of Process: end the splash, scan the repositories, run the checks. */
    method Startup(env: Environment)
      requires Valid() && showingSplash && subscreen.NoScreen?
      modifies this
      ensures Valid() && State() == StartupState(old(State()), env)
    {
      EndSplash(env);
      FetchClient(env);
      error, atLeastOneEnabled := ScanRepos(error, atLeastOneEnabled, env.fetched.repos);
      RunChecks(env);
    }

    /** Splash off, spinner and progress callback up. */
    method EndSplash(env: Environment)
      modifies this
      ensures State() == SplashEndedState(old(State()), env)
    {
      showingSplash := false;

      var earthDay := IsEarthDay(env.today);
      if earthDay {
        backgroundColor := EarthDayBackground;
      }
      spinner := Some(Spinner(SpinnerFor(env.platform, earthDay), 0));

      networkingCallback := true;
    }

    /**
     * The client constructed: while it fetches the repository metadata, the transfer
     * layer calls the progress callback once per reading.
     */
    method FetchClient(env: Environment)
      requires Valid() && subscreen.NoScreen?
      modifies this
      ensures Valid() && State() == FetchedState(old(State()), env)
    {
      ghost var before := State();
      var readings := env.fetchProgress;
      for i := 0 to |readings|
        invariant Valid() && subscreen.NoScreen?
        invariant State() == LoaderRun(before, readings[..i])
      {
        assert readings[..i + 1][..i] == readings[..i];
        var status := UpdateLoader(readings[i].now, readings[i].ticksAfter, readings[i].dltotal, readings[i].dlnow);
      }
      assert readings[..|readings|] == readings;
      get := Some(env.fetched);
    }

    /** The three checks in order, the first failure showing its error screen, success loading the app list. */
    method RunChecks(env: Environment)
      requires !showingSplash && get == Some(env.fetched)
      requires error == AnyUnloaded(env.fetched.repos) && atLeastOneEnabled == AnyEnabled(env.fetched.repos)
      modifies this
      ensures State() == CheckedState(old(State()), env)
    {
      var repos := env.fetched.repos;
      if error {
        subscreen := ErrorScreen(InternetMessage, InternetHelp(env.platformName, repos[0].url));
        return;
      }

      if !atLeastOneEnabled {
        subscreen := ErrorScreen(ServerMessage, ServerHelp);
        return;
      }

      var testFile := TestFilePath(env.fetched.tmpPath);
      var writeFailed, removed := WriteTest(env.storage);

      if writeFailed {
        subscreen := ErrorScreen(CardMessage, CardHelp(env.platform, testFile));
        return;
      }

      BeginInitialLoad();
    }

    method UpdateLoader(now: int, ticksAfter: int, dltotal: real, dlnow: real) returns (status: int)
      requires Valid()
      modifies this
      ensures Valid() && State() == LoaderState(old(State()), now, ticksAfter, dltotal, dlnow)
      ensures status == 0
    {
      var diff := now - lastFrameTime;
      var total := if dltotal == 0.0 then 1.0 else dltotal;
      var amount := dlnow / total;

      if diff < FrameGap && amount != 1.0 {
        return 0;
      }

      if spinner.Some? {
        spinner := Some(spinner.value.(angle := spinner.value.angle + 10));
      }
      Render();

      lastFrameTime := ticksAfter;
      return 0;
    }

    method IgnoreThis(localRepo: Repo)
      requires Valid() && subscreen.ErrorScreen?
      modifies this
      ensures Valid() && State() == IgnoreState(old(State()), localRepo)
    {
      get := Some(get.value.(repos := get.value.repos + [localRepo]));
      needsRedraw := true;
      BeginInitialLoad();
      subscreen := NoScreen;
    }
  }
}
