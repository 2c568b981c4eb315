/**
 * Runs of the display over a sequence of events, to state what holds across calls:
 * the startup sequence runs at most once, and never before the splash was drawn.
 */
module Sessions {
  import opened Repos
  import opened Display

  /** What can happen to the display: a frame drawn, an input event, a progress callback, "Ignore This" pressed. */
  datatype Event =
    | Draw
    | Input(noop: bool, env: Environment, rootHandled: bool)
    | Progress(now: int, ticksAfter: int, dltotal: real, dlnow: real)
    | IgnorePressed(localRepo: Repo)

  /** The state after one event; "Ignore This" does nothing unless an error screen shows its button. */
  function Step(s: DisplayState, e: Event): (t: DisplayState)
    requires Inv(s)
    ensures Inv(t)
    ensures !s.showingSplash ==> !t.showingSplash
  {
    match e
    case Draw => RenderState(s)
    case Input(noop, env, rootHandled) => ProcessState(s, noop, env, rootHandled).0
    case Progress(now, ticksAfter, dltotal, dlnow) =>
      if s.networkingCallback then LoaderState(s, now, ticksAfter, dltotal, dlnow) else s
    case IgnorePressed(localRepo) => if s.subscreen.ErrorScreen? then IgnoreState(s, localRepo) else s
  }

  /** Whether an event starts the startup sequence in state `s`. */
  predicate Starts(s: DisplayState, e: Event)
  {
    e.Input? && StartupFires(s, e.noop)
  }

  /** How many times the startup sequence runs during `events`. */
  function Startups(s: DisplayState, events: seq<Event>): nat
    requires Inv(s)
    decreases |events|
  {
    if events == [] then 0
    else (if Starts(s, events[0]) then 1 else 0) + Startups(Step(s, events[0]), events[1..])
  }

  /** The startup sequence runs at most once per display, and not at all once the splash is gone. */
  lemma {:induction false} StartupRunsAtMostOnce(s: DisplayState, events: seq<Event>)
    requires Inv(s)
    ensures Startups(s, events) <= if s.showingSplash then 1 else 0
    decreases |events|
  {
    if events != [] {
      var t := Step(s, events[0]);
      StartupRunsAtMostOnce(t, events[1..]);
      if Starts(s, events[0]) {
        assert !t.showingSplash;
      }
    }
  }


  /**
   * The startup sequence waits for a frame drawn by the display itself: progress events
   * reach the display only once the callback is installed, which happens after the splash
   * is gone, so without a draw event no input event ever starts the sequence.
   */
  lemma {:induction false} NoStartupBeforeFirstFrame(s: DisplayState, events: seq<Event>)
    requires Inv(s) && !s.renderedSplash
    requires forall j :: 0 <= j < |events| ==> !events[j].Draw?
    ensures Startups(s, events) == 0
    decreases |events|
  {
    if events != [] {
      var t := Step(s, events[0]);
      if s.showingSplash {
        assert !t.renderedSplash;
        NoStartupBeforeFirstFrame(t, events[1..]);
      } else {
        StartupRunsAtMostOnce(t, events[1..]);
      }
    }
  }

  /** From a fresh display, any run starts the sequence at most once. */
  lemma FreshDisplayStartsOnce(background: Splash.Color, lastFrameTime: int, events: seq<Event>)
    ensures Startups(InitialState(background, lastFrameTime), events) <= 1
  {
    StartupRunsAtMostOnce(InitialState(background, lastFrameTime), events);
  }
}
