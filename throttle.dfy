/**
 * The redraw throttle of the download progress callback: redraw at most once per
 * 32 ticks, except that a finished download is always drawn.
 */
module Throttle {
  /** Fewest ticks between two throttled redraws. */
  const FrameGap: int := 32

  /** The total the fraction is taken against: a reported total of zero counts as one. */
  function EffectiveTotal(dltotal: real): (total: real)
    ensures total != 0.0
    ensures dltotal != 0.0 ==> total == dltotal
  {
    if dltotal == 0.0 then 1.0 else dltotal
  }

  /**
   * Whether the callback redraws, given the ticks since the last redraw and the
   * download counters: it skips exactly when fewer than 32 ticks have passed and
   * the fraction downloaded is not one.
   */
  function Redraws(elapsed: int, dltotal: real, dlnow: real): (redraw: bool)
    ensures redraw <==> elapsed >= FrameGap || dlnow == EffectiveTotal(dltotal)
    ensures dltotal == 0.0 ==> (redraw <==> elapsed >= FrameGap || dlnow == 1.0)
  {
    QuotientIsOne(dlnow, EffectiveTotal(dltotal));
    var amount := dlnow / EffectiveTotal(dltotal);
    if elapsed < FrameGap && amount != 1.0 then false else true
  }

  /** With exact division, the fraction is one exactly when the two counts agree. */
  lemma QuotientIsOne(n: real, t: real)
    requires t != 0.0
    ensures n / t == 1.0 <==> n == t
  {
  }

  /** A finished download is drawn however recently the last frame was. */
  lemma FinishedAlwaysRedraws(elapsed: int, dltotal: real)
    requires dltotal != 0.0
    ensures Redraws(elapsed, dltotal, dltotal)
  {
  }
}
