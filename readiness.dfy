/** `wait_for_page_load`: the two load-state waits, one bounded wait per expected selector,
    and the media-settle evaluation. Only the load-state waits can make it raise. */
module Readiness {
  import opened Wrappers
  import opened Browser
  import opened Config

  const DOM_CONTENT_LOADED := "domcontentloaded"
  const NETWORK_IDLE := "networkidle"

  /** The selectors waited for, in this order. */
  const SELECTORS: seq<string> := [
    "article",
    "[data-testid='primaryColumn']",
    "[role='button']",
    "img",
    "video",
    "[data-testid='tweetPhoto']"
  ]

  function SelectorWaits(ms: nat): (s: seq<Event>)
    ensures |s| == |SELECTORS|
    ensures forall i :: 0 <= i < |s| ==> s[i] == WaitSelector(SELECTORS[i], ms)
  {
    seq(|SELECTORS|, i requires 0 <= i < |SELECTORS| => WaitSelector(SELECTORS[i], ms))
  }

  /** The calls of a run in which both load states were reached. */
  function FullReadiness(ms: nat): seq<Event>
  {
    [LoadState(DOM_CONTENT_LOADED), LoadState(NETWORK_IDLE)] + SelectorWaits(ms) + [EvalMediaSettle]
  }

  /** The run of `wait_for_page_load` whose first call is call number n. */
  function ReadinessRun(cfg: Settings, fails: nat -> bool, n: nat): Run
  {
    if fails(n) then
      Run([LoadState(DOM_CONTENT_LOADED)], Fail(CallFailed(LoadState(DOM_CONTENT_LOADED))))
    else if fails(n + 1) then
      Run([LoadState(DOM_CONTENT_LOADED), LoadState(NETWORK_IDLE)], Fail(CallFailed(LoadState(NETWORK_IDLE))))
    else
      Run(FullReadiness(cfg.mediaTimeoutMs), Pass)
  }

  method WaitForPageLoad(w: World, cfg: Settings) returns (out: Outcome<Error>)
    modifies w`trace
    ensures w.trace == old(w.trace) + ReadinessRun(cfg, w.fails, |old(w.trace)|).events
    ensures out == ReadinessRun(cfg, w.fails, |old(w.trace)|).result
  {
    var ok := w.Call(LoadState(DOM_CONTENT_LOADED));
    if !ok {
      return Fail(CallFailed(LoadState(DOM_CONTENT_LOADED)));
    }
    ok := w.Call(LoadState(NETWORK_IDLE));
    if !ok {
      return Fail(CallFailed(LoadState(NETWORK_IDLE)));
    }
    var start := w.trace;
    for i := 0 to |SELECTORS|
      invariant w.trace == start + SelectorWaits(cfg.mediaTimeoutMs)[..i]
    {
      // a selector that does not appear in time is only logged
      var found := w.Call(WaitSelector(SELECTORS[i], cfg.mediaTimeoutMs));
      assert SelectorWaits(cfg.mediaTimeoutMs)[..i + 1] == SelectorWaits(cfg.mediaTimeoutMs)[..i] + [WaitSelector(SELECTORS[i], cfg.mediaTimeoutMs)];
    }
    // a media element that does not settle is only logged
    var settled := w.Call(EvalMediaSettle);
    assert SelectorWaits(cfg.mediaTimeoutMs)[..|SELECTORS|] == SelectorWaits(cfg.mediaTimeoutMs);
    out := Pass;
  }

  /** A run raises exactly when one of the two load-state waits fails; the selector waits and
      the media evaluation never make it raise. */
  lemma RaisesOnlyOnLoadState(cfg: Settings, fails: nat -> bool, n: nat)
    ensures ReadinessRun(cfg, fails, n).result.Fail? <==> fails(n) || fails(n + 1)
    ensures ReadinessRun(cfg, fails, n).result.Fail? ==>
              ReadinessRun(cfg, fails, n).result.error.call.LoadState?
  {
  }

  /** The load-state waits come before everything else: a run that raises has made no selector
      wait and no media evaluation. */
  lemma LoadStatesFirst(cfg: Settings, fails: nat -> bool, n: nat)
    ensures var r := ReadinessRun(cfg, fails, n);
            && 1 <= |r.events|
            && r.events[0] == LoadState(DOM_CONTENT_LOADED)
            && (|r.events| > 1 ==> r.events[1] == LoadState(NETWORK_IDLE))
            && (r.result.Fail? ==> forall e :: e in r.events ==> e.LoadState?)
  {
  }

  /** When both load states are reached, all six selectors are waited for, in their fixed order,
      each with the media timeout, and then the media are awaited once. */
  lemma AllSelectorsAttempted(cfg: Settings, fails: nat -> bool, n: nat)
    requires !fails(n) && !fails(n + 1)
    ensures var r := ReadinessRun(cfg, fails, n);
            && r.result == Pass
            && |r.events| == 2 + |SELECTORS| + 1
            && (forall i :: 0 <= i < |SELECTORS| ==> r.events[2 + i] == WaitSelector(SELECTORS[i], cfg.mediaTimeoutMs))
            && r.events[|r.events| - 1] == EvalMediaSettle
  {
    FullReadinessShape(cfg.mediaTimeoutMs);
  }

  lemma FullReadinessShape(ms: nat)
    ensures var s := FullReadiness(ms);
            && |s| == 2 + |SELECTORS| + 1
            && (forall i :: 0 <= i < |SELECTORS| ==> s[2 + i] == WaitSelector(SELECTORS[i], ms))
            && s[|s| - 1] == EvalMediaSettle
  {
    var head := [LoadState(DOM_CONTENT_LOADED), LoadState(NETWORK_IDLE)];
    var waits := SelectorWaits(ms);
    assert FullReadiness(ms) == head + waits + [EvalMediaSettle];
    forall i | 0 <= i < |SELECTORS|
      ensures FullReadiness(ms)[2 + i] == WaitSelector(SELECTORS[i], ms)
    {
      assert (head + waits)[2 + i] == waits[i];
    }
  }

  /** Failures of selector waits and of the media evaluation are absorbed: whatever the oracle
      says about those calls, the run is the same. */
  lemma SelectorFailuresAbsorbed(cfg: Settings, fails1: nat -> bool, fails2: nat -> bool, n: nat)
    requires fails1(n) == fails2(n) && fails1(n + 1) == fails2(n + 1)
    ensures ReadinessRun(cfg, fails1, n) == ReadinessRun(cfg, fails2, n)
  {
  }

  /** A readiness run makes only load-state waits, selector waits and the media evaluation. */
  lemma ReadinessCallsOnly(cfg: Settings, fails: nat -> bool, n: nat)
    ensures forall e :: e in ReadinessRun(cfg, fails, n).events ==>
              e.LoadState? || e.WaitSelector? || e.EvalMediaSettle?
  {
    var r := ReadinessRun(cfg, fails, n);
    forall e | e in r.events
      ensures e.LoadState? || e.WaitSelector? || e.EvalMediaSettle?
    {
      var i :| 0 <= i < |r.events| && r.events[i] == e;
    }
  }

  /** A run that raises ends with the load-state wait that raised. */
  lemma ReadinessFailLast(cfg: Settings, fails: nat -> bool, n: nat)
    requires ReadinessRun(cfg, fails, n).result.Fail?
    ensures var r := ReadinessRun(cfg, fails, n);
            r.result.error.CallFailed? && |r.events| >= 1 && r.events[|r.events| - 1] == r.result.error.call
  {
  }
}
