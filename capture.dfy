/** `cleanup_old_screenshots` and `capture_screenshot`: create the screenshot directory, remove
    the old discovery images, scroll a fixed number of times (waiting after each scroll and
    re-running the readiness wait, whose failures are swallowed), settle, and take one
    full-page screenshot. */
module Capture {
  import opened Wrappers
  import opened Files
  import opened Screenshots
  import opened Browser
  import opened Config
  import opened Readiness

  // ---------------------------------------------------------------- cleanup

  /** The calls made in a trace segment. */
  function Calls(seg: seq<Event>): set<Event>
  {
    set i | 0 <= i < |seg| :: seg[i]
  }

  /** `seg` tries to remove every path of `paths` exactly once, in some order, and does nothing else. */
  predicate IsRemovalOf(seg: seq<Event>, paths: set<string>)
  {
    |seg| == |paths| && Calls(seg) == RemovalCalls(paths)
  }

  function RemovalCalls(paths: set<string>): set<Event>
  {
    set p | p in paths :: Event.Remove(p)
  }

  /** The paths whose removal succeeded in `seg`, whose first call is call number `offset`. */
  function RemovedPaths(seg: seq<Event>, fails: nat -> bool, offset: nat): set<string>
  {
    set j | 0 <= j < |seg| && seg[j].Remove? && !fails(offset + j) :: seg[j].path
  }

  lemma CallsSnoc(seg: seq<Event>, e: Event)
    ensures Calls(seg + [e]) == Calls(seg) + {e}
  {
    var s := seg + [e];
    assert s[|seg|] == e;
    forall x | x in Calls(seg)
      ensures x in Calls(s)
    {
      var i :| 0 <= i < |seg| && seg[i] == x;
      assert s[i] == x;
    }
  }

  lemma RemovedSnoc(seg: seq<Event>, fails: nat -> bool, offset: nat, p: string)
    ensures RemovedPaths(seg + [Event.Remove(p)], fails, offset)
            == RemovedPaths(seg, fails, offset) + (if fails(offset + |seg|) then {} else {p})
  {
    var s := seg + [Event.Remove(p)];
    assert s[|seg|] == Event.Remove(p);
    forall x | x in RemovedPaths(seg, fails, offset)
      ensures x in RemovedPaths(s, fails, offset)
    {
      var j :| 0 <= j < |seg| && seg[j].Remove? && !fails(offset + j) && seg[j].path == x;
      assert s[j] == seg[j];
    }
  }

  /** Every path a removal segment reports as removed is one it was asked to remove. */
  lemma RemovedWithin(seg: seq<Event>, paths: set<string>, fails: nat -> bool, offset: nat)
    requires IsRemovalOf(seg, paths)
    ensures RemovedPaths(seg, fails, offset) <= paths
  {
    forall x | x in RemovedPaths(seg, fails, offset)
      ensures x in paths
    {
      var j :| 0 <= j < |seg| && seg[j].Remove? && !fails(offset + j) && seg[j].path == x;
      assert seg[j] in Calls(seg);
    }
  }

  /** When none of its removals fails, a removal segment removes all of its paths. */
  lemma RemovedAll(seg: seq<Event>, paths: set<string>, fails: nat -> bool, offset: nat)
    requires IsRemovalOf(seg, paths)
    requires forall j :: offset <= j < offset + |seg| ==> !fails(j)
    ensures RemovedPaths(seg, fails, offset) == paths
  {
    RemovedWithin(seg, paths, fails, offset);
    forall p | p in paths
      ensures p in RemovedPaths(seg, fails, offset)
    {
      assert Event.Remove(p) in Calls(seg);
      var j :| 0 <= j < |seg| && seg[j] == Event.Remove(p);
      assert !fails(offset + j);
    }
  }

  /** A removal segment makes no call other than removals. */
  lemma RemovalsOnly(seg: seq<Event>, paths: set<string>)
    requires IsRemovalOf(seg, paths)
    ensures forall i :: 0 <= i < |seg| ==> seg[i].Remove?
  {
    forall i | 0 <= i < |seg|
      ensures seg[i].Remove?
    {
      assert seg[i] in Calls(seg);
    }
  }

  lemma RemovalCallsAdd(paths: set<string>, f: string)
    ensures RemovalCalls(paths + {f}) == RemovalCalls(paths) + {Event.Remove(f)}
  {
  }

  lemma CardStep(all: set<string>, todo: set<string>, f: string)
    requires todo <= all && f in todo
    ensures all - (todo - {f}) == (all - todo) + {f}
    ensures |all - (todo - {f})| == |all - todo| + 1
  {
    assert all - (todo - {f}) == (all - todo) + {f};
    assert f !in all - todo;
  }

  lemma MapStep(files0: map<string, FileData>, r: set<string>, f: string)
    ensures (files0 - r) - {f} == files0 - (r + {f})
  {
  }

  /** The cleanup loop's invariant: the paths of `all` not in `todo` have each been tried once,
      and the files are the original ones minus those whose removal succeeded. */
  ghost predicate CleanupProgress(seg: seq<Event>, files: map<string, FileData>, all: set<string>,
                                  todo: set<string>, fails: nat -> bool, n: nat,
                                  files0: map<string, FileData>)
  {
    && todo <= all
    && |seg| == |all - todo|
    && Calls(seg) == RemovalCalls(all - todo)
    && files == files0 - RemovedPaths(seg, fails, n)
  }

  /** One iteration of the cleanup loop keeps its invariant. */
  lemma CleanupStep(seg: seq<Event>, all: set<string>, todo: set<string>, f: string,
                    fails: nat -> bool, n: nat, files: map<string, FileData>, files0: map<string, FileData>)
    requires CleanupProgress(seg, files, all, todo, fails, n, files0) && f in todo
    ensures CleanupProgress(seg + [Event.Remove(f)], if fails(n + |seg|) then files else files - {f},
                            all, todo - {f}, fails, n, files0)
  {
    CardStep(all, todo, f);
    CallsSnoc(seg, Event.Remove(f));
    RemovedSnoc(seg, fails, n, f);
    RemovalCallsAdd(all - todo, f);
    MapStep(files0, RemovedPaths(seg, fails, n), f);
  }

  /** The body of the cleanup loop: one removal, whose failure is only logged. */
  method RemoveOne(w: World, f: string, ghost t0: seq<Event>, ghost seg: seq<Event>,
                   ghost paths: set<string>, ghost todo: set<string>, ghost files0: map<string, FileData>)
    returns (ghost seg': seq<Event>)
    requires w.trace == t0 + seg && f in todo
    requires CleanupProgress(seg, w.files, paths, todo, w.fails, |t0|, files0)
    modifies w`trace, w`files
    ensures seg' == seg + [Event.Remove(f)] && w.trace == t0 + seg'
    ensures CleanupProgress(seg', w.files, paths, todo - {f}, w.fails, |t0|, files0)
  {
    CleanupStep(seg, paths, todo, f, w.fails, |t0|, w.files, files0);
    var removed := w.Remove(f);
    seg' := seg + [Event.Remove(f)];
  }

  /** Tries to remove each of `paths` once, in an unspecified order, logging and skipping those
      whose removal fails. */
  method RemoveEach(w: World, paths: set<string>) returns (ghost seg: seq<Event>)
    modifies w`trace, w`files
    ensures w.trace == old(w.trace) + seg
    ensures IsRemovalOf(seg, paths)
    ensures w.files == old(w.files) - RemovedPaths(seg, w.fails, |old(w.trace)|)
  {
    ghost var t0 := w.trace;
    ghost var f0 := w.files;
    seg := [];
    var todo := paths;
    assert RemovalCalls(paths - todo) == {};
    while todo != {}
      invariant w.trace == t0 + seg
      invariant CleanupProgress(seg, w.files, paths, todo, w.fails, |t0|, f0)
      decreases |todo|
    {
      var f :| f in todo;
      seg := RemoveOne(w, f, t0, seg, paths, todo, f0);
      todo := todo - {f};
    }
    assert paths - todo == paths;
  }

  /** `cleanup_old_screenshots`, returning the removal calls it made (none when the directory
      does not exist). */
  method CleanupOldScreenshots(w: World, dir: string) returns (ghost seg: seq<Event>)
    modifies w`trace, w`files
    ensures w.trace == old(w.trace) + seg
    ensures !old(w.Exists(dir)) ==> seg == [] && w.files == old(w.files)
    ensures old(w.Exists(dir)) ==>
              && IsRemovalOf(seg, Matches(old(w.files), dir))
              && w.files == old(w.files) - RemovedPaths(seg, w.fails, |old(w.trace)|)
  {
    if !w.Exists(dir) {
      return [];
    }
    seg := RemoveEach(w, Matches(w.files, dir));
  }

  // ---------------------------------------------------------------- scrolling and the shot

  /** One scroll round whose first call is call number n: scroll a viewport down, wait, and
      re-run the readiness wait, whose failure is only logged. */
  function Round(cfg: Settings, fails: nat -> bool, n: nat): Run
  {
    if fails(n) then
      Run([ScrollBy], Fail(CallFailed(ScrollBy)))
    else if fails(n + 1) then
      Run([ScrollBy, Timeout(cfg.scrollWaitMs)], Fail(CallFailed(Timeout(cfg.scrollWaitMs))))
    else
      Run([ScrollBy, Timeout(cfg.scrollWaitMs)] + ReadinessRun(cfg, fails, n + 2).events, Pass)
  }

  /** The first k scroll rounds, starting at call number n; the first round that raises ends them. */
  function Rounds(cfg: Settings, fails: nat -> bool, n: nat, k: nat): Run
  {
    if k == 0 then Run([], Pass)
    else
      var prev := Rounds(cfg, fails, n, k - 1);
      if prev.result.Fail? then prev
      else
        var last := Round(cfg, fails, n + |prev.events|);
        Run(prev.events + last.events, last.result)
  }

  /** Everything `capture_screenshot` does after the cleanup, starting at call number n: the
      configured number of scroll rounds, the fixed settle wait and the full-page screenshot. */
  function Expand(cfg: Settings, fails: nat -> bool, n: nat, path: string): Run
  {
    var rs := Rounds(cfg, fails, n, cfg.scrollCount);
    if rs.result.Fail? then rs
    else
      var s := Settle(fails, n + |rs.events|, path);
      Run(rs.events + s.events, s.result)
  }

  /** The settle wait and the screenshot to `path`, the first call being call number m. */
  function Settle(fails: nat -> bool, m: nat, path: string): Run
  {
    if fails(m) then
      Run([Timeout(SETTLE_MS)], Fail(CallFailed(Timeout(SETTLE_MS))))
    else
      var shot := Event.Screenshot(path, true);
      Run([Timeout(SETTLE_MS), shot], if fails(m + 1) then Fail(CallFailed(shot)) else Pass)
  }

  /** What `capture_screenshot` leaves behind. */
  datatype CaptureEnd = CaptureEnd(events: seq<Event>, files: map<string, FileData>, dirs: set<string>,
                                   result: Result<string, Error>)

  /** The whole of `capture_screenshot` started at call number n, storing the screenshot at
      `path`, given the removal calls `clean` the cleanup made: it creates the directory, cleans
      it (the directory then exists, so the cleanup runs), scrolls, settles and shoots, and the
      first failing call ends it with that call's error. */
  function CaptureRun(cfg: Settings, path: string, fails: nat -> bool, n: nat,
                      files0: map<string, FileData>, dirs0: set<string>, clean: seq<Event>): CaptureEnd
  {
    var dir := cfg.screenshotsDir;
    if fails(n) then
      CaptureEnd([MakeDirs(dir)], files0, dirs0, Failure(CallFailed(MakeDirs(dir))))
    else
      var cleaned := files0 - RemovedPaths(clean, fails, n + 1);
      var x := Expand(cfg, fails, n + 1 + |clean|, path);
      CaptureEnd([MakeDirs(dir)] + clean + x.events,
              if x.result.Pass? then cleaned[path := Png] else cleaned,
              dirs0 + {dir},
              if x.result.Pass? then Success(path) else Failure(x.result.error))
  }

  /** The body of the scroll loop. */
  method ScrollOnce(w: World, cfg: Settings) returns (out: Outcome<Error>)
    modifies w`trace
    ensures w.trace == old(w.trace) + Round(cfg, w.fails, |old(w.trace)|).events
    ensures out == Round(cfg, w.fails, |old(w.trace)|).result
  {
    var ok := w.Call(ScrollBy);
    if !ok {
      return Fail(CallFailed(ScrollBy));
    }
    ok := w.Call(Timeout(cfg.scrollWaitMs));
    if !ok {
      return Fail(CallFailed(Timeout(cfg.scrollWaitMs)));
    }
    // a readiness failure after scrolling is only logged
    var ready := WaitForPageLoad(w, cfg);
    out := Pass;
  }

  /** One more pass of the scroll loop extends the trace by the next round. */
  lemma RoundsSnoc(cfg: Settings, fails: nat -> bool, n: nat, i: nat,
                   t0: seq<Event>, before: seq<Event>, after: seq<Event>)
    requires |t0| == n && Rounds(cfg, fails, n, i).result == Pass
    requires before == t0 + Rounds(cfg, fails, n, i).events
    requires after == before + Round(cfg, fails, |before|).events
    ensures after == t0 + Rounds(cfg, fails, n, i + 1).events
    ensures Rounds(cfg, fails, n, i + 1).result == Round(cfg, fails, |before|).result
  {
    var prev := Rounds(cfg, fails, n, i).events;
    var last := Round(cfg, fails, |before|).events;
    assert |before| == n + |prev|;
    AppendAssoc(t0, prev, last);
  }

  /** The scroll loop: `scrollCount` rounds, left at the first one that raises. */
  method ScrollRounds(w: World, cfg: Settings) returns (out: Outcome<Error>)
    modifies w`trace
    ensures w.trace == old(w.trace) + Rounds(cfg, w.fails, |old(w.trace)|, cfg.scrollCount).events
    ensures out == Rounds(cfg, w.fails, |old(w.trace)|, cfg.scrollCount).result
  {
    var n := |w.trace|;
    ghost var t0 := w.trace;
    for i := 0 to cfg.scrollCount
      invariant w.trace == t0 + Rounds(cfg, w.fails, n, i).events
      invariant Rounds(cfg, w.fails, n, i).result == Pass
    {
      ghost var before := w.trace;
      var o := ScrollOnce(w, cfg);
      RoundsSnoc(cfg, w.fails, n, i, t0, before, w.trace);
      if o.Fail? {
        RoundsFailureSticks(cfg, w.fails, n, i + 1, cfg.scrollCount);
        return o;
      }
    }
    out := Pass;
  }

  /** The scroll loop, the settle wait and the screenshot to `path`. */
  method ScrollAndShoot(w: World, cfg: Settings, path: string) returns (out: Outcome<Error>)
    modifies w`trace, w`files
    ensures w.trace == old(w.trace) + Expand(cfg, w.fails, |old(w.trace)|, path).events
    ensures out == Expand(cfg, w.fails, |old(w.trace)|, path).result
    ensures w.files == if out.Pass? then old(w.files)[path := Png] else old(w.files)
  {
    ghost var t0 := w.trace;
    out := ScrollRounds(w, cfg);
    if out.Fail? {
      return;
    }
    ghost var t1 := w.trace;
    out := SettleAndShoot(w, path);
    ExpandPasses(cfg, w.fails, |t0|, path);
    ghost var rs := Rounds(cfg, w.fails, |t0|, cfg.scrollCount).events;
    assert (t0 + rs) + Settle(w.fails, |t1|, path).events == t0 + (rs + Settle(w.fails, |t1|, path).events);
  }

  /** Once the scroll rounds pass, the settle-and-shoot tail follows them. */
  lemma ExpandPasses(cfg: Settings, fails: nat -> bool, n: nat, path: string)
    requires Rounds(cfg, fails, n, cfg.scrollCount).result.Pass?
    ensures var rs := Rounds(cfg, fails, n, cfg.scrollCount);
            var s := Settle(fails, n + |rs.events|, path);
            Expand(cfg, fails, n, path) == Run(rs.events + s.events, s.result)
  {
  }

  /** The settle wait and the screenshot. */
  method SettleAndShoot(w: World, path: string) returns (out: Outcome<Error>)
    modifies w`trace, w`files
    ensures w.trace == old(w.trace) + Settle(w.fails, |old(w.trace)|, path).events
    ensures out == Settle(w.fails, |old(w.trace)|, path).result
    ensures w.files == if out.Pass? then old(w.files)[path := Png] else old(w.files)
  {
    var ok := w.Call(Timeout(SETTLE_MS));
    if !ok {
      return Fail(CallFailed(Timeout(SETTLE_MS)));
    }
    ok := w.Screenshot(path, true);
    if !ok {
      return Fail(CallFailed(Event.Screenshot(path, true)));
    }
    out := Pass;
  }

  /** `capture_screenshot` at time `now`; `clean` is the removal calls of its cleanup, in the
      order the directory listing gave them. */
  method CaptureScreenshot(w: World, cfg: Settings, now: DateTime)
    returns (r: Result<string, Error>, ghost clean: seq<Event>)
    requires ValidDateTime(now)
    modifies w`trace, w`dirs, w`files
    ensures !w.fails(|old(w.trace)|) ==> IsRemovalOf(clean, Matches(old(w.files), cfg.screenshotsDir))
    ensures var c := CaptureRun(cfg, ShotPath(cfg.screenshotsDir, now), w.fails, |old(w.trace)|,
                                old(w.files), old(w.dirs), clean);
            && w.trace == old(w.trace) + c.events
            && w.files == c.files && w.dirs == c.dirs && r == c.result
  {
    var dir := cfg.screenshotsDir;
    ghost var t0 := w.trace;
    var ok := w.MakeDirs(dir);
    if !ok {
      return Failure(CallFailed(MakeDirs(dir))), [];
    }
    ghost var t1 := w.trace;
    ghost var f0 := w.files;
    clean := CleanupOldScreenshots(w, dir);
    ghost var t2 := w.trace;
    ghost var cleaned := w.files;
    var path := ShotPath(dir, now);
    var o := ScrollAndShoot(w, cfg, path);
    r := if o.Pass? then Success(path) else Failure(o.error);
    CaptureSteps(cfg, path, w.fails, t0, t1, t2, w.trace, f0, old(w.dirs), clean, cleaned, w.files, w.dirs, r);
  }

  /** Puts the stages of the capture together. */
  lemma CaptureSteps(cfg: Settings, path: string, fails: nat -> bool,
                     t0: seq<Event>, t1: seq<Event>, t2: seq<Event>, t3: seq<Event>,
                     files0: map<string, FileData>, dirs0: set<string>, clean: seq<Event>,
                     cleaned: map<string, FileData>, files1: map<string, FileData>, dirs1: set<string>,
                     r: Result<string, Error>)
    requires !fails(|t0|) && t1 == t0 + [MakeDirs(cfg.screenshotsDir)] && dirs1 == dirs0 + {cfg.screenshotsDir}
    requires t2 == t1 + clean && cleaned == files0 - RemovedPaths(clean, fails, |t1|)
    requires var x := Expand(cfg, fails, |t2|, path);
             && t3 == t2 + x.events
             && files1 == (if x.result.Pass? then cleaned[path := Png] else cleaned)
             && r == if x.result.Pass? then Success(path) else Failure(x.result.error)
    ensures var c := CaptureRun(cfg, path, fails, |t0|, files0, dirs0, clean);
            && t3 == t0 + c.events && files1 == c.files && dirs1 == c.dirs && r == c.result
  {
    var x := Expand(cfg, fails, |t2|, path);
    assert |t2| == |t0| + 1 + |clean|;
    assert t3 == t0 + ([MakeDirs(cfg.screenshotsDir)] + clean + x.events);
  }

  // ---------------------------------------------------------------- properties

  /** Once a scroll round raises, no further round runs: the loop is left by the exception. */
  lemma {:induction false} RoundsFailureSticks(cfg: Settings, fails: nat -> bool, n: nat, i: nat, k: nat)
    requires i <= k && Rounds(cfg, fails, n, i).result.Fail?
    ensures Rounds(cfg, fails, n, k) == Rounds(cfg, fails, n, i)
    decreases k
  {
    if k > i {
      RoundsFailureSticks(cfg, fails, n, i, k - 1);
    }
  }

  /** A scroll round raises only because the scroll or the wait after it failed. */
  lemma RoundFailureCause(cfg: Settings, fails: nat -> bool, n: nat)
    ensures Round(cfg, fails, n).result.Fail? <==> fails(n) || fails(n + 1)
    ensures Round(cfg, fails, n).result.Fail? ==>
              Round(cfg, fails, n).result.error in {CallFailed(ScrollBy), CallFailed(Timeout(cfg.scrollWaitMs))}
  {
  }

  /** So do the rounds together. */
  lemma {:induction false} RoundsFailureCause(cfg: Settings, fails: nat -> bool, n: nat, k: nat)
    ensures Rounds(cfg, fails, n, k).result.Fail? ==>
              Rounds(cfg, fails, n, k).result.error in {CallFailed(ScrollBy), CallFailed(Timeout(cfg.scrollWaitMs))}
  {
    if k > 0 {
      RoundsFailureCause(cfg, fails, n, k - 1);
      RoundFailureCause(cfg, fails, n + |Rounds(cfg, fails, n, k - 1).events|);
    }
  }

  /** The calls a scroll round makes. */
  lemma RoundCalls(cfg: Settings, fails: nat -> bool, n: nat)
    ensures forall e :: e in Round(cfg, fails, n).events ==>
              e == ScrollBy || e == Timeout(cfg.scrollWaitMs) || e.LoadState? || e.WaitSelector? || e.EvalMediaSettle?
  {
    ReadinessCallsOnly(cfg, fails, n + 2);
  }

  /** Every scroll round scrolls exactly once, whether or not it raises. */
  lemma RoundScrollsOnce(cfg: Settings, fails: nat -> bool, n: nat)
    ensures Count(ScrollBy, Round(cfg, fails, n).events) == 1
  {
    var wait := Timeout(cfg.scrollWaitMs);
    CountAbsent(ScrollBy, [wait]);
    assert Count(ScrollBy, [ScrollBy]) == 1 by {
      assert [ScrollBy][1..] == [];
    }
    assert Count(ScrollBy, [ScrollBy, wait]) == 1 by {
      assert [ScrollBy, wait][1..] == [wait];
    }
    if !fails(n) && !fails(n + 1) {
      var rr := ReadinessRun(cfg, fails, n + 2).events;
      ReadinessCallsOnly(cfg, fails, n + 2);
      CountAbsent(ScrollBy, rr);
      CountAppend(ScrollBy, [ScrollBy, wait], rr);
    }
  }

  /** A loop that completes has scrolled exactly k times. */
  lemma {:induction false} RoundsScrollCount(cfg: Settings, fails: nat -> bool, n: nat, k: nat)
    requires Rounds(cfg, fails, n, k).result.Pass?
    ensures Count(ScrollBy, Rounds(cfg, fails, n, k).events) == k
  {
    if k > 0 {
      var prev := Rounds(cfg, fails, n, k - 1);
      assert prev.result.Pass?;
      var last := Round(cfg, fails, n + |prev.events|);
      assert Rounds(cfg, fails, n, k).events == prev.events + last.events;
      RoundsScrollCount(cfg, fails, n, k - 1);
      RoundScrollsOnce(cfg, fails, n + |prev.events|);
      CountStep(prev.events, last.events, Rounds(cfg, fails, n, k).events, k);
    }
  }

  /** Adding a round that scrolls once to k - 1 scrolls makes k. */
  lemma CountStep(a: seq<Event>, b: seq<Event>, t: seq<Event>, k: nat)
    requires k > 0 && t == a + b && Count(ScrollBy, a) == k - 1 && Count(ScrollBy, b) == 1
    ensures Count(ScrollBy, t) == k
  {
    CountAppend(ScrollBy, a, b);
  }

  /** The scroll loop makes only scrolls, waits and readiness calls: in particular it takes
      no screenshot. */
  lemma {:induction false} RoundsCalls(cfg: Settings, fails: nat -> bool, n: nat, k: nat)
    ensures forall e :: e in Rounds(cfg, fails, n, k).events ==>
              e == ScrollBy || e == Timeout(cfg.scrollWaitMs) || e.LoadState? || e.WaitSelector? || e.EvalMediaSettle?
  {
    if k > 0 {
      var prev := Rounds(cfg, fails, n, k - 1);
      RoundsCalls(cfg, fails, n, k - 1);
      if prev.result.Pass? {
        RoundCalls(cfg, fails, n + |prev.events|);
      }
    }
  }

  /** When it passes, the part after the cleanup is the completed scroll loop followed by the
      settle wait and the one full-page screenshot. */
  lemma ExpandShape(cfg: Settings, fails: nat -> bool, n: nat, path: string)
    requires Expand(cfg, fails, n, path).result.Pass?
    ensures var rs := Rounds(cfg, fails, n, cfg.scrollCount);
            && rs.result.Pass?
            && Expand(cfg, fails, n, path).events == rs.events + [Timeout(SETTLE_MS), Event.Screenshot(path, true)]
  {
  }

  /** The calls after the cleanup are the scroll loop's and the settle-and-shoot pair: the
      screenshot is taken at most once, as the very last call. */
  lemma ExpandCalls(cfg: Settings, fails: nat -> bool, n: nat, path: string)
    ensures var ev := Expand(cfg, fails, n, path).events;
            forall i :: 0 <= i < |ev| && ev[i].Screenshot? ==> i == |ev| - 1 && ev[i] == Event.Screenshot(path, true)
  {
    var rs := Rounds(cfg, fails, n, cfg.scrollCount);
    RoundsCalls(cfg, fails, n, cfg.scrollCount);
    assert forall i :: 0 <= i < |rs.events| ==> !rs.events[i].Screenshot? by {
      forall i | 0 <= i < |rs.events|
        ensures !rs.events[i].Screenshot?
      {
        assert rs.events[i] in rs.events;
      }
    }
  }

  /** If the directory cannot be created nothing else happens. */
  lemma CaptureStopsAtMakeDirs(cfg: Settings, path: string, fails: nat -> bool, n: nat,
                               files0: map<string, FileData>, dirs0: set<string>, clean: seq<Event>)
    requires fails(n)
    ensures var c := CaptureRun(cfg, path, fails, n, files0, dirs0, clean);
            && c.events == [MakeDirs(cfg.screenshotsDir)]
            && c.files == files0 && c.dirs == dirs0
            && c.result == Failure(CallFailed(MakeDirs(cfg.screenshotsDir)))
  {
  }

  /** Only the directory creation, a scroll, a wait or the screenshot can make the capture
      raise: failed removals and failed readiness waits after a scroll are swallowed. */
  lemma CaptureFailureCauses(cfg: Settings, path: string, fails: nat -> bool, n: nat,
                             files0: map<string, FileData>, dirs0: set<string>, clean: seq<Event>)
    ensures var c := CaptureRun(cfg, path, fails, n, files0, dirs0, clean);
            c.result.Failure? ==>
              c.result.error in {CallFailed(MakeDirs(cfg.screenshotsDir)), CallFailed(ScrollBy),
                                 CallFailed(Timeout(cfg.scrollWaitMs)), CallFailed(Timeout(SETTLE_MS)),
                                 CallFailed(Event.Screenshot(path, true))}
  {
    if !fails(n) {
      RoundsFailureCause(cfg, fails, n + 1 + |clean|, cfg.scrollCount);
    }
  }

  /** A capture that succeeds returns the screenshot's path, has stored an image there, has
      scrolled exactly `scrollCount` times and ends with the settle wait and that screenshot. */
  lemma CaptureSucceeds(cfg: Settings, path: string, fails: nat -> bool, n: nat,
                        files0: map<string, FileData>, dirs0: set<string>, clean: seq<Event>)
    requires CaptureRun(cfg, path, fails, n, files0, dirs0, clean).result.Success?
    requires forall i :: 0 <= i < |clean| ==> clean[i].Remove?
    ensures var c := CaptureRun(cfg, path, fails, n, files0, dirs0, clean);
            && c.result.value == path
            && path in c.files && c.files[path] == Png
            && cfg.screenshotsDir in c.dirs
            && Count(ScrollBy, c.events) == cfg.scrollCount
            && |c.events| >= 2
            && c.events[|c.events| - 2..] == [Timeout(SETTLE_MS), Event.Screenshot(path, true)]
  {
    var m := n + 1 + |clean|;
    var rs := Rounds(cfg, fails, m, cfg.scrollCount);
    ExpandShape(cfg, fails, m, path);
    RoundsScrollCount(cfg, fails, m, cfg.scrollCount);
    var tail := [Timeout(SETTLE_MS), Event.Screenshot(path, true)];
    var head := [MakeDirs(cfg.screenshotsDir)] + clean;
    forall i | 0 <= i < |head|
      ensures head[i] != ScrollBy
    {
      if i > 0 {
        assert head[i] == clean[i - 1];
      }
    }
    assert ScrollBy !in head;
    CountAbsent(ScrollBy, head);
    CountAbsent(ScrollBy, tail);
    CountAppend(ScrollBy, rs.events, tail);
    assert head + (rs.events + tail) == head + rs.events + tail;
    CountAppend(ScrollBy, head, rs.events + tail);
  }

  /** Without scrolling the capture is the directory, the cleanup, the settle wait and the shot. */
  lemma CaptureWithoutScrolling(cfg: Settings, path: string, fails: nat -> bool, n: nat,
                                files0: map<string, FileData>, dirs0: set<string>, clean: seq<Event>)
    requires cfg.scrollCount == 0 && !fails(n)
    ensures var c := CaptureRun(cfg, path, fails, n, files0, dirs0, clean);
            c.events[..1 + |clean|] == [MakeDirs(cfg.screenshotsDir)] + clean
            && c.events[1 + |clean|..] ==
               if fails(n + 1 + |clean|) then [Timeout(SETTLE_MS)]
               else [Timeout(SETTLE_MS), Event.Screenshot(path, true)]
  {
  }

  /** After a successful capture the glob matches the stale screenshots whose removal failed
      and the new one. */
  lemma CaptureMatches(cfg: Settings, now: DateTime, fails: nat -> bool, n: nat,
                       files0: map<string, FileData>, dirs0: set<string>, clean: seq<Event>)
    requires ValidDateTime(now)
    requires IsRemovalOf(clean, Matches(files0, cfg.screenshotsDir))
    requires CaptureRun(cfg, ShotPath(cfg.screenshotsDir, now), fails, n, files0, dirs0, clean).result.Success?
    ensures var c := CaptureRun(cfg, ShotPath(cfg.screenshotsDir, now), fails, n, files0, dirs0, clean);
            Matches(c.files, cfg.screenshotsDir)
            == (Matches(files0, cfg.screenshotsDir) - RemovedPaths(clean, fails, n + 1))
               + {ShotPath(cfg.screenshotsDir, now)}
  {
    RemovedWithin(clean, Matches(files0, cfg.screenshotsDir), fails, n + 1);
    MatchesAfterCapture(files0, cfg.screenshotsDir, RemovedPaths(clean, fails, n + 1), now);
  }

  /** So when every removal succeeds, the new screenshot is the only one left. */
  lemma CaptureLeavesOnlyNewShot(cfg: Settings, now: DateTime, fails: nat -> bool, n: nat,
                                 files0: map<string, FileData>, dirs0: set<string>, clean: seq<Event>)
    requires ValidDateTime(now)
    requires IsRemovalOf(clean, Matches(files0, cfg.screenshotsDir))
    requires forall j :: n + 1 <= j < n + 1 + |clean| ==> !fails(j)
    requires CaptureRun(cfg, ShotPath(cfg.screenshotsDir, now), fails, n, files0, dirs0, clean).result.Success?
    ensures var c := CaptureRun(cfg, ShotPath(cfg.screenshotsDir, now), fails, n, files0, dirs0, clean);
            Matches(c.files, cfg.screenshotsDir) == {ShotPath(cfg.screenshotsDir, now)}
  {
    CaptureMatches(cfg, now, fails, n, files0, dirs0, clean);
    RemovedAll(clean, Matches(files0, cfg.screenshotsDir), fails, n + 1);
  }

  /** A scroll loop that raises ends with the call that raised. */
  lemma {:induction false} RoundsFailLast(cfg: Settings, fails: nat -> bool, n: nat, k: nat)
    requires Rounds(cfg, fails, n, k).result.Fail?
    ensures var rs := Rounds(cfg, fails, n, k);
            rs.result.error.CallFailed? && |rs.events| >= 1 && rs.events[|rs.events| - 1] == rs.result.error.call
  {
    var prev := Rounds(cfg, fails, n, k - 1);
    if prev.result.Fail? {
      RoundsFailLast(cfg, fails, n, k - 1);
    }
  }

  /** A capture that raises ends with the call that raised: nothing happens after it. */
  lemma CaptureFailLast(cfg: Settings, path: string, fails: nat -> bool, n: nat,
                        files0: map<string, FileData>, dirs0: set<string>, clean: seq<Event>)
    requires CaptureRun(cfg, path, fails, n, files0, dirs0, clean).result.Failure?
    ensures var c := CaptureRun(cfg, path, fails, n, files0, dirs0, clean);
            c.result.error.CallFailed? && |c.events| >= 1 && c.events[|c.events| - 1] == c.result.error.call
  {
    if !fails(n) {
      var m := n + 1 + |clean|;
      if Rounds(cfg, fails, m, cfg.scrollCount).result.Fail? {
        RoundsFailLast(cfg, fails, m, cfg.scrollCount);
      }
    }
  }
}
