/** `analyze_page_structure` and `discover_layout`: the readiness wait, the screenshot, the
    structural snapshot, storing it as `layout.json`, handing that file to the inference client
    and storing its answer as `layout_selectors.json`. Any exception of a stage ends the run. */
module Discovery {
  import opened Wrappers
  import opened Files
  import opened Extraction
  import opened Screenshots
  import opened Browser
  import opened Config
  import opened Readiness
  import opened Capture
  import opened Layout
  import opened Inference
  import Json

  /** What the pipeline reaches outside the page and the disk: the process environment, the
      remote model, `json.loads` and `json.dump` (as the text it writes). */
  datatype Host = Host(
    env: map<string, string>,
    service: Request -> Result<string, string>,
    parse: string -> Option<Json.Value>,
    dump: Json.Value -> string)

  /** `analyze_page_structure`: one evaluation in the page, then the snapshot at `timestamp`. */
  method AnalyzePageStructure(w: World, timestamp: string) returns (r: Result<LayoutData, Error>)
    modifies w`trace
    ensures w.trace == old(w.trace) + [EvalStructure]
    ensures r == if w.fails(|old(w.trace)|) then Failure(CallFailed(EvalStructure))
                 else Success(Snapshot(timestamp, w.url, Extract(w.dom)))
  {
    var elements := w.EvaluateStructure();
    if elements.None? {
      return Failure(CallFailed(EvalStructure));
    }
    r := Success(Snapshot(timestamp, w.url, elements.value));
  }

  /** The snapshot as `discover_layout` stores and returns it: with the screenshot path set. */
  function Discovered(timestamp: string, url: string, elements: seq<Descriptor>, path: string): LayoutData
  {
    Snapshot(timestamp, url, elements).(screenshotPath := Some(path))
  }

  /** What the part of `discover_layout` after the screenshot leaves behind. */
  datatype Finish = Finish(events: seq<Event>, files: map<string, FileData>, result: Result<LayoutData, Error>)

  /** Storing the snapshot `layout` as the layout file, running the inference on the stored
      file (whose read is the call after the write) and storing its answer as the selectors
      file, from call number m on. */
  function PublishRun(cfg: Settings, layout: LayoutData, host: Host, fails: nat -> bool, m: nat,
                      files1: map<string, FileData>): Finish
  {
    var text := host.dump(ToJson(layout));
    var saveLayout := Event.Write(cfg.layoutConfig, text);
    if fails(m) then
      Finish([saveLayout], files1, Failure(CallFailed(saveLayout)))
    else
      var stored := files1[cfg.layoutConfig := Text(text)];
      var read := Event.Read(cfg.layoutConfig);
      var g := if fails(m + 1) then Failure(FileReadError(cfg.layoutConfig))
               else AnalyzeLayout(cfg.layoutConfig, stored, host.env, host.service, host.parse);
      if g.Failure? then
        Finish([saveLayout, read], stored, Failure(InferenceFailed(g.error)))
      else
        var answer := host.dump(g.value);
        var saveSelectors := Event.Write(SelectorsPath(cfg), answer);
        Finish([saveLayout, read, saveSelectors],
               if fails(m + 2) then stored else stored[SelectorsPath(cfg) := Text(answer)],
               if fails(m + 2) then Failure(CallFailed(saveSelectors)) else Success(layout))
  }

  /** The part of `discover_layout` after the screenshot, started at call number m with the
      screenshot stored at `path` and the page's extracted elements `elements`: the snapshot,
      then publishing it. */
  function FinishRun(cfg: Settings, snapshotTime: string, path: string, host: Host,
                     fails: nat -> bool, m: nat, url: string, elements: seq<Descriptor>,
                     files1: map<string, FileData>): Finish
  {
    if fails(m) then
      Finish([EvalStructure], files1, Failure(CallFailed(EvalStructure)))
    else
      var p := PublishRun(cfg, Discovered(snapshotTime, url, elements, path), host, fails, m + 1, files1);
      Finish([EvalStructure] + p.events, p.files, p.result)
  }

  /** `analyze_layout_with_gemini(path)` run against the world: the file is read with a
      call of its own, and the rest is the inference client on what was read. */
  method AnalyzeStoredLayout(w: World, path: string, host: Host) returns (g: Result<Json.Value, InferenceError>)
    modifies w`trace
    ensures w.trace == old(w.trace) + [Event.Read(path)]
    ensures g == if w.fails(|old(w.trace)|) then Failure(FileReadError(path))
                 else AnalyzeLayout(path, w.files, host.env, host.service, host.parse)
  {
    var contents := w.Read(path);
    if contents.None? {
      return Failure(FileReadError(path));
    }
    g := AnalyzeContents(contents.value, host.env, host.service, host.parse);
  }

  /** The two writes of `discover_layout` and the inference between them. */
  method Publish(w: World, cfg: Settings, layout: LayoutData, host: Host) returns (r: Result<LayoutData, Error>)
    modifies w`trace, w`files
    ensures var p := PublishRun(cfg, layout, host, w.fails, |old(w.trace)|, old(w.files));
            && w.trace == old(w.trace) + p.events
            && w.files == p.files && r == p.result
  {
    var text := host.dump(ToJson(layout));
    var ok := w.Write(cfg.layoutConfig, text);
    if !ok {
      return Failure(CallFailed(Event.Write(cfg.layoutConfig, text)));
    }
    var g := AnalyzeStoredLayout(w, cfg.layoutConfig, host);
    if g.Failure? {
      return Failure(InferenceFailed(g.error));
    }
    ok := w.Write(SelectorsPath(cfg), host.dump(g.value));
    if !ok {
      return Failure(CallFailed(Event.Write(SelectorsPath(cfg), host.dump(g.value))));
    }
    r := Success(layout);
  }

  /** The part of `discover_layout` after the screenshot. */
  method FinishDiscovery(w: World, cfg: Settings, snapshotTime: string, path: string, host: Host)
    returns (r: Result<LayoutData, Error>)
    modifies w`trace, w`files
    ensures var f := FinishRun(cfg, snapshotTime, path, host, w.fails, |old(w.trace)|, w.url, Extract(w.dom),
                               old(w.files));
            && w.trace == old(w.trace) + f.events
            && w.files == f.files && r == f.result
  {
    ghost var t0 := w.trace;
    ghost var files0 := w.files;
    var snapshot := AnalyzePageStructure(w, snapshotTime);
    ghost var t1 := w.trace;
    if snapshot.Failure? {
      r := snapshot;
    } else {
      r := Publish(w, cfg, snapshot.value.(screenshotPath := Some(path)), host);
    }
    FinishSteps(cfg, snapshotTime, path, host, w.fails, w.url, Extract(w.dom), t0, t1, w.trace, files0, w.files, snapshot, r);
  }

  /** Puts the structural query and the publishing together. */
  lemma FinishSteps(cfg: Settings, snapshotTime: string, path: string, host: Host,
                    fails: nat -> bool, url: string, elements: seq<Descriptor>,
                    t0: seq<Event>, t1: seq<Event>, t2: seq<Event>,
                    files0: map<string, FileData>, files2: map<string, FileData>,
                    snapshot: Result<LayoutData, Error>, r: Result<LayoutData, Error>)
    requires t1 == t0 + [EvalStructure]
    requires snapshot == if fails(|t0|) then Failure(CallFailed(EvalStructure))
                         else Success(Snapshot(snapshotTime, url, elements))
    requires snapshot.Failure? ==> t2 == t1 && files2 == files0 && r == snapshot
    requires snapshot.Success? ==>
               var p := PublishRun(cfg, snapshot.value.(screenshotPath := Some(path)), host, fails, |t1|, files0);
               t2 == t1 + p.events && files2 == p.files && r == p.result
    ensures var f := FinishRun(cfg, snapshotTime, path, host, fails, |t0|, url, elements, files0);
            && t2 == t0 + f.events
            && files2 == f.files && r == f.result
  {
    if snapshot.Success? {
      var p := PublishRun(cfg, Discovered(snapshotTime, url, elements, path), host, fails, |t0| + 1, files0);
      AppendAssoc(t0, [EvalStructure], p.events);
    }
  }

  /** The whole of `discover_layout`, from the trace `t0`, files `files0` and directories
      `dirs0` before it to the trace `t3`, files `files3`, directories `dirs3` and result `r`
      after it, on a page with the given URL and extracted elements, with the screenshot taken
      at `path`, the snapshot stamped `snapshotTime` and `clean` the removal calls of the
      screenshot cleanup. The stages run in order and the first that raises ends the run with
      its error: nothing after it happens. */
  ghost predicate DiscoverSpec(cfg: Settings, path: string, snapshotTime: string, host: Host,
                               fails: nat -> bool, url: string, elements: seq<Descriptor>,
                               t0: seq<Event>, files0: map<string, FileData>, dirs0: set<string>,
                               clean: seq<Event>, t3: seq<Event>, files3: map<string, FileData>,
                               dirs3: set<string>, r: Result<LayoutData, Error>)
  {
    var ready := ReadinessRun(cfg, fails, |t0|);
    if ready.result.Fail? then
      t3 == t0 + ready.events && files3 == files0 && dirs3 == dirs0 && r == Failure(ready.result.error)
    else
      var n1 := |t0| + |ready.events|;
      var c := CaptureRun(cfg, path, fails, n1, files0, dirs0, clean);
      && (!fails(n1) ==> IsRemovalOf(clean, Matches(files0, cfg.screenshotsDir)))
      && dirs3 == c.dirs
      && if c.result.Failure? then
           t3 == t0 + ready.events + c.events && files3 == c.files && r == Failure(c.result.error)
         else
           var f := FinishRun(cfg, snapshotTime, c.result.value, host, fails, n1 + |c.events|, url, elements, c.files);
           t3 == t0 + ready.events + c.events + f.events && files3 == f.files && r == f.result
  }

  /** `discover_layout`; `clean` is the removal calls of the screenshot cleanup, in the order
      the directory listing gave them. */
  method DiscoverLayout(w: World, cfg: Settings, shotTime: DateTime, snapshotTime: string, host: Host)
    returns (r: Result<LayoutData, Error>, ghost clean: seq<Event>)
    requires ValidDateTime(shotTime)
    modifies w`trace, w`dirs, w`files
    ensures DiscoverSpec(cfg, ShotPath(cfg.screenshotsDir, shotTime), snapshotTime, host, w.fails, w.url, Extract(w.dom),
                         old(w.trace), old(w.files), old(w.dirs), clean, w.trace, w.files, w.dirs, r)
  {
    ghost var t0 := w.trace;
    ghost var files0 := w.files;
    ghost var dirs0 := w.dirs;
    var ready := WaitForPageLoad(w, cfg);
    if ready.Fail? {
      r, clean := Failure(ready.error), [];
      NotReady(cfg, ShotPath(cfg.screenshotsDir, shotTime), snapshotTime, host, w.fails, w.url, Extract(w.dom), t0, files0, dirs0, w.trace, r);
      return;
    }
    ghost var t1 := w.trace;
    var shot;
    shot, clean := CaptureScreenshot(w, cfg, shotTime);
    ghost var c := CaptureRun(cfg, ShotPath(cfg.screenshotsDir, shotTime), w.fails, |t1|, files0, dirs0, clean);
    ghost var t2 := w.trace;
    ghost var files1 := w.files;
    if shot.Failure? {
      r := Failure(shot.error);
      NotCaptured(cfg, ShotPath(cfg.screenshotsDir, shotTime), snapshotTime, host, w.fails, w.url, Extract(w.dom), t0, t1, w.trace,
                  files0, dirs0, clean, c, w.files, w.dirs, r);
    } else {
      r := FinishDiscovery(w, cfg, snapshotTime, shot.value, host);
      Captured(cfg, ShotPath(cfg.screenshotsDir, shotTime), snapshotTime, host, w.fails, w.url, Extract(w.dom), t0, t1, t2, w.trace,
               files0, dirs0, clean, c, files1, w.files, w.dirs, r);
    }
  }

  /** The run when the readiness wait raises. */
  lemma NotReady(cfg: Settings, path: string, snapshotTime: string, host: Host,
                 fails: nat -> bool, url: string, elements: seq<Descriptor>,
                 t0: seq<Event>, files0: map<string, FileData>, dirs0: set<string>,
                 t1: seq<Event>, r: Result<LayoutData, Error>)
    requires var ready := ReadinessRun(cfg, fails, |t0|);
             ready.result.Fail? && t1 == t0 + ready.events && r == Failure(ready.result.error)
    ensures DiscoverSpec(cfg, path, snapshotTime, host, fails, url, elements,
                         t0, files0, dirs0, [], t1, files0, dirs0, r)
  {
  }

  /** The run when the readiness wait passes and the capture raises. */
  lemma NotCaptured(cfg: Settings, path: string, snapshotTime: string, host: Host,
                    fails: nat -> bool, url: string, elements: seq<Descriptor>,
                    t0: seq<Event>, t1: seq<Event>, t2: seq<Event>,
                    files0: map<string, FileData>, dirs0: set<string>, clean: seq<Event>, c: CaptureEnd,
                    files2: map<string, FileData>, dirs2: set<string>, r: Result<LayoutData, Error>)
    requires var ready := ReadinessRun(cfg, fails, |t0|);
             ready.result.Pass? && t1 == t0 + ready.events
    requires c == CaptureRun(cfg, path, fails, |t1|, files0, dirs0, clean)
    requires !fails(|t1|) ==> IsRemovalOf(clean, Matches(files0, cfg.screenshotsDir))
    requires c.result.Failure?
    requires t2 == t1 + c.events && files2 == c.files && dirs2 == c.dirs && r == Failure(c.result.error)
    ensures DiscoverSpec(cfg, path, snapshotTime, host, fails, url, elements,
                         t0, files0, dirs0, clean, t2, files2, dirs2, r)
  {
    assert |t1| == |t0| + |ReadinessRun(cfg, fails, |t0|).events|;
  }

  /** The run when the readiness wait and the capture pass. */
  lemma Captured(cfg: Settings, path: string, snapshotTime: string, host: Host,
                 fails: nat -> bool, url: string, elements: seq<Descriptor>,
                 t0: seq<Event>, t1: seq<Event>, t2: seq<Event>, t3: seq<Event>,
                 files0: map<string, FileData>, dirs0: set<string>, clean: seq<Event>, c: CaptureEnd,
                 files1: map<string, FileData>, files2: map<string, FileData>, dirs2: set<string>,
                 r: Result<LayoutData, Error>)
    requires var ready := ReadinessRun(cfg, fails, |t0|);
             ready.result.Pass? && t1 == t0 + ready.events
    requires c == CaptureRun(cfg, path, fails, |t1|, files0, dirs0, clean)
    requires !fails(|t1|) ==> IsRemovalOf(clean, Matches(files0, cfg.screenshotsDir))
    requires c.result.Success?
    requires t2 == t1 + c.events && files1 == c.files && dirs2 == c.dirs
    requires var f := FinishRun(cfg, snapshotTime, c.result.value, host, fails, |t2|, url, elements, files1);
             t3 == t2 + f.events && files2 == f.files && r == f.result
    ensures DiscoverSpec(cfg, path, snapshotTime, host, fails, url, elements,
                         t0, files0, dirs0, clean, t3, files2, dirs2, r)
  {
    var ready := ReadinessRun(cfg, fails, |t0|).events;
    assert |t1| == |t0| + |ready|;
    assert |t2| == |t0| + |ready| + |c.events|;
  }

  // ---------------------------------------------------------------- properties

  /** The layout file just written is readable: when its read call succeeds the inference sees
      exactly the dumped snapshot, and only a missing key or a failing service can make it raise. */
  lemma InferenceSeesStoredLayout(cfg: Settings, layout: LayoutData, host: Host, files1: map<string, FileData>)
    ensures var text := host.dump(ToJson(layout));
            AnalyzeLayout(cfg.layoutConfig, files1[cfg.layoutConfig := Text(text)], host.env, host.service, host.parse)
            == AnalyzeContents(text, host.env, host.service, host.parse)
    ensures var text := host.dump(ToJson(layout));
            var g := AnalyzeLayout(cfg.layoutConfig, files1[cfg.layoutConfig := Text(text)], host.env, host.service, host.parse);
            g.Failure? ==> !g.error.FileReadError?
  {
  }

  /** Publishing that succeeds writes the layout file, reads it back, and writes the selectors
      file holding the inference's answer on the dumped snapshot; the layout file keeps the
      dumped snapshot when the two files differ, and no other file changes. */
  lemma PublishStores(cfg: Settings, layout: LayoutData, host: Host, fails: nat -> bool, m: nat,
                      files1: map<string, FileData>)
    requires PublishRun(cfg, layout, host, fails, m, files1).result.Success?
    ensures var p := PublishRun(cfg, layout, host, fails, m, files1);
            var text := host.dump(ToJson(layout));
            var g := AnalyzeContents(text, host.env, host.service, host.parse);
            && p.result.value == layout
            && g.Success?
            && p.events == [Event.Write(cfg.layoutConfig, text), Event.Read(cfg.layoutConfig),
                            Event.Write(SelectorsPath(cfg), host.dump(g.value))]
            && SelectorsPath(cfg) in p.files && p.files[SelectorsPath(cfg)] == Text(host.dump(g.value))
            && (cfg.layoutConfig != SelectorsPath(cfg) ==>
                  cfg.layoutConfig in p.files && p.files[cfg.layoutConfig] == Text(text))
            && (forall q :: q != cfg.layoutConfig && q != SelectorsPath(cfg) ==>
                  (q in p.files <==> q in files1) && (q in files1 ==> p.files[q] == files1[q]))
  {
    InferenceSeesStoredLayout(cfg, layout, host, files1);
  }

  /** When `parse` reads back the text `dump` writes for this snapshot's JSON value, the layout
      file left by a successful publishing parses and decodes to the returned snapshot. */
  lemma StoredLayoutReadsBack(cfg: Settings, layout: LayoutData, host: Host, fails: nat -> bool, m: nat,
                              files1: map<string, FileData>)
    requires host.parse(host.dump(ToJson(layout))) == Some(ToJson(layout))
    requires cfg.layoutConfig != SelectorsPath(cfg)
    requires PublishRun(cfg, layout, host, fails, m, files1).result.Success?
    ensures var p := PublishRun(cfg, layout, host, fails, m, files1);
            var stored := ReadText(p.files, cfg.layoutConfig);
            && stored.Some?
            && host.parse(stored.value).Some?
            && FromJson(host.parse(stored.value).value) == Some(p.result.value)
  {
    PublishStores(cfg, layout, host, fails, m, files1);
    LayoutRoundTrip(layout);
  }

  /** The returned snapshot: the time, the page URL, the page's extracted elements, the
      placeholder components and the screenshot path; its JSON value has the five keys and
      decodes back to it. */
  lemma DiscoveredSnapshot(timestamp: string, url: string, elements: seq<Descriptor>, path: string)
    ensures var l := Discovered(timestamp, url, elements, path);
            && l == LayoutData(timestamp, url, elements, IDENTIFIED_COMPONENTS, Some(path))
            && Json.Keys(ToJson(l)) == LAYOUT_KEYS + [SCREENSHOT_KEY]
            && FromJson(ToJson(l)) == Some(l)
  {
    var l := Discovered(timestamp, url, elements, path);
    LayoutKeys(l);
    LayoutRoundTrip(l);
  }

  /** A successful finish: the structural query, the layout write, its read and the selectors
      write, with the files' contents. */
  lemma FinishSucceeds(cfg: Settings, snapshotTime: string, path: string, host: Host,
                       fails: nat -> bool, m: nat, url: string, elements: seq<Descriptor>,
                       files1: map<string, FileData>)
    requires FinishRun(cfg, snapshotTime, path, host, fails, m, url, elements, files1).result.Success?
    ensures var f := FinishRun(cfg, snapshotTime, path, host, fails, m, url, elements, files1);
            var layout := Discovered(snapshotTime, url, elements, path);
            var text := host.dump(ToJson(layout));
            var g := AnalyzeContents(text, host.env, host.service, host.parse);
            && f.result.value == layout
            && g.Success?
            && f.events == [EvalStructure, Event.Write(cfg.layoutConfig, text), Event.Read(cfg.layoutConfig),
                            Event.Write(SelectorsPath(cfg), host.dump(g.value))]
            && SelectorsPath(cfg) in f.files && f.files[SelectorsPath(cfg)] == Text(host.dump(g.value))
            && (cfg.layoutConfig != SelectorsPath(cfg) ==>
                  cfg.layoutConfig in f.files && f.files[cfg.layoutConfig] == Text(text))
  {
    PublishStores(cfg, Discovered(snapshotTime, url, elements, path), host, fails, m + 1, files1);
  }

  /** When the discovery passes the readiness wait and the capture, the rest is the finish. */
  lemma SpecFinishes(cfg: Settings, path: string, snapshotTime: string, host: Host,
                     fails: nat -> bool, url: string, elements: seq<Descriptor>,
                     t0: seq<Event>, files0: map<string, FileData>, dirs0: set<string>,
                     clean: seq<Event>, t3: seq<Event>, files3: map<string, FileData>,
                     dirs3: set<string>, r: Result<LayoutData, Error>)
    requires DiscoverSpec(cfg, path, snapshotTime, host, fails, url, elements,
                          t0, files0, dirs0, clean, t3, files3, dirs3, r)
    requires ReadinessRun(cfg, fails, |t0|).result.Pass?
    requires CaptureRun(cfg, path, fails, |t0| + |ReadinessRun(cfg, fails, |t0|).events|, files0, dirs0, clean).result.Success?
    ensures var ready := ReadinessRun(cfg, fails, |t0|);
            var c := CaptureRun(cfg, path, fails, |t0| + |ready.events|, files0, dirs0, clean);
            var f := FinishRun(cfg, snapshotTime, path, host, fails, |t0| + |ready.events| + |c.events|, url, elements, c.files);
            && c.result.value == path && cfg.screenshotsDir in c.dirs
            && t3 == t0 + ready.events + c.events + f.events
            && files3 == f.files && dirs3 == c.dirs && r == f.result
  {
  }

  /** A discovery succeeds only when the readiness wait and the capture both pass;
      `SpecFinishes` then gives the rest of its calls, files and result, which
      `FinishSucceeds` describes. */
  lemma DiscoverSucceeds(cfg: Settings, path: string, snapshotTime: string, host: Host,
                         fails: nat -> bool, url: string, elements: seq<Descriptor>,
                         t0: seq<Event>, files0: map<string, FileData>, dirs0: set<string>,
                         clean: seq<Event>, t3: seq<Event>, files3: map<string, FileData>,
                         dirs3: set<string>, r: Result<LayoutData, Error>)
    requires DiscoverSpec(cfg, path, snapshotTime, host, fails, url, elements,
                          t0, files0, dirs0, clean, t3, files3, dirs3, r)
    requires r.Success?
    ensures ReadinessRun(cfg, fails, |t0|).result.Pass?
    ensures CaptureRun(cfg, path, fails, |t0| + |ReadinessRun(cfg, fails, |t0|).events|, files0, dirs0, clean).result.Success?
  {
  }

  /** A discovery whose readiness wait raises ends with the call that raised. */
  lemma NotReadyIsLast(cfg: Settings, path: string, snapshotTime: string, host: Host,
                              fails: nat -> bool, url: string, elements: seq<Descriptor>,
                              t0: seq<Event>, files0: map<string, FileData>, dirs0: set<string>,
                              clean: seq<Event>, t3: seq<Event>, files3: map<string, FileData>,
                              dirs3: set<string>, r: Result<LayoutData, Error>)
    requires DiscoverSpec(cfg, path, snapshotTime, host, fails, url, elements,
                          t0, files0, dirs0, clean, t3, files3, dirs3, r)
    requires ReadinessRun(cfg, fails, |t0|).result.Fail?
    ensures r.Failure? && r.error.CallFailed? && |t3| > |t0| && t3[|t3| - 1] == r.error.call
  {
    var ready := ReadinessRun(cfg, fails, |t0|);
    ReadinessFailLast(cfg, fails, |t0|);
    LastCall(t0, ready.events, t3, r, ready.result.error);
  }

  /** A discovery whose capture raises ends with the call that raised. */
  lemma CaptureFailureIsLast(cfg: Settings, path: string, snapshotTime: string, host: Host,
                              fails: nat -> bool, url: string, elements: seq<Descriptor>,
                              t0: seq<Event>, files0: map<string, FileData>, dirs0: set<string>,
                              clean: seq<Event>, t3: seq<Event>, files3: map<string, FileData>,
                              dirs3: set<string>, r: Result<LayoutData, Error>)
    requires DiscoverSpec(cfg, path, snapshotTime, host, fails, url, elements,
                          t0, files0, dirs0, clean, t3, files3, dirs3, r)
    requires ReadinessRun(cfg, fails, |t0|).result.Pass?
    requires CaptureRun(cfg, path, fails, |t0| + |ReadinessRun(cfg, fails, |t0|).events|, files0, dirs0, clean).result.Failure?
    ensures r.Failure? && r.error.CallFailed? && |t3| > |t0| && t3[|t3| - 1] == r.error.call
  {
    var ready := ReadinessRun(cfg, fails, |t0|);
    var n1 := |t0| + |ready.events|;
    var c := CaptureRun(cfg, path, fails, n1, files0, dirs0, clean);
    CaptureFailLast(cfg, path, fails, n1, files0, dirs0, clean);
    LastCall(t0 + ready.events, c.events, t3, r, c.result.error);
  }

  /** A discovery that raises after the capture ends with the call that raised; when the
      inference raised, that is the read of the layout file, and a read error then means that
      read call failed. `prefix` is the trace up to the end of the capture, as `SpecFinishes`
      gives it, and m the number of the finish's first call. */
  lemma FinishFailureIsLast(cfg: Settings, snapshotTime: string, path: string, host: Host,
                            fails: nat -> bool, m: nat, url: string, elements: seq<Descriptor>,
                            files1: map<string, FileData>, prefix: seq<Event>, t3: seq<Event>,
                            r: Result<LayoutData, Error>)
    requires var f := FinishRun(cfg, snapshotTime, path, host, fails, m, url, elements, files1);
             t3 == prefix + f.events && r == f.result
    requires r.Failure?
    ensures |t3| > |prefix|
    ensures r.error.CallFailed? ==> t3[|t3| - 1] == r.error.call
    ensures r.error.InferenceFailed? ==>
              && t3[|t3| - 1] == Event.Read(cfg.layoutConfig)
              && (r.error.cause.FileReadError? ==> fails(m + 2))
  {
    var f := FinishRun(cfg, snapshotTime, path, host, fails, m, url, elements, files1);
    FinishFailLast(cfg, snapshotTime, path, host, fails, m, url, elements, files1);
    LastCall(prefix, f.events, t3, r, f.result.error);
  }

  /** The last call of a trace that ends with the events `b` of a stage. */
  lemma LastCall(a: seq<Event>, b: seq<Event>, t: seq<Event>, r: Result<LayoutData, Error>, e: Error)
    requires |b| >= 1 && t == a + b && r == Failure(e)
    ensures |t| > |a| && t[|t| - 1] == b[|b| - 1]
  {
  }

  /** How a discovery breaks into its stages: a readiness wait that raises ends it; otherwise the
      capture follows, and a capture that raises ends it. */
  lemma SpecStages(cfg: Settings, path: string, snapshotTime: string, host: Host,
                   fails: nat -> bool, url: string, elements: seq<Descriptor>,
                   t0: seq<Event>, files0: map<string, FileData>, dirs0: set<string>,
                   clean: seq<Event>, t3: seq<Event>, files3: map<string, FileData>,
                   dirs3: set<string>, r: Result<LayoutData, Error>)
    requires DiscoverSpec(cfg, path, snapshotTime, host, fails, url, elements,
                          t0, files0, dirs0, clean, t3, files3, dirs3, r)
    ensures var ready := ReadinessRun(cfg, fails, |t0|);
            ready.result.Fail? ==>
              t3 == t0 + ready.events && files3 == files0 && dirs3 == dirs0 && r == Failure(ready.result.error)
    ensures var ready := ReadinessRun(cfg, fails, |t0|);
            var c := CaptureRun(cfg, path, fails, |t0| + |ready.events|, files0, dirs0, clean);
            ready.result.Pass? && c.result.Failure? ==>
              t3 == t0 + ready.events + c.events && files3 == c.files && dirs3 == c.dirs && r == Failure(c.result.error)
  {
  }

  /** A finish that raises ends with the call that raised, or with the read of the layout file
      when the inference raised; that read fails to find the file only when the read call itself
      failed, since the file was written just before. */
  lemma FinishFailLast(cfg: Settings, snapshotTime: string, path: string, host: Host,
                       fails: nat -> bool, m: nat, url: string, elements: seq<Descriptor>,
                       files1: map<string, FileData>)
    requires FinishRun(cfg, snapshotTime, path, host, fails, m, url, elements, files1).result.Failure?
    ensures var f := FinishRun(cfg, snapshotTime, path, host, fails, m, url, elements, files1);
            && |f.events| >= 1
            && (f.result.error.CallFailed? ==> f.events[|f.events| - 1] == f.result.error.call)
            && (f.result.error.InferenceFailed? ==>
                  && f.events[|f.events| - 1] == Event.Read(cfg.layoutConfig)
                  && (f.result.error.cause.FileReadError? ==> fails(m + 2)))
  {
    if !fails(m) && !fails(m + 1) {
      InferenceSeesStoredLayout(cfg, Discovered(snapshotTime, url, elements, path), host, files1);
    }
  }
}
