/** The page and the filesystem as the pipeline drives them. Every call is recorded, in order,
    in `trace`; whether call number i fails (raises) is decided by the oracle `fails(i)`.
    Rendering, timing and the content of images are not modelled: the page's DOM and URL are
    fixed for the run and a screenshot is stored as an opaque image file. */
module Browser {
  import opened Wrappers
  import opened Files
  import opened Extraction
  import Inference

  /** One call the pipeline makes. */
  datatype Event =
    | LoadState(state: string)                 // page.wait_for_load_state(state)
    | WaitSelector(selector: string, ms: nat)  // page.wait_for_selector(selector, timeout=ms)
    | EvalMediaSettle                          // page.evaluate(<media-settle script>)
    | ScrollBy                                 // page.evaluate("window.scrollBy(0, window.innerHeight)")
    | Timeout(ms: nat)                         // page.wait_for_timeout(ms)
    | Screenshot(path: string, fullPage: bool) // page.screenshot(path=path, full_page=fullPage)
    | EvalStructure                            // page.evaluate(<structural query>)
    | MakeDirs(dir: string)                    // os.makedirs(dir, exist_ok=True)
    | Remove(path: string)                     // os.remove(path)
    | Write(path: string, contents: string)    // open(path, "w") and json.dump
    | Read(path: string)                       // open(path, "r").read()

  /** An exception leaving a pipeline stage, with its cause. */
  datatype Error =
    | CallFailed(call: Event)
    | InferenceFailed(cause: Inference.InferenceError)

  /** What a stage does to the trace, and how it ends. */
  datatype Run = Run(events: seq<Event>, result: Outcome<Error>)

  /** How many times `e` occurs in `s`. */
  function Count(e: Event, s: seq<Event>): nat
  {
    if s == [] then 0 else (if s[0] == e then 1 else 0) + Count(e, s[1..])
  }

  lemma {:induction false} CountAppend(e: Event, a: seq<Event>, b: seq<Event>)
    ensures Count(e, a + b) == Count(e, a) + Count(e, b)
  {
    if a == [] {
      assert a + b == b;
    } else {
      assert (a + b)[1..] == a[1..] + b;
      CountAppend(e, a[1..], b);
    }
  }

  lemma {:induction false} CountAbsent(e: Event, s: seq<Event>)
    requires e !in s
    ensures Count(e, s) == 0
  {
    if s != [] {
      CountAbsent(e, s[1..]);
    }
  }

  /** Regrouping the pieces of a trace. */
  lemma AppendAssoc(a: seq<Event>, b: seq<Event>, c: seq<Event>)
    ensures (a + b) + c == a + (b + c)
  {
  }

  class World {
    var trace: seq<Event>
    var dirs: set<string>
    var files: map<string, FileData>
    const fails: nat -> bool
    const url: string
    const dom: seq<Element>

    constructor (fails: nat -> bool, url: string, dom: seq<Element>,
                 dirs: set<string>, files: map<string, FileData>)
      ensures this.fails == fails && this.url == url && this.dom == dom
      ensures this.dirs == dirs && this.files == files && trace == []
    {
      this.fails := fails;
      this.url := url;
      this.dom := dom;
      this.dirs := dirs;
      this.files := files;
      trace := [];
    }

    /** `os.path.exists(path)`. */
    predicate Exists(path: string)
      reads this
    {
      path in dirs || path in files
    }

    /** A page call without effect on the files: it is recorded and succeeds unless the oracle
        says it fails. */
    method Call(e: Event) returns (ok: bool)
      modifies this`trace
      ensures trace == old(trace) + [e]
      ensures ok == !fails(|old(trace)|)
    {
      ok := !fails(|trace|);
      trace := trace + [e];
    }

    method MakeDirs(dir: string) returns (ok: bool)
      modifies this`trace, this`dirs
      ensures trace == old(trace) + [Event.MakeDirs(dir)]
      ensures ok == !fails(|old(trace)|)
      ensures dirs == if ok then old(dirs) + {dir} else old(dirs)
    {
      ok := !fails(|trace|);
      trace := trace + [Event.MakeDirs(dir)];
      if ok {
        dirs := dirs + {dir};
      }
    }

    method Remove(path: string) returns (ok: bool)
      modifies this`trace, this`files
      ensures trace == old(trace) + [Event.Remove(path)]
      ensures ok == !fails(|old(trace)|)
      ensures files == if ok then old(files) - {path} else old(files)
    {
      ok := !fails(|trace|);
      trace := trace + [Event.Remove(path)];
      if ok {
        files := files - {path};
      }
    }

    method Screenshot(path: string, fullPage: bool) returns (ok: bool)
      modifies this`trace, this`files
      ensures trace == old(trace) + [Event.Screenshot(path, fullPage)]
      ensures ok == !fails(|old(trace)|)
      ensures files == if ok then old(files)[path := Png] else old(files)
    {
      ok := !fails(|trace|);
      trace := trace + [Event.Screenshot(path, fullPage)];
      if ok {
        files := files[path := Png];
      }
    }

    method Write(path: string, contents: string) returns (ok: bool)
      modifies this`trace, this`files
      ensures trace == old(trace) + [Event.Write(path, contents)]
      ensures ok == !fails(|old(trace)|)
      ensures files == if ok then old(files)[path := Text(contents)] else old(files)
    {
      ok := !fails(|trace|);
      trace := trace + [Event.Write(path, contents)];
      if ok {
        files := files[path := Text(contents)];
      }
    }

    /** `open(path, "r").read()`: recorded; it yields the stored text unless the call fails or
        the path holds no text file. */
    method Read(path: string) returns (r: Option<string>)
      modifies this`trace
      ensures trace == old(trace) + [Event.Read(path)]
      ensures r == if fails(|old(trace)|) then None else ReadText(files, path)
    {
      var ok := !fails(|trace|);
      trace := trace + [Event.Read(path)];
      r := if ok then ReadText(files, path) else None;
    }

    /** The structural query, evaluated in the page: the page's elements, extracted. */
    method EvaluateStructure() returns (r: Option<seq<Descriptor>>)
      modifies this`trace
      ensures trace == old(trace) + [EvalStructure]
      ensures r == if fails(|old(trace)|) then None else Some(Extract(dom))
    {
      var ok := !fails(|trace|);
      trace := trace + [EvalStructure];
      r := if ok then Some(Extract(dom)) else None;
    }
  }
}
