# Layout discovery for X, modelled in Dafny

The layout-discovery pipeline of x_utilities drives a logged-in browser page through five steps:

1. It waits for the page to load (`wait_for_page_load`).
2. It takes a full-page screenshot (`capture_screenshot`). This creates the screenshot directory, removes older discovery screenshots (`cleanup_old_screenshots`), scrolls a fixed number of times and settles.
3. It runs a structural query in the page (`analyze_page_structure`). The query selects six kinds of tag, keeps the elements with meaningful content and describes each one.
4. It stores that snapshot as `config/layout.json`.
5. It hands the file to the Gemini client (`analyze_layout_with_gemini`) and stores the client's JSON answer as `config/layout_selectors.json`.

An exception raised by any stage ends the run. Failures of the selector waits, the media wait, individual removals, and the readiness wait after a scroll are only logged.

How the model is built:

- **Page and disk as an object.** The page and the filesystem are one object, `Browser.World`. It holds the set of directories and the map of stored files. Its `trace` records, in order, every call that can raise: page calls, directory creation, removals, writes and the read of `layout.json`. It does not record `os.path.exists`, `glob.glob` or the remote model's `send_message`.
- **Failures as an oracle.** Whether call number *i* raises is decided by the oracle `fails(i)`. Every stage is therefore stated for every pattern of failures.
- **Methods proved against functions.** Each stage is a method that updates the world. It is proved equal to a pure run function: `ReadinessRun`, `Rounds`, `Expand`, `CaptureRun`, `PublishRun` and `FinishRun`. The properties of the pipeline are lemmas about those functions.
- **In-page scripts as functions.** The structural query (`Extraction`) and the media-settle script (`MediaSettle`) run inside the page. They are pure functions over a list model of the DOM.
- **The Gemini client as a function.** It is a pure function of the file map, the environment, the remote service and the JSON parser (`Inference`).
- **JSON values.** The snapshot's JSON value (`Layout`) is proved to decode back to the snapshot. The stored text is `json.dump` of that value; `Discovery.StoredLayoutReadsBack` reads it back under the hypothesis that `json.loads` returns that value from the text `json.dump` writes for it.

Modules: `Wrappers`, `Json`, `Files`, `Config`, `Screenshots`, `Extraction`, `MediaSettle`, `Inference`, `Layout`, `Browser`, `Readiness`, `Capture`, `Discovery`.

Inputs from outside the program are parameters:

- the two clocks: `shotTime` for the screenshot name, `snapshotTime` for the snapshot's ISO time;
- the environment;
- the remote model;
- `json.loads` and `json.dump`;
- the failure oracle.

## Model

| member | source | states |
|---|---|---|
| Browser.World.constructor | discover.py:176 | a world starts with the given page, directories and files and an empty call trace |
| Browser.World.Call | discover.py:24-25 | a page call is appended to the trace; it succeeds exactly when the oracle says so for its position; nothing else changes |
| Browser.World.MakeDirs | discover.py:99 | `os.makedirs(dir, exist_ok=True)`: recorded; on success the directory exists afterwards, on failure the directories are unchanged |
| Browser.World.Remove | discover.py:89 | `os.remove`: recorded; on success exactly that path is gone, on failure the files are unchanged |
| Browser.World.Screenshot | discover.py:114 | `page.screenshot`: recorded; on success an image is stored at the path, on failure the files are unchanged |
| Browser.World.Write | discover.py:184-185 | `open(path, "w")` plus `json.dump`: recorded; on success the path holds exactly the text, on failure the files are unchanged |
| Browser.World.Read | gemini_api.py:14-15 | `open(path, "r").read()`: recorded; yields the stored text exactly when the call succeeds and the path holds a text file; nothing else changes |
| Browser.World.EvaluateStructure | discover.py:138-164 | the structural query returns the extraction of this page's DOM unless the call fails |
| Browser.CountAppend | discover.py:102-103 | the number of occurrences of a call in a concatenated trace is the sum of the two parts |
| Readiness.WaitForPageLoad | discover.py:22-81 | the calls and outcome of `wait_for_page_load` are exactly `ReadinessRun` from the current call number |
| Readiness.RaisesOnlyOnLoadState | discover.py:24-42 | the wait raises if and only if one of the two load-state waits fails, and its error is then that load-state call |
| Readiness.LoadStatesFirst | discover.py:24-25 | `domcontentloaded` is awaited first and `networkidle` second; a run that raises has made only load-state calls |
| Readiness.AllSelectorsAttempted | discover.py:27-45 | when both load states are reached, the wait passes, waits for all six selectors in order with the media timeout, and evaluates the media script last |
| Readiness.FullReadinessShape | discover.py:24-45 | a complete readiness run is the two load states, the six selector waits and the media evaluation, in that order |
| Readiness.SelectorFailuresAbsorbed | discover.py:36-42 | failures of the selector waits and the media evaluation do not change the run at all |
| Readiness.ReadinessCallsOnly | discover.py:22-81 | the wait makes only load-state waits, selector waits and the media evaluation |
| Readiness.ReadinessFailLast | discover.py:24-25 | a wait that raises ends with the very call that raised |
| MediaSettle.Watched | discover.py:51-68 | the awaited media are exactly the incomplete images and the videos below readiness 2 |
| MediaSettle.WatchedOf | discover.py:51-68 | for one media kind, the awaited elements are exactly the unsettled elements of that kind |
| MediaSettle.ElementPromise | discover.py:53-66 | no per-element promise is ever rejected: load, loadeddata and error all resolve it |
| MediaSettle.AllNeverRejects | discover.py:73 | `Promise.all` over promises that never reject never rejects |
| MediaSettle.AllFulfilledIff | discover.py:73 | `Promise.all` over never-rejecting promises is fulfilled if and only if every input is |
| MediaSettle.ScriptNeverRejects | discover.py:46-76 | the media script never rejects, so a failed evaluation can only come from the driver |
| MediaSettle.ScriptResolvesIff | discover.py:46-76 | the script resolves if and only if every awaited image and video has fired its load, loadeddata or error event |
| MediaSettle.ResolvesImmediatelyIff | discover.py:70-71 | before any event, the script resolves if and only if there is nothing to wait for |
| Extraction.LeadingSpace | discover.py:141 | the count of leading characters is maximal and all of them are JavaScript white space |
| Extraction.TrailingSpace | discover.py:141 | the count of trailing characters is maximal and all of them are JavaScript white space |
| Extraction.Trim | discover.py:141 | `trim()` yields a contiguous piece of the text; everything cut away is white space; the result neither starts nor ends with white space; it is empty if and only if the text is all white space |
| Extraction.AsciiLower | discover.py:154 | `toLowerCase()` keeps the length, turns each ASCII capital into its lower-case letter, changes no other character, and leaves no ASCII capital |
| Extraction.Filter | discover.py:151-156 | `Array.prototype.filter` keeps exactly the satisfying elements |
| Extraction.FilterAppend | discover.py:151-156 | filtering preserves order: the filter of a concatenation is the concatenation of the filters |
| Extraction.FilterSingle | discover.py:151-152 | the filter of a one-element list is that element or nothing, according to the predicate |
| Extraction.Describe | discover.py:153-162 | each descriptor has the lower-cased tag name, the trimmed text cut to 100 characters, the classes not starting with `r-`, in order, the role and aria-label unchanged, `hasImage` true exactly for an IMG tag or an element with an image inside, and an `href` only on an A tag, where it is the element's attribute |
| Extraction.Extract | discover.py:138-164 | a descriptor is in the result if and only if it describes an element that has a relevant tag and meaningful content; every result has one of the six tags, at most 100 characters of text, no `r-` class, and text, an image, role `button` or an aria-label |
| Extraction.DescribeAllAppend | discover.py:153-162 | describing a concatenation concatenates the descriptions |
| Extraction.ExtractAppend | discover.py:149-162 | the query works element by element in document order: extracting a concatenation concatenates the extractions |
| Extraction.ExtractSingle | discover.py:140-162 | one element yields its descriptor when included and nothing otherwise |
| Extraction.InclusionRule | discover.py:140-152 | an element is kept if and only if its tag is one of the six and its trimmed text is non-empty, or it contains an image, or its role is exactly `button`, or it has any aria-label |
| Extraction.BareImageDropped | discover.py:142-145 | a bare `<img>` with no text, no image inside, no button role and no aria-label is dropped, although its descriptor would say `hasImage` |
| Extraction.OnlyButtonRoleKeeps | discover.py:144 | with no other signal, a role keeps the element if and only if it is exactly `button` |
| Json.ToStrings | discover.py:155-156 | reading an array back succeeds exactly when every item is a string, and then yields those strings |
| Json.OptionRoundTrip | discover.py:157-161 | an attribute that may be null reads back unchanged |
| Json.StringsRoundTrip | discover.py:155-156 | a string list reads back unchanged |
| Files.DirPrefix | discover.py:113 | `os.path.join` keeps the directory as a prefix and ends it with a separator |
| Files.EntryName | discover.py:87 | a directory entry has no separator and rebuilds the path when joined to the directory |
| Files.EntryNameOfJoin | discover.py:113 | joining a plain name onto a directory and listing that directory gives the name back |
| Config.DefaultPathsDistinct | config.py:19-22 | with the repository's settings, the layout file, the selectors file and the screenshot directory are three different paths directly inside `config/` |
| Screenshots.Digit | discover.py:112 | a digit value becomes a decimal digit character |
| Screenshots.Pad2 | discover.py:112 | `%m %d %H %M %S` are two decimal digits |
| Screenshots.Pad4 | discover.py:112 | `%Y` is four decimal digits |
| Screenshots.DigitRoundTrip | discover.py:112 | a digit character reads back as its value |
| Screenshots.Pad2Value | discover.py:112 | a two-digit field reads back as its number |
| Screenshots.Pad4Value | discover.py:112 | a four-digit field reads back as its number |
| Screenshots.ParseStamp | discover.py:112 | reading a stamp back yields only valid date-times |
| Screenshots.StampRoundTrip | discover.py:112 | `%Y%m%d_%H%M%S` is 15 characters, eight digits, an underscore and six digits, and reads back as exactly the time it encodes |
| Screenshots.ShotNameRoundTrip | discover.py:87-113 | the screenshot's name matches the cleanup glob and encodes its capture time exactly, so two names coincide only for the same second |
| Screenshots.FramedStamp | discover.py:87-113 | a stamp framed by `layout_discovery_` and `.png` matches the glob, and the glob's `*` reads back as the stamp |
| Screenshots.ShotPathInGlob | discover.py:87-113 | the new screenshot's path is one the cleanup glob matches |
| Screenshots.MatchesAfterCapture | discover.py:87-114 | after the cleanup and the new screenshot, the glob finds the old matches whose removal failed, plus the new image |
| Screenshots.OnlyNewShotRemains | discover.py:84-114 | when every removal succeeded, the new screenshot is the only match left |
| Capture.CallsSnoc | discover.py:87-89 | the calls of a trace extended by one call are the old calls plus that one |
| Capture.RemovedSnoc | discover.py:88-94 | one more removal adds its path to the removed set exactly when it does not fail |
| Capture.RemovedWithin | discover.py:87-89 | a cleanup only ever removes paths the glob reported |
| Capture.RemovedAll | discover.py:87-89 | a cleanup none of whose removals fails removes every reported path |
| Capture.RemovalsOnly | discover.py:87-94 | a cleanup makes no call other than removals |
| Capture.CleanupStep | discover.py:88-94 | one pass of the cleanup loop keeps its invariant: the paths tried so far are each tried once, and the files are the original ones minus the successful removals |
| Capture.RemoveOne | discover.py:88-94 | one removal whose failure is logged and skipped keeps the cleanup invariant |
| Capture.RemoveEach | discover.py:87-94 | every reported path is tried exactly once in some order, nothing else is called, and the files lose exactly the successfully removed paths |
| Capture.CleanupOldScreenshots | discover.py:84-94 | no call and no change when the directory does not exist; otherwise one removal attempt per glob match, and exactly the successful ones are gone |
| Capture.ScrollOnce | discover.py:103-108 | one scroll round's calls and outcome are exactly `Round`: the scroll, the wait, then the readiness wait with its failure swallowed |
| Capture.RoundsSnoc | discover.py:102-108 | one more pass of the scroll loop extends the trace by the next round |
| Capture.ScrollRounds | discover.py:102-108 | the scroll loop's calls and outcome are exactly `Rounds` for `scrollCount` rounds, left at the first round that raises |
| Capture.ExpandPasses | discover.py:102-114 | once the scroll rounds pass, the settle wait and the screenshot follow them |
| Capture.SettleAndShoot | discover.py:110-114 | the 2000 ms settle wait, then the full-page screenshot, which is stored exactly when it succeeds |
| Capture.ScrollAndShoot | discover.py:102-114 | the scroll loop, the settle wait and the screenshot; on success an image is stored at the path, otherwise the files are unchanged |
| Capture.CaptureScreenshot | discover.py:97-116 | the calls, files, directories and result of `capture_screenshot` are exactly `CaptureRun`; when the directory is created, the cleanup tries each stale screenshot once |
| Capture.CaptureSteps | discover.py:99-116 | the directory, the cleanup and the scroll/settle/shot stages make up `CaptureRun` |
| Capture.RoundsFailureSticks | discover.py:102-108 | once a scroll round raises, no further round runs |
| Capture.RoundFailureCause | discover.py:103-108 | a scroll round raises if and only if the scroll or the wait after it fails, with that call's error |
| Capture.RoundsFailureCause | discover.py:102-108 | the scroll loop raises only with a scroll's or a wait's error |
| Capture.RoundCalls | discover.py:103-106 | a round makes only the scroll, the wait and readiness calls |
| Capture.RoundScrollsOnce | discover.py:103 | every round scrolls exactly once, whether or not it raises |
| Capture.RoundsScrollCount | discover.py:102-103 | a scroll loop that completes has scrolled exactly `scrollCount` times |
| Capture.CountStep | discover.py:102-103 | adding a round that scrolls once to k - 1 scrolls makes k |
| Capture.RoundsCalls | discover.py:102-108 | the scroll loop takes no screenshot and makes only scrolls, waits and readiness calls |
| Capture.ExpandShape | discover.py:102-114 | when it passes, the part after the cleanup is the completed scroll loop, then the settle wait and one full-page screenshot |
| Capture.ExpandCalls | discover.py:102-114 | at most one screenshot is taken: the last call, full page, to the given path |
| Capture.CaptureStopsAtMakeDirs | discover.py:99 | when the directory cannot be created, nothing else happens and nothing changes |
| Capture.CaptureFailureCauses | discover.py:97-116 | only the directory creation, a scroll, a wait after a scroll, the settle wait or the screenshot can make the capture raise |
| Capture.CaptureSucceeds | discover.py:97-116 | a successful capture returns the screenshot path and has stored an image there; its directory exists; it scrolled exactly `scrollCount` times; it ended with the 2000 ms wait and that screenshot |
| Capture.CaptureWithoutScrolling | discover.py:99-114 | with no scrolling, the capture is the directory, the cleanup, the settle wait and the shot |
| Capture.CaptureMatches | discover.py:86-114 | after a successful capture, the glob matches the stale screenshots whose removal failed, plus the new one |
| Capture.CaptureLeavesOnlyNewShot | discover.py:84-114 | when every removal succeeds, the new screenshot is the only discovery screenshot left |
| Capture.RoundsFailLast | discover.py:102-108 | a scroll loop that raises ends with the call that raised |
| Capture.CaptureFailLast | discover.py:97-116 | a capture that raises ends with the call that raised |
| Layout.SkeletonIsPlaceholder | discover.py:121-136 | `identified_components` has the groups tweet, profile and navigation, with their keys in order and every leaf null |
| Layout.DescriptorRoundTrip | discover.py:153-162 | a descriptor's JSON form reads back as the same descriptor |
| Layout.ElementsRoundTrip | discover.py:169 | the element list reads back unchanged |
| Layout.LayoutRoundTrip | discover.py:166-185 | the snapshot's JSON value decodes back to the snapshot unchanged |
| Layout.LayoutKeys | discover.py:166-182 | the dict's keys in order are `timestamp`, `url`, `elements` and `identified_components`, then `screenshot_path` exactly when it has been set |
| Layout.SnapshotStored | discover.py:166-173 | `analyze_page_structure`'s dict has its four keys, and its JSON value decodes back to it |
| Inference.FenceRoundTrip | gemini_api.py:49 | the fenced layout text can be taken apart again into exactly the file text |
| Inference.HistoryFor | gemini_api.py:45-52 | the chat history is one user message with one part, and that part is the file text fenced and unaltered |
| Inference.ParsedReplyUnchanged | gemini_api.py:63-65 | a reply that parses is returned as parsed |
| Inference.FallbackKeepsText | gemini_api.py:66-70 | a reply that fails to parse comes back as the one-key object `raw_response` holding the text unmodified |
| Inference.ReadComesFirst | gemini_api.py:14-19 | an unreadable file fails with the read error, whatever the environment and the service would do |
| Inference.KeyBeforeRequest | gemini_api.py:19-56 | without `GEMINI_API_KEY` the call fails with the missing key, and the service is never consulted |
| Inference.FailuresPropagate | gemini_api.py:11-72 | the call fails if and only if the file cannot be read, the key is missing or the service raises, and then a service error is passed on unchanged; decode errors are absorbed |
| Inference.ServiceSeesFileVerbatim | gemini_api.py:14-64 | the service sees only the key and the fenced file text: services that answer that request alike give the same result, and success is the handled reply |
| Discovery.AnalyzePageStructure | discover.py:119-173 | one structural evaluation; on success, the snapshot of the time, the page URL and the page's extraction |
| Discovery.AnalyzeStoredLayout | gemini_api.py:11-72 | `analyze_layout_with_gemini` against the world: one recorded read, a read error when that call fails, and otherwise exactly the inference client on the current files |
| Discovery.Publish | discover.py:184-192 | the two writes and the inference between them, with calls, files and result exactly `PublishRun` |
| Discovery.FinishDiscovery | discover.py:181-196 | the part after the screenshot, with calls, files and result exactly `FinishRun` |
| Discovery.FinishSteps | discover.py:181-192 | the structural query followed by publishing makes up `FinishRun` |
| Discovery.DiscoverLayout | discover.py:176-196 | `discover_layout` runs its stages in order; the first stage that raises ends the run with its error and nothing after it happens (`DiscoverSpec`) |
| Discovery.NotReady | discover.py:179 | a readiness wait that raises ends the discovery, with the trace extended by the wait and nothing else changed |
| Discovery.NotCaptured | discover.py:180 | a capture that raises ends the discovery after the readiness wait and the capture |
| Discovery.Captured | discover.py:180-196 | after a passing readiness wait and capture, the discovery is the finish |
| Discovery.InferenceSeesStoredLayout | discover.py:184-189 | the layout file just written is readable: the inference on it sees exactly the dumped snapshot and cannot fail with a read error |
| Discovery.PublishStores | discover.py:184-192 | successful publishing writes the layout file, reads it back and writes the selectors file holding the dumped inference answer; the layout file holds the dumped snapshot when the two paths differ; and no other file changes |
| Discovery.StoredLayoutReadsBack | discover.py:184-189 | when `json.loads` returns the snapshot's JSON value from the text `json.dump` writes for it, the layout file left by successful publishing parses and decodes to the returned snapshot |
| Discovery.DiscoveredSnapshot | discover.py:166-185 | the returned snapshot holds the time, URL, elements, placeholder skeleton and screenshot path; its JSON value has the five keys and decodes back to it |
| Discovery.FinishSucceeds | discover.py:181-196 | a successful finish returns the snapshot with the screenshot path, after exactly the query, the layout write, its read and the selectors write, which leave their contents in the files |
| Discovery.SpecFinishes | discover.py:179-196 | once the readiness wait and the capture pass, the rest of the discovery is the finish from the capture's state, and the screenshot directory exists |
| Discovery.DiscoverSucceeds | discover.py:179-196 | a discovery succeeds only when its readiness wait and its capture both pass |
| Discovery.NotReadyIsLast | discover.py:179 | a discovery whose readiness wait raises ends with the call that raised |
| Discovery.CaptureFailureIsLast | discover.py:180 | a discovery whose capture raises ends with the call that raised |
| Discovery.FinishFailureIsLast | discover.py:181-192 | a discovery that raises after the capture ends with the call that raised; when the inference raised, its last call is the read of the layout file, and a read error means that read call failed |
| Discovery.SpecStages | discover.py:179-181 | a readiness failure ends the discovery with nothing else changed, and a capture failure ends it after the capture |
| Discovery.FinishFailLast | discover.py:181-192 | a finish that raises ends with the call that raised, or with the read of the layout file when the inference raised; a read error happens only when that read call fails |
| Discovery.LastCall | discover.py:176-196 | the last call of a trace that ends with a stage's calls is that stage's last call |

## Left out

- `login_x.py`, `main.py` and `logger_setup.py`: browser launch, login and cookies are context, not the discovery core. Logging is left out too; every logged-only failure is modelled as absorbed.
- The Gemini SDK configuration: the model name, generation settings, system instruction and the wording of the `send_message` prompt. The remote model is the parameter `service`, which sees the key and the chat history. The fixed prompt text is not part of the request model.
- The `response.text` accessor: any exception it raises is folded into the service's failure.
- `json.dump` formatting (`indent=2`) and `json.loads`: both are parameters (`dump`, `parse`).
- LayoutRoundTrip: the round trip is stated on JSON values. The stored text is `dump` of the value, and `dump` is a parameter, so the text reads back only under the hypothesis of `Discovery.StoredLayoutReadsBack`.
- SnapshotStored: stated on the JSON value, for the same reason as LayoutRoundTrip.
- DiscoveredSnapshot: stated on the JSON value, for the same reason as LayoutRoundTrip. `Discovery.StoredLayoutReadsBack` covers the stored text.
- `os.path.exists` and `glob.glob` read the state directly and are not recorded in the trace; neither raises in Python. `send_message` is the `service` parameter and is not recorded either.
- A write that raises halfway (`open` succeeded, `json.dump` failed) would leave a partial or empty file. The model treats a failed write as storing nothing.
- `os.makedirs` creates missing parent directories. Only the named directory is recorded.
- Rendering, scrolling geometry, network timing and the pixels of the screenshot: the DOM and URL are fixed for the run, and a screenshot is an opaque image file.
- Readiness.WaitForPageLoad: the media-settle evaluation is a single fallible call in the trace. Its promise is modelled separately in `MediaSettle` and is not connected to the oracle that decides the call's outcome.
- Extraction.AsciiLower: `toLowerCase` is modelled for ASCII capitals only, which covers HTML tag names. Other Unicode case mappings are not modelled.
- Extraction.Describe: `slice(0, 100)` counts UTF-16 code units. The model counts characters, so it differs for text with characters outside the Basic Multilingual Plane.
- Screenshots.Stamp: `%Y` is modelled as four zero-padded digits. The padding of years below 1000 depends on the platform's `strftime`.
- Screenshots.InGlob: the directory name is taken literally, so glob metacharacters in it are not modelled. The glob also reports sub-directories whose names match, and `os.remove` fails on them. The model stores only files, so it has no such entries.
- Capture.CleanupOldScreenshots: the order in which the glob lists the files is unspecified. The model lets the cleanup visit them in any order and states its result for every order.
- The clocks (`datetime.now()` for the file name and for `isoformat()`) are inputs: `shotTime` and `snapshotTime`. The ISO time is an opaque string.
- Discovery.DiscoverSucceeds: it states only that both earlier stages passed. The calls, files and result of a successful run follow from `SpecFinishes` and `FinishSucceeds`, which are stated at stage level.
