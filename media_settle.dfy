/** The media-settle script that `wait_for_page_load` evaluates in the page: one promise per
    image that is not yet complete and per video below readiness level 2 (HAVE_CURRENT_DATA),
    each resolved by its load or error event, combined with `Promise.all`. */
module MediaSettle {

  /** The DOM events the script listens for. */
  datatype Signal = Load | LoadedData | MediaError

  /** An `img` or `video` element at the moment the script runs, with the events it fires
      after the script has installed its handlers. */
  datatype MediaElement =
    | Image(complete: bool, fired: set<Signal>)
    | Video(readyState: nat, fired: set<Signal>)

  datatype PromiseState = Pending | Fulfilled | Rejected

  /** The script waits for this element. */
  predicate IsWatched(m: MediaElement)
  {
    match m
    case Image(complete, _) => !complete
    case Video(readyState, _) => readyState < 2
  }

  /** The elements waited for: first the images (`querySelectorAll('img')`), then the videos
      (`querySelectorAll('video')`), each in document order. */
  function Watched(media: seq<MediaElement>): (w: seq<MediaElement>)
    ensures forall m :: m in w <==> m in media && IsWatched(m)
  {
    WatchedOf(media, true) + WatchedOf(media, false)
  }

  function WatchedOf(media: seq<MediaElement>, images: bool): (w: seq<MediaElement>)
    ensures forall m :: m in w <==> m in media && IsWatched(m) && m.Image? == images
  {
    if media == [] then []
    else
      var m := media[0];
      (if IsWatched(m) && m.Image? == images then [m] else []) + WatchedOf(media[1..], images)
  }

  /** The per-element promise: `img.onload`/`img.onerror`, or `video.onloadeddata`/`video.onerror`,
      is its resolve function, and nothing rejects it. */
  function ElementPromise(m: MediaElement): (p: PromiseState)
    ensures p != Rejected
  {
    if Settled(m) then Fulfilled else Pending
  }

  /** The element has fired an event its handlers resolve on: load or error for an image,
      loadeddata or error for a video. */
  predicate Settled(m: MediaElement)
  {
    match m
    case Image(_, fired) => Load in fired || MediaError in fired
    case Video(_, fired) => LoadedData in fired || MediaError in fired
  }

  /** `Promise.all`: rejected as soon as one input is rejected, fulfilled once all are. */
  function All(ps: seq<PromiseState>): PromiseState
  {
    if ps == [] then Fulfilled
    else if ps[0] == Rejected then Rejected
    else
      var rest := All(ps[1..]);
      if rest == Rejected then Rejected
      else if ps[0] == Fulfilled then rest
      else Pending
  }

  /** The state of the promise the script returns. */
  function Script(media: seq<MediaElement>): PromiseState
  {
    var w := Watched(media);
    var ps := seq(|w|, i requires 0 <= i < |w| => ElementPromise(w[i]));
    if |ps| == 0 then Fulfilled else All(ps)
  }

  lemma {:induction false} AllNeverRejects(ps: seq<PromiseState>)
    requires forall i :: 0 <= i < |ps| ==> ps[i] != Rejected
    ensures All(ps) != Rejected
  {
    if ps != [] {
      AllNeverRejects(ps[1..]);
    }
  }

  lemma {:induction false} AllFulfilledIff(ps: seq<PromiseState>)
    requires forall i :: 0 <= i < |ps| ==> ps[i] != Rejected
    ensures All(ps) == Fulfilled <==> forall i :: 0 <= i < |ps| ==> ps[i] == Fulfilled
  {
    if ps != [] {
      AllFulfilledIff(ps[1..]);
      assert forall i :: 1 <= i < |ps| ==> ps[i] == ps[1..][i - 1];
    }
  }

  /** The script never rejects: whatever the media do, it is either still waiting or resolved,
      so a failing evaluation can only come from the driver. */
  lemma ScriptNeverRejects(media: seq<MediaElement>)
    ensures Script(media) != Rejected
  {
    var w := Watched(media);
    var ps := seq(|w|, i requires 0 <= i < |w| => ElementPromise(w[i]));
    AllNeverRejects(ps);
  }

  /** The script resolves exactly when every image and video it waits for has fired
      its load (loadeddata for a video) or its error event. */
  lemma ScriptResolvesIff(media: seq<MediaElement>)
    ensures Script(media) == Fulfilled <==> forall m :: m in media && IsWatched(m) ==> Settled(m)
  {
    var w := Watched(media);
    var ps := seq(|w|, i requires 0 <= i < |w| => ElementPromise(w[i]));
    AllFulfilledIff(ps);
    assert forall i :: 0 <= i < |w| ==> (ps[i] == Fulfilled <==> Settled(w[i]));
    if Script(media) == Fulfilled {
      forall m | m in media && IsWatched(m)
        ensures Settled(m)
      {
        var i :| 0 <= i < |w| && w[i] == m;
      }
    }
  }

  /** With no incomplete image and no video below readiness 2 the script resolves at once, before
      any event; otherwise it waits for at least one event. */
  lemma ResolvesImmediatelyIff(media: seq<MediaElement>)
    requires forall m :: m in media ==> m.fired == {}
    ensures Script(media) == Fulfilled <==> forall m :: m in media ==> !IsWatched(m)
  {
    ScriptResolvesIff(media);
  }
}
