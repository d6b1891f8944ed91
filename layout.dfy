/** The layout snapshot `analyze_page_structure` builds and `discover_layout` stores in
    `layout.json`, and its JSON form: a dict with keys in insertion order. */
module Layout {
  import opened Wrappers
  import opened Extraction
  import Json

  /** The `layout_data` dict. `screenshotPath` is None until `discover_layout` sets it. */
  datatype LayoutData = LayoutData(
    timestamp: string,
    url: string,
    elements: seq<Descriptor>,
    components: Json.Value,
    screenshotPath: Option<string>)

  /** An object whose members, with the given keys, all hold null. */
  function NullFields(keys: seq<string>): (v: Json.Value)
    ensures v.Obj? && Json.Keys(v) == keys
    ensures forall i :: 0 <= i < |v.members| ==> v.members[i].1 == Json.Null
  {
    Json.Obj(seq(|keys|, i requires 0 <= i < |keys| => (keys[i], Json.Null)))
  }

  const TWEET_KEYS: seq<string> := ["container", "text", "timestamp", "metrics", "media"]
  const PROFILE_KEYS: seq<string> := ["name", "bio", "following_count", "followers_count"]
  const NAVIGATION_KEYS: seq<string> := ["home", "explore", "messages"]

  /** `elements_to_find`: the placeholder skeleton, never filled in by the discovery run. */
  const IDENTIFIED_COMPONENTS: Json.Value :=
    Json.Obj([("tweet", NullFields(TWEET_KEYS)),
              ("profile", NullFields(PROFILE_KEYS)),
              ("navigation", NullFields(NAVIGATION_KEYS))])

  /** Every leaf of the skeleton is null: it carries no information about the page. */
  lemma SkeletonIsPlaceholder()
    ensures Json.Keys(IDENTIFIED_COMPONENTS) == ["tweet", "profile", "navigation"]
    ensures forall i :: 0 <= i < 3 ==>
              var group := IDENTIFIED_COMPONENTS.members[i].1;
              group.Obj? && forall j :: 0 <= j < |group.members| ==> group.members[j].1 == Json.Null
    ensures Json.Keys(IDENTIFIED_COMPONENTS.members[0].1) == TWEET_KEYS
    ensures Json.Keys(IDENTIFIED_COMPONENTS.members[1].1) == PROFILE_KEYS
    ensures Json.Keys(IDENTIFIED_COMPONENTS.members[2].1) == NAVIGATION_KEYS
  {
  }

  const DESCRIPTOR_KEYS: seq<string> := ["tag", "classes", "role", "ariaLabel", "text", "hasImage", "href"]
  const LAYOUT_KEYS: seq<string> := ["timestamp", "url", "elements", "identified_components"]
  const SCREENSHOT_KEY := "screenshot_path"

  /** A descriptor as the page returns it to Python (null for absent attributes). */
  function DescriptorToJson(d: Descriptor): Json.Value
  {
    Json.Obj([("tag", Json.Str(d.tag)),
              ("classes", Json.FromStrings(d.classes)),
              ("role", Json.FromOption(d.role)),
              ("ariaLabel", Json.FromOption(d.ariaLabel)),
              ("text", Json.Str(d.text)),
              ("hasImage", Json.Bool(d.hasImage)),
              ("href", Json.FromOption(d.href))])
  }

  /** Reads a descriptor back from its JSON form. */
  function DescriptorFromJson(v: Json.Value): Option<Descriptor>
  {
    if !v.Obj? || Json.Keys(v) != DESCRIPTOR_KEYS then None
    else
      var m := v.members;
      var classes := if m[1].1.Arr? then Json.ToStrings(m[1].1.items) else None;
      var role := Json.ToOption(m[2].1);
      var ariaLabel := Json.ToOption(m[3].1);
      var href := Json.ToOption(m[6].1);
      if m[0].1.Str? && classes.Some? && role.Some? && ariaLabel.Some? && m[4].1.Str? && m[5].1.Bool? && href.Some?
      then Some(Descriptor(m[0].1.s, classes.value, role.value, ariaLabel.value, m[4].1.s, m[5].1.b, href.value))
      else None
  }

  lemma DescriptorRoundTrip(d: Descriptor)
    ensures DescriptorFromJson(DescriptorToJson(d)) == Some(d)
  {
    var v := DescriptorToJson(d);
    assert Json.Keys(v) == DESCRIPTOR_KEYS;
    Json.StringsRoundTrip(d.classes);
    Json.OptionRoundTrip(d.role);
    Json.OptionRoundTrip(d.ariaLabel);
    Json.OptionRoundTrip(d.href);
  }

  function ElementsToJson(ds: seq<Descriptor>): (items: seq<Json.Value>)
    ensures |items| == |ds| && forall i :: 0 <= i < |ds| ==> items[i] == DescriptorToJson(ds[i])
  {
    seq(|ds|, i requires 0 <= i < |ds| => DescriptorToJson(ds[i]))
  }

  function ElementsFromJson(items: seq<Json.Value>): Option<seq<Descriptor>>
  {
    if items == [] then Some([])
    else
      match (DescriptorFromJson(items[0]), ElementsFromJson(items[1..]))
      case (Some(d), Some(rest)) => Some([d] + rest)
      case _ => None
  }

  lemma {:induction false} ElementsRoundTrip(ds: seq<Descriptor>)
    ensures ElementsFromJson(ElementsToJson(ds)) == Some(ds)
  {
    if ds != [] {
      var items := ElementsToJson(ds);
      assert items[1..] == ElementsToJson(ds[1..]);
      DescriptorRoundTrip(ds[0]);
      ElementsRoundTrip(ds[1..]);
      assert [ds[0]] + ds[1..] == ds;
    }
  }

  /** The dict as `json.dump` receives it: `timestamp`, `url`, `elements`,
      `identified_components`, then `screenshot_path` once it has been assigned. */
  function ToJson(l: LayoutData): Json.Value
  {
    Json.Obj([("timestamp", Json.Str(l.timestamp)),
              ("url", Json.Str(l.url)),
              ("elements", Json.Arr(ElementsToJson(l.elements))),
              ("identified_components", l.components)]
             + (if l.screenshotPath.Some? then [(SCREENSHOT_KEY, Json.Str(l.screenshotPath.value))] else []))
  }

  /** Reads a snapshot back from its JSON form. */
  function FromJson(v: Json.Value): Option<LayoutData>
  {
    if !v.Obj? || |v.members| < 4 || Json.Keys(Json.Obj(v.members[..4])) != LAYOUT_KEYS then None
    else
      var m := v.members;
      var elements := if m[2].1.Arr? then ElementsFromJson(m[2].1.items) else None;
      var shot: Option<Option<string>> :=
        if |m| == 4 then Some(None)
        else if |m| == 5 && m[4].0 == SCREENSHOT_KEY && m[4].1.Str? then Some(Some(m[4].1.s))
        else None;
      if m[0].1.Str? && m[1].1.Str? && elements.Some? && shot.Some?
      then Some(LayoutData(m[0].1.s, m[1].1.s, elements.value, m[3].1, shot.value))
      else None
  }

  /** The snapshot's JSON value holds all of the snapshot: decoding it gives the snapshot back. */
  lemma LayoutRoundTrip(l: LayoutData)
    ensures FromJson(ToJson(l)) == Some(l)
  {
    var v := ToJson(l);
    assert Json.Keys(Json.Obj(v.members[..4])) == LAYOUT_KEYS;
    ElementsRoundTrip(l.elements);
  }

  /** The dict's keys, in order: the four built by `analyze_page_structure`, then
      `screenshot_path` exactly when it has been set. */
  lemma LayoutKeys(l: LayoutData)
    ensures Json.Keys(ToJson(l)) == LAYOUT_KEYS + (if l.screenshotPath.Some? then [SCREENSHOT_KEY] else [])
  {
  }

  /** `analyze_page_structure` after its evaluation: the dict with the time, the page URL, the
      extracted elements and the placeholder skeleton, and no screenshot path yet. */
  function Snapshot(timestamp: string, url: string, elements: seq<Descriptor>): (l: LayoutData)
    ensures l.components == IDENTIFIED_COMPONENTS && l.screenshotPath == None
  {
    LayoutData(timestamp, url, elements, IDENTIFIED_COMPONENTS, None)
  }

  /** The snapshot has the four keys of `analyze_page_structure`, and its JSON value decodes
      back to it. */
  lemma SnapshotStored(timestamp: string, url: string, elements: seq<Descriptor>)
    ensures Json.Keys(ToJson(Snapshot(timestamp, url, elements))) == LAYOUT_KEYS
    ensures FromJson(ToJson(Snapshot(timestamp, url, elements))) == Some(Snapshot(timestamp, url, elements))
  {
    LayoutKeys(Snapshot(timestamp, url, elements));
    LayoutRoundTrip(Snapshot(timestamp, url, elements));
  }
}
