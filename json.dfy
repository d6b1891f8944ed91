/** JSON values as the Python side sees them after `json.loads` or before `json.dump`
    (a dict keeps insertion order, so an object is an ordered member list). */
module Json {
  import opened Wrappers

  datatype Value =
    | Null
    | Bool(b: bool)
    | Num(literal: string)
    | Str(s: string)
    | Arr(items: seq<Value>)
    | Obj(members: seq<(string, Value)>)

  /** The keys of an object, in order; empty for any other value. */
  function Keys(v: Value): (ks: seq<string>)
    ensures v.Obj? ==> |ks| == |v.members| && forall i :: 0 <= i < |ks| ==> ks[i] == v.members[i].0
    ensures !v.Obj? ==> ks == []
  {
    if v.Obj? then seq(|v.members|, i requires 0 <= i < |v.members| => v.members[i].0) else []
  }

  /** A Python `str | None` as it is dumped: a JSON string or null. */
  function FromOption(o: Option<string>): Value
  {
    if o.Some? then Str(o.value) else Null
  }

  /** The inverse of FromOption (a value of any other shape is not an optional string). */
  function ToOption(v: Value): Option<Option<string>>
  {
    match v
    case Null => Some(None)
    case Str(s) => Some(Some(s))
    case _ => None
  }

  lemma OptionRoundTrip(o: Option<string>)
    ensures ToOption(FromOption(o)) == Some(o)
  {
  }

  /** A list of strings as it is dumped. */
  function FromStrings(ss: seq<string>): (v: Value)
    ensures v.Arr? && |v.items| == |ss|
    ensures forall i :: 0 <= i < |ss| ==> v.items[i] == Str(ss[i])
  {
    Arr(seq(|ss|, i requires 0 <= i < |ss| => Str(ss[i])))
  }

  /** The inverse of FromStrings: Some exactly when every item is a string. */
  function ToStrings(items: seq<Value>): (r: Option<seq<string>>)
    ensures r.Some? ==> |r.value| == |items| && forall i :: 0 <= i < |items| ==> items[i] == Str(r.value[i])
    ensures r.None? ==> exists i :: 0 <= i < |items| && !items[i].Str?
  {
    if items == [] then Some([])
    else if !items[0].Str? then None
    else
      match ToStrings(items[1..])
      case None => None
      case Some(rest) => Some([items[0].s] + rest)
  }

  lemma StringsRoundTrip(ss: seq<string>)
    ensures ToStrings(FromStrings(ss).items) == Some(ss)
  {
    var r := ToStrings(FromStrings(ss).items);
    assert r.Some?;
    assert r.value == ss;
  }
}
