/** The in-page structural query of `analyze_page_structure`: select the elements with a
    relevant tag, keep those with meaningful content, and describe each one. The DOM is
    given as the document-ordered list of its elements, each reduced to what the query reads. */
module Extraction {
  import opened Wrappers

  /** What the query reads of one DOM element. `tagName` is the DOM's `tagName`
      (upper case for HTML elements); `hasImgDescendant` is `querySelector('img') !== null`;
      `role`, `ariaLabel` and `href` are `getAttribute` results (None for null). */
  datatype Element = Element(
    tagName: string,
    classList: seq<string>,
    role: Option<string>,
    ariaLabel: Option<string>,
    textContent: string,
    hasImgDescendant: bool,
    href: Option<string>)

  /** One record of the query's result. */
  datatype Descriptor = Descriptor(
    tag: string,
    classes: seq<string>,
    role: Option<string>,
    ariaLabel: Option<string>,
    text: string,
    hasImage: bool,
    href: Option<string>)

  const RELEVANT_TAGS: seq<string> := ["article", "div", "span", "a", "button", "img"]
  const TEXT_LIMIT := 100
  const UTILITY_PREFIX := "r-"

  // ---------------------------------------------------------------- strings

  /** JavaScript's WhiteSpace and LineTerminator characters, which `String.prototype.trim` removes. */
  predicate IsJsSpace(c: char)
  {
    var x := c as int;
    x == 0x09 || x == 0x0A || x == 0x0B || x == 0x0C || x == 0x0D || x == 0x20 || x == 0xA0
    || x == 0x1680 || (0x2000 <= x <= 0x200A) || x == 0x2028 || x == 0x2029 || x == 0x202F
    || x == 0x205F || x == 0x3000 || x == 0xFEFF
  }

  /** Number of white-space characters at the start of `s`. */
  function LeadingSpace(s: string): (n: nat)
    ensures n <= |s|
    ensures forall i :: 0 <= i < n ==> IsJsSpace(s[i])
    ensures n < |s| ==> !IsJsSpace(s[n])
  {
    if s != [] && IsJsSpace(s[0]) then 1 + LeadingSpace(s[1..]) else 0
  }

  /** Number of white-space characters at the end of `s`. */
  function TrailingSpace(s: string): (n: nat)
    ensures n <= |s|
    ensures forall i :: |s| - n <= i < |s| ==> IsJsSpace(s[i])
    ensures n < |s| ==> !IsJsSpace(s[|s| - 1 - n])
  {
    if s != [] && IsJsSpace(s[|s| - 1]) then 1 + TrailingSpace(s[..|s| - 1]) else 0
  }

  /** `String.prototype.trim`: the text with its leading and trailing white space removed.
      The result is a contiguous piece of `s`, everything cut away is white space, and it
      neither starts nor ends with white space; it is empty exactly when `s` is all white space. */
  function Trim(s: string): (r: string)
    ensures var lo := LeadingSpace(s);
              && lo + |r| <= |s| && r == s[lo..lo + |r|]
              && (forall i :: 0 <= i < lo ==> IsJsSpace(s[i]))
              && (forall i :: lo + |r| <= i < |s| ==> IsJsSpace(s[i]))
    ensures r != [] ==> !IsJsSpace(r[0]) && !IsJsSpace(r[|r| - 1])
    ensures r == [] <==> forall i :: 0 <= i < |s| ==> IsJsSpace(s[i])
  {
    var lo := LeadingSpace(s);
    var rest := s[lo..];
    var hi := |s| - TrailingSpace(rest);
    assert forall i :: hi <= i < |s| ==> s[i] == rest[i - lo];
    assert hi > lo ==> s[hi - 1] == rest[hi - 1 - lo];
    s[lo..hi]
  }

  /** `toLowerCase` on a tag name (tag names of this page are ASCII). */
  function AsciiLower(s: string): (r: string)
    ensures |r| == |s|
    ensures forall i :: 0 <= i < |s| ==> !('A' <= r[i] <= 'Z')
    ensures forall i :: 0 <= i < |s| && 'A' <= s[i] <= 'Z' ==> r[i] as int == s[i] as int + 32
    ensures forall i :: 0 <= i < |s| && !('A' <= s[i] <= 'Z') ==> r[i] == s[i]
  {
    seq(|s|, i requires 0 <= i < |s| => if 'A' <= s[i] <= 'Z' then (s[i] as int + 32) as char else s[i])
  }

  predicate StartsWith(s: string, prefix: string)
  {
    |prefix| <= |s| && s[..|prefix|] == prefix
  }

  // ---------------------------------------------------------------- Array.prototype.filter

  /** `Array.prototype.filter`: the elements satisfying `p`, in their original order. */
  function Filter<T(!new)>(s: seq<T>, p: T -> bool): (r: seq<T>)
    ensures |r| <= |s|
    ensures forall x :: x in r <==> x in s && p(x)
  {
    if s == [] then [] else (if p(s[0]) then [s[0]] else []) + Filter(s[1..], p)
  }

  /** Filtering a concatenation filters each part: the order of the input is kept. */
  lemma {:induction false} FilterAppend<T(!new)>(a: seq<T>, b: seq<T>, p: T -> bool)
    ensures Filter(a + b, p) == Filter(a, p) + Filter(b, p)
  {
    if a == [] {
      assert a + b == b;
    } else {
      assert (a + b)[0] == a[0];
      assert (a + b)[1..] == a[1..] + b;
      FilterAppend(a[1..], b, p);
    }
  }

  lemma FilterSingle<T(!new)>(x: T, p: T -> bool)
    ensures Filter([x], p) == if p(x) then [x] else []
  {
    assert [x][1..] == [];
  }

  // ---------------------------------------------------------------- the query

  /** Matched by `querySelectorAll('article,div,span,a,button,img')`. */
  predicate IsRelevant(e: Element)
  {
    AsciiLower(e.tagName) in RELEVANT_TAGS
  }

  /** `hasMeaningfulContent`: non-empty trimmed text, an `img` descendant, the role exactly
      `button`, or any `aria-label` attribute (even an empty one). */
  predicate HasMeaningfulContent(e: Element)
  {
    |Trim(e.textContent)| > 0
    || e.hasImgDescendant
    || e.role == Some("button")
    || e.ariaLabel.Some?
  }

  predicate IsKeptClass(c: string)
  {
    !StartsWith(c, UTILITY_PREFIX)
  }

  function Min(a: int, b: int): int { if a <= b then a else b }

  /** The `map` step of the query: one element to its descriptor. */
  function Describe(e: Element): (d: Descriptor)
    ensures d.tag == AsciiLower(e.tagName)
    ensures forall i :: 0 <= i < |d.tag| ==> !('A' <= d.tag[i] <= 'Z')
    ensures |d.text| == Min(TEXT_LIMIT, |Trim(e.textContent)|)
    ensures d.text == Trim(e.textContent)[..|d.text|]
    ensures forall c :: c in d.classes <==> c in e.classList && !StartsWith(c, UTILITY_PREFIX)
    ensures d.classes == Filter(e.classList, IsKeptClass)
    ensures d.role == e.role && d.ariaLabel == e.ariaLabel
    ensures d.hasImage <==> e.tagName == "IMG" || e.hasImgDescendant
    ensures d.href.Some? ==> e.tagName == "A"
    ensures e.tagName == "A" ==> d.href == e.href
  {
    var text := Trim(e.textContent);
    Descriptor(
      AsciiLower(e.tagName),
      Filter(e.classList, IsKeptClass),
      e.role,
      e.ariaLabel,
      text[..Min(TEXT_LIMIT, |text|)],
      e.tagName == "IMG" || e.hasImgDescendant,
      if e.tagName == "A" then e.href else None)
  }

  function DescribeAll(s: seq<Element>): (r: seq<Descriptor>)
    ensures |r| == |s| && forall i :: 0 <= i < |s| ==> r[i] == Describe(s[i])
  {
    seq(|s|, i requires 0 <= i < |s| => Describe(s[i]))
  }

  /** An element contributes a descriptor exactly when it is selected and passes the filter. */
  predicate Included(e: Element)
  {
    IsRelevant(e) && HasMeaningfulContent(e)
  }

  /** `Array.from(querySelectorAll(...)).filter(hasMeaningfulContent).map(describe)`. */
  function Extract(doc: seq<Element>): (r: seq<Descriptor>)
    ensures |r| <= |doc|
    ensures forall d :: d in r <==> exists e :: e in doc && Included(e) && d == Describe(e)
    ensures forall d :: d in r ==>
              && d.tag in RELEVANT_TAGS
              && |d.text| <= TEXT_LIMIT
              && (forall c :: c in d.classes ==> !StartsWith(c, UTILITY_PREFIX))
              && (d.text != "" || d.hasImage || d.role == Some("button") || d.ariaLabel.Some?)
  {
    var kept := Filter(Filter(doc, IsRelevant), HasMeaningfulContent);
    assert forall e :: e in kept <==> e in doc && Included(e);
    DescribeAll(kept)
  }

  lemma DescribeAllAppend(a: seq<Element>, b: seq<Element>)
    ensures DescribeAll(a + b) == DescribeAll(a) + DescribeAll(b)
  {
  }

  /** The extraction is computed element by element: extracting a concatenation of two
      document parts concatenates their extractions, so document order is kept. */
  lemma ExtractAppend(a: seq<Element>, b: seq<Element>)
    ensures Extract(a + b) == Extract(a) + Extract(b)
  {
    FilterAppend(a, b, IsRelevant);
    FilterAppend(Filter(a, IsRelevant), Filter(b, IsRelevant), HasMeaningfulContent);
    DescribeAllAppend(Filter(Filter(a, IsRelevant), HasMeaningfulContent),
                      Filter(Filter(b, IsRelevant), HasMeaningfulContent));
  }

  /** One element yields its descriptor when it is included, and nothing otherwise.
      With ExtractAppend this determines Extract on every document. */
  lemma ExtractSingle(e: Element)
    ensures Extract([e]) == if Included(e) then [Describe(e)] else []
  {
    FilterSingle(e, IsRelevant);
    FilterSingle(e, HasMeaningfulContent);
  }

  /** The inclusion rule spelled out: only the six tags, and among those only elements with
      non-empty trimmed text, an `img` descendant, role exactly `button`, or an `aria-label`. */
  lemma InclusionRule(e: Element)
    ensures Extract([e]) != [] <==>
              && AsciiLower(e.tagName) in RELEVANT_TAGS
              && (Trim(e.textContent) != "" || e.hasImgDescendant
                  || e.role == Some("button") || e.ariaLabel.Some?)
  {
    ExtractSingle(e);
  }

  /** A bare `<img>` (no text, no `img` inside it, no `role="button"`, no `aria-label`) is
      dropped, although its descriptor would say `hasImage`. */
  lemma BareImageDropped(e: Element)
    requires e.tagName == "IMG" && !e.hasImgDescendant
    requires forall i :: 0 <= i < |e.textContent| ==> IsJsSpace(e.textContent[i])
    requires e.role != Some("button") && e.ariaLabel == None
    ensures Describe(e).hasImage
    ensures Extract([e]) == []
  {
    ExtractSingle(e);
  }

  /** The role test is an exact comparison: any other role value does not keep an element. */
  lemma OnlyButtonRoleKeeps(e: Element, role: string)
    requires IsRelevant(e) && !e.hasImgDescendant && e.ariaLabel == None
    requires forall i :: 0 <= i < |e.textContent| ==> IsJsSpace(e.textContent[i])
    ensures Extract([e.(role := Some(role))]) != [] <==> role == "button"
  {
    ExtractSingle(e.(role := Some(role)));
  }
}
