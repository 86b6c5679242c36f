/** The parsed XML tree the extractor walks (ElementTree's view of it) and the
    three lookups ksef_pdf.py builds on: `_find`, `_findall` and `_text`. */
module Xml {
  import opened Wrappers
  import opened Strings

  /** An ElementTree element: a tag in `{uri}local` form, its text (None
      when the element has no text), its attributes and its children in
      document order. */
  datatype Element = Element(tag: string, text: Option<string>, attrib: map<string, string>, children: seq<Element>)

  /** The tag `ksef:local` stands for once the prefix is bound to `ns`. */
  function QName(ns: string, local: string): string {
    "{" + ns + "}" + local
  }

  /** Position of the first element with tag `tag`, or |cs| when none has it. */
  function FirstWithTag(cs: seq<Element>, tag: string): (i: nat)
    ensures i <= |cs|
    ensures i < |cs| ==> cs[i].tag == tag
    ensures forall j :: 0 <= j < i ==> cs[j].tag != tag
  {
    if cs == [] || cs[0].tag == tag then 0 else 1 + FirstWithTag(cs[1..], tag)
  }

  /** `element.find("ksef:" + local, ns)`: the first direct child with that tag. */
  function Find(e: Element, ns: string, local: string): (r: Option<Element>)
    ensures r.None? <==> forall c :: c in e.children ==> c.tag != QName(ns, local)
    ensures r.Some? ==> r.value in e.children && r.value.tag == QName(ns, local)
  {
    var i := FirstWithTag(e.children, QName(ns, local));
    if i < |e.children| then Some(e.children[i]) else None
  }

  /** The positions in `cs` of the elements with tag `tag`: all of them,
      each once, in increasing order. */
  function TagPositions(cs: seq<Element>, tag: string): (ps: seq<nat>)
    ensures forall i :: 0 <= i < |ps| ==> ps[i] < |cs| && cs[ps[i]].tag == tag
    ensures forall i, j :: 0 <= i < j < |ps| ==> ps[i] < ps[j]
    ensures forall k :: 0 <= k < |cs| && cs[k].tag == tag ==> k in ps
  {
    if cs == [] then []
    else TagPositions(cs[..|cs| - 1], tag) + (if cs[|cs| - 1].tag == tag then [|cs| - 1] else [])
  }

  /** The children of `cs` with tag `tag`, in document order: the elements at
      TagPositions, so every match appears, as often as it occurs, and in
      the order of `cs`. */
  function WithTag(cs: seq<Element>, tag: string): (r: seq<Element>)
    ensures |r| == |TagPositions(cs, tag)| <= |cs|
    ensures forall i :: 0 <= i < |r| ==> r[i] == cs[TagPositions(cs, tag)[i]]
    ensures forall c :: c in r ==> c in cs && c.tag == tag
    ensures forall c :: c in cs && c.tag == tag ==> c in r
  {
    var ps := TagPositions(cs, tag);
    var r := seq(|ps|, i requires 0 <= i < |ps| => cs[ps[i]]);
    PositionsBound(ps, |cs|);
    PickedMembers(cs, tag, ps, r);
    r
  }

  /** The elements picked at the positions of the matches are exactly the
      matching elements. */
  lemma PickedMembers(cs: seq<Element>, tag: string, ps: seq<nat>, r: seq<Element>)
    requires ps == TagPositions(cs, tag)
    requires |r| == |ps| && forall i :: 0 <= i < |r| ==> r[i] == cs[ps[i]]
    ensures forall c :: c in r ==> c in cs && c.tag == tag
    ensures forall c :: c in cs && c.tag == tag ==> c in r
  {
    forall c | c in cs && c.tag == tag
      ensures c in r
    {
      var k :| 0 <= k < |cs| && cs[k] == c;
      var i :| 0 <= i < |ps| && ps[i] == k;
      assert r[i] == c;
    }
  }

  /** Strictly increasing positions below n are at most n many. */
  lemma {:induction false} PositionsBound(ps: seq<nat>, n: nat)
    requires forall i :: 0 <= i < |ps| ==> ps[i] < n
    requires forall i, j :: 0 <= i < j < |ps| ==> ps[i] < ps[j]
    ensures |ps| <= n
  {
    if ps != [] {
      var m := |ps| - 1;
      PositionsBound(ps[..m], ps[m]);
    }
  }

  /** `element.findall("ksef:" + local, ns)`. */
  function FindAll(e: Element, ns: string, local: string): seq<Element> {
    WithTag(e.children, QName(ns, local))
  }

  /** The raw text of the child `local`, with a missing child and a child
      without text both read as "". */
  function RawText(e: Element, ns: string, local: string): string {
    match Find(e, ns, local)
    case Some(c) => c.text.GetOr("")
    case None => ""
  }

  /** `_text(e, "ksef:" + local, ns, default)`: the default when the child is
      missing or its text is empty, otherwise the text with surrounding
      whitespace stripped. A text made only of whitespace is not empty, so
      it yields Some("") rather than the default. */
  function Text(e: Element, ns: string, local: string, default: Option<string>): (r: Option<string>)
    ensures Find(e, ns, local).None? ==> r == default
    ensures RawText(e, ns, local) == "" ==> r == default
    ensures RawText(e, ns, local) != "" ==> r == Some(Strip(RawText(e, ns, local)))
    ensures RawText(e, ns, local) != "" ==> r.Some? && Trimmed(r.value)
    ensures RawText(e, ns, local) != "" ==> (r == Some("") <==> AllSpace(RawText(e, ns, local)))
    ensures RawText(e, ns, local) != "" && Trimmed(RawText(e, ns, local)) ==> r == Some(RawText(e, ns, local))
  {
    var raw := RawText(e, ns, local);
    if raw != "" then Some(Strip(raw)) else default
  }

  /** `_text` without a default. */
  function Opt(e: Element, ns: string, local: string): Option<string> {
    Text(e, ns, local, None)
  }
}
