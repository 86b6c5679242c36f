/** The extractor, `parse_ksef_xml` and its helpers (ksef_pdf.py:22-252):
    from the parsed element tree of a KSeF invoice (schemas FA(1), FA(2) and
    FA(3)) to the normalised invoice record the renderer consumes.

    The record mirrors the Python dict. A group of keys that the source sets
    together under one `if element is not None` is an Option (None: the keys
    are absent); a single value that may be Python's None is an
    Option<string>. */
module Extractor {
  import opened Wrappers
  import opened Strings
  import opened Xml
  import opened Sequences

  const Fa1Namespace: string := "http://crd.gov.pl/wzor/2021/11/29/11089/"
  const Fa2Namespace: string := "http://crd.gov.pl/wzor/2023/06/29/12648/"
  const Fa3Namespace: string := "http://crd.gov.pl/wzor/2025/06/25/13775/"

  /** KSEF_NAMESPACES */
  const KsefNamespaces: set<string> := {Fa1Namespace, Fa2Namespace, Fa3Namespace}

  /** One row of VAT_RATE_FIELDS: the suffixes of the P_13_x (net) and
      P_14_x (VAT) fields and the rate's label. */
  datatype VatRateField = VatRateField(netSuffix: string, vatSuffix: string, rate: string)

  /** VAT_RATE_FIELDS, in its fixed order. */
  const VatRateFields: seq<VatRateField> := [
    VatRateField("1", "1", "23%"),
    VatRateField("2", "2", "22%"),
    VatRateField("3", "3", "5%"),
    VatRateField("4", "4", "7%"),
    VatRateField("5", "5", "8%"),
    VatRateField("6", "6", "0%"),
    VatRateField("7", "7", "zw.")
  ]

  /** The annotation flags read from Adnotacje. */
  const AnnotationFields: seq<string> := ["P_16", "P_17", "P_18", "P_18A", "P_23"]

  /** The ValueError raised for a namespace outside KSEF_NAMESPACES. */
  datatype Error = UnknownNamespace(ns: string)

  /** Naglowek: form code (raw text), its two attributes and three texts. */
  datatype Header = Header(
    kodFormularza: Option<string>, kodSystemowy: Option<string>, wersjaSchemy: Option<string>,
    wariant: Option<string>, dataWytworzenia: Option<string>, systemInfo: Option<string>)

  datatype Identity = Identity(nip: Option<string>, nazwa: Option<string>)
  datatype Address = Address(kodKraju: Option<string>, adresL1: Option<string>, adresL2: Option<string>)
  datatype Contact = Contact(email: Option<string>, telefon: Option<string>)

  /** A Podmiot dict: each sub-dict present iff its element is, `nr_klienta`
      always set. */
  datatype Party = Party(dane: Option<Identity>, adres: Option<Address>, kontakt: Option<Contact>, nrKlienta: Option<string>)

  datatype VatBucket = VatBucket(stawka: string, netto: string, vat: string)
  datatype Description = Description(klucz: string, wartosc: string)

  /** One FaWiersz; only the description has a default (""). */
  datatype LineItem = LineItem(
    nr: Option<string>, nazwa: string, jednostka: Option<string>, ilosc: Option<string>,
    cenaJedn: Option<string>, cenaJednBrutto: Option<string>, wartoscNetto: Option<string>,
    wartoscNettoWaluta: Option<string>, stawkaVat: Option<string>)

  datatype BankAccount = BankAccount(nrRachunku: Option<string>, nazwaBanku: Option<string>)
  datatype Payment = Payment(
    zaplacono: Option<string>, dataZaplaty: Option<string>, forma: Option<string>,
    termin: Option<string>, rachunek: Option<BankAccount>)
  datatype Order = Order(data: Option<string>, numer: Option<string>)
  datatype Registries = Registries(krs: Option<string>, regon: Option<string>, bdo: Option<string>)

  /** The `stopka` dict: `tekst` is set (possibly to None) iff Informacje is
      present, `krs`/`regon`/`bdo` iff Rejestry is. */
  datatype Footer = Footer(tekst: Option<Option<string>>, rejestry: Option<Registries>)

  /** The keys set when the Fa element is present. */
  datatype Fa = Fa(
    waluta: string, dataWystawienia: Option<string>, miejsceWystawienia: Option<string>,
    numerFaktury: Option<string>, dataDostawy: Option<string>, bruttoTotal: Option<string>,
    rodzajFaktury: Option<string>, fp: Option<string>,
    vatSummary: seq<VatBucket>, adnotacje: map<string, string>, dodatkowyOpis: seq<Description>,
    wiersze: seq<LineItem>, platnosc: Option<Payment>, zamowienia: seq<Order>)

  /** The normalised invoice. `sprzedawca`/`nabywca` None is the empty dict. */
  datatype Invoice = Invoice(
    namespace: string, naglowek: Option<Header>, sprzedawca: Option<Party>, nabywca: Option<Party>,
    fa: Option<Fa>, stopka: Footer)

  /** The namespace read off the root tag: everything before the first "}"
      with leading "{" characters removed, or "" when there is no "}". */
  function NamespaceOf(tag: string): (ns: string)
    ensures '}' !in tag ==> ns == ""
    ensures '}' !in ns
  {
    if '}' in tag then LStripChar(TakeUntil(tag, '}'), '{') else ""
  }

  lemma {:induction false} TakeUntilFirst(a: string, b: string, c: char)
    requires c !in a
    ensures TakeUntil(a + [c] + b, c) == a
    decreases |a|
  {
    if a != [] {
      assert (a + [c] + b)[1..] == a[1..] + [c] + b;
      TakeUntilFirst(a[1..], b, c);
    }
  }

  /** For a tag written `{uri}local`, the namespace found is `uri`. */
  lemma NamespaceOfQualified(uri: string, local: string)
    requires '}' !in uri && (uri == [] || uri[0] != '{')
    ensures NamespaceOf(QName(uri, local)) == uri
  {
    var tag := QName(uri, local);
    assert tag == ("{" + uri) + ['}'] + local;
    assert tag[|uri| + 1] == '}';
    TakeUntilFirst("{" + uri, local, '}');
    assert ("{" + uri)[1..] == uri;
  }

  /** `el.get(key)` on the attributes. */
  function Attr(e: Element, key: string): Option<string> {
    if key in e.attrib then Some(e.attrib[key]) else None
  }

  /** The Naglowek keys, set iff the Naglowek element is present. The form
      code keeps its raw, unstripped text. */
  function HeaderOf(root: Element, ns: string): (h: Option<Header>)
    ensures h.Some? <==> Find(root, ns, "Naglowek").Some?
  {
    match Find(root, ns, "Naglowek")
    case None => None
    case Some(n) =>
      var kf := Find(n, ns, "KodFormularza");
      Some(Header(
        if kf.Some? then kf.value.text else None,
        if kf.Some? then Attr(kf.value, "kodSystemowy") else None,
        if kf.Some? then Attr(kf.value, "wersjaSchemy") else None,
        Opt(n, ns, "WariantFormularza"),
        Opt(n, ns, "DataWytworzeniaFa"),
        Opt(n, ns, "SystemInfo")))
  }

  /** `_parse_podmiot`: the empty dict for a missing element; otherwise each
      sub-dict exactly when its element is present, and `nr_klienta`. */
  function ParsePodmiot(el: Option<Element>, ns: string): (p: Option<Party>)
    ensures p.None? <==> el.None?
    ensures p.Some? ==> (p.value.dane.Some? <==> Find(el.value, ns, "DaneIdentyfikacyjne").Some?)
    ensures p.Some? ==> (p.value.adres.Some? <==> Find(el.value, ns, "Adres").Some?)
    ensures p.Some? ==> (p.value.kontakt.Some? <==> Find(el.value, ns, "DaneKontaktowe").Some?)
  {
    match el
    case None => None
    case Some(e) =>
      var dane := Find(e, ns, "DaneIdentyfikacyjne");
      var adres := Find(e, ns, "Adres");
      var kontakt := Find(e, ns, "DaneKontaktowe");
      Some(Party(
        if dane.Some? then Some(Identity(Opt(dane.value, ns, "NIP"), Opt(dane.value, ns, "Nazwa"))) else None,
        if adres.Some? then
          Some(Address(Opt(adres.value, ns, "KodKraju"), Opt(adres.value, ns, "AdresL1"), Opt(adres.value, ns, "AdresL2")))
        else None,
        if kontakt.Some? then Some(Contact(Opt(kontakt.value, ns, "Email"), Opt(kontakt.value, ns, "Telefon"))) else None,
        Opt(e, ns, "NrKlienta")))
  }

  /** `_parse_wiersz`: every field is `_text` of its child; only the
      description (P_7) defaults to "" instead of None. */
  function ParseWiersz(e: Element, ns: string): (item: LineItem)
    ensures RawText(e, ns, "P_7") == "" ==> item.nazwa == ""
    ensures RawText(e, ns, "P_7") != "" ==> item.nazwa == Strip(RawText(e, ns, "P_7"))
  {
    LineItem(
      Opt(e, ns, "NrWierszaFa"),
      Text(e, ns, "P_7", Some("")).GetOr(""),
      Opt(e, ns, "P_8A"),
      Opt(e, ns, "P_8B"),
      Opt(e, ns, "P_9A"),
      Opt(e, ns, "P_9B"),
      Opt(e, ns, "P_11"),
      Opt(e, ns, "P_11A"),
      Opt(e, ns, "P_12"))
  }

  /** The bucket for rate row k, as appended when its net field is present:
      the net text, and the VAT text unless that is None or "" ("0.00"). */
  function BucketAt(fa: Element, ns: string, k: nat): (b: VatBucket)
    requires k < |VatRateFields|
    ensures b.stawka == VatRateFields[k].rate
  {
    var f := VatRateFields[k];
    var netto := Opt(fa, ns, "P_13_" + f.netSuffix);
    var vat := Opt(fa, ns, "P_14_" + f.vatSuffix);
    VatBucket(f.rate, netto.GetOr(""), if Truthy(vat) then vat.value else "0.00")
  }

  /** Whether rate row k has a bucket: its P_13_k text is not None. */
  predicate HasNet(fa: Element, ns: string, k: nat)
    requires k < |VatRateFields|
  {
    Opt(fa, ns, "P_13_" + VatRateFields[k].netSuffix).Some?
  }

  /** What rate row k contributes to the summary: its bucket, or nothing. */
  function CandidateAt(fa: Element, ns: string, k: nat): Option<VatBucket>
    requires k < |VatRateFields|
  {
    if HasNet(fa, ns, k) then Some(BucketAt(fa, ns, k)) else None
  }

  function VatCandidates(fa: Element, ns: string): (c: seq<Option<VatBucket>>)
    ensures |c| == |VatRateFields|
  {
    seq(|VatRateFields|, k requires 0 <= k < |VatRateFields| => CandidateAt(fa, ns, k))
  }

  function VatSummaryOf(fa: Element, ns: string): seq<VatBucket> {
    Keep(VatCandidates(fa, ns))
  }

  /** The position of a rate label in VAT_RATE_FIELDS. */
  function RateRank(rate: string): (k: nat)
    ensures forall m :: 0 <= m < |VatRateFields| && VatRateFields[m].rate == rate ==> k == m
  {
    if rate == "23%" then 0 else if rate == "22%" then 1 else if rate == "5%" then 2
    else if rate == "7%" then 3 else if rate == "8%" then 4 else if rate == "0%" then 5 else 6
  }

  predicate HasBucket(summary: seq<VatBucket>, rate: string) {
    exists i :: 0 <= i < |summary| && summary[i].stawka == rate
  }

  /** The VAT summary (ksef_pdf.py:173-183): at most seven buckets, each one
      the bucket of its rate row, in the fixed order of VAT_RATE_FIELDS; the
      bucket for a rate is there iff its P_13 text is not None, whatever its
      P_14 is. */
  lemma VatSummarySpec(fa: Element, ns: string)
    ensures var r := VatSummaryOf(fa, ns);
      && |r| <= 7
      && (forall i :: 0 <= i < |r| ==> RateRank(r[i].stawka) < 7 && r[i] == BucketAt(fa, ns, RateRank(r[i].stawka)))
      && (forall i, j :: 0 <= i < j < |r| ==> RateRank(r[i].stawka) < RateRank(r[j].stawka))
      && (forall m :: 0 <= m < 7 ==> (HasBucket(r, VatRateFields[m].rate) <==> HasNet(fa, ns, m)))
  {
    VatSummaryRanked(fa, ns);
    forall m | 0 <= m < 7
      ensures HasBucket(VatSummaryOf(fa, ns), VatRateFields[m].rate) <==> HasNet(fa, ns, m)
    {
      VatSummaryPresence(fa, ns, m);
    }
  }

  /** Every candidate sits at the position of its own rate. */
  lemma CandidatesRanked(fa: Element, ns: string)
    ensures var c := VatCandidates(fa, ns);
      forall j :: 0 <= j < |c| && c[j].Some? ==> RateRank(c[j].value.stawka) == j && c[j].value == BucketAt(fa, ns, j)
  {
  }

  /** The kept buckets are bucket rows, in strictly increasing rate order. */
  lemma VatSummaryRanked(fa: Element, ns: string)
    ensures var r := VatSummaryOf(fa, ns);
      && |r| <= 7
      && (forall i :: 0 <= i < |r| ==> RateRank(r[i].stawka) < 7 && r[i] == BucketAt(fa, ns, RateRank(r[i].stawka)))
      && (forall i, j :: 0 <= i < j < |r| ==> RateRank(r[i].stawka) < RateRank(r[j].stawka))
  {
    var c := VatCandidates(fa, ns);
    var rank := (b: VatBucket) => RateRank(b.stawka);
    CandidatesRanked(fa, ns);
    KeepMembers(c);
    KeepRanked(c, rank);
  }

  /** Rate row m has a bucket in the summary iff its net text is present. */
  lemma VatSummaryPresence(fa: Element, ns: string, m: nat)
    requires m < 7
    ensures HasBucket(VatSummaryOf(fa, ns), VatRateFields[m].rate) <==> HasNet(fa, ns, m)
  {
    var c := VatCandidates(fa, ns);
    var r := VatSummaryOf(fa, ns);
    var rank := (b: VatBucket) => RateRank(b.stawka);
    CandidatesRanked(fa, ns);
    KeepMembers(c);
    KeepRanked(c, rank);
    if HasNet(fa, ns, m) {
      assert c[m] == Some(BucketAt(fa, ns, m));
      var i :| 0 <= i < |r| && r[i] == BucketAt(fa, ns, m);
      assert r[i].stawka == VatRateFields[m].rate;
    }
    if HasBucket(r, VatRateFields[m].rate) {
      var i :| 0 <= i < |r| && r[i].stawka == VatRateFields[m].rate;
      assert rank(r[i]) == m;
      assert c[m] == Some(r[i]);
    }
  }

  /** A bucket's VAT is the stripped P_14 text, or "0.00" when P_14 is
      missing, empty or only whitespace. */
  lemma BucketVat(fa: Element, ns: string, k: nat)
    requires k < |VatRateFields|
    ensures var raw := RawText(fa, ns, "P_14_" + VatRateFields[k].vatSuffix);
      BucketAt(fa, ns, k).vat == if AllSpace(raw) then "0.00" else Strip(raw)
  {
  }

  /** The map a loop over `keys` builds when it stores each truthy value
      under its key. */
  function FlagsFrom(keys: seq<string>, vals: seq<Option<string>>): map<string, string>
    requires |keys| == |vals|
  {
    if keys == [] then map[]
    else
      var m := FlagsFrom(keys[..|keys| - 1], vals[..|vals| - 1]);
      if Truthy(vals[|vals| - 1]) then m[keys[|keys| - 1] := vals[|vals| - 1].value] else m
  }

  /** With distinct keys: a key is stored iff its value is truthy, and then
      holds that value; nothing else is stored. */
  lemma {:induction false} FlagsFromSpec(keys: seq<string>, vals: seq<Option<string>>)
    requires |keys| == |vals|
    requires forall i, j :: 0 <= i < j < |keys| ==> keys[i] != keys[j]
    ensures forall f :: f in FlagsFrom(keys, vals) ==> f in keys
    ensures forall k :: 0 <= k < |keys| ==> (keys[k] in FlagsFrom(keys, vals) <==> Truthy(vals[k]))
    ensures forall k :: 0 <= k < |keys| && Truthy(vals[k]) ==> FlagsFrom(keys, vals)[keys[k]] == vals[k].value
  {
    if keys != [] {
      var n := |keys| - 1;
      var pk, pv := keys[..n], vals[..n];
      FlagsFromSpec(pk, pv);
      var p := FlagsFrom(pk, pv);
      var m := FlagsFrom(keys, vals);
      assert m == if Truthy(vals[n]) then p[keys[n] := vals[n].value] else p;
      forall f | f in m
        ensures f in keys
      {
        if f != keys[n] {
          assert f in pk;
        }
      }
      forall k | 0 <= k < n
        ensures (keys[k] in m <==> Truthy(vals[k]))
        ensures Truthy(vals[k]) ==> m[keys[k]] == vals[k].value
      {
        assert pk[k] == keys[k] && pv[k] == vals[k] && keys[k] != keys[n];
      }
    }
  }

  /** One more step of the loop that builds FlagsFrom. */
  lemma FlagsFromStep(keys: seq<string>, vals: seq<Option<string>>, k: nat)
    requires |keys| == |vals| && k < |keys|
    ensures FlagsFrom(keys[..k + 1], vals[..k + 1]) ==
      if Truthy(vals[k]) then FlagsFrom(keys[..k], vals[..k])[keys[k] := vals[k].value] else FlagsFrom(keys[..k], vals[..k])
  {
    assert keys[..k + 1][..k] == keys[..k];
    assert vals[..k + 1][..k] == vals[..k];
  }

  /** The texts of the annotation flags, in AnnotationFields order. */
  function AnnotationValues(adn: Element, ns: string): seq<Option<string>> {
    MapPrefix((f: string) => Opt(adn, ns, f), AnnotationFields)
  }

  function AnnotationsOf(fa: Element, ns: string): map<string, string> {
    match Find(fa, ns, "Adnotacje")
    case None => map[]
    case Some(adn) =>
      MapPrefixSpec((f: string) => Opt(adn, ns, f), AnnotationFields);
      FlagsFrom(AnnotationFields, AnnotationValues(adn, ns))
  }

  /** Annotations (ksef_pdf.py:185-192): a flag is a key iff Adnotacje is
      present and the flag's text is non-empty, and then maps to that text. */
  lemma AnnotationsSpec(fa: Element, ns: string)
    ensures var m := AnnotationsOf(fa, ns);
      forall f :: f in m <==>
        f in AnnotationFields && Find(fa, ns, "Adnotacje").Some? && Truthy(Opt(Find(fa, ns, "Adnotacje").value, ns, f))
    ensures var m := AnnotationsOf(fa, ns);
      forall f :: f in m ==> m[f] == Opt(Find(fa, ns, "Adnotacje").value, ns, f).value
  {
    if Find(fa, ns, "Adnotacje").Some? {
      AnnotationFlags(Find(fa, ns, "Adnotacje").value, ns);
    }
  }

  /** The flags stored for a present Adnotacje element. */
  lemma AnnotationFlags(adn: Element, ns: string)
    ensures |AnnotationValues(adn, ns)| == |AnnotationFields|
    ensures var m := FlagsFrom(AnnotationFields, AnnotationValues(adn, ns));
      && (forall f :: f in m <==> f in AnnotationFields && Truthy(Opt(adn, ns, f)))
      && (forall f :: f in m ==> m[f] == Opt(adn, ns, f).value)
  {
    AnnotationFieldsDistinct();
    FlagsOfValues(AnnotationFields, (f: string) => Opt(adn, ns, f));
  }

  lemma AnnotationFieldsDistinct()
    ensures forall i, j :: 0 <= i < j < |AnnotationFields| ==> AnnotationFields[i] != AnnotationFields[j]
  {
  }

  /** Storing the truthy values of `g` over distinct keys: a key is stored
      iff its value is truthy, and then holds it. */
  lemma FlagsOfValues(keys: seq<string>, g: string -> Option<string>)
    requires forall i, j :: 0 <= i < j < |keys| ==> keys[i] != keys[j]
    ensures |MapPrefix(g, keys)| == |keys|
    ensures var m := FlagsFrom(keys, MapPrefix(g, keys));
      && (forall f :: f in m <==> f in keys && Truthy(g(f)))
      && (forall f :: f in m ==> m[f] == g(f).value)
  {
    var vals := MapPrefix(g, keys);
    MapPrefixSpec(g, keys);
    FlagsFromSpec(keys, vals);
    var m := FlagsFrom(keys, vals);
    forall f | f in keys
      ensures f in m <==> Truthy(g(f))
      ensures f in m ==> m[f] == g(f).value
    {
      var k :| 0 <= k < |keys| && keys[k] == f;
      assert vals[k] == g(f);
    }
  }

  /** The pair one DodatkowyOpis contributes: none unless key and value are
      both non-empty. */
  function DescriptionOf(e: Element, ns: string): (d: Option<Description>)
    ensures d.Some? <==> Truthy(Opt(e, ns, "Klucz")) && Truthy(Opt(e, ns, "Wartosc"))
  {
    var k := Opt(e, ns, "Klucz");
    var w := Opt(e, ns, "Wartosc");
    if Truthy(k) && Truthy(w) then Some(Description(k.value, w.value)) else None
  }

  /** What each element contributes, in order. */
  function DescriptionCandidates(els: seq<Element>, ns: string): seq<Option<Description>> {
    MapPrefix((e: Element) => DescriptionOf(e, ns), els)
  }

  function DescriptionsFrom(els: seq<Element>, ns: string): seq<Description> {
    Keep(DescriptionCandidates(els, ns))
  }

  function DescriptionsOf(fa: Element, ns: string): seq<Description> {
    DescriptionsFrom(FindAll(fa, ns, "DodatkowyOpis"), ns)
  }

  /** Additional descriptions (ksef_pdf.py:194-201): the kept pairs are the
      pairs of the elements that have both a key and a value, one per such
      element, in document order (the positions `ps`, strictly increasing,
      and every such element's position among them); none has an empty key
      or value. */
  lemma DescriptionsSpec(els: seq<Element>, ns: string)
    ensures var r := DescriptionsFrom(els, ns);
      var ps := KeptAt(DescriptionCandidates(els, ns));
      && |r| == |ps| <= |els|
      && (forall i :: 0 <= i < |r| ==> ps[i] < |els| && DescriptionOf(els[ps[i]], ns) == Some(r[i]))
      && (forall i, j :: 0 <= i < j < |r| ==> ps[i] < ps[j])
      && (forall k :: 0 <= k < |els| && Truthy(Opt(els[k], ns, "Klucz")) && Truthy(Opt(els[k], ns, "Wartosc")) ==> k in ps)
      && (forall i :: 0 <= i < |r| ==> r[i].klucz != "" && r[i].wartosc != "")
  {
    var c := DescriptionCandidates(els, ns);
    var r := DescriptionsFrom(els, ns);
    var ps := KeptAt(c);
    MapPrefixSpec((e: Element) => DescriptionOf(e, ns), els);
    KeepAt(c);
    KeepMembers(c);
    forall i | 0 <= i < |r|
      ensures ps[i] < |els| && DescriptionOf(els[ps[i]], ns) == Some(r[i])
      ensures r[i].klucz != "" && r[i].wartosc != ""
    {
      assert c[ps[i]] == Some(r[i]);
    }
    forall k | 0 <= k < |els| && Truthy(Opt(els[k], ns, "Klucz")) && Truthy(Opt(els[k], ns, "Wartosc"))
      ensures k in ps
    {
      assert c[k].Some?;
    }
  }

  function OrderOf(zam: Element, ns: string): Order {
    Order(Opt(zam, ns, "DataZamowienia"), Opt(zam, ns, "NrZamowienia"))
  }

  function OrdersFrom(els: seq<Element>, ns: string): seq<Order> {
    MapPrefix((e: Element) => OrderOf(e, ns), els)
  }

  /** The order references, [] when WarunkiTransakcji is missing. */
  function OrdersOf(fa: Element, ns: string): (r: seq<Order>)
    ensures Find(fa, ns, "WarunkiTransakcji").None? ==> r == []
  {
    match Find(fa, ns, "WarunkiTransakcji")
    case None => []
    case Some(w) => OrdersFrom(FindAll(w, ns, "Zamowienia"), ns)
  }

  /** Orders (ksef_pdf.py:226-237): one per Zamowienia element, in order. */
  lemma OrdersSpec(els: seq<Element>, ns: string)
    ensures |OrdersFrom(els, ns)| == |els|
    ensures forall j :: 0 <= j < |els| ==> OrdersFrom(els, ns)[j] == OrderOf(els[j], ns)
  {
    MapPrefixSpec((e: Element) => OrderOf(e, ns), els);
  }

  /** The line items parsed from a run of FaWiersz elements, in order. */
  function LineItemsFrom(els: seq<Element>, ns: string): seq<LineItem> {
    MapPrefix((e: Element) => ParseWiersz(e, ns), els)
  }

  function LineItemsOf(fa: Element, ns: string): seq<LineItem> {
    LineItemsFrom(FindAll(fa, ns, "FaWiersz"), ns)
  }

  /** Line items (ksef_pdf.py:203-207): one per FaWiersz element, in document
      order, each the element parsed on its own. */
  lemma LineItemsSpec(els: seq<Element>, ns: string)
    ensures |LineItemsFrom(els, ns)| == |els|
    ensures forall j :: 0 <= j < |els| ==> LineItemsFrom(els, ns)[j] == ParseWiersz(els[j], ns)
  {
    MapPrefixSpec((e: Element) => ParseWiersz(e, ns), els);
  }

  /** The payment dict: the four texts when Platnosc is present, plus the
      bank keys when RachunekBankowy is; {} (None) otherwise. */
  function PaymentOf(fa: Element, ns: string): (p: Option<Payment>)
    ensures p.Some? <==> Find(fa, ns, "Platnosc").Some?
    ensures p.Some? ==> (p.value.rachunek.Some? <==> Find(Find(fa, ns, "Platnosc").value, ns, "RachunekBankowy").Some?)
  {
    match Find(fa, ns, "Platnosc")
    case None => None
    case Some(pl) =>
      var rach := Find(pl, ns, "RachunekBankowy");
      Some(Payment(
        Opt(pl, ns, "Zaplacono"), Opt(pl, ns, "DataZaplaty"), Opt(pl, ns, "FormaPlatnosci"), Opt(pl, ns, "TerminPlatnosci"),
        if rach.Some? then Some(BankAccount(Opt(rach.value, ns, "NrRB"), Opt(rach.value, ns, "NazwaBanku"))) else None))
  }

  /** All the Fa keys. */
  function FaOf(fa: Element, ns: string): Fa {
    Fa(
      Text(fa, ns, "KodWaluty", Some("PLN")).GetOr("PLN"),
      Opt(fa, ns, "P_1"), Opt(fa, ns, "P_1M"), Opt(fa, ns, "P_2"), Opt(fa, ns, "P_6"), Opt(fa, ns, "P_15"),
      Opt(fa, ns, "RodzajFaktury"), Opt(fa, ns, "FP"),
      VatSummaryOf(fa, ns), AnnotationsOf(fa, ns), DescriptionsOf(fa, ns), LineItemsOf(fa, ns),
      PaymentOf(fa, ns), OrdersOf(fa, ns))
  }

  /** The `stopka` dict. */
  function FooterOf(root: Element, ns: string): (f: Footer)
    ensures f.tekst.Some? <==> Find(root, ns, "Stopka").Some? && Find(Find(root, ns, "Stopka").value, ns, "Informacje").Some?
    ensures f.rejestry.Some? <==> Find(root, ns, "Stopka").Some? && Find(Find(root, ns, "Stopka").value, ns, "Rejestry").Some?
  {
    match Find(root, ns, "Stopka")
    case None => Footer(None, None)
    case Some(s) =>
      var info := Find(s, ns, "Informacje");
      var rej := Find(s, ns, "Rejestry");
      Footer(
        if info.Some? then Some(Opt(info.value, ns, "StopkaFaktury")) else None,
        if rej.Some? then Some(Registries(Opt(rej.value, ns, "KRS"), Opt(rej.value, ns, "REGON"), Opt(rej.value, ns, "BDO"))) else None)
  }

  /** `parse_ksef_xml` on an already parsed tree, as a function: fails with
      the namespace found when it is not a KSeF one, before anything else is
      read; otherwise the record carries that namespace. */
  function Extract(root: Element): (r: Result<Invoice, Error>)
    ensures r.Success? <==> NamespaceOf(root.tag) in KsefNamespaces
    ensures r.Failure? ==> r.error == UnknownNamespace(NamespaceOf(root.tag))
    ensures r.Success? ==> r.value.namespace == NamespaceOf(root.tag)
    ensures r.Success? ==> (r.value.fa.Some? <==> Find(root, r.value.namespace, "Fa").Some?)
  {
    var ns := NamespaceOf(root.tag);
    if ns !in KsefNamespaces then Failure(UnknownNamespace(ns))
    else
      var fa := Find(root, ns, "Fa");
      Success(Invoice(
        ns,
        HeaderOf(root, ns),
        ParsePodmiot(Find(root, ns, "Podmiot1"), ns),
        ParsePodmiot(Find(root, ns, "Podmiot2"), ns),
        if fa.Some? then Some(FaOf(fa.value, ns)) else None,
        FooterOf(root, ns)))
  }

  /** Each of the three KSeF schemas is accepted, and the record names it. */
  lemma KnownSchemaAccepted(root: Element, uri: string, local: string)
    requires uri in KsefNamespaces && root.tag == QName(uri, local)
    ensures Extract(root).Success? && Extract(root).value.namespace == uri
  {
    assert '}' !in uri && uri[0] != '{' by {
      PlainNamespaces();
    }
    NamespaceOfQualified(uri, local);
  }

  /** The three schema URIs start with "h" and hold no "}". */
  lemma PlainNamespaces()
    ensures forall u :: u in KsefNamespaces ==> |u| > 0 && u[0] == 'h' && '}' !in u
  {
    assert '}' !in Fa1Namespace && Fa1Namespace[0] == 'h';
    assert '}' !in Fa2Namespace && Fa2Namespace[0] == 'h';
    assert '}' !in Fa3Namespace && Fa3Namespace[0] == 'h';
  }

  /** Any other namespace is rejected, naming the namespace found. */
  lemma UnknownSchemaRejected(root: Element, uri: string, local: string)
    requires uri !in KsefNamespaces && '}' !in uri && (uri == [] || uri[0] != '{')
    requires root.tag == QName(uri, local)
    ensures Extract(root) == Failure(UnknownNamespace(uri))
  {
    NamespaceOfQualified(uri, local);
  }

  /** A root tag without any namespace yields "" and is rejected. */
  lemma UnqualifiedRootRejected(root: Element)
    requires '}' !in root.tag
    ensures Extract(root) == Failure(UnknownNamespace(""))
  {
  }

  // ---------------------------------------------------------------------
  // The extraction as the source performs it: loops that append.
  // ---------------------------------------------------------------------

  method ExtractVatSummary(fa: Element, ns: string) returns (summary: seq<VatBucket>)
    ensures summary == VatSummaryOf(fa, ns)
  {
    ghost var c := VatCandidates(fa, ns);
    summary := [];
    var k := 0;
    while k < |VatRateFields|
      invariant 0 <= k <= |VatRateFields|
      invariant summary == Keep(c[..k])
    {
      assert c[k] == CandidateAt(fa, ns, k);
      KeepStep(c, k);
      if HasNet(fa, ns, k) {
        summary := summary + [BucketAt(fa, ns, k)];
      }
      k := k + 1;
    }
    assert c[..|c|] == c;
  }

  method ExtractAnnotations(fa: Element, ns: string) returns (adnotacje: map<string, string>)
    ensures adnotacje == AnnotationsOf(fa, ns)
  {
    adnotacje := map[];
    var adn := Find(fa, ns, "Adnotacje");
    if adn.Some? {
      ghost var vals := AnnotationValues(adn.value, ns);
      MapPrefixSpec((f: string) => Opt(adn.value, ns, f), AnnotationFields);
      var k := 0;
      while k < |AnnotationFields|
        invariant 0 <= k <= |AnnotationFields|
        invariant adnotacje == FlagsFrom(AnnotationFields[..k], vals[..k])
      {
        var val := Opt(adn.value, ns, AnnotationFields[k]);
        assert val == vals[k];
        FlagsFromStep(AnnotationFields, vals, k);
        if Truthy(val) {
          adnotacje := adnotacje[AnnotationFields[k] := val.value];
        }
        k := k + 1;
      }
      assert AnnotationFields[..|AnnotationFields|] == AnnotationFields;
      assert vals[..|vals|] == vals;
    }
  }

  /** One more element of the loop that builds DescriptionsFrom. */
  lemma DescriptionsStep(els: seq<Element>, ns: string, i: nat)
    requires i < |els|
    ensures DescriptionsFrom(els[..i + 1], ns) ==
      DescriptionsFrom(els[..i], ns) + (if DescriptionOf(els[i], ns).Some? then [DescriptionOf(els[i], ns).value] else [])
  {
    assert els[..i + 1][..i] == els[..i];
    var c := DescriptionCandidates(els[..i + 1], ns);
    assert c[..|c| - 1] == DescriptionCandidates(els[..i], ns);
  }

  method ExtractDescriptions(els: seq<Element>, ns: string) returns (opisy: seq<Description>)
    ensures opisy == DescriptionsFrom(els, ns)
  {
    opisy := [];
    var i := 0;
    while i < |els|
      invariant 0 <= i <= |els|
      invariant opisy == DescriptionsFrom(els[..i], ns)
    {
      var klucz := Opt(els[i], ns, "Klucz");
      var wartosc := Opt(els[i], ns, "Wartosc");
      if Truthy(klucz) && Truthy(wartosc) {
        opisy := opisy + [Description(klucz.value, wartosc.value)];
      }
      DescriptionsStep(els, ns, i);
      i := i + 1;
    }
    assert els[..|els|] == els;
  }

  method ExtractLineItems(els: seq<Element>, ns: string) returns (wiersze: seq<LineItem>)
    ensures wiersze == LineItemsFrom(els, ns)
  {
    wiersze := [];
    var i := 0;
    while i < |els|
      invariant 0 <= i <= |els|
      invariant wiersze == LineItemsFrom(els[..i], ns)
    {
      wiersze := wiersze + [ParseWiersz(els[i], ns)];
      assert els[..i + 1][..i] == els[..i];
      i := i + 1;
    }
    assert els[..|els|] == els;
  }

  method ExtractOrders(els: seq<Element>, ns: string) returns (zamowienia: seq<Order>)
    ensures zamowienia == OrdersFrom(els, ns)
  {
    zamowienia := [];
    var i := 0;
    while i < |els|
      invariant 0 <= i <= |els|
      invariant zamowienia == OrdersFrom(els[..i], ns)
    {
      zamowienia := zamowienia + [OrderOf(els[i], ns)];
      assert els[..i + 1][..i] == els[..i];
      i := i + 1;
    }
    assert els[..|els|] == els;
  }

  /** `parse_ksef_xml` after `SafeET.parse`: checks the namespace, then fills
      the record section by section. */
  method ParseKsefXml(root: Element) returns (r: Result<Invoice, Error>)
    ensures r == Extract(root)
  {
    var nsUri := NamespaceOf(root.tag);
    if nsUri !in KsefNamespaces {
      return Failure(UnknownNamespace(nsUri));
    }
    var naglowek := HeaderOf(root, nsUri);
    var sprzedawca := ParsePodmiot(Find(root, nsUri, "Podmiot1"), nsUri);
    var nabywca := ParsePodmiot(Find(root, nsUri, "Podmiot2"), nsUri);
    var faData: Option<Fa> := None;
    var fa := Find(root, nsUri, "Fa");
    if fa.Some? {
      var f := fa.value;
      var vatSummary := ExtractVatSummary(f, nsUri);
      var adnotacje := ExtractAnnotations(f, nsUri);
      var opisy := ExtractDescriptions(FindAll(f, nsUri, "DodatkowyOpis"), nsUri);
      var wiersze := ExtractLineItems(FindAll(f, nsUri, "FaWiersz"), nsUri);
      var zamowienia: seq<Order> := [];
      var warunki := Find(f, nsUri, "WarunkiTransakcji");
      if warunki.Some? {
        zamowienia := ExtractOrders(FindAll(warunki.value, nsUri, "Zamowienia"), nsUri);
      }
      faData := Some(Fa(
        Text(f, nsUri, "KodWaluty", Some("PLN")).GetOr("PLN"),
        Opt(f, nsUri, "P_1"), Opt(f, nsUri, "P_1M"), Opt(f, nsUri, "P_2"), Opt(f, nsUri, "P_6"), Opt(f, nsUri, "P_15"),
        Opt(f, nsUri, "RodzajFaktury"), Opt(f, nsUri, "FP"),
        vatSummary, adnotacje, opisy, wiersze, PaymentOf(f, nsUri), zamowienia));
    }
    var stopka := FooterOf(root, nsUri);
    r := Success(Invoice(nsUri, naglowek, sprzedawca, nabywca, faData, stopka));
  }
}
