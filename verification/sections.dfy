/** The text of every line the renderer prints (ksef_pdf.py:324-658), as
    functions of the invoice record: titles, the `"   |   "`-joined field
    lines, party lines, table cells and the footer. Where a value is read
    with `d.get(key)` and tested for truth, a missing key, None and "" all
    leave the line out. */
module Sections {
  import opened Wrappers
  import opened Strings
  import opened Decimals
  import opened Extractor

  /** The separator between the fields of one line. */
  const Separator: string := "   |   "

  /** PAYMENT_METHODS: FormaPlatnosci codes and their labels. */
  const PaymentMethods: map<string, string> := map[
    "1" := "gotowka", "2" := "karta", "3" := "bon", "4" := "czek",
    "5" := "kredyt", "6" := "przelew", "7" := "platnosc mobilna"]

  /** VAT rates printed without a "%" sign. */
  const ExemptRates: set<string> := {"zw", "zw.", "np", "oo"}

  /** The longest item name printed in full. */
  const MaxNameLength: nat := 55

  const ItemHeaders: seq<string> := ["Lp", "Nazwa towaru / uslugi", "Jedn.", "Ilosc", "Cena netto", "VAT%", "Wart. netto"]
  const VatHeaders: seq<string> := ["Stawka VAT", "Netto", "VAT", "Brutto"]
  const Watermark: string := "Wygenerowano przez ITTF KSeF Wizualizator | ittf.pl"

  /** What fpdf is given for a value that may be None: the model draws "". */
  function Shown(v: Option<string>): string {
    v.GetOr("")
  }

  // ---------------------------------------------------------------------
  // Header (ksef_pdf.py:324-363)
  // ---------------------------------------------------------------------

  /** `rodzaj_faktury`, which reads "VAT" when the Fa keys are absent. */
  function Kind(inv: Invoice): Option<string> {
    if inv.fa.Some? then inv.fa.value.rodzajFaktury else Some("VAT")
  }

  /** The invoice type line. */
  function Title(inv: Invoice): string {
    if Truthy(Kind(inv)) then "FAKTURA " + Kind(inv).value else "FAKTURA"
  }

  /** The title is the bare word exactly when Fa is present without a
      (non-empty) RodzajFaktury; without Fa it reads "FAKTURA VAT"; otherwise
      the kind follows the word after one space. */
  lemma TitleSpec(inv: Invoice)
    ensures Title(inv) == "FAKTURA" <==> inv.fa.Some? && !Truthy(inv.fa.value.rodzajFaktury)
    ensures inv.fa.None? ==> Title(inv) == "FAKTURA VAT"
    ensures Title(inv)[..7] == "FAKTURA"
    ensures inv.fa.Some? && Truthy(inv.fa.value.rodzajFaktury) ==>
      Title(inv)[8..] == inv.fa.value.rodzajFaktury.value
  {
    if Truthy(Kind(inv)) {
      assert |Title(inv)| > 7;
    }
  }

  /** `f"Nr {numer}"`: "" when the Fa keys are absent, and Python's "None"
      when Fa is present without P_2. */
  function NumberLine(inv: Invoice): (r: string)
    ensures |r| >= 3 && r[..3] == "Nr "
  {
    "Nr " + (if inv.fa.None? then "" else match inv.fa.value.numerFaktury case None => "None" case Some(n) => n)
  }

  lemma NumberLineSpec(inv: Invoice)
    ensures inv.fa.None? ==> NumberLine(inv) == "Nr "
    ensures inv.fa.Some? && inv.fa.value.numerFaktury.None? ==> NumberLine(inv)[3..] == "None"
    ensures inv.fa.Some? && inv.fa.value.numerFaktury.Some? ==> NumberLine(inv)[3..] == inv.fa.value.numerFaktury.value
  {
  }

  /** The currency line is printed for any non-empty currency other than PLN. */
  predicate ForeignCurrency(inv: Invoice) {
    inv.fa.Some? && inv.fa.value.waluta != "" && inv.fa.value.waluta != "PLN"
  }

  function Labelled(prefix: string, v: Option<string>): seq<string> {
    if Truthy(v) then [prefix + v.value] else []
  }

  /** The date fields, in order: issue date, place, delivery date, currency. */
  function DateFields(inv: Invoice): seq<string> {
    if inv.fa.None? then []
    else
      var fa := inv.fa.value;
      Labelled("Data wystawienia: ", fa.dataWystawienia)
      + Labelled("Miejsce: ", fa.miejsceWystawienia)
      + Labelled("Data dostawy/wykonania: ", fa.dataDostawy)
      + (if ForeignCurrency(inv) then ["Waluta: " + fa.waluta] else [])
  }

  /** Field by field, in order: "Data wystawienia: ", "Miejsce: " and
      "Data dostawy/wykonania: " with their values, each iff the value is
      non-empty, then "Waluta: " iff the currency is foreign. So at most four
      fields, none at all exactly when none of them is set, and the
      currency field, when present, last. */
  lemma DateFieldsSpec(inv: Invoice)
    ensures |DateFields(inv)| <= 4
    ensures DateFields(inv) == [] <==>
      inv.fa.None? || (!Truthy(inv.fa.value.dataWystawienia) && !Truthy(inv.fa.value.miejsceWystawienia)
        && !Truthy(inv.fa.value.dataDostawy) && !ForeignCurrency(inv))
    ensures ForeignCurrency(inv) <==>
      DateFields(inv) != [] && DateFields(inv)[|DateFields(inv)| - 1][0] == 'W'
    ensures ForeignCurrency(inv) ==> DateFields(inv)[|DateFields(inv)| - 1] == "Waluta: " + inv.fa.value.waluta
    ensures inv.fa.Some? ==>
      var fa := inv.fa.value;
      var d := if Truthy(fa.dataWystawienia) then 1 else 0;
      var m := if Truthy(fa.miejsceWystawienia) then 1 else 0;
      var p := if Truthy(fa.dataDostawy) then 1 else 0;
      var w := if ForeignCurrency(inv) then 1 else 0;
      && |DateFields(inv)| == d + m + p + w
      && (Truthy(fa.dataWystawienia) ==> DateFields(inv)[0] == "Data wystawienia: " + fa.dataWystawienia.value)
      && (Truthy(fa.miejsceWystawienia) ==> DateFields(inv)[d] == "Miejsce: " + fa.miejsceWystawienia.value)
      && (Truthy(fa.dataDostawy) ==> DateFields(inv)[d + m] == "Data dostawy/wykonania: " + fa.dataDostawy.value)
      && (ForeignCurrency(inv) ==> DateFields(inv)[d + m + p] == "Waluta: " + fa.waluta)
  {
    if inv.fa.Some? {
      var fa := inv.fa.value;
      LabelledSpec("Data wystawienia: ", fa.dataWystawienia);
      LabelledSpec("Miejsce: ", fa.miejsceWystawienia);
      LabelledSpec("Data dostawy/wykonania: ", fa.dataDostawy);
      var pre := Labelled("Data wystawienia: ", fa.dataWystawienia)
        + Labelled("Miejsce: ", fa.miejsceWystawienia)
        + Labelled("Data dostawy/wykonania: ", fa.dataDostawy);
      forall i | 0 <= i < |pre| ensures pre[i][0] == 'D' || pre[i][0] == 'M' {
      }
      if !ForeignCurrency(inv) {
        assert DateFields(inv) == pre;
      }
    }
  }

  /** The schema line, shown when the form code has a non-empty
      `kodSystemowy` attribute. */
  function SchemaLine(inv: Invoice): Option<string> {
    if inv.naglowek.Some? && Truthy(inv.naglowek.value.kodSystemowy)
    then Some("Schemat: " + inv.naglowek.value.kodSystemowy.value) else None
  }

  /** The schema line is shown iff the form code carries a non-empty
      `kodSystemowy`, and then reads "Schemat: " followed by it. */
  lemma SchemaLineSpec(inv: Invoice)
    ensures SchemaLine(inv).Some? <==> inv.naglowek.Some? && Truthy(inv.naglowek.value.kodSystemowy)
    ensures SchemaLine(inv).Some? ==> SchemaLine(inv).value == "Schemat: " + inv.naglowek.value.kodSystemowy.value
  {
  }

  // ---------------------------------------------------------------------
  // Parties (ksef_pdf.py:365-416)
  // ---------------------------------------------------------------------

  /** `party.get("nazwa", "")`. */
  function PartyName(p: Option<Party>): string {
    if p.Some? && p.value.dane.Some? then Shown(p.value.dane.value.nazwa) else ""
  }

  /** The lines under the name, in the order the block prints them: the
      identity group, the address group, the contact group, the client
      number. */
  function PartyLines(p: Option<Party>): seq<string> {
    if p.None? then []
    else
      var q := p.value;
      IdentityLines(q) + AddressLines(q) + ContactLines(q) + Labelled("Nr klienta: ", q.nrKlienta)
  }

  function IdentityLines(q: Party): seq<string> {
    if q.dane.Some? then Labelled("NIP: ", q.dane.value.nip) else []
  }

  function AddressLines(q: Party): seq<string> {
    if q.adres.Some? then Labelled("", q.adres.value.adresL1) + Labelled("", q.adres.value.adresL2) else []
  }

  function ContactLines(q: Party): seq<string> {
    if q.kontakt.Some? then Labelled("Email: ", q.kontakt.value.email) + Labelled("Tel: ", q.kontakt.value.telefon) else []
  }

  /** A field prints one non-blank line when it is set and none otherwise. */
  lemma LabelledSpec(prefix: string, v: Option<string>)
    ensures |Labelled(prefix, v)| == (if Truthy(v) then 1 else 0)
    ensures Truthy(v) ==> Labelled(prefix, v) == [prefix + v.value]
    ensures forall i :: 0 <= i < |Labelled(prefix, v)| ==> Labelled(prefix, v)[i] != ""
  {
  }

  /** No blank line is printed, there are at most six, and the empty dict
      (a missing Podmiot element) prints none. Field by field, in order:
      "NIP: ", the two address lines as they are, "Email: ", "Tel: " and
      "Nr klienta: ", each printed iff its value is non-empty, a missing
      sub-dict counting as missing values. */
  lemma PartyLinesSpec(p: Option<Party>)
    ensures |PartyLines(p)| <= 6
    ensures forall i :: 0 <= i < |PartyLines(p)| ==> PartyLines(p)[i] != ""
    ensures p.None? ==> PartyLines(p) == []
    ensures p.Some? ==>
      var q := p.value;
      PartyLines(p)
      == Labelled("NIP: ", if q.dane.Some? then q.dane.value.nip else None)
      + Labelled("", if q.adres.Some? then q.adres.value.adresL1 else None)
      + Labelled("", if q.adres.Some? then q.adres.value.adresL2 else None)
      + Labelled("Email: ", if q.kontakt.Some? then q.kontakt.value.email else None)
      + Labelled("Tel: ", if q.kontakt.Some? then q.kontakt.value.telefon else None)
      + Labelled("Nr klienta: ", q.nrKlienta)
  {
    if p.Some? {
      var q := p.value;
      var groups := [IdentityLines(q), AddressLines(q), ContactLines(q), Labelled("Nr klienta: ", q.nrKlienta)];
      assert |IdentityLines(q)| <= 1 && NoBlank(IdentityLines(q)) by {
        if q.dane.Some? { LabelledSpec("NIP: ", q.dane.value.nip); }
      }
      assert |AddressLines(q)| <= 2 && NoBlank(AddressLines(q)) by {
        if q.adres.Some? {
          LabelledSpec("", q.adres.value.adresL1);
          LabelledSpec("", q.adres.value.adresL2);
          NoBlankAppend(Labelled("", q.adres.value.adresL1), Labelled("", q.adres.value.adresL2));
        }
      }
      assert |ContactLines(q)| <= 2 && NoBlank(ContactLines(q)) by {
        if q.kontakt.Some? {
          LabelledSpec("Email: ", q.kontakt.value.email);
          LabelledSpec("Tel: ", q.kontakt.value.telefon);
          NoBlankAppend(Labelled("Email: ", q.kontakt.value.email), Labelled("Tel: ", q.kontakt.value.telefon));
        }
      }
      LabelledSpec("Nr klienta: ", q.nrKlienta);
      NoBlankAppend(IdentityLines(q), AddressLines(q));
      NoBlankAppend(IdentityLines(q) + AddressLines(q), ContactLines(q));
      NoBlankAppend(IdentityLines(q) + AddressLines(q) + ContactLines(q), Labelled("Nr klienta: ", q.nrKlienta));
      PartyFieldLines(q);
    }
  }

  /** The three groups, flattened field by field. */
  lemma PartyFieldLines(q: Party)
    ensures PartyLines(Some(q))
      == Labelled("NIP: ", if q.dane.Some? then q.dane.value.nip else None)
      + Labelled("", if q.adres.Some? then q.adres.value.adresL1 else None)
      + Labelled("", if q.adres.Some? then q.adres.value.adresL2 else None)
      + Labelled("Email: ", if q.kontakt.Some? then q.kontakt.value.email else None)
      + Labelled("Tel: ", if q.kontakt.Some? then q.kontakt.value.telefon else None)
      + Labelled("Nr klienta: ", q.nrKlienta)
  {
    var i := Labelled("NIP: ", if q.dane.Some? then q.dane.value.nip else None);
    var a1 := Labelled("", if q.adres.Some? then q.adres.value.adresL1 else None);
    var a2 := Labelled("", if q.adres.Some? then q.adres.value.adresL2 else None);
    var c1 := Labelled("Email: ", if q.kontakt.Some? then q.kontakt.value.email else None);
    var c2 := Labelled("Tel: ", if q.kontakt.Some? then q.kontakt.value.telefon else None);
    var n := Labelled("Nr klienta: ", q.nrKlienta);
    assert IdentityLines(q) == i by {
    }
    assert AddressLines(q) == a1 + a2 by {
    }
    assert ContactLines(q) == c1 + c2 by {
    }
    SeqAssoc(i, a1, a2);
    SeqAssoc(i + a1 + a2, c1, c2);
  }

  lemma SeqAssoc(a: seq<string>, b: seq<string>, c: seq<string>)
    ensures a + (b + c) == a + b + c
  {
  }

  predicate NoBlank(lines: seq<string>) {
    forall i :: 0 <= i < |lines| ==> lines[i] != ""
  }

  lemma NoBlankAppend(a: seq<string>, b: seq<string>)
    requires NoBlank(a) && NoBlank(b)
    ensures NoBlank(a + b)
  {
    forall i | 0 <= i < |a + b| ensures (a + b)[i] != "" {
      if i >= |a| {
        assert (a + b)[i] == b[i - |a|];
      }
    }
  }

  // ---------------------------------------------------------------------
  // Line items (ksef_pdf.py:418-488)
  // ---------------------------------------------------------------------

  /** The VAT cell: "%" appended unless the rate is empty or exempt. */
  function VatCell(s: Option<string>): string {
    if Truthy(s) && s.value !in ExemptRates then s.value + "%" else Shown(s)
  }

  /** The cell ends in "%" iff the rate is non-empty and not exempt, and it
      is then the rate with exactly that one character added; otherwise it
      is the rate as given. */
  lemma VatCellSpec(s: Option<string>)
    ensures |VatCell(s)| > 0 && VatCell(s)[|VatCell(s)| - 1] == '%' <==> Truthy(s) && s.value !in ExemptRates
    ensures s.Some? ==> VatCell(s)[..|s.value|] == s.value
    ensures s.Some? ==> |VatCell(s)| == |s.value| + (if Truthy(s) && s.value !in ExemptRates then 1 else 0)
    ensures s.None? ==> VatCell(s) == ""
  {
  }

  /** Names longer than 55 characters keep their first 52 and end in "...". */
  function ShortName(s: string): (r: string)
    ensures |r| <= MaxNameLength
    ensures |s| <= MaxNameLength ==> r == s
    ensures |s| > MaxNameLength ==> |r| == MaxNameLength && r[..52] == s[..52] && r[52..] == "..."
  {
    if |s| > MaxNameLength then s[..MaxNameLength - 3] + "..." else s
  }

  /** The seven cells of one table row. */
  function ItemCells(it: LineItem): (r: seq<string>)
    ensures |r| == |ItemHeaders|
  {
    [Shown(it.nr), ShortName(it.nazwa), Shown(it.jednostka), Shown(it.ilosc),
     FmtText(it.cenaJedn), VatCell(it.stawkaVat), FmtText(it.wartoscNetto)]
  }

  /** The price and value cells always hold a two-decimal amount, even for a
      missing or unreadable value (0.00), and a name never overflows. */
  lemma ItemCellsSpec(it: LineItem)
    ensures |ItemCells(it)[1]| <= MaxNameLength
    ensures AmountText(ItemCells(it)[4]) && AmountText(ItemCells(it)[6])
    ensures it.cenaJedn.None? ==> ItemCells(it)[4] == "0.00"
    ensures it.wartoscNetto.None? ==> ItemCells(it)[6] == "0.00"
  {
    var c := ItemCells(it);
    assert c[1] == ShortName(it.nazwa) && c[4] == FmtText(it.cenaJedn) && c[6] == FmtText(it.wartoscNetto);
    AmountCell(it.cenaJedn);
    AmountCell(it.wartoscNetto);
  }

  /** Text ending in a point and two digits, with at least one digit before. */
  predicate AmountText(c: string) {
    |c| >= 4 && c[|c| - 3] == '.' && IsDigit(c[|c| - 2]) && IsDigit(c[|c| - 1])
  }

  /** An amount cell holds a two-decimal amount, "0.00" for a missing value. */
  lemma AmountCell(v: Option<string>)
    ensures AmountText(FmtText(v))
    ensures v.None? ==> FmtText(v) == "0.00"
  {
    MissingAmount();
  }

  /** Read back without its separators, the price cell is the unit net
      price rounded half-even to hundredths, and the value cell the net
      value. */
  lemma ItemAmountsSpec(it: LineItem)
    ensures var d := ToDecimal(it.cenaJedn);
      ParsePlain(RemoveSpaces(ItemCells(it)[4])) == Some(Dec(d.neg, RoundCents(d), 2))
    ensures var d := ToDecimal(it.wartoscNetto);
      ParsePlain(RemoveSpaces(ItemCells(it)[6])) == Some(Dec(d.neg, RoundCents(d), 2))
  {
    var c := ItemCells(it);
    assert c[4] == FmtText(it.cenaJedn) && c[6] == FmtText(it.wartoscNetto);
    FmtRoundTrip(ToDecimal(it.cenaJedn));
    FmtRoundTrip(ToDecimal(it.wartoscNetto));
  }

  /** A missing amount prints as "0.00". */
  lemma MissingAmount()
    ensures FmtText(None) == "0.00"
  {
    assert RoundCents(ZeroCents) == 0;
    assert NatDigits(0) == "0";
    assert Group("0") == "0";
    assert Cents2(0) == "00";
  }

  // ---------------------------------------------------------------------
  // VAT summary (ksef_pdf.py:490-548)
  // ---------------------------------------------------------------------

  function NetOf(b: VatBucket): Dec {
    ToDecimal(Some(b.netto))
  }

  function VatOf(b: VatBucket): Dec {
    ToDecimal(Some(b.vat))
  }

  /** The gross amount of a row, `netto + vat`, exact. */
  function GrossOf(b: VatBucket): Dec {
    Add(NetOf(b), VatOf(b))
  }

  function VatRowCells(b: VatBucket): seq<string> {
    ["Stawka " + b.stawka, Fmt(NetOf(b)), Fmt(VatOf(b)), Fmt(GrossOf(b))]
  }

  /** The running totals, started from Decimal("0") and summed in row order. */
  function SumNet(rows: seq<VatBucket>): Dec {
    if rows == [] then Zero else Add(SumNet(rows[..|rows| - 1]), NetOf(rows[|rows| - 1]))
  }

  function SumVat(rows: seq<VatBucket>): Dec {
    if rows == [] then Zero else Add(SumVat(rows[..|rows| - 1]), VatOf(rows[|rows| - 1]))
  }

  function SumGross(rows: seq<VatBucket>): Dec {
    if rows == [] then Zero else Add(SumGross(rows[..|rows| - 1]), GrossOf(rows[|rows| - 1]))
  }

  /** One more row of the loop that sums the totals. */
  lemma SumsStep(rows: seq<VatBucket>, i: nat)
    requires i < |rows|
    ensures SumNet(rows[..i + 1]) == Add(SumNet(rows[..i]), NetOf(rows[i]))
    ensures SumVat(rows[..i + 1]) == Add(SumVat(rows[..i]), VatOf(rows[i]))
    ensures SumGross(rows[..i + 1]) == Add(SumGross(rows[..i]), GrossOf(rows[i]))
  {
    assert rows[..i + 1][..i] == rows[..i];
  }

  /** The gross total is exactly the net total plus the VAT total: summing
      the rows' gross amounts and adding the two totals give the same Decimal,
      down to its exponent and the sign of a zero. */
  lemma {:induction false} SumGrossSplit(rows: seq<VatBucket>)
    ensures SumGross(rows) == Add(SumNet(rows), SumVat(rows))
  {
    if rows != [] {
      var init := rows[..|rows| - 1];
      var b := rows[|rows| - 1];
      SumGrossSplit(init);
      AddRegroup(SumNet(init), NetOf(b), SumVat(init), VatOf(b));
    } else {
      assert Add(Zero, Zero) == Zero;
    }
  }

  function TotalsCells(rows: seq<VatBucket>): seq<string> {
    ["RAZEM", Fmt(SumNet(rows)), Fmt(SumVat(rows)), Fmt(SumGross(rows))]
  }

  /** The totals row agrees with itself: its gross cell prints the net total
      plus the VAT total. */
  lemma TotalsConsistent(rows: seq<VatBucket>)
    ensures TotalsCells(rows)[3] == Fmt(Add(SumNet(rows), SumVat(rows)))
  {
    SumGrossSplit(rows);
  }

  /** The amount due line, printed when P_15 is non-empty. */
  function DueLine(inv: Invoice): Option<string> {
    if inv.fa.Some? && Truthy(inv.fa.value.bruttoTotal)
    then Some("DO ZAPLATY: " + FmtText(inv.fa.value.bruttoTotal) + " " + inv.fa.value.waluta)
    else None
  }

  /** The amount due is shown iff P_15 is non-empty, in the invoice's
      currency, and it is read from P_15 alone: whatever the VAT buckets
      are, and so whatever the totals row says, the line is the same. The
      amount between the label and the currency, read back without its
      separators, is P_15 rounded half-even to hundredths. */
  lemma DueLineSpec(inv: Invoice, rows: seq<VatBucket>)
    ensures DueLine(inv).Some? <==> inv.fa.Some? && Truthy(inv.fa.value.bruttoTotal)
    ensures DueLine(inv).Some? ==>
      var s := DueLine(inv).value;
      var w := inv.fa.value.waluta;
      && |s| >= 12 + 4 + 1 + |w| && s[..12] == "DO ZAPLATY: " && s[|s| - |w|..] == w && s[|s| - |w| - 1] == ' '
    ensures DueLine(inv).Some? ==>
      AmountReadsBack(DueLine(inv).value, inv.fa.value.waluta, ToDecimal(inv.fa.value.bruttoTotal))
    ensures inv.fa.Some? ==> DueLine(inv.(fa := Some(inv.fa.value.(vatSummary := rows)))) == DueLine(inv)
  {
    DueLineShape(inv);
    DueLineAmount(inv);
  }

  /** The text of `s` between the 12-character label and the blank before
      the currency `w` reads back as `d` rounded to hundredths. */
  predicate AmountReadsBack(s: string, w: string, d: Dec) {
    |s| >= 12 + |w| + 1 && ParsePlain(RemoveSpaces(s[12..|s| - |w| - 1])) == Some(Dec(d.neg, RoundCents(d), 2))
  }

  lemma DueLineAmount(inv: Invoice)
    ensures DueLine(inv).Some? ==>
      AmountReadsBack(DueLine(inv).value, inv.fa.value.waluta, ToDecimal(inv.fa.value.bruttoTotal))
  {
    if DueLine(inv).Some? {
      var f := FmtText(inv.fa.value.bruttoTotal);
      var w := inv.fa.value.waluta;
      DueAmount(DueLine(inv).value, f, w, ToDecimal(inv.fa.value.bruttoTotal));
    }
  }

  lemma DueLineShape(inv: Invoice)
    ensures DueLine(inv).Some? ==>
      var s := DueLine(inv).value;
      var w := inv.fa.value.waluta;
      && |s| >= 12 + 4 + 1 + |w| && s[..12] == "DO ZAPLATY: " && s[|s| - |w|..] == w && s[|s| - |w| - 1] == ' '
  {
    if DueLine(inv).Some? {
      var w := inv.fa.value.waluta;
      var f := FmtText(inv.fa.value.bruttoTotal);
      FmtShape(f, w);
    }
  }

  lemma FmtShape(f: string, w: string)
    requires |f| >= 4
    ensures var s := "DO ZAPLATY: " + f + " " + w;
      && |s| >= 12 + 4 + 1 + |w| && s[..12] == "DO ZAPLATY: " && s[|s| - |w|..] == w && s[|s| - |w| - 1] == ' '
  {
    var s := "DO ZAPLATY: " + f + " " + w;
    assert s == "DO ZAPLATY: " + f + (" " + w);
  }

  lemma DueAmount(s: string, f: string, w: string, d: Dec)
    requires f == Fmt(d) && s == "DO ZAPLATY: " + f + " " + w
    ensures AmountReadsBack(s, w, d)
  {
    assert s[12..|s| - |w| - 1] == f by {
      assert s == "DO ZAPLATY: " + f + (" " + w);
      Between("DO ZAPLATY: ", f, " " + w);
    }
    FmtRoundTrip(d);
  }

  // ---------------------------------------------------------------------
  // Payment (ksef_pdf.py:550-593)
  // ---------------------------------------------------------------------

  /** `data.get("platnosc", {})` as an Option: None for {}. */
  function PaymentOfInvoice(inv: Invoice): Option<Payment> {
    if inv.fa.Some? then inv.fa.value.platnosc else None
  }

  function AccountNumber(p: Payment): Option<string> {
    if p.rachunek.Some? then p.rachunek.value.nrRachunku else None
  }

  function BankName(p: Payment): Option<string> {
    if p.rachunek.Some? then p.rachunek.value.nazwaBanku else None
  }

  /** The section is printed iff one of the five keys it checks is truthy;
      the bank name alone does not count. */
  predicate PaymentShown(p: Option<Payment>) {
    p.Some? && (Truthy(p.value.zaplacono) || Truthy(p.value.forma) || Truthy(p.value.dataZaplaty)
      || Truthy(p.value.termin) || Truthy(AccountNumber(p.value)))
  }

  /** `PAYMENT_METHODS.get(code, code)`. */
  function FormLabel(forma: Option<string>): Option<string> {
    if forma.Some? && forma.value in PaymentMethods then Some(PaymentMethods[forma.value]) else forma
  }

  /** A known code is replaced by its label; anything else is kept. */
  lemma FormLabelSpec(forma: Option<string>)
    ensures forma == Some("6") ==> FormLabel(forma) == Some("przelew")
    ensures forma == Some("1") ==> FormLabel(forma) == Some("gotowka")
    ensures forma == Some("2") ==> FormLabel(forma) == Some("karta")
    ensures forma == Some("3") ==> FormLabel(forma) == Some("bon")
    ensures forma == Some("4") ==> FormLabel(forma) == Some("czek")
    ensures forma == Some("5") ==> FormLabel(forma) == Some("kredyt")
    ensures forma == Some("7") ==> FormLabel(forma) == Some("platnosc mobilna")
    ensures forma.Some? && forma.value in PaymentMethods ==> Truthy(FormLabel(forma))
    ensures forma.None? || forma.value !in PaymentMethods ==> FormLabel(forma) == forma
  {
  }

  /** The status, form and due date parts of the first payment line. */
  function PaymentParts(p: Payment): seq<string> {
    StatusParts(p) + Labelled("Forma: ", FormLabel(p.forma)) + Labelled("Termin: ", p.termin)
  }

  /** The status part, with the payment date after a "paid" status. */
  function StatusParts(p: Payment): seq<string> {
    if p.zaplacono == Some("1") then ["Zaplacono"] + Labelled("dnia ", p.dataZaplaty)
    else if p.zaplacono == Some("2") then ["Nie zaplacono"] else []
  }

  /** Every status part starts with 'Z', 'N' or 'd', and each status word
      is there exactly for its code. */
  lemma StatusPartsSpec(p: Payment)
    ensures forall x :: x in StatusParts(p) ==> x != "" && (x[0] == 'Z' || x[0] == 'N' || x[0] == 'd')
    ensures "Zaplacono" in StatusParts(p) <==> p.zaplacono == Some("1")
    ensures "Nie zaplacono" in StatusParts(p) <==> p.zaplacono == Some("2")
  {
    if p.zaplacono == Some("1") && Truthy(p.dataZaplaty) {
      assert StatusParts(p) == ["Zaplacono", "dnia " + p.dataZaplaty.value];
    }
  }

  /** A labelled field contributes its one line, and only it. */
  lemma LabelledMembers(prefix: string, v: Option<string>)
    ensures forall x :: x in Labelled(prefix, v) <==> Truthy(v) && x == prefix + v.value
  {
  }

  /** "Zaplacono" is printed iff the status is "1" and "Nie zaplacono" iff
      it is "2", so an unknown status prints no status part; the payment
      date is printed only for a paid invoice, and then right after
      "Zaplacono"; the form part is printed iff the form's label is
      non-empty, and the due-date part iff the due date is. */
  lemma PaymentPartsSpec(p: Payment)
    ensures |PaymentParts(p)| <= 4
    ensures p.zaplacono == Some("1") ==> PaymentParts(p)[0] == "Zaplacono"
    ensures p.zaplacono == Some("1") && Truthy(p.dataZaplaty) ==> PaymentParts(p)[1] == "dnia " + p.dataZaplaty.value
    ensures p.zaplacono == Some("2") ==> PaymentParts(p)[0] == "Nie zaplacono"
    ensures forall i :: 0 <= i < |PaymentParts(p)| ==> PaymentParts(p)[i] != ""
    ensures p.zaplacono != Some("1") ==> forall i :: 0 <= i < |PaymentParts(p)| ==> PaymentParts(p)[i][0] != 'd'
    ensures "Zaplacono" in PaymentParts(p) <==> p.zaplacono == Some("1")
    ensures "Nie zaplacono" in PaymentParts(p) <==> p.zaplacono == Some("2")
    ensures Truthy(FormLabel(p.forma)) <==> exists x :: x in PaymentParts(p) && StartsWith(x, "Forma: ")
    ensures Truthy(FormLabel(p.forma)) ==> "Forma: " + FormLabel(p.forma).value in PaymentParts(p)
    ensures Truthy(p.termin) <==> exists x :: x in PaymentParts(p) && StartsWith(x, "Termin: ")
    ensures Truthy(p.termin) ==> "Termin: " + p.termin.value in PaymentParts(p)
  {
    var parts := PaymentParts(p);
    StatusPartsSpec(p);
    LabelledSpec("Forma: ", FormLabel(p.forma));
    LabelledSpec("Termin: ", p.termin);
    PaymentPartsOrigin(p);
    forall i | 0 <= i < |parts| ensures parts[i] != "" && (p.zaplacono != Some("1") ==> parts[i][0] != 'd') {
      assert parts[i] in parts;
    }
    FormaPresence(p);
    TerminPresence(p);
  }

  /** Each part is a status part, the form part or the due-date part. */
  lemma PaymentPartsOrigin(p: Payment)
    ensures forall x :: x in PaymentParts(p) ==>
      || x in StatusParts(p)
      || (Truthy(FormLabel(p.forma)) && x == "Forma: " + FormLabel(p.forma).value)
      || (Truthy(p.termin) && x == "Termin: " + p.termin.value)
  {
    LabelledMembers("Forma: ", FormLabel(p.forma));
    LabelledMembers("Termin: ", p.termin);
  }

  lemma FormaPresence(p: Payment)
    ensures Truthy(FormLabel(p.forma)) <==> exists x :: x in PaymentParts(p) && StartsWith(x, "Forma: ")
    ensures Truthy(FormLabel(p.forma)) ==> "Forma: " + FormLabel(p.forma).value in PaymentParts(p)
  {
    if Truthy(FormLabel(p.forma)) {
      var x := "Forma: " + FormLabel(p.forma).value;
      assert Labelled("Forma: ", FormLabel(p.forma)) == [x];
      assert PaymentParts(p)[|StatusParts(p)|] == x;
      assert StartsWith(x, "Forma: ");
    } else {
      StatusPartsSpec(p);
      PaymentPartsOrigin(p);
      forall x | x in PaymentParts(p) ensures !StartsWith(x, "Forma: ") {
        assert x != "" && x[0] != 'F';
        NotStartsWith(x, "Forma: ");
      }
    }
  }

  lemma TerminPresence(p: Payment)
    ensures Truthy(p.termin) <==> exists x :: x in PaymentParts(p) && StartsWith(x, "Termin: ")
    ensures Truthy(p.termin) ==> "Termin: " + p.termin.value in PaymentParts(p)
  {
    if Truthy(p.termin) {
      var x := "Termin: " + p.termin.value;
      assert Labelled("Termin: ", p.termin) == [x];
      assert PaymentParts(p)[|PaymentParts(p)| - 1] == x;
      assert StartsWith(x, "Termin: ");
    } else {
      StatusPartsSpec(p);
      PaymentPartsOrigin(p);
      forall x | x in PaymentParts(p) ensures !StartsWith(x, "Termin: ") {
        assert x != "" && x[0] != 'T';
        NotStartsWith(x, "Termin: ");
      }
    }
  }

  /** The lines under the payment header: the joined parts when there are
      any, then the account number, then the bank name. */
  function PaymentLines(p: Payment): seq<string> {
    (if PaymentParts(p) != [] then [Join(PaymentParts(p), Separator)] else [])
    + Labelled("Nr rachunku: ", AccountNumber(p))
    + Labelled("Bank: ", BankName(p))
  }

  /** Which line is which: the parts line comes first iff there are parts,
      the account line next iff the account number is non-empty, the bank
      line last iff the bank name is non-empty, and nothing else. */
  lemma PaymentLinesSpec(p: Payment)
    ensures var k := if PaymentParts(p) != [] then 1 else 0;
      var a := if Truthy(AccountNumber(p)) then 1 else 0;
      var b := if Truthy(BankName(p)) then 1 else 0;
      && |PaymentLines(p)| == k + a + b
      && (PaymentParts(p) != [] ==> PaymentLines(p)[0] == Join(PaymentParts(p), Separator))
      && (Truthy(AccountNumber(p)) ==> PaymentLines(p)[k] == "Nr rachunku: " + AccountNumber(p).value)
      && (Truthy(BankName(p)) ==> PaymentLines(p)[k + a] == "Bank: " + BankName(p).value)
  {
  }

  // ---------------------------------------------------------------------
  // Additional information (ksef_pdf.py:595-619)
  // ---------------------------------------------------------------------

  function DescriptionLine(d: Description): string {
    d.klucz + ": " + d.wartosc
  }

  /** The parts of an order line: number first, then date. */
  function OrderParts(o: Order): seq<string> {
    Labelled("Nr: ", o.numer) + Labelled("Data: ", o.data)
  }

  function OrderLine(o: Order): string {
    Join(OrderParts(o), "   ")
  }

  /** An order with neither number nor date still prints a (blank) line;
      one with both prints them separated by three spaces. */
  lemma OrderLineSpec(o: Order)
    ensures !Truthy(o.numer) && !Truthy(o.data) ==> OrderLine(o) == ""
    ensures Truthy(o.numer) && !Truthy(o.data) ==> OrderLine(o) == "Nr: " + o.numer.value
    ensures !Truthy(o.numer) && Truthy(o.data) ==> OrderLine(o) == "Data: " + o.data.value
    ensures Truthy(o.numer) && Truthy(o.data) ==>
      OrderLine(o) == "Nr: " + o.numer.value + "   " + "Data: " + o.data.value
  {
    if Truthy(o.numer) && Truthy(o.data) {
      JoinCons("Nr: " + o.numer.value, ["Data: " + o.data.value], "   ");
      assert OrderParts(o) == ["Nr: " + o.numer.value] + ["Data: " + o.data.value];
    } else if Truthy(o.numer) {
      JoinCons("Nr: " + o.numer.value, [], "   ");
      assert OrderParts(o) == ["Nr: " + o.numer.value];
    } else if Truthy(o.data) {
      JoinCons("Data: " + o.data.value, [], "   ");
      assert OrderParts(o) == ["Data: " + o.data.value];
    }
  }

  // ---------------------------------------------------------------------
  // Footer (ksef_pdf.py:621-658)
  // ---------------------------------------------------------------------

  function Registry(f: Footer): Registries {
    f.rejestry.GetOr(Registries(None, None, None))
  }

  /** `stopka.get("tekst")`. */
  function FooterText(f: Footer): Option<string> {
    if f.tekst.Some? then f.tekst.value else None
  }

  function RegistryParts(f: Footer): seq<string> {
    var r := Registry(f);
    Labelled("KRS: ", r.krs) + Labelled("REGON: ", r.regon) + Labelled("BDO: ", r.bdo)
  }

  /** The footer block is printed iff a registry number or the footer text
      is non-empty. */
  predicate FooterShown(f: Footer) {
    RegistryParts(f) != [] || Truthy(FooterText(f))
  }

  /** The registry parts, in order: "KRS: ", "REGON: " and "BDO: " with
      their numbers, each iff the number is non-empty, and nothing else. */
  lemma RegistryPartsSpec(f: Footer)
    ensures var r := Registry(f);
      var k := if Truthy(r.krs) then 1 else 0;
      var g := if Truthy(r.regon) then 1 else 0;
      var b := if Truthy(r.bdo) then 1 else 0;
      && |RegistryParts(f)| == k + g + b
      && (Truthy(r.krs) ==> RegistryParts(f)[0] == "KRS: " + r.krs.value)
      && (Truthy(r.regon) ==> RegistryParts(f)[k] == "REGON: " + r.regon.value)
      && (Truthy(r.bdo) ==> RegistryParts(f)[k + g] == "BDO: " + r.bdo.value)
  {
    var r := Registry(f);
    LabelledSpec("KRS: ", r.krs);
    LabelledSpec("REGON: ", r.regon);
    LabelledSpec("BDO: ", r.bdo);
  }

  /** The footer's lines between the rule and the watermark: the registry
      parts joined by the separator when there are any, then the footer
      text when it is non-empty. */
  function FooterLines(f: Footer): seq<string> {
    (if RegistryParts(f) != [] then [Join(RegistryParts(f), Separator)] else [])
    + Labelled("", FooterText(f))
  }

  /** Which footer line is which, and that there is one iff the footer is
      shown. */
  lemma FooterLinesSpec(f: Footer)
    ensures var k := if RegistryParts(f) != [] then 1 else 0;
      && |FooterLines(f)| == k + (if Truthy(FooterText(f)) then 1 else 0)
      && (RegistryParts(f) != [] ==> FooterLines(f)[0] == Join(RegistryParts(f), Separator))
      && (Truthy(FooterText(f)) ==> FooterLines(f)[k] == FooterText(f).value)
      && (FooterShown(f) <==> FooterLines(f) != [])
  {
    LabelledSpec("", FooterText(f));
  }

  lemma FooterShownSpec(f: Footer)
    ensures FooterShown(f) <==>
      Truthy(Registry(f).krs) || Truthy(Registry(f).regon) || Truthy(Registry(f).bdo) || Truthy(FooterText(f))
    ensures f == Footer(None, None) ==> !FooterShown(f)
  {
  }
}
