/** `InvoicePDF` (ksef_pdf.py:275-658): the object that draws the invoice
    dictionary page by page. Its drawing state (what has been drawn, the
    cursor's y and the page count) is updated in place by every call, as
    fpdf does; each section method is proved to leave exactly the state the
    matching `Layout` function describes. */
module Renderer {
  import opened Wrappers
  import opened Strings
  import opened Sequences
  import opened Decimals
  import opened Extractor
  import opened Sections
  import opened Layout

  class InvoicePdf {
    const data: Invoice
    var out: seq<Output>
    var y: int
    var pages: nat

    function State(): Canvas
      reads this
    {
      Canvas(out, y, pages)
    }

    constructor(data: Invoice)
      ensures this.data == data && out == [] && y == Top && pages == 0
    {
      this.data := data;
      out := [];
      y := Top;
      pages := 0;
    }

    // -------------------------------------------------------------------
    // fpdf primitives, as the renderer uses them
    // -------------------------------------------------------------------

    method AddPage()
      modifies this
      ensures State() == PageAdded(old(State()))
    {
      out := out + [NewPage];
      y := Top;
      pages := pages + 1;
    }

    /** `cell(0, h, text, new_x="LMARGIN", new_y="NEXT")`. */
    method Cell(text: string, h: int)
      modifies this
      ensures State() == WithLine(old(State()), text, h)
    {
      out := out + [Line(y, text)];
      y := y + h;
    }

    /** `set_x(x)` then a cell of a party column, moving to the next line. */
    method PartyCell(x: int, text: string, h: int)
      modifies this
      ensures State() == WithPartyLine(old(State()), x, text, h)
    {
      out := out + [PartyLine(x, y, text)];
      y := y + h;
    }

    method Ln(h: int)
      modifies this
      ensures State() == Advanced(old(State()), h)
    {
      y := y + h;
    }

    method SetY(y': int)
      modifies this
      ensures State() == old(State()).(y := y')
    {
      y := y';
    }

    /** `_draw_line` (ksef_pdf.py:297-303). */
    method DrawLine()
      modifies this
      ensures State() == WithRule(old(State()))
    {
      out := out + [Rule(y)];
    }

    /** `_section_header` (ksef_pdf.py:305-311): ln(3), the 7 mm bar, ln(2). */
    method SectionHeader(text: string)
      modifies this
      ensures State() == WithHeading(old(State()), text)
    {
      Ln(30);
      out := out + [Heading(y, text)];
      y := y + 70;
      Ln(20);
    }

    /** A header row of 6 mm cells, then `ln()`. */
    method TableHeader(cells: seq<string>)
      modifies this
      ensures State() == WithHeaderRow(old(State()), cells)
    {
      out := out + [HeaderRow(y, cells)];
      y := y + HeaderRowHeight;
    }

    /** A row of 5.5 mm cells, then `ln()`. */
    method TableRow(cells: seq<string>, shaded: bool)
      modifies this
      ensures State() == WithRow(old(State()), cells, shaded)
    {
      out := out + [Row(y, cells, shaded)];
      y := y + RowHeight;
    }

    /** The VAT table's "RAZEM" row of 6 mm cells, then `ln()`. */
    method TotalsLine(cells: seq<string>)
      modifies this
      ensures State() == WithTotalsRow(old(State()), cells)
    {
      out := out + [TotalsRow(y, cells)];
      y := y + HeaderRowHeight;
    }

    // -------------------------------------------------------------------
    // The sections
    // -------------------------------------------------------------------

    /** `_render_header` (ksef_pdf.py:324-363). */
    method RenderHeader()
      modifies this
      ensures State() == HeaderBlock(data, old(State()))
    {
      Cell(Title(data), 80);
      Cell(NumberLine(data), 60);
      Ln(20);
      var fields := DateFields(data);
      if fields != [] {
        Cell(Join(fields, Separator), 50);
        Ln(10);
      }
      var schema := SchemaLine(data);
      if schema.Some? {
        Cell(schema.value, 40);
      }
      DrawLine();
      Ln(20);
    }

    /** One optional line of a party block: drawn only when the value is
        non-empty. */
    method PartyField(x: int, prefix: string, v: Option<string>)
      modifies this
      ensures State() == PartyLinesFrom(old(State()), x, Labelled(prefix, v))
    {
      if Truthy(v) {
        ghost var c := State();
        PartyCell(x, prefix + v.value, 40);
        assert [prefix + v.value][..0] == [];
        assert State() == PartyLinesFrom(c, x, [prefix + v.value]);
      }
    }

    /** `_render_party_block` (ksef_pdf.py:365-396); the name's `multi_cell`
        is `nameHeight` tall. */
    method RenderPartyBlock(x: int, title: string, p: Option<Party>, nameHeight: nat)
      modifies this
      ensures State() == PartyBlock(old(State()), x, title, p, nameHeight)
    {
      PartyCell(x, title, 50);
      PartyCell(x, PartyName(p), nameHeight);
      if p.Some? {
        RenderPartyDetails(x, p.value);
      }
    }

    /** The lines under the name of a party that is present, group by
        group (ksef_pdf.py:376-396). */
    method RenderPartyDetails(x: int, q: Party)
      modifies this
      ensures State() == PartyLinesFrom(old(State()), x, PartyLines(Some(q)))
    {
      ghost var c0 := State();
      if q.dane.Some? {
        PartyField(x, "NIP: ", q.dane.value.nip);
      }
      ghost var c1 := State();
      if q.adres.Some? {
        PartyPair(x, "", q.adres.value.adresL1, "", q.adres.value.adresL2);
      }
      ghost var c2 := State();
      if q.kontakt.Some? {
        PartyPair(x, "Email: ", q.kontakt.value.email, "Tel: ", q.kontakt.value.telefon);
      }
      ghost var c3 := State();
      PartyField(x, "Nr klienta: ", q.nrKlienta);
      PartyLinesFromAppend(c0, x, IdentityLines(q), AddressLines(q));
      PartyLinesFromAppend(c0, x, IdentityLines(q) + AddressLines(q), ContactLines(q));
      PartyLinesFromAppend(c0, x, IdentityLines(q) + AddressLines(q) + ContactLines(q), Labelled("Nr klienta: ", q.nrKlienta));
    }

    /** Two optional lines of one group, each drawn only when non-empty. */
    method PartyPair(x: int, prefix1: string, v1: Option<string>, prefix2: string, v2: Option<string>)
      modifies this
      ensures State() == PartyLinesFrom(old(State()), x, Labelled(prefix1, v1) + Labelled(prefix2, v2))
    {
      ghost var c := State();
      PartyField(x, prefix1, v1);
      PartyField(x, prefix2, v2);
      PartyLinesFromAppend(c, x, Labelled(prefix1, v1), Labelled(prefix2, v2));
    }

    /** `_render_parties` (ksef_pdf.py:398-416): both columns start at the
        same y, then the cursor goes 3 mm below the taller one. */
    method RenderParties(leftName: nat, rightName: nat)
      modifies this
      ensures State() == PartiesBlock(data, old(State()), leftName, rightName)
    {
      ghost var c := State();
      var yStart := y;
      RenderPartyBlock(LeftX, "SPRZEDAWCA", data.sprzedawca, leftName);
      ghost var l := State();
      assert l == PartyBlock(c, LeftX, "SPRZEDAWCA", data.sprzedawca, leftName);
      var yLeft := y;
      SetY(yStart);
      assert State() == l.(y := c.y);
      RenderPartyBlock(RightX, "NABYWCA", data.nabywca, rightName);
      ghost var r := State();
      assert r == PartyBlock(l.(y := c.y), RightX, "NABYWCA", data.nabywca, rightName);
      var yRight := y;
      SetY((if yLeft >= yRight then yLeft else yRight) + 30);
      assert State() == r.(y := (if l.y >= r.y then l.y else r.y) + 30);
      DrawLine();
      Ln(20);
      assert State() == Advanced(WithRule(r.(y := (if l.y >= r.y then l.y else r.y) + 30)), 20);
      PartiesJoined(data, c, leftName, rightName, l, r);
    }

    /** `_render_line_items` (ksef_pdf.py:418-488): past 260 mm a new page
        is started and the header row repeated before the next row. */
    method RenderLineItems()
      modifies this
      ensures State() == LineItemsBlock(if data.fa.Some? then data.fa.value.wiersze else [], old(State()))
    {
      var items := if data.fa.Some? then data.fa.value.wiersze else [];
      if items == [] {
        return;
      }
      SectionHeader("POZYCJE FAKTURY");
      TableHeader(ItemHeaders);
      var fill := ItemRowsLoop(items);
      Ln(20);
    }

    /** The loop of `_render_line_items` (ksef_pdf.py:440-486), starting
        unshaded; `fill` is the shading of the next row. */
    method ItemRowsLoop(items: seq<LineItem>) returns (fill: bool)
      modifies this
      ensures TableState(State(), fill) == ItemRows(TableState(old(State()), false), MapPrefix(ItemCells, items))
    {
      ghost var s0 := TableState(State(), false);
      ghost var rows: seq<seq<string>> := [];
      fill := false;
      for i := 0 to |items|
        invariant rows == MapPrefix(ItemCells, items[..i])
        invariant TableState(State(), fill) == ItemRows(s0, rows)
      {
        ghost var before := TableState(State(), fill);
        var cells := ItemCells(items[i]);
        if y > BreakY {
          AddPage();
          TableHeader(ItemHeaders);
          fill := false;
        }
        TableRow(cells, fill);
        fill := !fill;
        assert TableState(State(), fill) == ItemStep(before, cells);
        ItemRowsSnoc(s0, rows, cells);
        MapPrefixStep(ItemCells, items, i);
        rows := rows + [cells];
      }
      assert items[..|items|] == items;
    }

    /** The loop of `_render_vat_summary` (ksef_pdf.py:509-528): one row
        per bucket, its gross being its net plus its VAT, while the three
        totals are summed from Decimal("0"). */
    method VatRowsLoop(rows: seq<VatBucket>) returns (totalNet: Dec, totalVat: Dec, totalGross: Dec)
      modifies this
      ensures State() == RowsFrom(old(State()), VatRows(rows))
      ensures totalNet == SumNet(rows) && totalVat == SumVat(rows) && totalGross == SumGross(rows)
    {
      ghost var c1 := State();
      ghost var drawn: seq<seq<string>> := [];
      totalNet := Zero;
      totalVat := Zero;
      totalGross := Zero;
      for i := 0 to |rows|
        invariant drawn == VatRows(rows[..i])
        invariant State() == RowsFrom(c1, drawn)
        invariant totalNet == SumNet(rows[..i]) && totalVat == SumVat(rows[..i]) && totalGross == SumGross(rows[..i])
      {
        var net := NetOf(rows[i]);
        var vat := VatOf(rows[i]);
        var gross := Add(net, vat);
        SumsStep(rows, i);
        totalNet := Add(totalNet, net);
        totalVat := Add(totalVat, vat);
        totalGross := Add(totalGross, gross);
        var cells := ["Stawka " + rows[i].stawka, Fmt(net), Fmt(vat), Fmt(gross)];
        assert cells == VatRowCells(rows[i]);
        TableRow(cells, false);
        RowsFromSnoc(c1, drawn, cells);
        MapPrefixStep(VatRowCells, rows, i);
        drawn := drawn + [cells];
      }
      assert rows[..|rows|] == rows;
    }

    /** `_render_vat_summary` (ksef_pdf.py:490-548): the header row, the
        rows with their totals, the totals row, and the amount due when
        P_15 is set. */
    method RenderVatSummary()
      modifies this
      ensures State() == VatBlock(if data.fa.Some? then data.fa.value.vatSummary else [], DueLine(data), old(State()))
    {
      var rows := if data.fa.Some? then data.fa.value.vatSummary else [];
      if rows == [] {
        return;
      }
      SectionHeader("PODSUMOWANIE VAT");
      TableHeader(VatHeaders);
      var totalNet, totalVat, totalGross := VatRowsLoop(rows);
      TotalsLine(["RAZEM", Fmt(totalNet), Fmt(totalVat), Fmt(totalGross)]);
      var due := DueLine(data);
      if due.Some? {
        Ln(10);
        Cell(due.value, 70);
      }
      Ln(20);
    }

    /** `_render_payment` (ksef_pdf.py:550-593). */
    method RenderPayment()
      modifies this
      ensures State() == PaymentBlock(data, old(State()))
    {
      var p := PaymentOfInvoice(data);
      if p.None? {
        return;
      }
      var pl := p.value;
      if !(Truthy(pl.zaplacono) || Truthy(pl.forma) || Truthy(pl.dataZaplaty) || Truthy(pl.termin) || Truthy(AccountNumber(pl))) {
        return;
      }
      SectionHeader("PLATNOSC");
      var parts := PaymentParts(pl);
      if parts != [] {
        Cell(Join(parts, Separator), 50);
      }
      if Truthy(AccountNumber(pl)) {
        Cell("Nr rachunku: " + AccountNumber(pl).value, 50);
      }
      if Truthy(BankName(pl)) {
        Cell("Bank: " + BankName(pl).value, 50);
      }
      Ln(20);
    }

    /** `_render_additional_info` (ksef_pdf.py:595-619): the descriptions,
        then the order references, each under its own header. */
    method RenderAdditionalInfo()
      modifies this
      ensures State() == AdditionalBlock(
        if data.fa.Some? then data.fa.value.dodatkowyOpis else [],
        if data.fa.Some? then data.fa.value.zamowienia else [], old(State()))
    {
      var opisy := if data.fa.Some? then data.fa.value.dodatkowyOpis else [];
      if opisy != [] {
        RenderDescriptions(opisy);
      }
      var zam := if data.fa.Some? then data.fa.value.zamowienia else [];
      if zam != [] {
        RenderOrders(zam);
      }
    }

    /** The descriptions, one "key: value" line each (ksef_pdf.py:600-606). */
    method RenderDescriptions(opisy: seq<Description>)
      modifies this
      ensures State() == ListSection(old(State()), "INFORMACJE DODATKOWE", DescriptionLines(opisy))
    {
      SectionHeader("INFORMACJE DODATKOWE");
      ghost var h := State();
      ghost var lines := DescriptionLines(opisy);
      for i := 0 to |opisy|
        invariant State() == LinesFrom(h, lines[..i], 50)
      {
        LinesFromStep(h, lines, i, 50);
        Cell(DescriptionLine(opisy[i]), 50);
      }
      assert lines[..|opisy|] == lines;
      Ln(10);
    }

    /** The order references, one line each (ksef_pdf.py:608-619). */
    method RenderOrders(zam: seq<Order>)
      modifies this
      ensures State() == ListSection(old(State()), "ZAMOWIENIA", OrderLines(zam))
    {
      SectionHeader("ZAMOWIENIA");
      ghost var h := State();
      ghost var lines := OrderLines(zam);
      for i := 0 to |zam|
        invariant State() == LinesFrom(h, lines[..i], 50)
      {
        LinesFromStep(h, lines, i, 50);
        Cell(OrderLine(zam[i]), 50);
      }
      assert lines[..|zam|] == lines;
      Ln(10);
    }

    /** `_render_footer_info` (ksef_pdf.py:621-658). An empty `stopka`
        has no registry number and no text, so the first early return is
        the second one's special case. */
    method RenderFooterInfo()
      modifies this
      ensures State() == FooterBlock(data, old(State()))
    {
      var f := data.stopka;
      if !FooterShown(f) {
        return;
      }
      DrawLine();
      Ln(20);
      var parts := RegistryParts(f);
      if parts != [] {
        Cell(Join(parts, Separator), 40);
      }
      if Truthy(FooterText(f)) {
        Cell(FooterText(f).value, 40);
      }
      Ln(30);
      Cell(Watermark, 30);
    }

    /** `build` (ksef_pdf.py:313-322) on a fresh document. */
    method Build(leftName: nat, rightName: nat)
      requires out == [] && pages == 0
      modifies this
      ensures State() == Document(data, leftName, rightName)
    {
      AddPage();
      RenderHeader();
      RenderParties(leftName, rightName);
      RenderLineItems();
      RenderVatSummary();
      RenderPayment();
      RenderAdditionalInfo();
      RenderFooterInfo();
    }
  }
}
