/** The page the renderer draws (ksef_pdf.py:22-49 for the constants,
    ksef_pdf.py:275-658 for `InvoicePDF`), as pure functions: what each
    section appends to the drawing and where the cursor ends up.

    The drawing is a list of `Output` events. Positions are in tenths of a
    millimetre, so every height the source uses (5.5 mm, 7 mm, ...) is an
    integer. Fonts, colours, column widths and alignment are not part of
    the model; the text of every cell and whether a row is shaded are. */
module Layout {
  import opened Wrappers
  import opened Strings
  import opened Sequences
  import opened Decimals
  import opened Extractor
  import opened Sections

  /** fpdf's default top margin (10 mm): where `add_page` puts the cursor. */
  const Top: int := 100
  /** `get_y() > 260`: past this the line-items table starts a new page. */
  const BreakY: int := 2600
  /** The x of the seller's and the buyer's column (10 mm and 105 mm). */
  const LeftX: int := 100
  const RightX: int := 1050

  const RowHeight: int := 55
  const HeaderRowHeight: int := 60
  /** `_section_header`: ln(3), a 7 mm bar, ln(2). */
  const HeadingHeight: int := 120

  datatype Output =
    | NewPage
      /** A full-width cell: a title, a field line, a payment or footer line. */
    | Line(y: int, text: string)
      /** A cell of a party column at x. */
    | PartyLine(x: int, y: int, text: string)
      /** A section header bar. */
    | Heading(y: int, text: string)
      /** The grey horizontal rule. */
    | Rule(y: int)
      /** A table's dark header row. */
    | HeaderRow(y: int, cells: seq<string>)
      /** A table row; `shaded` is the grey fill of every other item row. */
    | Row(y: int, cells: seq<string>, shaded: bool)
      /** The VAT table's "RAZEM" row. */
    | TotalsRow(y: int, cells: seq<string>)

  /** What has been drawn, the cursor's y and the number of pages. */
  datatype Canvas = Canvas(out: seq<Output>, y: int, pages: nat)

  /** `b` is `a` with more drawn after it: nothing drawn is ever undone. */
  predicate Extends(a: seq<Output>, b: seq<Output>) {
    |a| <= |b| && forall i :: 0 <= i < |a| ==> b[i] == a[i]
  }

  // ---------------------------------------------------------------------
  // The drawing primitives
  // ---------------------------------------------------------------------

  /** `add_page`: a new page with the cursor at the top margin. */
  function PageAdded(c: Canvas): Canvas {
    Canvas(c.out + [NewPage], Top, c.pages + 1)
  }

  /** A full-width `cell` of height h, then to the next line. */
  function WithLine(c: Canvas, text: string, h: int): Canvas {
    Canvas(c.out + [Line(c.y, text)], c.y + h, c.pages)
  }

  function WithPartyLine(c: Canvas, x: int, text: string, h: int): Canvas {
    Canvas(c.out + [PartyLine(x, c.y, text)], c.y + h, c.pages)
  }

  /** `ln(h)`. */
  function Advanced(c: Canvas, h: int): Canvas {
    c.(y := c.y + h)
  }

  /** `_draw_line`: a rule at the cursor, which does not move. */
  function WithRule(c: Canvas): Canvas {
    c.(out := c.out + [Rule(c.y)])
  }

  /** `_section_header`: 3 mm, a 7 mm bar, 2 mm. */
  function WithHeading(c: Canvas, text: string): Canvas {
    Canvas(c.out + [Heading(c.y + 30, text)], c.y + HeadingHeight, c.pages)
  }

  function WithHeaderRow(c: Canvas, cells: seq<string>): Canvas {
    Canvas(c.out + [HeaderRow(c.y, cells)], c.y + HeaderRowHeight, c.pages)
  }

  function WithRow(c: Canvas, cells: seq<string>, shaded: bool): Canvas {
    Canvas(c.out + [Row(c.y, cells, shaded)], c.y + RowHeight, c.pages)
  }

  function WithTotalsRow(c: Canvas, cells: seq<string>): Canvas {
    Canvas(c.out + [TotalsRow(c.y, cells)], c.y + HeaderRowHeight, c.pages)
  }

  /** Full-width lines of height h, one after the other. */
  function LinesFrom(c: Canvas, lines: seq<string>, h: int): Canvas {
    if lines == [] then c else WithLine(LinesFrom(c, lines[..|lines| - 1], h), lines[|lines| - 1], h)
  }

  /** One more line of a loop that builds LinesFrom. */
  lemma LinesFromStep(c: Canvas, lines: seq<string>, i: nat, h: int)
    requires i < |lines|
    ensures LinesFrom(c, lines[..i + 1], h) == WithLine(LinesFrom(c, lines[..i], h), lines[i], h)
  {
    assert lines[..i + 1][..i] == lines[..i];
  }

  lemma LinesFromSnoc(c: Canvas, lines: seq<string>, x: string, h: int)
    ensures LinesFrom(c, lines + [x], h) == WithLine(LinesFrom(c, lines, h), x, h)
  {
    assert (lines + [x])[..|lines|] == lines;
  }

  /** The lines are drawn in order, each h below the previous one. */
  lemma {:induction false} LinesFromSpec(c: Canvas, lines: seq<string>, h: int)
    ensures Extends(c.out, LinesFrom(c, lines, h).out)
    ensures |LinesFrom(c, lines, h).out| == |c.out| + |lines|
    ensures forall i :: 0 <= i < |lines| ==> LinesFrom(c, lines, h).out[|c.out| + i] == Line(c.y + h * i, lines[i])
    ensures LinesFrom(c, lines, h).y == c.y + h * |lines|
    ensures LinesFrom(c, lines, h).pages == c.pages
  {
    if lines != [] {
      var n := |lines| - 1;
      LinesFromSpec(c, lines[..n], h);
      var p := LinesFrom(c, lines[..n], h);
      assert LinesFrom(c, lines, h).out == p.out + [Line(p.y, lines[n])];
      forall i | 0 <= i < n
        ensures LinesFrom(c, lines, h).out[|c.out| + i] == Line(c.y + h * i, lines[i])
      {
        assert lines[..n][i] == lines[i];
      }
    }
  }

  // ---------------------------------------------------------------------
  // Header (ksef_pdf.py:324-363)
  // ---------------------------------------------------------------------

  function HeaderBlock(inv: Invoice, c: Canvas): Canvas {
    var c1 := Advanced(WithLine(WithLine(c, Title(inv), 80), NumberLine(inv), 60), 20);
    var fs := DateFields(inv);
    var c2 := if fs != [] then Advanced(WithLine(c1, Join(fs, Separator), 50), 10) else c1;
    var c3 := if SchemaLine(inv).Some? then WithLine(c2, SchemaLine(inv).value, 40) else c2;
    Advanced(WithRule(c3), 20)
  }

  /** The header prints the title, then the number 8 mm lower, then the
      field line (the date fields joined by the separator, 16 mm below the
      title) when there are fields, then the schema line when there is one,
      and closes with a rule; it is 18 mm tall plus 6 mm for the field line
      and 4 mm for the schema line. */
  lemma HeaderBlockSpec(inv: Invoice, c: Canvas)
    ensures var h := HeaderBlock(inv, c);
      && Extends(c.out, h.out)
      && |h.out| == |c.out| + 3 + (if DateFields(inv) != [] then 1 else 0) + (if SchemaLine(inv).Some? then 1 else 0)
      && h.out[|c.out|] == Line(c.y, Title(inv))
      && h.out[|c.out| + 1] == Line(c.y + 80, NumberLine(inv))
      && (DateFields(inv) != [] ==> h.out[|c.out| + 2] == Line(c.y + 160, Join(DateFields(inv), Separator)))
      && (SchemaLine(inv).Some? ==> h.out[|h.out| - 2] == Line(h.y - 60, SchemaLine(inv).value))
      && h.out[|h.out| - 1] == Rule(h.y - 20)
      && h.y == c.y + 180 + (if DateFields(inv) != [] then 60 else 0) + (if SchemaLine(inv).Some? then 40 else 0)
      && h.pages == c.pages
  {
    var c1 := Advanced(WithLine(WithLine(c, Title(inv), 80), NumberLine(inv), 60), 20);
    assert c1.out == c.out + [Line(c.y, Title(inv)), Line(c.y + 80, NumberLine(inv))];
    var fs := DateFields(inv);
    var c2 := if fs != [] then Advanced(WithLine(c1, Join(fs, Separator), 50), 10) else c1;
    assert Extends(c1.out, c2.out);
    var c3 := if SchemaLine(inv).Some? then WithLine(c2, SchemaLine(inv).value, 40) else c2;
    assert Extends(c2.out, c3.out);
    var h := HeaderBlock(inv, c);
    assert h.out == c3.out + [Rule(c3.y)];
  }

  // ---------------------------------------------------------------------
  // Parties (ksef_pdf.py:365-416)
  // ---------------------------------------------------------------------

  /** `_render_party_block` at column x: the label, the name in a
      `multi_cell` of height `nameHeight` (its wrapping is not modelled),
      and the lines of 4 mm. */
  function PartyBlock(c: Canvas, x: int, title: string, p: Option<Party>, nameHeight: nat): Canvas {
    var c1 := WithPartyLine(WithPartyLine(c, x, title, 50), x, PartyName(p), nameHeight);
    PartyLinesFrom(c1, x, PartyLines(p))
  }

  function PartyLinesFrom(c: Canvas, x: int, lines: seq<string>): Canvas {
    if lines == [] then c else WithPartyLine(PartyLinesFrom(c, x, lines[..|lines| - 1]), x, lines[|lines| - 1], 40)
  }

  lemma {:induction false} PartyLinesFromSpec(c: Canvas, x: int, lines: seq<string>)
    ensures Extends(c.out, PartyLinesFrom(c, x, lines).out)
    ensures |PartyLinesFrom(c, x, lines).out| == |c.out| + |lines|
    ensures forall i :: 0 <= i < |lines| ==> PartyLinesFrom(c, x, lines).out[|c.out| + i] == PartyLine(x, c.y + 40 * i, lines[i])
    ensures PartyLinesFrom(c, x, lines).y == c.y + 40 * |lines|
    ensures PartyLinesFrom(c, x, lines).pages == c.pages
  {
    if lines != [] {
      var n := |lines| - 1;
      PartyLinesFromSpec(c, x, lines[..n]);
      var p := PartyLinesFrom(c, x, lines[..n]);
      assert PartyLinesFrom(c, x, lines).out == p.out + [PartyLine(x, p.y, lines[n])];
      forall i | 0 <= i < n
        ensures PartyLinesFrom(c, x, lines).out[|c.out| + i] == PartyLine(x, c.y + 40 * i, lines[i])
      {
        assert lines[..n][i] == lines[i];
      }
    }
  }

  /** Drawing two lists of lines is drawing their concatenation. */
  lemma {:induction false} PartyLinesFromAppend(c: Canvas, x: int, a: seq<string>, b: seq<string>)
    ensures PartyLinesFrom(c, x, a + b) == PartyLinesFrom(PartyLinesFrom(c, x, a), x, b)
    decreases |b|
  {
    if b == [] {
      assert a + b == a;
    } else {
      var n := |b| - 1;
      assert (a + b)[..|a + b| - 1] == a + b[..n];
      PartyLinesFromAppend(c, x, a, b[..n]);
    }
  }

  /** A block is as tall as its label, name and lines, and everything it
      prints lies in its own column. */
  lemma PartyBlockSpec(c: Canvas, x: int, title: string, p: Option<Party>, nameHeight: nat)
    ensures var b := PartyBlock(c, x, title, p, nameHeight);
      && b.y == c.y + 50 + nameHeight + 40 * |PartyLines(p)|
      && Extends(c.out, b.out)
      && |b.out| == |c.out| + 2 + |PartyLines(p)|
      && b.out[|c.out|] == PartyLine(x, c.y, title)
      && b.out[|c.out| + 1] == PartyLine(x, c.y + 50, PartyName(p))
      && (forall i :: |c.out| <= i < |b.out| ==> b.out[i].PartyLine? && b.out[i].x == x)
      && b.pages == c.pages
  {
    var c1 := WithPartyLine(WithPartyLine(c, x, title, 50), x, PartyName(p), nameHeight);
    assert c1.out == c.out + [PartyLine(x, c.y, title), PartyLine(x, c.y + 50, PartyName(p))];
    PartyColumn(c1, x, PartyLines(p), |c.out|);
    PartyLinesFromSpec(c1, x, PartyLines(p));
  }

  /** Lines drawn at column x keep everything from `from` on in that column. */
  lemma PartyColumn(c: Canvas, x: int, lines: seq<string>, from: nat)
    requires from <= |c.out|
    requires forall i :: from <= i < |c.out| ==> c.out[i].PartyLine? && c.out[i].x == x
    ensures var b := PartyLinesFrom(c, x, lines);
      forall i :: from <= i < |b.out| ==> b.out[i].PartyLine? && b.out[i].x == x
  {
    PartyLinesFromSpec(c, x, lines);
    var b := PartyLinesFrom(c, x, lines);
    forall i | from <= i < |b.out| ensures b.out[i].PartyLine? && b.out[i].x == x {
      if i < |c.out| {
        assert b.out[i] == c.out[i];
      } else {
        var k := i - |c.out|;
        assert b.out[|c.out| + k] == PartyLine(x, c.y + 40 * k, lines[k]);
      }
    }
  }

  /** `_render_parties`: both blocks start at the same y; the cursor then
      goes 3 mm below the taller one, a rule is drawn and 2 mm are skipped. */
  function PartiesBlock(inv: Invoice, c: Canvas, leftName: nat, rightName: nat): Canvas {
    var l := PartyBlock(c, LeftX, "SPRZEDAWCA", inv.sprzedawca, leftName);
    var r := PartyBlock(l.(y := c.y), RightX, "NABYWCA", inv.nabywca, rightName);
    Advanced(WithRule(r.(y := (if l.y >= r.y then l.y else r.y) + 30)), 20)
  }

  /** PartiesBlock from its two columns, as a renderer builds it. */
  lemma PartiesJoined(inv: Invoice, c: Canvas, leftName: nat, rightName: nat, l: Canvas, r: Canvas)
    requires l == PartyBlock(c, LeftX, "SPRZEDAWCA", inv.sprzedawca, leftName)
    requires r == PartyBlock(l.(y := c.y), RightX, "NABYWCA", inv.nabywca, rightName)
    ensures PartiesBlock(inv, c, leftName, rightName) == Advanced(WithRule(r.(y := (if l.y >= r.y then l.y else r.y) + 30)), 20)
  {
  }

  lemma PartiesBlockSpec(inv: Invoice, c: Canvas, leftName: nat, rightName: nat)
    ensures var hl := 50 + leftName + 40 * |PartyLines(inv.sprzedawca)|;
      var hr := 50 + rightName + 40 * |PartyLines(inv.nabywca)|;
      var b := PartiesBlock(inv, c, leftName, rightName);
      && b.y == c.y + (if hl >= hr then hl else hr) + 50
      && Extends(c.out, b.out)
      && |b.out| == |c.out| + 5 + |PartyLines(inv.sprzedawca)| + |PartyLines(inv.nabywca)|
      && b.out[|c.out|] == PartyLine(LeftX, c.y, "SPRZEDAWCA")
      && b.out[|c.out| + 2 + |PartyLines(inv.sprzedawca)|] == PartyLine(RightX, c.y, "NABYWCA")
      && b.out[|b.out| - 1] == Rule(b.y - 20)
      && b.pages == c.pages
  {
    var l := PartyBlock(c, LeftX, "SPRZEDAWCA", inv.sprzedawca, leftName);
    var r := PartyBlock(l.(y := c.y), RightX, "NABYWCA", inv.nabywca, rightName);
    PartyBlockSpec(c, LeftX, "SPRZEDAWCA", inv.sprzedawca, leftName);
    PartyBlockSpec(l.(y := c.y), RightX, "NABYWCA", inv.nabywca, rightName);
    SideBySide(c, l, r, |PartyLines(inv.sprzedawca)|, |PartyLines(inv.nabywca)|);
  }

  /** Two columns drawn from the same y, then the rule under the taller. */
  lemma SideBySide(c: Canvas, l: Canvas, r: Canvas, nl: nat, nr: nat)
    requires Extends(c.out, l.out) && |l.out| == |c.out| + 2 + nl && l.out[|c.out|] == PartyLine(LeftX, c.y, "SPRZEDAWCA")
    requires Extends(l.out, r.out) && |r.out| == |l.out| + 2 + nr && r.out[|l.out|] == PartyLine(RightX, c.y, "NABYWCA")
    requires l.pages == c.pages && r.pages == l.pages
    ensures var b := Advanced(WithRule(r.(y := (if l.y >= r.y then l.y else r.y) + 30)), 20);
      && b.y == (if l.y >= r.y then l.y else r.y) + 50
      && Extends(c.out, b.out)
      && |b.out| == |c.out| + 5 + nl + nr
      && b.out[|c.out|] == PartyLine(LeftX, c.y, "SPRZEDAWCA")
      && b.out[|c.out| + 2 + nl] == PartyLine(RightX, c.y, "NABYWCA")
      && b.out[|b.out| - 1] == Rule(b.y - 20)
      && b.pages == c.pages
  {
    var b := Advanced(WithRule(r.(y := (if l.y >= r.y then l.y else r.y) + 30)), 20);
    assert b.out == r.out + [Rule(b.y - 20)];
    assert r.out[|c.out|] == l.out[|c.out|];
    ExtendsTrans(c.out, l.out, r.out);
  }

  // ---------------------------------------------------------------------
  // Line items (ksef_pdf.py:418-488)
  // ---------------------------------------------------------------------

  /** The table's progress: the drawing and the fill of the next row. */
  datatype TableState = TableState(canvas: Canvas, fill: bool)

  /** One row: past 260 mm, a new page with the header row repeated and the
      fill reset first; then the row with the current fill, which flips. */
  function ItemStep(s: TableState, cells: seq<string>): TableState {
    var broke := s.canvas.y > BreakY;
    var c := if broke then WithHeaderRow(PageAdded(s.canvas), ItemHeaders) else s.canvas;
    var fill := if broke then false else s.fill;
    TableState(WithRow(c, cells, fill), !fill)
  }

  /** The rows of the table, given the cells of each item. */
  function ItemRows(s: TableState, rows: seq<seq<string>>): TableState {
    if rows == [] then s else ItemStep(ItemRows(s, rows[..|rows| - 1]), rows[|rows| - 1])
  }

  /** One more row of the loop that builds ItemRows. */
  lemma ItemRowsSnoc(s0: TableState, rows: seq<seq<string>>, cells: seq<string>)
    ensures ItemRows(s0, rows + [cells]) == ItemStep(ItemRows(s0, rows), cells)
  {
    assert (rows + [cells])[..|rows|] == rows;
  }

  /** The section header, the header row and one row per entry of `rows`. */
  function ItemsTable(rows: seq<seq<string>>, c: Canvas): Canvas {
    var c1 := WithHeaderRow(WithHeading(c, "POZYCJE FAKTURY"), ItemHeaders);
    Advanced(ItemRows(TableState(c1, false), rows).canvas, 20)
  }

  function LineItemsBlock(items: seq<LineItem>, c: Canvas): (b: Canvas)
    ensures items == [] ==> b == c
  {
    if items == [] then c else ItemsTable(MapPrefix(ItemCells, items), c)
  }

  /** One row: past 260 mm, a new page with the header row repeated and the
      fill reset first; then the row with the current fill, which flips. A
      page is added exactly when the cursor is past 260 mm; the row is drawn
      at the cursor, or right under the repeated header row; and the cursor
      ends one row height below the row. */
  lemma ItemStepPaging(s: TableState, cells: seq<string>)
    ensures var s' := ItemStep(s, cells);
      var broke := s.canvas.y > BreakY;
      && (s'.canvas.pages == s.canvas.pages + 1 <==> broke)
      && (!broke ==> s'.canvas.pages == s.canvas.pages)
      && (broke ==> s'.canvas.out == s.canvas.out + [NewPage, HeaderRow(Top, ItemHeaders)] + [s'.canvas.out[|s'.canvas.out| - 1]])
      && (!broke ==> s'.canvas.out == s.canvas.out + [s'.canvas.out[|s'.canvas.out| - 1]])
      && s'.canvas.out[|s'.canvas.out| - 1]
         == Row(if broke then Top + HeaderRowHeight else s.canvas.y, cells, !broke && s.fill)
      && s'.canvas.y == s'.canvas.out[|s'.canvas.out| - 1].y + RowHeight
      && s'.fill == !(!broke && s.fill)
  {
  }

  /** The cursor's y after drawing a header row or a row at its y, and after
      starting a new page. */
  function EndY(e: Output): int {
    if e.Row? then e.y + RowHeight else if e.HeaderRow? then e.y + HeaderRowHeight else Top
  }

  /** The new pages in a drawing. */
  function PageCount(t: seq<Output>): nat {
    if t == [] then 0 else PageCount(t[..|t| - 1]) + (if t[|t| - 1].NewPage? then 1 else 0)
  }

  /** The shape of the drawn table: it opens with the header row; every
      header row carries the item headers; a new page is always followed by
      the header row at the top margin, and a later header row always
      follows a new page; every row is drawn where the cursor was left by
      what came before it; a new page follows a row or header row exactly
      when that left the cursor below 260 mm, so that no row is drawn below
      260 mm; a row right under a header row is unshaded and the shading of
      consecutive rows alternates; and the next fill is the opposite of the
      last row's shading (unshaded right after a header row). */
  ghost predicate TableShape(t: seq<Output>, fill: bool) {
    && |t| > 0 && t[0].HeaderRow?
    && (forall i :: 0 <= i < |t| ==> TableEvent(t[i]))
    && (forall i, j :: 0 <= i < j < |t| && j == i + 1 ==> Follows(t[i], t[j]))
    && (t[|t| - 1].HeaderRow? || t[|t| - 1].Row?)
    && fill == NextFill(t)
  }

  /** An event a table may hold: a new page, the header row with the item
      headers, or a row no lower than 260 mm. */
  predicate TableEvent(e: Output) {
    && (e.NewPage? || e.HeaderRow? || e.Row?)
    && (e.HeaderRow? ==> e.cells == ItemHeaders)
    && (e.Row? ==> e.y <= BreakY)
  }

  /** What may come right after `a` in a table. */
  predicate Follows(a: Output, b: Output) {
    && (a.NewPage? ==> b == HeaderRow(Top, ItemHeaders))
    && (b.HeaderRow? ==> a.NewPage?)
    && (b.Row? ==> b.y == EndY(a))
    && (b.NewPage? ==> EndY(a) > BreakY)
    && (b.Row? ==> (a.HeaderRow? && !b.shaded) || (a.Row? && b.shaded != a.shaded))
  }

  /** Both directions of the page break: after a row or a header row, the
      next event is a new page iff the cursor was left past 260 mm, and
      otherwise it is a row drawn at the cursor. */
  lemma PageBreakRule(t: seq<Output>, fill: bool)
    requires TableShape(t, fill)
    ensures forall i, j :: 0 <= i < j < |t| && j == i + 1 && !t[i].NewPage? ==>
      && (t[j].NewPage? <==> EndY(t[i]) > BreakY)
      && (t[j].Row? <==> EndY(t[i]) <= BreakY)
      && (t[j].Row? ==> t[j].y == EndY(t[i]))
  {
  }

  /** The fill of the next row: the opposite of the last row's shading,
      unshaded right after a header row. */
  function NextFill(t: seq<Output>): bool {
    |t| > 0 && t[|t| - 1].Row? && !t[|t| - 1].shaded
  }

  /** The same shape, event by event, as the table is drawn: the header
      row; then either a row with the current fill at the cursor, which is
      at most at 260 mm, or, when the cursor is past 260 mm, a new page
      followed by the header row at the top margin. */
  ghost predicate Shaped(t: seq<Output>)
    decreases |t|
  {
    if |t| == 0 then false
    else if |t| == 1 then t[0].HeaderRow? && t[0].cells == ItemHeaders
    else
      var e := t[|t| - 1];
      var p := t[..|t| - 1];
      if e.Row? then e.y == EndY(p[|p| - 1]) && e.y <= BreakY && e.shaded == NextFill(p) && Shaped(p)
      else
        && e == HeaderRow(Top, ItemHeaders)
        && |p| >= 2 && p[|p| - 1] == NewPage && EndY(p[|p| - 2]) > BreakY
        && Shaped(p[..|p| - 1])
  }

  /** The event-by-event shape has all the properties of TableShape. */
  lemma {:induction false} ShapedMeans(t: seq<Output>)
    requires Shaped(t)
    ensures TableShape(t, NextFill(t))
    decreases |t|
  {
    if |t| > 1 {
      var n := |t| - 1;
      var p := t[..n];
      if t[n].Row? {
        ShapedMeans(p);
        ShapedRowMeans(p, t[n]);
        assert p + [t[n]] == t;
      } else {
        var q := p[..n - 1];
        assert q[|q| - 1] == p[n - 2];
        ShapedMeans(q);
        ShapedPageMeans(q);
        assert q + [NewPage, HeaderRow(Top, ItemHeaders)] == t;
      }
    }
  }

  lemma ShapedRowMeans(p: seq<Output>, e: Output)
    requires TableShape(p, NextFill(p))
    requires e.Row? && e.y == EndY(p[|p| - 1]) && e.y <= BreakY && e.shaded == NextFill(p)
    ensures TableShape(p + [e], NextFill(p + [e]))
  {
    var t := p + [e];
    forall i | 0 <= i < |t| ensures TableEvent(t[i]) {
      if i < |p| { assert t[i] == p[i]; }
    }
    forall i, j | 0 <= i < j < |t| && j == i + 1 ensures Follows(t[i], t[j]) {
      assert t[i] == p[i];
      if j < |p| { assert t[j] == p[j]; }
    }
  }

  lemma ShapedPageMeans(q: seq<Output>)
    requires TableShape(q, NextFill(q)) && EndY(q[|q| - 1]) > BreakY
    ensures TableShape(q + [NewPage, HeaderRow(Top, ItemHeaders)], false)
  {
    var t := q + [NewPage, HeaderRow(Top, ItemHeaders)];
    var n := |q|;
    forall i | 0 <= i < |t| ensures TableEvent(t[i]) {
      if i < n { assert t[i] == q[i]; }
    }
    forall i, j | 0 <= i < j < |t| && j == i + 1 ensures Follows(t[i], t[j]) {
      if j < n {
        assert t[i] == q[i] && t[j] == q[j];
      } else if j == n {
        assert t[i] == q[i];
      }
    }
  }

  /** The cells of the rows of a drawing, in order. */
  function RowCells(t: seq<Output>): seq<seq<string>> {
    if t == [] then []
    else RowCells(t[..|t| - 1]) + (if t[|t| - 1].Row? then [t[|t| - 1].cells] else [])
  }

  lemma {:induction false} RowCellsAppend(a: seq<Output>, b: seq<Output>)
    ensures RowCells(a + b) == RowCells(a) + RowCells(b)
    decreases |b|
  {
    if b == [] {
      assert a + b == a;
    } else {
      var n := |b| - 1;
      assert (a + b)[..|a + b| - 1] == a + b[..n];
      RowCellsAppend(a, b[..n]);
      assert RowCells(b) == RowCells(b[..n]) + (if b[n].Row? then [b[n].cells] else []);
    }
  }

  /** A row with the current fill keeps the shape and adds its cells. */
  lemma RowAppended(t: seq<Output>, y: int, cells: seq<string>)
    requires Shaped(t) && y == EndY(t[|t| - 1]) && y <= BreakY
    ensures Shaped(t + [Row(y, cells, NextFill(t))])
    ensures NextFill(t + [Row(y, cells, NextFill(t))]) == !NextFill(t)
    ensures RowCells(t + [Row(y, cells, NextFill(t))]) == RowCells(t) + [cells]
  {
    var t' := t + [Row(y, cells, NextFill(t))];
    assert t'[..|t'| - 1] == t;
  }

  /** A page break with the header row repeated keeps the shape, resets the
      fill and adds no row. */
  lemma PageAppended(t: seq<Output>)
    requires Shaped(t) && EndY(t[|t| - 1]) > BreakY
    ensures Shaped(t + [NewPage, HeaderRow(Top, ItemHeaders)])
    ensures !NextFill(t + [NewPage, HeaderRow(Top, ItemHeaders)])
    ensures RowCells(t + [NewPage, HeaderRow(Top, ItemHeaders)]) == RowCells(t)
  {
    var t1 := t + [NewPage];
    var t2 := t + [NewPage, HeaderRow(Top, ItemHeaders)];
    assert t2[..|t2| - 1] == t1;
    assert t1[..|t1| - 1] == t;
    assert t1[|t1| - 2] == t[|t| - 1];
  }

  /** The part of the drawing from `pre` on is a table of the given fill,
      with the cursor where its last row or header row left it. */
  ghost predicate TableFrom(pre: seq<Output>, s: TableState) {
    && Extends(pre, s.canvas.out) && |s.canvas.out| > |pre|
    && Shaped(s.canvas.out[|pre|..]) && s.fill == NextFill(s.canvas.out[|pre|..])
    && s.canvas.y == EndY(s.canvas.out[|s.canvas.out| - 1])
  }

  /** One step keeps the table's shape and adds exactly the item's row. */
  lemma ItemStepShape(pre: seq<Output>, s: TableState, cells: seq<string>)
    requires TableFrom(pre, s)
    ensures TableFrom(pre, ItemStep(s, cells))
    ensures RowCells(ItemStep(s, cells).canvas.out[|pre|..]) == RowCells(s.canvas.out[|pre|..]) + [cells]
  {
    if s.canvas.y > BreakY {
      BrokenStepShape(pre, s, cells);
    } else {
      PlainStepShape(pre, s, cells);
    }
  }

  /** A row past the break: a new page, the header row, then the row. */
  lemma BrokenStepShape(pre: seq<Output>, s: TableState, cells: seq<string>)
    requires TableFrom(pre, s) && s.canvas.y > BreakY
    ensures TableFrom(pre, ItemStep(s, cells))
    ensures RowCells(ItemStep(s, cells).canvas.out[|pre|..]) == RowCells(s.canvas.out[|pre|..]) + [cells]
  {
    var t := s.canvas.out[|pre|..];
    var s' := ItemStep(s, cells);
    var page := [NewPage, HeaderRow(Top, ItemHeaders)];
    var row := Row(Top + HeaderRowHeight, cells, false);
    var added := page + [row];
    assert s'.canvas.out == s.canvas.out + added;
    SliceAppend(s.canvas.out, added, |pre|);
    assert s'.canvas.out[|pre|..] == (t + page) + [row];
    assert t[|t| - 1] == s.canvas.out[|s.canvas.out| - 1];
    PageAppended(t);
    RowAppended(t + page, Top + HeaderRowHeight, cells);
    ExtendsAppend(s.canvas.out, added);
    ExtendsTrans(pre, s.canvas.out, s'.canvas.out);
  }

  /** A row before the break, shaded by turns. */
  lemma PlainStepShape(pre: seq<Output>, s: TableState, cells: seq<string>)
    requires TableFrom(pre, s) && s.canvas.y <= BreakY
    ensures TableFrom(pre, ItemStep(s, cells))
    ensures RowCells(ItemStep(s, cells).canvas.out[|pre|..]) == RowCells(s.canvas.out[|pre|..]) + [cells]
  {
    var t := s.canvas.out[|pre|..];
    var s' := ItemStep(s, cells);
    var row := Row(s.canvas.y, cells, s.fill);
    assert s'.canvas.out == s.canvas.out + [row];
    assert s'.canvas.out[|pre|..] == t + [row];
    assert t[|t| - 1] == s.canvas.out[|s.canvas.out| - 1];
    RowAppended(t, s.canvas.y, cells);
    assert Extends(s.canvas.out, s'.canvas.out);
    ExtendsTrans(pre, s.canvas.out, s'.canvas.out);
  }

  /** The whole table: its shape holds after every row, and its rows are
      exactly the given cells, in order. */
  lemma {:induction false} ItemRowsShape(pre: seq<Output>, s0: TableState, rows: seq<seq<string>>)
    requires TableFrom(pre, s0)
    ensures TableFrom(pre, ItemRows(s0, rows))
    ensures RowCells(ItemRows(s0, rows).canvas.out[|pre|..]) == RowCells(s0.canvas.out[|pre|..]) + rows
  {
    if rows != [] {
      var n := |rows| - 1;
      ItemRowsShape(pre, s0, rows[..n]);
      ItemStepShape(pre, ItemRows(s0, rows[..n]), rows[n]);
      assert rows[..n] + [rows[n]] == rows;
    }
  }

  lemma {:induction false} PageCountAppend(a: seq<Output>, b: seq<Output>)
    ensures PageCount(a + b) == PageCount(a) + PageCount(b)
    decreases |b|
  {
    if b == [] {
      assert a + b == a;
    } else {
      var n := |b| - 1;
      assert (a + b)[..|a + b| - 1] == a + b[..n];
      PageCountAppend(a, b[..n]);
    }
  }

  /** A header row or a row in front adds no page. */
  lemma PageCountCons(e: Output, b: seq<Output>)
    requires !e.NewPage?
    ensures PageCount([e] + b) == PageCount(b)
  {
    PageCountAppend([e], b);
    assert [e][..0] == [];
  }

  /** One step of the row loop adds one page iff it draws a new page. */
  lemma ItemStepPages(s: TableState, cells: seq<string>)
    ensures var c := s.canvas;
      var c' := ItemStep(s, cells).canvas;
      && |c.out| <= |c'.out| && c'.out == c.out + c'.out[|c.out|..]
      && c'.pages == c.pages + PageCount(c'.out[|c.out|..])
  {
    var c := s.canvas;
    var c' := ItemStep(s, cells).canvas;
    var row := c'.out[|c'.out| - 1];
    if c.y > BreakY {
      assert c'.out[|c.out|..] == [NewPage] + [HeaderRow(Top, ItemHeaders), row];
      PageCountCons(HeaderRow(Top, ItemHeaders), [row]);
      PageCountCons(row, []);
      PageCountAppend([NewPage], [HeaderRow(Top, ItemHeaders), row]);
      assert [NewPage][..0] == [];
    } else {
      assert c'.out[|c.out|..] == [row] + [];
      PageCountCons(row, []);
    }
  }

  lemma SliceAppend(a: seq<Output>, b: seq<Output>, k: nat)
    requires k <= |a|
    ensures (a + b)[k..] == a[k..] + b
  {
  }

  /** The row loop adds one page per new page it draws, and nothing else. */
  lemma {:induction false} ItemRowsPages(s0: TableState, rows: seq<seq<string>>)
    ensures var r := ItemRows(s0, rows).canvas;
      && Extends(s0.canvas.out, r.out)
      && r.pages == s0.canvas.pages + PageCount(r.out[|s0.canvas.out|..])
  {
    if rows != [] {
      var n := |rows| - 1;
      var r := ItemRows(s0, rows[..n]).canvas;
      var r' := ItemRows(s0, rows).canvas;
      var k := |s0.canvas.out|;
      var added := r'.out[|r.out|..];
      ItemRowsPages(s0, rows[..n]);
      ItemStepPages(ItemRows(s0, rows[..n]), rows[n]);
      SliceAppend(r.out, added, k);
      PageCountAppend(r.out[k..], added);
      assert Extends(r.out, r'.out);
      ExtendsTrans(s0.canvas.out, r.out, r'.out);
    }
  }

  /** The header row alone is a table with no rows yet. */
  lemma TableStart(y: int)
    ensures Shaped([HeaderRow(y, ItemHeaders)])
    ensures !NextFill([HeaderRow(y, ItemHeaders)])
    ensures RowCells([HeaderRow(y, ItemHeaders)]) == []
  {
    assert [HeaderRow(y, ItemHeaders)][..0] == [];
  }

  /** The line-items table (ksef_pdf.py:418-488) as drawn after the section
      header: it has the shape above, starting with the header row right
      under the section header, and one row per item with that item's
      cells; one page is added per new page in it; the cursor ends 2 mm
      below its last row. It is left out entirely when there are no items. */
  lemma LineItemsTable(items: seq<LineItem>, c: Canvas)
    requires items != []
    ensures var b := LineItemsBlock(items, c);
      && Extends(c.out, b.out)
      && |b.out| >= |c.out| + 2
      && b.out[|c.out|] == Heading(c.y + 30, "POZYCJE FAKTURY")
      && b.out[|c.out| + 1] == HeaderRow(c.y + HeadingHeight, ItemHeaders)
      && TableShape(b.out[|c.out| + 1..], NextFill(b.out))
      && RowCells(b.out[|c.out| + 1..]) == MapPrefix(ItemCells, items)
      && b.pages == c.pages + PageCount(b.out[|c.out| + 1..])
      && b.y == EndY(b.out[|b.out| - 1]) + 20
  {
    var rows := MapPrefix(ItemCells, items);
    assert LineItemsBlock(items, c) == ItemsTable(rows, c);
    LineItemsTableShape(rows, c);
    LineItemsPages(rows, c);
  }

  /** What the table drawing leaves in `b` after the canvas `c`: the
      heading, then a table of the given rows with the shape above, and the
      cursor 2 mm below its last row. */
  ghost predicate ItemsTableDrawn(c: Canvas, b: Canvas, rows: seq<seq<string>>) {
    && Extends(c.out, b.out)
    && |b.out| >= |c.out| + 2
    && b.out[|c.out|] == Heading(c.y + 30, "POZYCJE FAKTURY")
    && TableShape(b.out[|c.out| + 1..], NextFill(b.out))
    && RowCells(b.out[|c.out| + 1..]) == rows
    && b.y == EndY(b.out[|b.out| - 1]) + 20
  }

  /** The header row right under the heading, and one page added per new
      page from it on. */
  predicate ItemsPagesCounted(c: Canvas, b: Canvas) {
    && |b.out| >= |c.out| + 2
    && b.out[|c.out| + 1] == HeaderRow(c.y + HeadingHeight, ItemHeaders)
    && b.pages == c.pages + PageCount(b.out[|c.out| + 1..])
  }

  /** The table of any rows, drawn after the canvas `c`. */
  lemma LineItemsTableShape(rows: seq<seq<string>>, c: Canvas)
    ensures ItemsTableDrawn(c, ItemsTable(rows, c), rows)
  {
    var c0 := WithHeading(c, "POZYCJE FAKTURY");
    var c1 := WithHeaderRow(c0, ItemHeaders);
    var pre := c0.out;
    var s := ItemRows(TableState(c1, false), rows);
    assert TableFrom(pre, s) && RowCells(s.canvas.out[|pre|..]) == rows by {
      assert c1.out[|pre|..] == [HeaderRow(c0.y, ItemHeaders)];
      TableStart(c0.y);
      ItemRowsShape(pre, TableState(c1, false), rows);
    }
    TableAfter(c.out, Heading(c.y + 30, "POZYCJE FAKTURY"), pre, s, rows);
  }

  /** The header row's place and the page count of the table. */
  lemma LineItemsPages(rows: seq<seq<string>>, c: Canvas)
    ensures ItemsPagesCounted(c, ItemsTable(rows, c))
  {
    var c0 := WithHeading(c, "POZYCJE FAKTURY");
    var c1 := WithHeaderRow(c0, ItemHeaders);
    var s := ItemRows(TableState(c1, false), rows).canvas;
    ItemRowsPages(TableState(c1, false), rows);
    PagesAfterHeader(c.out, c1.out, s.out, HeaderRow(c.y + HeadingHeight, ItemHeaders));
  }

  /** Pages counted from just after the header row of a table drawn after a
      heading are the pages counted from the heading on. */
  lemma PagesAfterHeader(before: seq<Output>, pre: seq<Output>, out: seq<Output>, h: Output)
    requires |pre| == |before| + 2 && pre[|before| + 1] == h && !h.NewPage?
    requires Extends(pre, out)
    ensures |out| >= |before| + 2 && out[|before| + 1] == h
    ensures PageCount(out[|before| + 1..]) == PageCount(out[|pre|..])
  {
    assert out[|before| + 1..] == [h] + out[|pre|..];
    PageCountCons(h, out[|pre|..]);
  }

  /** A table drawn after a heading, seen from before the heading. */
  lemma TableAfter(before: seq<Output>, h: Output, pre: seq<Output>, s: TableState, cells: seq<seq<string>>)
    requires pre == before + [h]
    requires TableFrom(pre, s) && RowCells(s.canvas.out[|pre|..]) == cells
    ensures var out := s.canvas.out;
      && Extends(before, out) && |out| >= |before| + 2 && out[|before|] == h
      && TableShape(out[|before| + 1..], NextFill(out))
      && RowCells(out[|before| + 1..]) == cells
      && s.canvas.y == EndY(out[|out| - 1])
  {
    var out := s.canvas.out;
    var t := out[|before| + 1..];
    ShapedMeans(t);
    assert NextFill(t) == NextFill(out);
    assert out[|before|] == pre[|before|];
  }

  // ---------------------------------------------------------------------
  // VAT summary (ksef_pdf.py:490-548)
  // ---------------------------------------------------------------------

  /** Unshaded table rows, one after the other. */
  function RowsFrom(c: Canvas, rows: seq<seq<string>>): Canvas {
    if rows == [] then c else WithRow(RowsFrom(c, rows[..|rows| - 1]), rows[|rows| - 1], false)
  }

  /** One more unshaded row. */
  lemma RowsFromSnoc(c: Canvas, rows: seq<seq<string>>, cells: seq<string>)
    ensures RowsFrom(c, rows + [cells]) == WithRow(RowsFrom(c, rows), cells, false)
  {
    assert (rows + [cells])[..|rows|] == rows;
  }

  lemma {:induction false} RowsFromSpec(c: Canvas, rows: seq<seq<string>>)
    ensures Extends(c.out, RowsFrom(c, rows).out)
    ensures |RowsFrom(c, rows).out| == |c.out| + |rows|
    ensures forall i :: 0 <= i < |rows| ==> RowsFrom(c, rows).out[|c.out| + i] == Row(c.y + RowHeight * i, rows[i], false)
    ensures RowsFrom(c, rows).y == c.y + RowHeight * |rows|
    ensures RowsFrom(c, rows).pages == c.pages
  {
    if rows != [] {
      var n := |rows| - 1;
      RowsFromSpec(c, rows[..n]);
      var p := RowsFrom(c, rows[..n]);
      assert RowsFrom(c, rows).out == p.out + [Row(p.y, rows[n], false)];
      forall i | 0 <= i < n
        ensures RowsFrom(c, rows).out[|c.out| + i] == Row(c.y + RowHeight * i, rows[i], false)
      {
        assert rows[..n][i] == rows[i];
      }
    }
  }

  /** The cells of the VAT table's rows, one per bucket. */
  function VatRows(rows: seq<VatBucket>): seq<seq<string>> {
    MapPrefix(VatRowCells, rows)
  }

  /** A section header, a header row, then unshaded rows. */
  function TableBlock(c: Canvas, title: string, headers: seq<string>, rows: seq<seq<string>>): Canvas {
    RowsFrom(WithHeaderRow(WithHeading(c, title), headers), rows)
  }

  lemma TableBlockSpec(c: Canvas, title: string, headers: seq<string>, rows: seq<seq<string>>)
    ensures var b := TableBlock(c, title, headers, rows);
      && Extends(c.out, b.out)
      && |b.out| == |c.out| + 2 + |rows|
      && b.out[|c.out|] == Heading(c.y + 30, title)
      && b.out[|c.out| + 1] == HeaderRow(c.y + HeadingHeight, headers)
      && (forall i :: 0 <= i < |rows| ==>
            b.out[|c.out| + 2 + i] == Row(c.y + HeadingHeight + HeaderRowHeight + RowHeight * i, rows[i], false))
      && b.y == c.y + HeadingHeight + HeaderRowHeight + RowHeight * |rows|
      && b.pages == c.pages
  {
    var c1 := WithHeaderRow(WithHeading(c, title), headers);
    RowsFromSpec(c1, rows);
    var b := TableBlock(c, title, headers, rows);
    forall i | 0 <= i < |rows|
      ensures b.out[|c.out| + 2 + i] == Row(c.y + HeadingHeight + HeaderRowHeight + RowHeight * i, rows[i], false)
    {
      assert b.out[|c1.out| + i] == Row(c1.y + RowHeight * i, rows[i], false);
    }
    assert b.out[|c.out|] == c1.out[|c.out|];
    assert b.out[|c.out| + 1] == c1.out[|c.out| + 1];
  }

  function VatBlock(rows: seq<VatBucket>, due: Option<string>, c: Canvas): (b: Canvas)
    ensures rows == [] ==> b == c
  {
    if rows == [] then c
    else TotalsAndDue(TableBlock(c, "PODSUMOWANIE VAT", VatHeaders, VatRows(rows)), TotalsCells(rows), due)
  }

  /** The totals row, then the amount due 1 mm below it when there is one,
      then 2 mm. */
  function TotalsAndDue(c: Canvas, totals: seq<string>, due: Option<string>): Canvas {
    var c2 := WithTotalsRow(c, totals);
    var c3 := if due.Some? then WithLine(Advanced(c2, 10), due.value, 70) else c2;
    Advanced(c3, 20)
  }

  lemma TotalsAndDueSpec(c: Canvas, totals: seq<string>, due: Option<string>)
    ensures var b := TotalsAndDue(c, totals, due);
      && Extends(c.out, b.out)
      && |b.out| == |c.out| + 1 + (if due.Some? then 1 else 0)
      && b.out[|c.out|] == TotalsRow(c.y, totals)
      && (due.Some? ==> b.out[|c.out| + 1] == Line(c.y + HeaderRowHeight + 10, due.value))
  {
  }

  /** The VAT table: one row per bucket in order, then the totals row
      (whose gross is the net total plus the VAT total, by
      `TotalsConsistent`), then the amount due when there is one. Without
      buckets nothing is drawn, not even the amount due from P_15 (the
      ensures of VatBlock). */
  lemma VatBlockSpec(rows: seq<VatBucket>, due: Option<string>, c: Canvas)
    requires rows != []
    ensures var b := VatBlock(rows, due, c);
      var k := |c.out| + 2 + |rows|;
      && Extends(c.out, b.out)
      && |b.out| == k + 1 + (if due.Some? then 1 else 0)
      && b.out[|c.out|] == Heading(c.y + 30, "PODSUMOWANIE VAT")
      && b.out[|c.out| + 1] == HeaderRow(c.y + HeadingHeight, VatHeaders)
      && (forall i :: 0 <= i < |rows| ==>
            b.out[|c.out| + 2 + i] == Row(c.y + HeadingHeight + HeaderRowHeight + RowHeight * i, VatRowCells(rows[i]), false))
      && b.out[k].TotalsRow? && b.out[k].cells == TotalsCells(rows)
      && (due.Some? ==> b.out[k + 1].Line? && b.out[k + 1].text == due.value)
  {
    var c1 := TableBlock(c, "PODSUMOWANIE VAT", VatHeaders, VatRows(rows));
    VatTable(rows, c);
    TotalsAndDueSpec(c1, TotalsCells(rows), due);
    var b := VatBlock(rows, due, c);
    assert b == TotalsAndDue(c1, TotalsCells(rows), due);
    ExtendsTrans(c.out, c1.out, b.out);
    forall i | 0 <= i < |rows|
      ensures b.out[|c.out| + 2 + i] == Row(c.y + HeadingHeight + HeaderRowHeight + RowHeight * i, VatRowCells(rows[i]), false)
    {
      assert b.out[|c.out| + 2 + i] == c1.out[|c.out| + 2 + i];
    }
    assert b.out[|c.out|] == c1.out[|c.out|];
    assert b.out[|c.out| + 1] == c1.out[|c.out| + 1];
  }

  /** The VAT table before its totals row: one unshaded row per bucket. */
  lemma VatTable(rows: seq<VatBucket>, c: Canvas)
    ensures var b := TableBlock(c, "PODSUMOWANIE VAT", VatHeaders, VatRows(rows));
      && Extends(c.out, b.out)
      && |b.out| == |c.out| + 2 + |rows|
      && b.out[|c.out|] == Heading(c.y + 30, "PODSUMOWANIE VAT")
      && b.out[|c.out| + 1] == HeaderRow(c.y + HeadingHeight, VatHeaders)
      && (forall i :: 0 <= i < |rows| ==>
            b.out[|c.out| + 2 + i] == Row(c.y + HeadingHeight + HeaderRowHeight + RowHeight * i, VatRowCells(rows[i]), false))
  {
    MapPrefixSpec(VatRowCells, rows);
    TableBlockSpec(c, "PODSUMOWANIE VAT", VatHeaders, VatRows(rows));
  }

  // ---------------------------------------------------------------------
  // Payment (ksef_pdf.py:550-593)
  // ---------------------------------------------------------------------

  function PaymentBlock(inv: Invoice, c: Canvas): Canvas {
    var p := PaymentOfInvoice(inv);
    if !PaymentShown(p) then c
    else
      var parts := PaymentParts(p.value);
      var c1 := WithHeading(c, "PLATNOSC");
      var c2 := if parts != [] then WithLine(c1, Join(parts, Separator), 50) else c1;
      var c3 := if Truthy(AccountNumber(p.value)) then WithLine(c2, "Nr rachunku: " + AccountNumber(p.value).value, 50) else c2;
      var c4 := if Truthy(BankName(p.value)) then WithLine(c3, "Bank: " + BankName(p.value).value, 50) else c3;
      Advanced(c4, 20)
  }

  /** The payment section is drawn iff one of its five checked keys is set,
      and then holds, under its header, the payment lines (the joined
      status, form and due-date parts, the account number, the bank name;
      see `PaymentLinesSpec`), one 5 mm line each, then 2 mm. */
  lemma PaymentBlockSpec(inv: Invoice, c: Canvas)
    ensures var b := PaymentBlock(inv, c);
      && (!PaymentShown(PaymentOfInvoice(inv)) ==> b == c)
      && (PaymentShown(PaymentOfInvoice(inv)) ==>
            var lines := PaymentLines(PaymentOfInvoice(inv).value);
            && Extends(c.out, b.out)
            && b.out[|c.out|] == Heading(c.y + 30, "PLATNOSC")
            && |b.out| == |c.out| + 1 + |lines| <= |c.out| + 4
            && (forall i :: 0 <= i < |lines| ==> b.out[|c.out| + 1 + i] == Line(c.y + HeadingHeight + 50 * i, lines[i]))
            && b.y == c.y + HeadingHeight + 50 * |lines| + 20
            && b.pages == c.pages)
  {
    var p := PaymentOfInvoice(inv);
    if PaymentShown(p) {
      var h := WithHeading(c, "PLATNOSC");
      var lines := PaymentLines(p.value);
      assert |lines| <= 3 by {
        PaymentLinesSpec(p.value);
      }
      assert PaymentBlock(inv, c) == Advanced(LinesFrom(h, lines, 50), 20) by {
        PaymentAsLines(p.value, h);
      }
      LinesUnderHeading(c, "PLATNOSC", lines);
    }
  }

  /** A heading, then 5 mm lines, then 2 mm. */
  lemma LinesUnderHeading(c: Canvas, title: string, lines: seq<string>)
    ensures var b := Advanced(LinesFrom(WithHeading(c, title), lines, 50), 20);
      && Extends(c.out, b.out)
      && |b.out| == |c.out| + 1 + |lines|
      && b.out[|c.out|] == Heading(c.y + 30, title)
      && (forall i :: 0 <= i < |lines| ==> b.out[|c.out| + 1 + i] == Line(c.y + HeadingHeight + 50 * i, lines[i]))
      && b.y == c.y + HeadingHeight + 50 * |lines| + 20
      && b.pages == c.pages
  {
    var h := WithHeading(c, title);
    var b := Advanced(LinesFrom(h, lines, 50), 20);
    LinesFromSpec(h, lines, 50);
    forall i | 0 <= i < |lines|
      ensures b.out[|c.out| + 1 + i] == Line(c.y + HeadingHeight + 50 * i, lines[i])
    {
      assert b.out[|h.out| + i] == Line(h.y + 50 * i, lines[i]);
    }
    assert b.out[|c.out|] == h.out[|c.out|];
    ExtendsTrans(c.out, h.out, b.out);
  }

  /** The payment lines drawn one after the other. */
  lemma PaymentAsLines(p: Payment, h: Canvas)
    ensures var parts := PaymentParts(p);
      var c2 := if parts != [] then WithLine(h, Join(parts, Separator), 50) else h;
      var c3 := if Truthy(AccountNumber(p)) then WithLine(c2, "Nr rachunku: " + AccountNumber(p).value, 50) else c2;
      var c4 := if Truthy(BankName(p)) then WithLine(c3, "Bank: " + BankName(p).value, 50) else c3;
      c4 == LinesFrom(h, PaymentLines(p), 50)
  {
    var parts := PaymentParts(p);
    var l1: seq<string> := if parts != [] then [Join(parts, Separator)] else [];
    var l2 := l1 + Labelled("Nr rachunku: ", AccountNumber(p));
    var l3 := l2 + Labelled("Bank: ", BankName(p));
    assert l3 == PaymentLines(p);
    if parts != [] {
      LinesFromSnoc(h, [], Join(parts, Separator), 50);
      assert [] + [Join(parts, Separator)] == l1;
    }
    if Truthy(AccountNumber(p)) {
      LinesFromSnoc(h, l1, "Nr rachunku: " + AccountNumber(p).value, 50);
    } else {
      assert l2 == l1;
    }
    if Truthy(BankName(p)) {
      LinesFromSnoc(h, l2, "Bank: " + BankName(p).value, 50);
    } else {
      assert l3 == l2;
    }
  }

  // ---------------------------------------------------------------------
  // Additional information (ksef_pdf.py:595-619)
  // ---------------------------------------------------------------------

  function DescriptionLines(opisy: seq<Description>): (r: seq<string>)
    ensures |r| == |opisy|
  {
    seq(|opisy|, i requires 0 <= i < |opisy| => DescriptionLine(opisy[i]))
  }

  function OrderLines(zam: seq<Order>): (r: seq<string>)
    ensures |r| == |zam|
  {
    seq(|zam|, i requires 0 <= i < |zam| => OrderLine(zam[i]))
  }

  /** A section header, then one 5 mm line per entry, then 1 mm. */
  function ListSection(c: Canvas, title: string, lines: seq<string>): Canvas {
    Advanced(LinesFrom(WithHeading(c, title), lines, 50), 10)
  }

  lemma ListSectionSpec(c: Canvas, title: string, lines: seq<string>)
    ensures var b := ListSection(c, title, lines);
      && Extends(c.out, b.out)
      && |b.out| == |c.out| + 1 + |lines|
      && b.out[|c.out|] == Heading(c.y + 30, title)
      && (forall i :: 0 <= i < |lines| ==> b.out[|c.out| + 1 + i] == Line(c.y + HeadingHeight + 50 * i, lines[i]))
      && b.y == c.y + HeadingHeight + 50 * |lines| + 10
      && b.pages == c.pages
  {
    var h := WithHeading(c, title);
    LinesFromSpec(h, lines, 50);
    var b := ListSection(c, title, lines);
    forall i | 0 <= i < |lines|
      ensures b.out[|c.out| + 1 + i] == Line(c.y + HeadingHeight + 50 * i, lines[i])
    {
      assert b.out[|h.out| + i] == Line(h.y + 50 * i, lines[i]);
    }
  }

  function AdditionalBlock(opisy: seq<Description>, zam: seq<Order>, c: Canvas): Canvas {
    OrdersBlock(zam, DescriptionsBlock(opisy, c))
  }

  /** The descriptions' list section, drawn only when there are some. */
  function DescriptionsBlock(opisy: seq<Description>, c: Canvas): (b: Canvas)
    ensures opisy == [] ==> b == c
  {
    if opisy != [] then ListSection(c, "INFORMACJE DODATKOWE", DescriptionLines(opisy)) else c
  }

  /** The orders' list section, drawn only when there are some. */
  function OrdersBlock(zam: seq<Order>, c: Canvas): (b: Canvas)
    ensures zam == [] ==> b == c
  {
    if zam != [] then ListSection(c, "ZAMOWIENIA", OrderLines(zam)) else c
  }

  /** One line per description and one per order, each list under its own
      header and only when it is non-empty, descriptions first. */
  lemma AdditionalBlockSpec(opisy: seq<Description>, zam: seq<Order>, c: Canvas)
    ensures var b := AdditionalBlock(opisy, zam, c);
      var k := |c.out| + (if opisy != [] then 1 + |opisy| else 0);
      var ky := c.y + (if opisy != [] then HeadingHeight + 50 * |opisy| + 10 else 0);
      && Extends(c.out, b.out)
      && |b.out| == k + (if zam != [] then 1 + |zam| else 0)
      && (opisy != [] ==>
            && b.out[|c.out|] == Heading(c.y + 30, "INFORMACJE DODATKOWE")
            && forall i :: 0 <= i < |opisy| ==> b.out[|c.out| + 1 + i] == Line(c.y + HeadingHeight + 50 * i, DescriptionLine(opisy[i])))
      && (zam != [] ==>
            && b.out[k] == Heading(ky + 30, "ZAMOWIENIA")
            && forall i :: 0 <= i < |zam| ==> b.out[k + 1 + i] == Line(ky + HeadingHeight + 50 * i, OrderLine(zam[i])))
      && b.pages == c.pages
  {
    AdditionalDescriptions(opisy, zam, c);
    if zam != [] {
      AdditionalOrders(opisy, zam, c);
    }
  }

  /** The descriptions' part of AdditionalBlockSpec: the orders only append. */
  lemma AdditionalDescriptions(opisy: seq<Description>, zam: seq<Order>, c: Canvas)
    ensures var b := AdditionalBlock(opisy, zam, c);
      var c1 := DescriptionsBlock(opisy, c);
      && Extends(c.out, b.out)
      && |c1.out| == |c.out| + (if opisy != [] then 1 + |opisy| else 0)
      && c1.y == c.y + (if opisy != [] then HeadingHeight + 50 * |opisy| + 10 else 0)
      && |b.out| == |c1.out| + (if zam != [] then 1 + |zam| else 0)
      && (opisy != [] ==>
            && b.out[|c.out|] == Heading(c.y + 30, "INFORMACJE DODATKOWE")
            && forall i :: 0 <= i < |opisy| ==> b.out[|c.out| + 1 + i] == Line(c.y + HeadingHeight + 50 * i, DescriptionLine(opisy[i])))
      && b.pages == c.pages
  {
    var c1 := DescriptionsBlock(opisy, c);
    var b := OrdersBlock(zam, c1);
    if opisy != [] {
      DescriptionSection(opisy, c);
    }
    if zam != [] {
      OrderSection(zam, c1);
      ExtendsTrans(c.out, c1.out, b.out);
      if opisy != [] {
        assert b.out[|c.out|] == c1.out[|c.out|];
        forall i | 0 <= i < |opisy|
          ensures b.out[|c.out| + 1 + i] == Line(c.y + HeadingHeight + 50 * i, DescriptionLine(opisy[i]))
        {
          assert b.out[|c.out| + 1 + i] == c1.out[|c.out| + 1 + i];
        }
      }
    }
  }

  /** The orders' part of AdditionalBlockSpec: drawn right after the
      descriptions' section. */
  lemma AdditionalOrders(opisy: seq<Description>, zam: seq<Order>, c: Canvas)
    requires zam != []
    ensures var b := AdditionalBlock(opisy, zam, c);
      var c1 := DescriptionsBlock(opisy, c);
      && |b.out| == |c1.out| + 1 + |zam|
      && b.out[|c1.out|] == Heading(c1.y + 30, "ZAMOWIENIA")
      && forall i :: 0 <= i < |zam| ==> b.out[|c1.out| + 1 + i] == Line(c1.y + HeadingHeight + 50 * i, OrderLine(zam[i]))
  {
    OrderSection(zam, DescriptionsBlock(opisy, c));
  }

  lemma DescriptionSection(opisy: seq<Description>, c: Canvas)
    requires opisy != []
    ensures var b := DescriptionsBlock(opisy, c);
      && Extends(c.out, b.out)
      && |b.out| == |c.out| + 1 + |opisy|
      && b.out[|c.out|] == Heading(c.y + 30, "INFORMACJE DODATKOWE")
      && (forall i :: 0 <= i < |opisy| ==> b.out[|c.out| + 1 + i] == Line(c.y + HeadingHeight + 50 * i, DescriptionLine(opisy[i])))
      && b.y == c.y + HeadingHeight + 50 * |opisy| + 10
      && b.pages == c.pages
  {
    ListSectionSpec(c, "INFORMACJE DODATKOWE", DescriptionLines(opisy));
    var b := ListSection(c, "INFORMACJE DODATKOWE", DescriptionLines(opisy));
    forall i | 0 <= i < |opisy|
      ensures b.out[|c.out| + 1 + i] == Line(c.y + HeadingHeight + 50 * i, DescriptionLine(opisy[i]))
    {
      assert DescriptionLines(opisy)[i] == DescriptionLine(opisy[i]);
    }
  }

  lemma OrderSection(zam: seq<Order>, c: Canvas)
    requires zam != []
    ensures var b := OrdersBlock(zam, c);
      && Extends(c.out, b.out)
      && |b.out| == |c.out| + 1 + |zam|
      && b.out[|c.out|] == Heading(c.y + 30, "ZAMOWIENIA")
      && (forall i :: 0 <= i < |zam| ==> b.out[|c.out| + 1 + i] == Line(c.y + HeadingHeight + 50 * i, OrderLine(zam[i])))
      && b.pages == c.pages
  {
    ListSectionSpec(c, "ZAMOWIENIA", OrderLines(zam));
    var b := ListSection(c, "ZAMOWIENIA", OrderLines(zam));
    forall i | 0 <= i < |zam|
      ensures b.out[|c.out| + 1 + i] == Line(c.y + HeadingHeight + 50 * i, OrderLine(zam[i]))
    {
      assert OrderLines(zam)[i] == OrderLine(zam[i]);
    }
  }

  // ---------------------------------------------------------------------
  // Footer (ksef_pdf.py:621-658)
  // ---------------------------------------------------------------------

  function FooterBlock(inv: Invoice, c: Canvas): Canvas {
    var f := inv.stopka;
    if !FooterShown(f) then c
    else
      var c1 := Advanced(WithRule(c), 20);
      var parts := RegistryParts(f);
      var c2 := if parts != [] then WithLine(c1, Join(parts, Separator), 40) else c1;
      var c3 := if Truthy(FooterText(f)) then WithLine(c2, FooterText(f).value, 40) else c2;
      WithLine(Advanced(c3, 30), Watermark, 30)
  }

  /** The footer is drawn iff it has something to say, and then always ends
      with the watermark; without it there is no watermark either. When it
      is drawn: the rule at the cursor, 2 mm, the footer lines (the joined
      registry parts, the footer text; see `FooterLinesSpec`) 4 mm apart,
      3 mm, and the watermark. */
  lemma FooterBlockSpec(inv: Invoice, c: Canvas)
    ensures var b := FooterBlock(inv, c);
      && (!FooterShown(inv.stopka) ==> b == c)
      && (FooterShown(inv.stopka) ==>
            var lines := FooterLines(inv.stopka);
            && Extends(c.out, b.out)
            && b.out[|c.out|] == Rule(c.y)
            && b.out[|b.out| - 1] == Line(b.y - 30, Watermark)
            && |c.out| + 3 <= |b.out| <= |c.out| + 4
            && |b.out| == |c.out| + 2 + |lines|
            && (forall i :: 0 <= i < |lines| ==> b.out[|c.out| + 1 + i] == Line(c.y + 20 + 40 * i, lines[i]))
            && b.y == c.y + 20 + 40 * |lines| + 60
            && b.pages == c.pages)
  {
    var f := inv.stopka;
    if FooterShown(f) {
      var lines := FooterLines(f);
      FooterLinesSpec(f);
      var h := Advanced(WithRule(c), 20);
      assert FooterBlock(inv, c) == WithLine(Advanced(LinesFrom(h, lines, 40), 30), Watermark, 30) by {
        FooterAsLines(f, h);
      }
      LinesUnderRule(c, lines);
    }
  }

  /** A rule, 2 mm, 4 mm lines, 3 mm, then the watermark. */
  lemma LinesUnderRule(c: Canvas, lines: seq<string>)
    ensures var b := WithLine(Advanced(LinesFrom(Advanced(WithRule(c), 20), lines, 40), 30), Watermark, 30);
      && Extends(c.out, b.out)
      && |b.out| == |c.out| + 2 + |lines|
      && b.out[|c.out|] == Rule(c.y)
      && (forall i :: 0 <= i < |lines| ==> b.out[|c.out| + 1 + i] == Line(c.y + 20 + 40 * i, lines[i]))
      && b.out[|b.out| - 1] == Line(c.y + 20 + 40 * |lines| + 30, Watermark)
      && b.y == c.y + 20 + 40 * |lines| + 60
      && b.pages == c.pages
  {
    var h := Advanced(WithRule(c), 20);
    var l := LinesFrom(h, lines, 40);
    var b := WithLine(Advanced(l, 30), Watermark, 30);
    LinesFromSpec(h, lines, 40);
    forall i | 0 <= i < |lines|
      ensures b.out[|c.out| + 1 + i] == Line(c.y + 20 + 40 * i, lines[i])
    {
      assert b.out[|h.out| + i] == l.out[|h.out| + i];
    }
    assert b.out[|c.out|] == h.out[|c.out|];
    ExtendsTrans(c.out, h.out, l.out);
    ExtendsTrans(c.out, l.out, b.out);
  }

  /** The footer lines drawn one after the other. */
  lemma FooterAsLines(f: Footer, h: Canvas)
    ensures var parts := RegistryParts(f);
      var c2 := if parts != [] then WithLine(h, Join(parts, Separator), 40) else h;
      var c3 := if Truthy(FooterText(f)) then WithLine(c2, FooterText(f).value, 40) else c2;
      c3 == LinesFrom(h, FooterLines(f), 40)
  {
    var parts := RegistryParts(f);
    var l1: seq<string> := if parts != [] then [Join(parts, Separator)] else [];
    var l2 := l1 + Labelled("", FooterText(f));
    assert l2 == FooterLines(f);
    if parts != [] {
      LinesFromSnoc(h, [], Join(parts, Separator), 40);
      assert [] + [Join(parts, Separator)] == l1;
    }
    if Truthy(FooterText(f)) {
      LinesFromSnoc(h, l1, "" + FooterText(f).value, 40);
      assert "" + FooterText(f).value == FooterText(f).value;
    } else {
      assert l2 == l1;
    }
  }

  // ---------------------------------------------------------------------
  // The whole document (ksef_pdf.py:313-322)
  // ---------------------------------------------------------------------

  /** `build`: one page, then the sections in their fixed order. */
  function Document(inv: Invoice, leftName: nat, rightName: nat): Canvas {
    Body(inv, HeaderBlock(inv, PageAdded(Canvas([], Top, 0))), leftName, rightName)
  }

  /** The sections after the header. */
  function Body(inv: Invoice, c: Canvas, leftName: nat, rightName: nat): Canvas {
    Closing(inv, Tables(inv, PartiesBlock(inv, c, leftName, rightName)))
  }

  /** The line items, then the VAT summary. */
  function Tables(inv: Invoice, c: Canvas): Canvas {
    var c1 := LineItemsBlock(if inv.fa.Some? then inv.fa.value.wiersze else [], c);
    VatBlock(if inv.fa.Some? then inv.fa.value.vatSummary else [], DueLine(inv), c1)
  }

  /** Payment, additional information and the footer. */
  function Closing(inv: Invoice, c: Canvas): Canvas {
    var opisy := if inv.fa.Some? then inv.fa.value.dodatkowyOpis else [];
    var zam := if inv.fa.Some? then inv.fa.value.zamowienia else [];
    FooterBlock(inv, AdditionalBlock(opisy, zam, PaymentBlock(inv, c)))
  }

  lemma TablesSpec(inv: Invoice, c: Canvas)
    ensures Extends(c.out, Tables(inv, c).out)
  {
    var items := if inv.fa.Some? then inv.fa.value.wiersze else [];
    var rows := if inv.fa.Some? then inv.fa.value.vatSummary else [];
    var c1 := LineItemsBlock(items, c);
    var c2 := VatBlock(rows, DueLine(inv), c1);
    assert Extends(c.out, c1.out) by {
      if items != [] {
        LineItemsTable(items, c);
      }
    }
    assert Extends(c1.out, c2.out) by {
      if rows != [] {
        VatBlockSpec(rows, DueLine(inv), c1);
      }
    }
    ExtendsTrans(c.out, c1.out, c2.out);
  }

  lemma ClosingSpec(inv: Invoice, c: Canvas)
    ensures var d := Closing(inv, c);
      && Extends(c.out, d.out)
      && (FooterShown(inv.stopka) ==> |d.out| > 0 && d.out[|d.out| - 1] == Line(d.y - 30, Watermark))
  {
    var opisy := if inv.fa.Some? then inv.fa.value.dodatkowyOpis else [];
    var zam := if inv.fa.Some? then inv.fa.value.zamowienia else [];
    var c2 := AdditionalBlock(opisy, zam, PaymentBlock(inv, c));
    ClosingKeeps(inv, c, c2);
    FooterBlockSpec(inv, c2);
    ExtendsTrans(c.out, c2.out, FooterBlock(inv, c2).out);
  }

  /** Payment and the additional information only append. */
  lemma ClosingKeeps(inv: Invoice, c: Canvas, c2: Canvas)
    requires c2 == AdditionalBlock(
      if inv.fa.Some? then inv.fa.value.dodatkowyOpis else [],
      if inv.fa.Some? then inv.fa.value.zamowienia else [], PaymentBlock(inv, c))
    ensures Extends(c.out, c2.out)
  {
    var c1 := PaymentBlock(inv, c);
    assert Extends(c.out, c1.out) by {
      PaymentBlockSpec(inv, c);
    }
    assert Extends(c1.out, c2.out) by {
      AdditionalBlockSpec(
        if inv.fa.Some? then inv.fa.value.dodatkowyOpis else [],
        if inv.fa.Some? then inv.fa.value.zamowienia else [], c1);
    }
    ExtendsTrans(c.out, c1.out, c2.out);
  }

  /** Nothing drawn before the sections is undone, and a shown footer is
      the last thing drawn. */
  lemma BodySpec(inv: Invoice, c: Canvas, leftName: nat, rightName: nat)
    ensures var d := Body(inv, c, leftName, rightName);
      && Extends(c.out, d.out)
      && (FooterShown(inv.stopka) ==> |d.out| > 0 && d.out[|d.out| - 1] == Line(d.y - 30, Watermark))
  {
    var c1 := PartiesBlock(inv, c, leftName, rightName);
    var c2 := Tables(inv, c1);
    var d := Closing(inv, c2);
    assert Extends(c.out, c1.out) by {
      PartiesBlockSpec(inv, c, leftName, rightName);
    }
    TablesSpec(inv, c1);
    ClosingSpec(inv, c2);
    ExtendsTrans(c.out, c1.out, c2.out);
    ExtendsTrans(c.out, c2.out, d.out);
  }

  /** Every document opens with its page, the title at the top margin and
      the number below it. */
  lemma DocumentOpens(inv: Invoice, leftName: nat, rightName: nat)
    ensures var d := Document(inv, leftName, rightName);
      && |d.out| >= 3
      && d.out[0] == NewPage
      && d.out[1] == Line(Top, Title(inv))
      && d.out[2] == Line(Top + 80, NumberLine(inv))
  {
    var c0 := PageAdded(Canvas([], Top, 0));
    var h := HeaderBlock(inv, c0);
    assert |h.out| >= 3 && h.out[0] == NewPage && h.out[1] == Line(Top, Title(inv)) && h.out[2] == Line(Top + 80, NumberLine(inv)) by {
      HeaderBlockSpec(inv, c0);
    }
    BodyKeepsHead(inv, h, leftName, rightName);
  }

  /** A document whose footer is shown closes with the watermark. */
  lemma DocumentCloses(inv: Invoice, leftName: nat, rightName: nat)
    requires FooterShown(inv.stopka)
    ensures var d := Document(inv, leftName, rightName);
      |d.out| > 0 && d.out[|d.out| - 1] == Line(d.y - 30, Watermark)
  {
    BodySpec(inv, HeaderBlock(inv, PageAdded(Canvas([], Top, 0))), leftName, rightName);
  }

  /** The first three events drawn before the sections stay where they are. */
  lemma BodyKeepsHead(inv: Invoice, h: Canvas, leftName: nat, rightName: nat)
    requires |h.out| >= 3
    ensures var d := Body(inv, h, leftName, rightName);
      && |d.out| >= 3
      && d.out[0] == h.out[0] && d.out[1] == h.out[1] && d.out[2] == h.out[2]
  {
    BodySpec(inv, h, leftName, rightName);
  }

  lemma ExtendsAppend(a: seq<Output>, b: seq<Output>)
    ensures Extends(a, a + b)
  {
  }

  lemma ExtendsTrans(a: seq<Output>, b: seq<Output>, c: seq<Output>)
    requires Extends(a, b) && Extends(b, c)
    ensures Extends(a, c)
  {
  }
}
