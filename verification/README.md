# KSeF invoice visualiser: a Dafny model of `ksef_pdf.py`

`ksef_pdf.py` turns a Polish KSeF e-invoice into an A4 PDF. The invoice is an
XML document in one of the schemas FA(1), FA(2) or FA(3). The conversion has
two stages, and this project models both:

1. **Extraction.** `parse_ksef_xml` reads the parsed element tree into a
   normalised record: the header, seller and buyer, the `Fa` body with its
   VAT buckets, annotations, descriptions, line items, payment and orders,
   and the footer.
   - `extractor.dfy` models this stage on an element datatype (`xml.dfy`),
     using Python's string operations (`strings.dfy`).
   - Its loops are methods, each proved equal to a pure specification
     function.
   - An unknown namespace is an error value, not an exception.
2. **Rendering.** `InvoicePDF` draws the record section by section.
   - `decimals.dfy` models `_dec` and `_fmt`: exact `Decimal` addition, and
     half-even rounding to two places with space-grouped thousands.
   - `sections.dfy` models the text of every printed line.
   - `layout.dfy` models the sequence of drawn events as pure functions of a
     canvas: lines, party-column lines, rules, section headers, table rows
     and new pages. It also models the vertical cursor and the page count.
   - `renderer.dfy` is the class `InvoicePdf`. Its fields are updated in
     place by methods with the source's own loops, and each method is proved
     to produce exactly the layout function's canvas.

Geometry is kept in tenths of a millimetre, so the 5.5 mm rows are exact.
The fixed values are:
- top margin 10 mm;
- the table page break past 260 mm;
- the party columns at x = 10 mm and x = 105 mm.

`sequences.dfy` holds the two list-building patterns the extractor uses
(append one result per input; append only present results).
`wrappers.dfy` holds `Option` and `Result`.

A missing value is an `Option`. A group of dictionary keys that the source
sets together under one `if element is not None` is also an `Option`:
`None` means the keys are absent. Values that fpdf would receive as Python
`None` are drawn as the empty string.

## Model

| member | source | states |
|---|---|---|
| Xml.Find | ksef_pdf.py:59-61 | `find` yields nothing exactly when no child carries the namespaced tag; otherwise a child with that tag |
| Xml.TagPositions | ksef_pdf.py:64-66 | the positions of the children carrying the tag: each a matching child, strictly increasing, and every matching child's position among them |
| Xml.WithTag | ksef_pdf.py:64-66 | `findall` returns the children at those positions, in document order: every matching child, as often as it occurs, and nothing else |
| Xml.Text | ksef_pdf.py:69-74 | `_text` gives the default when the child is missing or its text is empty; otherwise exactly the raw text stripped; whitespace-only text gives "" rather than the default; already-trimmed text is returned unchanged |
| Strings.Strip | ksef_pdf.py:73 | `str.strip` returns the slice of the input left after removing only whitespace before and after it, and that slice neither starts nor ends with whitespace; it is empty iff the input is all whitespace |
| Strings.TakeUntil | ksef_pdf.py:134 | `split("}")[0]`: the longest prefix without `}`, followed by `}` when shorter than the input |
| Strings.LStripChar | ksef_pdf.py:134 | `lstrip("{")`: a suffix that does not start with `{`, after removing only `{` characters |
| Extractor.NamespaceOf | ksef_pdf.py:133-134 | a root tag without `}` gives the namespace ""; a namespace never contains `}` |
| Extractor.NamespaceOfQualified | ksef_pdf.py:133-134 | for a tag `{uri}local`, the detected namespace is exactly `uri` |
| Extractor.Extract | ksef_pdf.py:124-252 | extraction succeeds iff the root's namespace is one of the three KSeF URIs; otherwise the error names that namespace; the record's namespace is the detected one; the Fa keys are present iff a Fa element is |
| Extractor.KnownSchemaAccepted | ksef_pdf.py:133-141 | a root in any of the three schemas is accepted and records its URI |
| Extractor.UnknownSchemaRejected | ksef_pdf.py:136-137 | a root qualified by any other URI is rejected with that URI, before any field is read |
| Extractor.UnqualifiedRootRejected | ksef_pdf.py:134-137 | a root tag without a namespace is rejected with "" |
| Extractor.PlainNamespaces | ksef_pdf.py:23-27 | the three KSEF_NAMESPACES URIs are non-empty, start with "h" and contain no `}`, so each can be detected |
| Extractor.HeaderOf | ksef_pdf.py:143-152 | the Naglowek keys are set iff the Naglowek element exists |
| Extractor.ParsePodmiot | ksef_pdf.py:77-106 | a missing Podmiot gives the empty dict; otherwise the identity, address and contact keys are each set iff their element exists |
| Extractor.ParseWiersz | ksef_pdf.py:109-121 | an item's description is "" when P_7 is missing or empty, else its stripped text |
| Extractor.VatSummarySpec | ksef_pdf.py:172-183 | at most 7 buckets; each equals the entry built from its row of VAT_RATE_FIELDS; buckets follow that table's order strictly; rate k has a bucket iff P_13_k is present (not None), whatever P_14_k is |
| Extractor.VatSummaryPresence | ksef_pdf.py:174-177 | the bucket for a rate exists iff its P_13 text is not None, even when that text is whitespace |
| Extractor.BucketVat | ksef_pdf.py:176-181 | a bucket's VAT is "0.00" when P_14 is missing, empty or whitespace-only, and otherwise its stripped text |
| Extractor.FlagsFromSpec | ksef_pdf.py:189-192 | the annotation map holds only the listed fields; a field is in it iff its value is truthy, and then maps to that value |
| Extractor.AnnotationsSpec | ksef_pdf.py:185-192 | no Adnotacje gives the empty map; otherwise P_16, P_17, P_18, P_18A and P_23 are each present iff their text is non-empty |
| Extractor.DescriptionOf | ksef_pdf.py:197-200 | a DodatkowyOpis entry is kept iff both Klucz and Wartosc are non-empty |
| Extractor.DescriptionsSpec | ksef_pdf.py:194-201 | the descriptions are the key/value pairs of the qualifying elements read at strictly increasing positions, one per element with both a key and a value and every such element included, so in document order with repeats kept; none has an empty key or value |
| Extractor.LineItemsSpec | ksef_pdf.py:203-207 | one item per FaWiersz, in document order, each parsed by `_parse_wiersz` |
| Extractor.PaymentOf | ksef_pdf.py:209-224 | the payment keys are set iff Platnosc exists; the account keys iff RachunekBankowy exists inside it |
| Extractor.OrdersOf | ksef_pdf.py:226-237 | no WarunkiTransakcji gives no orders |
| Extractor.OrdersSpec | ksef_pdf.py:229-234 | one order per Zamowienia element, in order, with its date and number |
| Extractor.FooterOf | ksef_pdf.py:239-250 | `tekst` is set iff Stopka/Informacje exists; the registry numbers are set iff Stopka/Rejestry exists |
| Extractor.ExtractVatSummary | ksef_pdf.py:172-183 | the loop over VAT_RATE_FIELDS builds exactly the VAT summary specified above |
| Extractor.ExtractAnnotations | ksef_pdf.py:185-192 | the loop filling `adnotacje` builds exactly the annotation map specified above |
| Extractor.ExtractDescriptions | ksef_pdf.py:194-201 | the loop over DodatkowyOpis builds exactly the filtered description list |
| Extractor.ExtractLineItems | ksef_pdf.py:203-207 | the loop over FaWiersz builds exactly the item list |
| Extractor.ExtractOrders | ksef_pdf.py:229-235 | the loop over Zamowienia builds exactly the order list |
| Extractor.ParseKsefXml | ksef_pdf.py:124-252 | `parse_ksef_xml`, written with its loops, returns exactly the specified extraction result |
| Decimals.ParsePlain | ksef_pdf.py:263-264 | a parsed Decimal is negative iff the text starts with "-", and has fewer fractional digits than the text has characters |
| Decimals.ParsePointed | ksef_pdf.py:263-264 | `Decimal("[sign]ip.fp")` is the digits of ip and fp read as one integer, with as many decimal places as fp has digits, negative iff the sign is "-" |
| Decimals.ParseInteger | ksef_pdf.py:263-264 | `Decimal("[sign]ip")` is the value of its digits with no decimal places, negative iff the sign is "-" |
| Decimals.ParseRejectsChar | ksef_pdf.py:263-266 | a character other than a digit or a point, anywhere but a leading sign, makes `Decimal` reject the text |
| Decimals.ParseRejectsPoints | ksef_pdf.py:263-266 | so does a second decimal point |
| Decimals.ParseRejectsNoDigit | ksef_pdf.py:263-266 | so does a text without any digit, such as "", "-", "+", "." or "-." |
| Decimals.ParsePlainSpec | ksef_pdf.py:263-266 | `Decimal` accepts exactly the plain decimal texts: at least one digit, nothing but digits and points after an optional leading sign, and at most one point |
| Decimals.DecOfPointed | ksef_pdf.py:259-266 | `_dec` of a text whose stripped form is a signed decimal with a point is that exact value |
| Decimals.DecOfInteger | ksef_pdf.py:259-266 | `_dec` of a text whose stripped form is a signed integer is that exact value |
| Decimals.DecOfInvalid | ksef_pdf.py:259-266 | `_dec` of any text whose stripped form `Decimal` rejects (it is not a plain decimal) is Decimal("0.00") |
| Decimals.DecOfBlank | ksef_pdf.py:259-266 | `_dec` of an empty or whitespace-only text is Decimal("0.00") |
| Decimals.Add | ksef_pdf.py:518-522 | Decimal addition is exact: the exponent is the larger one, the scaled values add, and the result is a negative zero iff both operands are |
| Decimals.AddRegroup | ksef_pdf.py:520-522 | (a+b)+(c+d) equals (a+c)+(b+d) as Decimals, exponent and sign of zero included |
| Decimals.RoundCents | ksef_pdf.py:272 | rounding to hundredths is exact for at most two places; otherwise it is within half a cent, and even on a tie (ROUND_HALF_EVEN) |
| Decimals.Fmt | ksef_pdf.py:269-272 | `_fmt` text ends in a point and exactly two digits; it starts with "-" iff the sign bit is set; the integer digits are grouped in threes with single spaces |
| Decimals.GroupSpec | ksef_pdf.py:272 | thousands grouping is well formed, keeps the leading digit, and loses no digit once the spaces are removed |
| Decimals.FmtRoundTrip | ksef_pdf.py:269-272 | reading back `_fmt`'s text without spaces gives the value rounded half-even to hundredths, with its sign |
| Decimals.FmtExact | ksef_pdf.py:269-272 | for a value with at most two decimals, `_fmt` loses nothing: the text reads back as the same amount |
| Sections.TitleSpec | ksef_pdf.py:328-332 | the title is bare "FAKTURA" iff Fa is present with an empty or missing RodzajFaktury; it is "FAKTURA VAT" without Fa, and otherwise "FAKTURA " plus the kind |
| Sections.NumberLine | ksef_pdf.py:335-336 | the number line always starts with "Nr " |
| Sections.NumberLineSpec | ksef_pdf.py:335-336 | "Nr " alone without Fa; "Nr None" when Fa has no P_2; otherwise "Nr " plus the number |
| Sections.DateFieldsSpec | ksef_pdf.py:339-349 | in order, "Data wystawienia: ", "Miejsce: " and "Data dostawy/wykonania: " with their values, each iff the value is non-empty, then "Waluta: " with the currency iff it is non-empty and not PLN; so at most four fields, none iff none is set, the currency last |
| Sections.SchemaLineSpec | ksef_pdf.py:355-360 | the schema line is shown iff `kod_systemowy` is non-empty, and reads "Schemat: " followed by it |
| Sections.LabelledSpec | ksef_pdf.py:376-396 | a labelled field prints exactly one line, its label followed by its value, when the value is non-empty, and none otherwise |
| Sections.PartyLinesSpec | ksef_pdf.py:376-396 | a party block prints, in order, "NIP: " with the tax id, the two address lines, "Email: ", "Tel: " and "Nr klienta: " lines, each iff its value is non-empty (a missing sub-dict counting as missing values); so at most six, never a blank one, and none for an empty party |
| Sections.VatCellSpec | ksef_pdf.py:463-465 | the VAT cell is the rate with exactly one "%" appended iff the rate is non-empty and not zw, zw., np or oo, and the rate as given otherwise ("" when missing) |
| Sections.ShortName | ksef_pdf.py:467-471 | a name of at most 55 characters is unchanged; a longer one becomes its first 52 characters plus "...", exactly 55 long |
| Sections.ItemCellsSpec | ksef_pdf.py:467-481 | the name cell is at most 55 long; price and net value always print as two-decimal amounts, "0.00" when missing |
| Sections.ItemAmountsSpec | ksef_pdf.py:473-481 | read back without its spaces, the price cell is the item's unit net price and the value cell its net value, each rounded half-even to hundredths with its sign |
| Sections.MissingAmount | ksef_pdf.py:259-262 | a missing amount prints as "0.00" |
| Sections.SumGrossSplit | ksef_pdf.py:511-522 | the running gross total equals the running net total plus the running VAT total, as the same Decimal |
| Sections.TotalsConsistent | ksef_pdf.py:530-536 | the totals row's gross cell prints net total plus VAT total |
| Sections.DueLineSpec | ksef_pdf.py:539-546 | "DO ZAPLATY: " is shown iff P_15 is non-empty; it ends with a blank and the currency; the amount between them, read back without spaces, is P_15 rounded half-even to hundredths; the line does not depend on the VAT buckets or their totals |
| Sections.FormLabelSpec | ksef_pdf.py:30-38 | each FormaPlatnosci code "1" to "7" prints its own label (gotowka, karta, bon, czek, kredyt, przelew, platnosc mobilna); any other code prints as is |
| Sections.StatusPartsSpec | ksef_pdf.py:567-573 | "Zaplacono" is a status part iff the status is "1", "Nie zaplacono" iff it is "2" |
| Sections.PaymentPartsSpec | ksef_pdf.py:567-580 | "Zaplacono" is printed iff the status is "1", first, followed by "dnia D" when there is a date; "Nie zaplacono" iff the status is "2"; no date part unless paid; "Forma: " with the label iff the label is non-empty; "Termin: " with the date iff it is non-empty; no blank part; at most four parts |
| Sections.PaymentLinesSpec | ksef_pdf.py:582-591 | the lines under the payment header are the joined parts iff there are any, then "Nr rachunku: " iff the account number is non-empty, then "Bank: " iff the bank name is, and nothing else |
| Sections.OrderLineSpec | ksef_pdf.py:612-618 | an order line is blank with neither number nor date, "Nr: N" or "Data: D" with only one, and "Nr: N   Data: D" with both |
| Sections.FooterShownSpec | ksef_pdf.py:623-629 | the footer is shown iff KRS, REGON, BDO or the footer text is non-empty; an empty Stopka shows nothing |
| Sections.RegistryPartsSpec | ksef_pdf.py:636-642 | the registry parts are, in order, "KRS: ", "REGON: " and "BDO: " with their numbers, each iff the number is non-empty, and nothing else |
| Sections.FooterLinesSpec | ksef_pdf.py:636-648 | the footer lines are the registry parts joined by a vertical bar with three spaces on each side iff there are any, then the footer text iff it is non-empty; there is a line iff the footer is shown |
| Layout.HeaderBlockSpec | ksef_pdf.py:324-363 | the title, then the number 8 mm lower, then the date fields joined by the separator 16 mm below the title when there are any, then the schema line when there is one, then a rule; the header is 18 mm tall, plus 6 mm for the field line and 4 mm for the schema line |
| Layout.PartyBlockSpec | ksef_pdf.py:365-396 | a party block prints its label, its name and one 4 mm line per detail, all in its own column, and is exactly that tall |
| Layout.PartiesBlockSpec | ksef_pdf.py:398-416 | both columns start at the same y; the cursor then goes 3 mm below the taller one, where the rule is drawn, then 2 mm on |
| Layout.LineItemsBlock | ksef_pdf.py:418-422 | no line items draws nothing, not even the section header |
| Layout.ItemStepPaging | ksef_pdf.py:441-486 | one step of the row loop adds a page iff the cursor is past 260 mm, and then repeats the header row at the top margin; the row is drawn at the cursor, or right under the repeated header row; shading is reset on a new page and flips after each row; the cursor ends one row height below the row |
| Layout.PageBreakRule | ksef_pdf.py:444-454 | in a table of that shape, the event after a row or header row is a new page iff the cursor was left past 260 mm, and otherwise a row drawn at the cursor |
| Layout.ShapedMeans | ksef_pdf.py:441-486 | the table drawn row by row has the shape: the header row on every page; a new page only when the cursor is past 260 mm, and then the header row at the top margin; every row at the cursor and none below 260 mm; the first row after a header unshaded; shading alternating otherwise |
| Layout.ItemRowsShape | ksef_pdf.py:439-486 | every step of the row loop keeps that shape, with the cursor where the last event left it, and the table's rows are exactly the items' cells, in order |
| Layout.ItemRowsPages | ksef_pdf.py:439-486 | the row loop only appends, and adds exactly one page per new page it draws |
| Layout.LineItemsTable | ksef_pdf.py:418-488 | a non-empty item list draws the section header, the header row right under it, then a table of the shape above whose rows are the items' cells in order; one page is added per new page; the cursor ends 2 mm below the last row |
| Layout.VatBlock | ksef_pdf.py:490-494 | an empty VAT summary draws nothing, not even the amount due |
| Layout.VatBlockSpec | ksef_pdf.py:490-548 | the section header, the column headers, one unshaded row per bucket in order, the totals row of the sums, then the amount due when there is one |
| Layout.PaymentBlockSpec | ksef_pdf.py:550-593 | the payment section is drawn iff one of its five keys is set, and then holds its header and the payment lines, line i exactly 5 mm i below the header, then 2 mm; no page is added |
| Layout.ListSectionSpec | ksef_pdf.py:599-606 | a list section is its header, one 5 mm line per entry in order, then 1 mm |
| Layout.AdditionalBlockSpec | ksef_pdf.py:595-619 | descriptions, then orders, each under its own header and only when non-empty, one line per entry in order |
| Layout.FooterBlockSpec | ksef_pdf.py:621-658 | the footer is drawn iff it has something to say; then it is the rule at the cursor, the footer lines 2 mm below it and 4 mm apart, and the watermark 3 mm after them, with the cursor and page count that follow |
| Layout.BodySpec | ksef_pdf.py:316-322 | the sections after the header only append to what is drawn, and a shown footer is drawn last |
| Layout.DocumentOpens | ksef_pdf.py:313-336 | every document opens with its page, the title at the top margin and the number 8 mm below it |
| Layout.DocumentCloses | ksef_pdf.py:313-322 | a document whose footer is shown ends with the watermark |
| Renderer.InvoicePdf.constructor | ksef_pdf.py:278-282 | a new renderer holds the invoice, has drawn nothing, and its cursor is at the top margin |
| Renderer.InvoicePdf.DrawLine | ksef_pdf.py:297-303 | a rule at the cursor, which does not move |
| Renderer.InvoicePdf.SectionHeader | ksef_pdf.py:305-311 | 3 mm, the header text in a 7 mm cell, then 2 mm |
| Renderer.InvoicePdf.Build | ksef_pdf.py:313-322 | the sections in their fixed order leave exactly the specified document |
| Renderer.InvoicePdf.RenderHeader | ksef_pdf.py:324-363 | leaves exactly the header block |
| Renderer.InvoicePdf.RenderPartyBlock | ksef_pdf.py:365-396 | leaves exactly one party block |
| Renderer.InvoicePdf.RenderParties | ksef_pdf.py:398-416 | saves y, draws both columns from it, and leaves exactly the two-column block |
| Renderer.InvoicePdf.RenderLineItems | ksef_pdf.py:418-488 | leaves exactly the line-items block |
| Renderer.InvoicePdf.ItemRowsLoop | ksef_pdf.py:439-486 | the row loop, with its page-break check and `fill` toggling, leaves the table state the row-by-row specification gives |
| Renderer.InvoicePdf.VatRowsLoop | ksef_pdf.py:509-528 | the row loop draws one row per bucket and returns the exact net, VAT and gross totals |
| Renderer.InvoicePdf.RenderVatSummary | ksef_pdf.py:490-548 | leaves exactly the VAT block |
| Renderer.InvoicePdf.RenderPayment | ksef_pdf.py:550-593 | leaves exactly the payment block |
| Renderer.InvoicePdf.RenderAdditionalInfo | ksef_pdf.py:595-619 | leaves exactly the additional-information block |
| Renderer.InvoicePdf.RenderDescriptions | ksef_pdf.py:599-606 | the description loop leaves exactly its list section |
| Renderer.InvoicePdf.RenderOrders | ksef_pdf.py:608-619 | the order loop leaves exactly its list section |
| Renderer.InvoicePdf.RenderFooterInfo | ksef_pdf.py:621-658 | leaves exactly the footer block |

## Left out

- XML parsing (`SafeET.parse` and its entity hardening) is left out. The element tree is the input.
- File I/O is left out: `generate_invoice_pdf`, `generate_pdf`, the command-line entry point, and `pdf.output` serialisation.
- Fonts (`_register_fonts`, font sizes), colours, cell borders, column widths and alignment are left out. Only the drawn text, the row shading flag and the vertical cursor are modelled.
- fpdf's own automatic page break (margin 15 mm) is left out. It belongs to the library; only the explicit 260 mm check of the line-items loop is modelled.
- `multi_cell` wrapping is left out. The height of each party name is a parameter of `PartiesBlock` and `RenderParties`.
- The drawing of a cell given Python `None` (for example a missing `nr` or `jednostka`) is not known from the source. It is drawn as "".
- Decimal inputs in exponent notation, with underscores, with non-ASCII decimal digits (for example Arabic-Indic digits, which Python's `Decimal` reads as their values), or as NaN or Infinity are treated as unparsable (0.00). The 28-digit context precision is not modelled; additions are exact.
- Annotations (`adnotacje`) are extracted but never rendered by the source, so they have no layout.
- The Naglowek values other than `kod_systemowy`, and the item fields `cena_jedn_brutto` and `wartosc_netto_waluta`, are extracted but not printed. They are in the record without further properties.
- Layout.LineItemsTable: requires a non-empty item list. The empty case, where nothing is drawn, is stated by the ensures of `Layout.LineItemsBlock`.
- Layout.VatBlockSpec: requires a non-empty VAT summary. The empty case, where nothing is drawn, is stated by the ensures of `Layout.VatBlock`.
- Xml.Find: states that the result is a child with the tag, not that it is the first one. Firstness is stated by the ensures of `Xml.FirstWithTag`, on which it is built.
