/** The behaviour of the ticket invoice (`factura`) PDF that is not layout:
    the file name, the order in which lines are listed, the text and the
    subtotal shown for each line, and the balance in the summary box. */
module Invoice {
  import opened Common
  import opened TextUtil
  import opened Sorting
  import Pricing
  import Valuation
  import AccountingReport

  // ---------------------------------------------------------------- file name

  /** `_safe_filename` of the invoice service, whose fallback is "factura". */
  function SafeFilename(value: string): (r: string)
    ensures CleanSlug(r)
    ensures WordChars(value) != "" ==> WordChars(r) == WordChars(value)
    ensures r == "factura" || WordChars(r) == WordChars(value)
  {
    assert CleanSlug("factura");
    Slugify(value, "factura")
  }

  /** `folio or f"nota-{id}"`: the formatted folio, or the ticket id when the
      ticket has no folio (absent or empty). */
  function FolioLabel(folio: Option<string>, notaId: int): (r: string)
    ensures folio.Some? && folio.value != "" ==> r == folio.value
    ensures folio.None? || folio.value == "" ==> r == "nota-" + IntToString(notaId)
  {
    NonEmptyOr(folio, "nota-" + IntToString(notaId))
  }

  /** `f"factura_{_safe_filename(folio_label)}.pdf"`. */
  function InvoiceFilename(folio: Option<string>, notaId: int): string {
    "factura_" + SafeFilename(FolioLabel(folio, notaId)) + ".pdf"
  }

  /** The file name is "factura_", a clean slug carrying the label's word
      characters, and ".pdf". */
  lemma InvoiceFilenameShape(folio: Option<string>, notaId: int)
    ensures var f := InvoiceFilename(folio, notaId);
            var slug := SafeFilename(FolioLabel(folio, notaId));
            && |f| == |slug| + 12
            && f[..8] == "factura_" && f[|f| - 4..] == ".pdf" && f[8..|f| - 4] == slug
            && CleanSlug(f[8..|f| - 4])
  {
  }

  /** Every digit string is made of slug characters. */
  lemma {:induction false} DigitsAreSlugChars(s: string)
    requires forall k :: 0 <= k < |s| ==> '0' <= s[k] <= '9'
    ensures AllSlugChars(s)
    decreases |s|
  {
    if |s| > 0 {
      DigitsAreSlugChars(s[1..]);
    }
  }

  lemma {:induction false} SlugCharsAppend(a: string, b: string)
    requires AllSlugChars(a) && AllSlugChars(b)
    ensures AllSlugChars(a + b)
  {
    forall k | 0 <= k < |a + b| ensures IsSlugChar((a + b)[k]) {
      if k >= |a| {
        assert (a + b)[k] == b[k - |a|];
      }
    }
  }

  /** The fallback label "nota-<id>" is already a clean slug. */
  lemma NoFolioLabelClean(notaId: int)
    ensures CleanSlug(FolioLabel(None, notaId))
  {
    var digits := if notaId < 0 then NatToString(-notaId) else NatToString(notaId);
    DigitsAreSlugChars(digits);
    assert AllSlugChars("nota-");
    assert AllSlugChars("-");
    var n := IntToString(notaId);
    if notaId < 0 {
      assert n == "-" + digits;
      SlugCharsAppend("-", digits);
    }
    SlugCharsAppend("nota-", n);
    var t := "nota-" + n;
    assert t[|t| - 1] == n[|n| - 1];
    assert n[|n| - 1] == digits[|digits| - 1];
  }

  /** The slug of the fallback label is the label itself. */
  lemma NoFolioSlug(notaId: int)
    ensures SafeFilename(FolioLabel(None, notaId)) == "nota-" + IntToString(notaId)
  {
    NoFolioLabelClean(notaId);
    assert CleanSlug("factura");
    SlugifyClean(FolioLabel(None, notaId), "factura");
  }

  /** A ticket without a folio gets the file "factura_nota-<id>.pdf". */
  lemma NoFolioFilename(notaId: int)
    ensures InvoiceFilename(None, notaId) == "factura_" + ("nota-" + IntToString(notaId)) + ".pdf"
  {
    NoFolioSlug(notaId);
  }

  // ---------------------------------------------------------------- lines

  /** What the invoice reads from a ticket line (`NotaMaterial`): its ids, its
      position, the name of its catalogue material when that row is loaded,
      the stored net weight, unit price and subtotal. */
  datatype InvoiceLine = InvoiceLine(
    id: Option<int>,
    orden: Option<int>,
    materialNombre: Option<string>,
    materialId: Option<int>,
    kgNeto: Option<real>,
    precioUnitario: Option<real>,
    subtotal: Option<real>)

  /** `x or 0` for an optional integer. */
  function IntOrZero(v: Option<int>): int {
    v.GetOr(0)
  }

  /** The sort key `(orden or 0, id or 0)`, with a constant third place. */
  function LineKey(l: InvoiceLine): Key {
    Key(IntOrZero(l.orden), IntOrZero(l.id), 0)
  }

  /** `sorted(nota.materiales, key=lambda m: (m.orden or 0, m.id or 0))`. */
  function SortLines(lines: seq<InvoiceLine>): seq<InvoiceLine> {
    SortBy(lines, LineKey)
  }

  /** The table lists each of the ticket's lines once, by `orden` (missing as
      0) and then by id. */
  lemma ListedInOrder(lines: seq<InvoiceLine>)
    ensures multiset(SortLines(lines)) == multiset(lines)
    ensures var s := SortLines(lines);
            forall i, j :: 0 <= i < j < |s| ==>
              IntOrZero(s[i].orden) < IntOrZero(s[j].orden)
              || (IntOrZero(s[i].orden) == IntOrZero(s[j].orden) && IntOrZero(s[i].id) <= IntOrZero(s[j].id))
  {
    SortByCorrect(lines, LineKey);
  }

  /** The material column: the catalogue name, or `str(material_id or "")`. */
  function MaterialLabel(l: InvoiceLine): (r: string)
    ensures l.materialNombre.Some? ==> r == l.materialNombre.value
    ensures l.materialNombre.None? && IntOrZero(l.materialId) == 0 ==> r == ""
    ensures l.materialNombre.None? && IntOrZero(l.materialId) != 0 ==> r == IntToString(l.materialId.value)
  {
    match l.materialNombre
    case Some(nombre) => nombre
    case None => if IntOrZero(l.materialId) == 0 then "" else IntToString(l.materialId.value)
  }

  /** The subtotal column: the stored subtotal, or net x price with missing
      values read as 0 when no subtotal is stored. */
  function DisplayedSubtotal(l: InvoiceLine): real {
    if l.subtotal.Some? then l.subtotal.value else OrZero(l.kgNeto) * OrZero(l.precioUnitario)
  }

  /** One table row: the material text cut to 180 points at size 9, and the subtotal. */
  datatype InvoiceRow = InvoiceRow(material: string, subtotal: real)

  function RowOf(l: InvoiceLine): InvoiceRow {
    InvoiceRow(TruncateText(MaterialLabel(l), 180.0, 9), DisplayedSubtotal(l))
  }

  /** The material column never overflows its 180 points: at most 40
      characters are printed, ending in "..." when the name was cut. */
  lemma RowFits(l: InvoiceLine)
    ensures TextWidth(RowOf(l).material, 9) <= 180.0
    ensures |RowOf(l).material| <= 40
    ensures |MaterialLabel(l)| <= 40 ==> RowOf(l).material == MaterialLabel(l)
  {
    assert 180.0 / ((9 as real) * 0.5) == 40.0;
    var name := MaterialLabel(l);
    if |name| <= 40 {
      assert TextWidth(name, 9) <= 180.0;
    }
  }

  /** A ticket line as stored by the valuation core, seen by the invoice. */
  function LineOf(v: Valuation.LineValue, nombre: Option<string>): InvoiceLine {
    InvoiceLine(Some(v.id), v.orden, nombre, Some(v.materialId), Some(v.kgNeto), v.precioUnitario, v.subtotal)
  }

  /** For a line priced by `apply_prices`, the shown subtotal is price x net
      whether or not a subtotal is stored (no price shows 0). */
  lemma PricedLineSubtotal(v: Valuation.LineValue, op: TipoOperacion, prices: seq<Pricing.PriceRow>, nombre: Option<string>)
    ensures var p := Valuation.PriceLine(v, op, prices);
            DisplayedSubtotal(LineOf(p, nombre)) == OrZero(p.precioUnitario) * p.kgNeto
  {
    var p := Valuation.PriceLine(v, op, prices);
    if p.subtotal.Some? {
      assert p.precioUnitario.Some?;
      assert p.subtotal.value == Valuation.Amount(p.precioUnitario.value, p.kgNeto);
    }
  }

  /** The line table: the ticket's lines in key order, one row each. */
  method LineRows(lines: seq<InvoiceLine>) returns (rows: seq<InvoiceRow>)
    ensures |rows| == |lines|
    ensures forall k :: 0 <= k < |rows| ==> rows[k] == RowOf(SortLines(lines)[k])
  {
    var materiales := SortLines(lines);
    rows := [];
    var i := 0;
    while i < |materiales|
      invariant 0 <= i <= |materiales|
      invariant |rows| == i
      invariant forall k :: 0 <= k < i ==> rows[k] == RowOf(materiales[k])
    {
      rows := rows + [RowOf(materiales[i])];
      i := i + 1;
    }
  }

  // ---------------------------------------------------------------- summary

  /** The balance in the summary box: total minus paid, missing values as 0. */
  function Saldo(totalMonto: Option<real>, montoPagado: Option<real>): real {
    OrZero(totalMonto) - OrZero(montoPagado)
  }

  /** The invoice and the accounting report agree on a ticket's balance, and
      among tickets with distinct ids (the table's primary key) a ticket has
      a row in the report's outstanding-balance table exactly when it is
      approved and its invoice shows a positive balance. */
  lemma SaldoAgreesWithReport(notes: seq<AccountingReport.ReportNote>, n: AccountingReport.ReportNote,
                              total: real, pagado: real)
    requires n in notes && n.totalMonto == Number(total) && n.montoPagado == Number(pagado)
    requires forall a, b :: a in notes && b in notes && a.id == b.id ==> a == b
    ensures Saldo(Some(total), Some(pagado)) == AccountingReport.Saldo(n)
    ensures AccountingReport.PendingOf(n) in AccountingReport.PendingRows(AccountingReport.ApprovedNotes(notes))
            <==> n.estado == Aprobada && Saldo(Some(total), Some(pagado)) > 0.0
  {
    var approved := AccountingReport.ApprovedNotes(notes);
    AccountingReport.PendingRowsMeaning(approved);
    if AccountingReport.PendingOf(n) in AccountingReport.PendingRows(approved) {
      var m :| m in approved && AccountingReport.PendingOf(m) == AccountingReport.PendingOf(n);
      var k :| 0 <= k < |approved| && approved[k] == m;
      assert m in notes && m.id == n.id;
    }
  }
}
