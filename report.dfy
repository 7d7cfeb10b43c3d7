/** The accounting report: the classification of accounting movements into
    six totals, the outstanding balances of approved tickets, the summary
    built from both, and the report's string helpers (XML escaping and the
    file name). The database queries that select the movements and tickets
    by branch and date are not part of this model: their results are the
    inputs here. */
module AccountingReport {
  import opened Common
  import opened TextUtil

  // ---------------------------------------------------------------- _safe_decimal

  /** `_safe_decimal`: absent, zero and unconvertible values all read as 0. */
  function SafeDecimal(v: RawValue): (r: real)
    ensures v.Number? ==> r == v.x
    ensures v.Missing? || v.Unparseable? ==> r == 0.0
  {
    ValueOrZero(v)
  }

  // ---------------------------------------------------------------- _xml_escape

  /** The entity one character becomes in XML text. */
  function XmlEscChar(c: char): string {
    if c == '&' then "&amp;"
    else if c == '<' then "&lt;"
    else if c == '>' then "&gt;"
    else if c == '"' then "&quot;"
    else [c]
  }

  /** `_xml_escape` as written: four replacements, the ampersand first. */
  function XmlEscape(value: string): string {
    ReplaceChar(ReplaceChar(ReplaceChar(ReplaceChar(value, '&', "&amp;"), '<', "&lt;"), '>', "&gt;"), '"', "&quot;")
  }

  /** The escape character by character. */
  function XmlEscapeByChar(value: string): string {
    if |value| == 0 then "" else XmlEscChar(value[0]) + XmlEscapeByChar(value[1..])
  }

  lemma XmlEscapeAppend(a: string, b: string)
    ensures XmlEscape(a + b) == XmlEscape(a) + XmlEscape(b)
  {
    ReplaceCharAppend(a, b, '&', "&amp;");
    var a1, b1 := ReplaceChar(a, '&', "&amp;"), ReplaceChar(b, '&', "&amp;");
    ReplaceCharAppend(a1, b1, '<', "&lt;");
    var a2, b2 := ReplaceChar(a1, '<', "&lt;"), ReplaceChar(b1, '<', "&lt;");
    ReplaceCharAppend(a2, b2, '>', "&gt;");
    var a3, b3 := ReplaceChar(a2, '>', "&gt;"), ReplaceChar(b2, '>', "&gt;");
    ReplaceCharAppend(a3, b3, '"', "&quot;");
  }

  lemma ReplaceCharOne(c: char, x: char, rep: string)
    ensures ReplaceChar([c], x, rep) == if c == x then rep else [c]
  {
    assert [c][1..] == "";
  }

  /** No later replacement touches an entity an earlier one produced. */
  lemma XmlEscapeOne(c: char)
    ensures XmlEscape([c]) == XmlEscChar(c)
  {
    ReplaceCharOne(c, '&', "&amp;");
    if c == '&' {
      KeptThrough3("&amp;", '<', "&lt;", '>', "&gt;", '"', "&quot;");
    } else {
      ReplaceCharOne(c, '<', "&lt;");
      if c == '<' {
        KeptThrough2("&lt;", '>', "&gt;", '"', "&quot;");
      } else {
        ReplaceCharOne(c, '>', "&gt;");
        if c == '>' {
          ReplaceCharAbsent("&gt;", '"', "&quot;");
        } else {
          ReplaceCharOne(c, '"', "&quot;");
        }
      }
    }
  }

  /** A string without either character passes two replacements unchanged. */
  lemma KeptThrough2(s: string, x: char, rx: string, y: char, ry: string)
    requires x !in s && y !in s
    ensures ReplaceChar(ReplaceChar(s, x, rx), y, ry) == s
  {
    ReplaceCharAbsent(s, x, rx);
    ReplaceCharAbsent(s, y, ry);
  }

  /** A string without any of three characters passes three replacements unchanged. */
  lemma KeptThrough3(s: string, x: char, rx: string, y: char, ry: string, z: char, rz: string)
    requires x !in s && y !in s && z !in s
    ensures ReplaceChar(ReplaceChar(ReplaceChar(s, x, rx), y, ry), z, rz) == s
  {
    ReplaceCharAbsent(s, x, rx);
    KeptThrough2(s, y, ry, z, rz);
  }

  /** Because the ampersand is replaced first, the chain of replacements escapes
      every character exactly once: no ampersand is escaped twice. */
  lemma {:induction false} XmlEscapeIsPerChar(value: string)
    ensures XmlEscape(value) == XmlEscapeByChar(value)
    decreases |value|
  {
    if |value| > 0 {
      assert value == [value[0]] + value[1..];
      XmlEscapeAppend([value[0]], value[1..]);
      XmlEscapeOne(value[0]);
      XmlEscapeIsPerChar(value[1..]);
    }
  }

  /** The escaped text holds no raw '<', '>' or '"'. */
  lemma {:induction false} XmlEscapeNoSpecials(value: string)
    ensures forall k :: 0 <= k < |XmlEscape(value)| ==>
              XmlEscape(value)[k] != '<' && XmlEscape(value)[k] != '>' && XmlEscape(value)[k] != '"'
  {
    XmlEscapeIsPerChar(value);
    ByCharNoSpecials(value);
  }

  lemma {:induction false} ByCharNoSpecials(value: string)
    ensures forall k :: 0 <= k < |XmlEscapeByChar(value)| ==>
              XmlEscapeByChar(value)[k] != '<' && XmlEscapeByChar(value)[k] != '>' && XmlEscapeByChar(value)[k] != '"'
    decreases |value|
  {
    if |value| > 0 {
      ByCharNoSpecials(value[1..]);
      var head := XmlEscChar(value[0]);
      assert forall k :: 0 <= k < |head| ==> head[k] != '<' && head[k] != '>' && head[k] != '"';
    }
  }

  /** How an XML reader decodes the four entities. */
  function XmlUnescape(s: string): string
    decreases |s|
  {
    if |s| == 0 then ""
    else if |s| >= 5 && s[..5] == "&amp;" then "&" + XmlUnescape(s[5..])
    else if |s| >= 4 && s[..4] == "&lt;" then "<" + XmlUnescape(s[4..])
    else if |s| >= 4 && s[..4] == "&gt;" then ">" + XmlUnescape(s[4..])
    else if |s| >= 6 && s[..6] == "&quot;" then "\"" + XmlUnescape(s[6..])
    else [s[0]] + XmlUnescape(s[1..])
  }

  /** Decoding the escaped text gives back the text. */
  lemma {:induction false} XmlEscapeRoundTrip(value: string)
    ensures XmlUnescape(XmlEscape(value)) == value
  {
    XmlEscapeIsPerChar(value);
    XmlByCharRoundTrip(value);
  }

  lemma {:induction false} XmlByCharRoundTrip(value: string)
    ensures XmlUnescape(XmlEscapeByChar(value)) == value
    decreases |value|
  {
    if |value| > 0 {
      XmlByCharRoundTrip(value[1..]);
      UnescapeHead(value[0], XmlEscapeByChar(value[1..]));
    }
  }

  /** Decoding reads one escaped character back, whatever follows it. */
  lemma UnescapeHead(c: char, rest: string)
    ensures XmlUnescape(XmlEscChar(c) + rest) == [c] + XmlUnescape(rest)
  {
    var e := XmlEscChar(c) + rest;
    var n := |XmlEscChar(c)|;
    assert e[..n] == XmlEscChar(c) && e[n..] == rest;
    if c == '&' {
    } else if c == '<' {
      assert |e| >= 5 ==> e[..5][1] == 'l';
    } else if c == '>' {
      assert |e| >= 5 ==> e[..5][1] == 'g';
      assert e[..4][1] == 'g';
    } else if c == '"' {
      assert e[..5][1] == 'q' && e[..4][1] == 'q';
    } else {
      UnescapePlain(c, rest);
    }
  }

  lemma UnescapePlain(c: char, rest: string)
    requires c != '&'
    ensures XmlUnescape([c] + rest) == [c] + XmlUnescape(rest)
  {
    var e := [c] + rest;
    assert |e| >= 4 ==> e[..4][0] == c;
    assert |e| >= 5 ==> e[..5][0] == c;
    assert |e| >= 6 ==> e[..6][0] == c;
    assert e[1..] == rest;
  }

  // ---------------------------------------------------------------- _safe_filename

  /** `_safe_filename` of the report: a clean slug of the input's word
      characters, "reporte" when it has none. */
  function SafeFilename(value: string): (r: string)
    ensures CleanSlug(r)
    ensures WordChars(value) != "" ==> WordChars(r) == WordChars(value)
    ensures r == "reporte" || WordChars(r) == WordChars(value)
  {
    assert CleanSlug("reporte");
    Slugify(value, "reporte")
  }

  // ---------------------------------------------------------------- movements

  /** An accounting movement: its kind as stored, its amount, and the
      operation of the ticket it links to (none without a known ticket). */
  datatype Movement = Movement(tipo: Option<string>, monto: RawValue, notaOp: Option<TipoOperacion>)

  /** The total a movement is added to. */
  datatype Bucket = Ventas | Compras | PagosVenta | PagosCompra | Ajustes | Reversos | Unclassified

  /** `(mov.tipo or "").lower()`. */
  function Kind(m: Movement): string {
    ToLower(m.tipo.GetOr(""))
  }

  /** The classification chain of the movement loop: a payment or payment
      reversal counts against purchases exactly when its ticket is a purchase,
      and otherwise (also without a ticket) towards sales. */
  function Classify(m: Movement): (b: Bucket)
    ensures b == Ventas <==> Kind(m) == "venta"
    ensures b == Compras <==> Kind(m) == "compra"
    ensures b == PagosCompra <==> (Kind(m) == "pago" || Kind(m) == "reverso_pago") && m.notaOp == Some(Compra)
    ensures b == PagosVenta <==> (Kind(m) == "pago" || Kind(m) == "reverso_pago") && m.notaOp != Some(Compra)
    ensures b == Ajustes <==> Kind(m) == "ajuste"
    ensures b == Reversos <==> Kind(m) == "reverso"
  {
    var tipo := Kind(m);
    if tipo == "venta" then Ventas
    else if tipo == "compra" then Compras
    else if tipo == "pago" || tipo == "reverso_pago" then (if m.notaOp == Some(Compra) then PagosCompra else PagosVenta)
    else if tipo == "ajuste" then Ajustes
    else if tipo == "reverso" then Reversos
    else Unclassified
  }

  datatype MovementTotals = MovementTotals(ventas: real, compras: real, pagosVenta: real, pagosCompra: real,
                                           ajustes: real, reversos: real)

  /** The running total of one bucket. */
  function Get(t: MovementTotals, b: Bucket): real {
    match b
    case Ventas => t.ventas
    case Compras => t.compras
    case PagosVenta => t.pagosVenta
    case PagosCompra => t.pagosCompra
    case Ajustes => t.ajustes
    case Reversos => t.reversos
    case Unclassified => 0.0
  }

  /** Add an amount to one bucket's total. */
  function Add(t: MovementTotals, b: Bucket, x: real): (r: MovementTotals)
    ensures forall c :: c != Unclassified ==> Get(r, c) == Get(t, c) + (if c == b then x else 0.0)
  {
    match b
    case Ventas => t.(ventas := t.ventas + x)
    case Compras => t.(compras := t.compras + x)
    case PagosVenta => t.(pagosVenta := t.pagosVenta + x)
    case PagosCompra => t.(pagosCompra := t.pagosCompra + x)
    case Ajustes => t.(ajustes := t.ajustes + x)
    case Reversos => t.(reversos := t.reversos + x)
    case Unclassified => t
  }

  const ZeroTotals := MovementTotals(0.0, 0.0, 0.0, 0.0, 0.0, 0.0)

  /** The six totals after the movement loop. */
  function MovementTotalsSpec(movs: seq<Movement>): MovementTotals {
    if |movs| == 0 then ZeroTotals
    else
      var m := movs[|movs| - 1];
      Add(MovementTotalsSpec(movs[..|movs| - 1]), Classify(m), SafeDecimal(m.monto))
  }

  /** Each movement's amount where it falls in bucket `b`, zero elsewhere. */
  function BucketAmounts(movs: seq<Movement>, b: Bucket): (r: seq<real>)
    ensures |r| == |movs|
    ensures forall i :: 0 <= i < |movs| ==> r[i] == if Classify(movs[i]) == b then SafeDecimal(movs[i].monto) else 0.0
  {
    seq(|movs|, i requires 0 <= i < |movs| => if Classify(movs[i]) == b then SafeDecimal(movs[i].monto) else 0.0)
  }

  /** Each total is exactly the sum of the amounts of the movements classified
      into it: a movement counts once, in one bucket, and unknown kinds in none. */
  lemma {:induction false} TotalsByBucket(movs: seq<Movement>, b: Bucket)
    requires b != Unclassified
    ensures Get(MovementTotalsSpec(movs), b) == Sum(BucketAmounts(movs, b))
  {
    if |movs| > 0 {
      var n := |movs| - 1;
      TotalsByBucket(movs[..n], b);
      var amounts := BucketAmounts(movs, b);
      assert amounts[..n] == BucketAmounts(movs[..n], b);
      assert Sum(amounts) == Sum(amounts[..n]) + amounts[n];
      var c, x := Classify(movs[n]), SafeDecimal(movs[n].monto);
      assert amounts[n] == if c == b then x else 0.0;
      assert MovementTotalsSpec(movs) == Add(MovementTotalsSpec(movs[..n]), c, x);
    }
  }

  /** `nota.tipo_operacion.value`. */
  function OpValue(op: TipoOperacion): string {
    match op
    case Compra => "compra"
    case Venta => "venta"
  }

  /** The kind column of a movement row, before upper-casing: a payment with a
      ticket names the ticket's operation, a payment reversal is spelled with a
      space, an empty kind is "-". */
  function MovementLabel(m: Movement): (r: string)
    ensures r != ""
    ensures Kind(m) == "pago" && m.notaOp.Some? ==> r == "pago " + OpValue(m.notaOp.value)
    ensures Kind(m) == "reverso_pago" ==> r == "reverso pago"
    ensures !(Kind(m) == "pago" && m.notaOp.Some?) && Kind(m) != "reverso_pago" ==>
              r == (if Kind(m) == "" then "-" else Kind(m))
  {
    var tipo := Kind(m);
    if tipo == "pago" && m.notaOp.Some? then "pago " + OpValue(m.notaOp.value)
    else if tipo == "reverso_pago" then "reverso pago"
    else if tipo == "" then "-"
    else tipo
  }

  /** The kind and amount columns of a movement row. */
  datatype MovementRow = MovementRow(tipo: string, monto: real)

  function MovementRowOf(m: Movement): MovementRow {
    MovementRow(ToUpper(MovementLabel(m)), SafeDecimal(m.monto))
  }

  function MovementRows(movs: seq<Movement>): (r: seq<MovementRow>)
    ensures |r| == |movs| && forall i :: 0 <= i < |movs| ==> r[i] == MovementRowOf(movs[i])
  {
    seq(|movs|, i requires 0 <= i < |movs| => MovementRowOf(movs[i]))
  }

  lemma MovementRowsSnoc(movs: seq<Movement>, i: nat)
    requires i < |movs|
    ensures MovementRows(movs[..i + 1]) == MovementRows(movs[..i]) + [MovementRowOf(movs[i])]
  {
  }

  /** The movement loop of `build_report_data`. */
  method AggregateMovements(movs: seq<Movement>) returns (totals: MovementTotals, rows: seq<MovementRow>)
    ensures totals == MovementTotalsSpec(movs)
    ensures rows == MovementRows(movs)
  {
    totals := ZeroTotals;
    rows := [];
    var i := 0;
    while i < |movs|
      invariant 0 <= i <= |movs|
      invariant totals == MovementTotalsSpec(movs[..i])
      invariant rows == MovementRows(movs[..i])
    {
      var mov := movs[i];
      assert movs[..i + 1][..i] == movs[..i];
      var monto := SafeDecimal(mov.monto);
      assert MovementTotalsSpec(movs[..i + 1]) == Add(MovementTotalsSpec(movs[..i]), Classify(mov), monto);
      totals := Add(totals, Classify(mov), monto);
      MovementRowsSnoc(movs, i);
      rows := rows + [MovementRowOf(mov)];
      i := i + 1;
    }
    assert movs[..i] == movs;
  }

  // ---------------------------------------------------------------- approved tickets

  /** A ticket as the report reads it. */
  datatype ReportNote = ReportNote(id: int, estado: NotaEstado, op: TipoOperacion,
                                   totalMonto: RawValue, montoPagado: RawValue)

  /** What is still owed on a ticket. */
  function Saldo(n: ReportNote): real {
    SafeDecimal(n.totalMonto) - SafeDecimal(n.montoPagado)
  }

  /** The ticket query's state filter: only approved tickets, in order. */
  function ApprovedNotes(notes: seq<ReportNote>): (r: seq<ReportNote>)
    ensures forall k :: 0 <= k < |r| ==> r[k].estado == Aprobada && r[k] in notes
    ensures forall n :: n in notes && n.estado == Aprobada ==> n in r
  {
    if |notes| == 0 then []
    else
      var front := ApprovedNotes(notes[..|notes| - 1]);
      var last := notes[|notes| - 1];
      assert forall n :: n in notes ==> n in notes[..|notes| - 1] || n == last;
      front + (if last.estado == Aprobada then [last] else [])
  }

  /** Each approved ticket is kept as often as the query returns it, and no
      other ticket is kept. */
  lemma {:induction false} ApprovedNotesCount(notes: seq<ReportNote>)
    ensures forall n {:trigger multiset(ApprovedNotes(notes))[n]} ::
              multiset(ApprovedNotes(notes))[n] == if n.estado == Aprobada then multiset(notes)[n] else 0
  {
    if |notes| > 0 {
      var front := notes[..|notes| - 1];
      var last := notes[|notes| - 1];
      ApprovedNotesCount(front);
      assert notes == front + [last];
      assert multiset(notes) == multiset(front) + multiset{last};
      var tail := if last.estado == Aprobada then [last] else [];
      assert ApprovedNotes(notes) == ApprovedNotes(front) + tail;
      assert multiset(ApprovedNotes(notes)) == multiset(ApprovedNotes(front)) + multiset(tail);
    }
  }

  /** The filter distributes over concatenation. */
  lemma {:induction false} ApprovedNotesAppend(a: seq<ReportNote>, b: seq<ReportNote>)
    ensures ApprovedNotes(a + b) == ApprovedNotes(a) + ApprovedNotes(b)
    decreases |b|
  {
    if |b| == 0 {
      assert a + b == a;
    } else {
      var n := |b| - 1;
      var ab := a + b;
      assert ab[..|ab| - 1] == a + b[..n];
      assert ab[|ab| - 1] == b[n];
      ApprovedNotesAppend(a, b[..n]);
      var tail := if b[n].estado == Aprobada then [b[n]] else [];
      calc {
        ApprovedNotes(ab);
        ApprovedNotes(a + b[..n]) + tail;
        (ApprovedNotes(a) + ApprovedNotes(b[..n])) + tail;
        ApprovedNotes(a) + (ApprovedNotes(b[..n]) + tail);
        ApprovedNotes(a) + ApprovedNotes(b);
      }
    }
  }

  /** The order of the query is kept: each ticket appears in its own place,
      after what the tickets before it contribute and before what the tickets
      after it contribute, exactly when it is approved. */
  lemma {:induction false} ApprovedNotesOrder(notes: seq<ReportNote>)
    ensures forall i :: 0 <= i < |notes| ==>
              ApprovedNotes(notes) == ApprovedNotes(notes[..i])
                                      + (if notes[i].estado == Aprobada then [notes[i]] else [])
                                      + ApprovedNotes(notes[i + 1..])
  {
    forall i | 0 <= i < |notes| {
      ApprovedNotesAt(notes, i);
    }
  }

  /** What ticket `i` contributes, and where. */
  lemma {:induction false} ApprovedNotesAt(notes: seq<ReportNote>, i: nat)
    requires i < |notes|
    ensures ApprovedNotes(notes) == ApprovedNotes(notes[..i])
                                    + (if notes[i].estado == Aprobada then [notes[i]] else [])
                                    + ApprovedNotes(notes[i + 1..])
  {
    var pre, post := notes[..i], notes[i + 1..];
    assert notes == (pre + [notes[i]]) + post;
    ApprovedNotesAppend(pre + [notes[i]], post);
    ApprovedNotesAppend(pre, [notes[i]]);
    assert [notes[i]][..0] == [];
  }

  /** A row of the outstanding-balance table. */
  datatype PendingRow = PendingRow(notaId: int, op: TipoOperacion, total: real, pagado: real, saldo: real)

  function PendingOf(n: ReportNote): PendingRow {
    PendingRow(n.id, n.op, SafeDecimal(n.totalMonto), SafeDecimal(n.montoPagado), Saldo(n))
  }

  /** The outstanding-balance rows: tickets with something still owed, in order. */
  function PendingRows(notes: seq<ReportNote>): seq<PendingRow> {
    if |notes| == 0 then []
    else
      var last := notes[|notes| - 1];
      PendingRows(notes[..|notes| - 1]) + (if Saldo(last) > 0.0 then [PendingOf(last)] else [])
  }

  /** A ticket is listed exactly when something is owed on it, and every
      listed balance is the ticket's total minus what was paid. */
  lemma {:induction false} PendingRowsMeaning(notes: seq<ReportNote>)
    ensures forall r :: r in PendingRows(notes) ==>
              r.saldo > 0.0 && r.saldo == r.total - r.pagado && exists n :: n in notes && PendingOf(n) == r
    ensures forall n :: n in notes && Saldo(n) > 0.0 ==> PendingOf(n) in PendingRows(notes)
  {
    if |notes| > 0 {
      var front := notes[..|notes| - 1];
      PendingRowsMeaning(front);
      assert forall n :: n in notes ==> n in front || n == notes[|notes| - 1];
      assert forall n :: n in front ==> n in notes;
    }
  }

  /** Invoiced and paid amounts by operation. */
  datatype NoteTotals = NoteTotals(facturadoVentas: real, facturadoCompras: real,
                                   pagadoVentas: real, pagadoCompras: real)

  function NoteTotalsSpec(notes: seq<ReportNote>): NoteTotals {
    if |notes| == 0 then NoteTotals(0.0, 0.0, 0.0, 0.0)
    else
      var t := NoteTotalsSpec(notes[..|notes| - 1]);
      var n := notes[|notes| - 1];
      if n.op == Compra then
        t.(facturadoCompras := t.facturadoCompras + SafeDecimal(n.totalMonto),
           pagadoCompras := t.pagadoCompras + SafeDecimal(n.montoPagado))
      else
        t.(facturadoVentas := t.facturadoVentas + SafeDecimal(n.totalMonto),
           pagadoVentas := t.pagadoVentas + SafeDecimal(n.montoPagado))
  }

  /** Each ticket's balance where it has operation `op`, zero elsewhere. */
  function SaldosOf(notes: seq<ReportNote>, op: TipoOperacion): (r: seq<real>)
    ensures |r| == |notes| && forall i :: 0 <= i < |notes| ==> r[i] == if notes[i].op == op then Saldo(notes[i]) else 0.0
  {
    seq(|notes|, i requires 0 <= i < |notes| => if notes[i].op == op then Saldo(notes[i]) else 0.0)
  }

  /** Invoiced minus paid, per operation, is the sum of that operation's
      balances (those overpaid included, which the pending table omits). */
  lemma {:induction false} OutstandingIsSumOfSaldos(notes: seq<ReportNote>)
    ensures NoteTotalsSpec(notes).facturadoVentas - NoteTotalsSpec(notes).pagadoVentas == Sum(SaldosOf(notes, Venta))
    ensures NoteTotalsSpec(notes).facturadoCompras - NoteTotalsSpec(notes).pagadoCompras == Sum(SaldosOf(notes, Compra))
  {
    if |notes| > 0 {
      var n := |notes| - 1;
      OutstandingIsSumOfSaldos(notes[..n]);
      assert SaldosOf(notes, Venta)[..n] == SaldosOf(notes[..n], Venta);
      assert SaldosOf(notes, Compra)[..n] == SaldosOf(notes[..n], Compra);
    }
  }

  /** The approved-ticket loop of `build_report_data`. */
  method AggregateNotes(notes: seq<ReportNote>) returns (totals: NoteTotals, pending: seq<PendingRow>)
    ensures totals == NoteTotalsSpec(notes)
    ensures pending == PendingRows(notes)
  {
    totals := NoteTotals(0.0, 0.0, 0.0, 0.0);
    pending := [];
    var i := 0;
    while i < |notes|
      invariant 0 <= i <= |notes|
      invariant totals == NoteTotalsSpec(notes[..i])
      invariant pending == PendingRows(notes[..i])
    {
      var nota := notes[i];
      assert notes[..i + 1][..i] == notes[..i];
      var total := SafeDecimal(nota.totalMonto);
      var pagado := SafeDecimal(nota.montoPagado);
      var saldo := total - pagado;
      if nota.op == Compra {
        totals := totals.(facturadoCompras := totals.facturadoCompras + total,
                          pagadoCompras := totals.pagadoCompras + pagado);
      } else {
        totals := totals.(facturadoVentas := totals.facturadoVentas + total,
                          pagadoVentas := totals.pagadoVentas + pagado);
      }
      if saldo > 0.0 {
        pending := pending + [PendingRow(nota.id, nota.op, total, pagado, saldo)];
      }
      i := i + 1;
    }
    assert notes[..i] == notes;
  }

  // ---------------------------------------------------------------- summary

  /** The figures of the summary sheet, in its order. */
  datatype ReportSummary = ReportSummary(
    movimientos: nat,
    ventas: real, compras: real, pagosVenta: real, pagosCompra: real,
    ingresos: real, egresos: real, balanceNeto: real,
    ajustes: real, reversos: real,
    notasAprobadas: nat,
    facturadoVentas: real, pagadoVentas: real, saldoVentas: real,
    facturadoCompras: real, pagadoCompras: real, saldoCompras: real)

  function Summary(movCount: nat, m: MovementTotals, noteCount: nat, n: NoteTotals): ReportSummary {
    ReportSummary(movCount, m.ventas, m.compras, m.pagosVenta, m.pagosCompra,
                  m.pagosVenta, m.pagosCompra, m.pagosVenta - m.pagosCompra,
                  m.ajustes, m.reversos, noteCount,
                  n.facturadoVentas, n.pagadoVentas, n.facturadoVentas - n.pagadoVentas,
                  n.facturadoCompras, n.pagadoCompras, n.facturadoCompras - n.pagadoCompras)
  }

  /** The report's summary over the selected movements and tickets. */
  function ReportSummarySpec(movs: seq<Movement>, notes: seq<ReportNote>): ReportSummary {
    var approved := ApprovedNotes(notes);
    Summary(|movs|, MovementTotalsSpec(movs), |approved|, NoteTotalsSpec(approved))
  }

  /** Cash in is what sales payments brought, cash out what purchase payments
      took, and the net balance is their difference; each outstanding figure is
      the sum of the balances of the approved tickets of that operation. */
  lemma ReportSummaryOutcome(movs: seq<Movement>, notes: seq<ReportNote>)
    ensures var s := ReportSummarySpec(movs, notes);
            && s.movimientos == |movs|
            && s.notasAprobadas == |ApprovedNotes(notes)|
            && s.ingresos == Sum(BucketAmounts(movs, PagosVenta))
            && s.egresos == Sum(BucketAmounts(movs, PagosCompra))
            && s.balanceNeto == Sum(BucketAmounts(movs, PagosVenta)) - Sum(BucketAmounts(movs, PagosCompra))
            && s.saldoVentas == Sum(SaldosOf(ApprovedNotes(notes), Venta))
            && s.saldoCompras == Sum(SaldosOf(ApprovedNotes(notes), Compra))
  {
    var t := MovementTotalsSpec(movs);
    TotalsByBucket(movs, PagosVenta);
    TotalsByBucket(movs, PagosCompra);
    assert t.pagosVenta == Sum(BucketAmounts(movs, PagosVenta));
    assert t.pagosCompra == Sum(BucketAmounts(movs, PagosCompra));
    OutstandingIsSumOfSaldos(ApprovedNotes(notes));
  }

  /** Only approved tickets with something owed are listed as pending. */
  lemma PendingOnlyApproved(notes: seq<ReportNote>)
    ensures forall r :: r in PendingRows(ApprovedNotes(notes)) ==>
              r.saldo > 0.0 && exists n :: n in notes && n.estado == Aprobada && PendingOf(n) == r
    ensures forall n :: n in notes && n.estado == Aprobada && Saldo(n) > 0.0 ==>
              PendingOf(n) in PendingRows(ApprovedNotes(notes))
  {
    var approved := ApprovedNotes(notes);
    PendingRowsMeaning(approved);
    assert forall n :: n in approved ==> n.estado == Aprobada && n in notes by {
      forall n | n in approved ensures n.estado == Aprobada && n in notes {
        var k :| 0 <= k < |approved| && approved[k] == n;
      }
    }
  }

  /** The totals of `build_report_data`: both loops, then the summary. */
  method BuildReportData(movs: seq<Movement>, notes: seq<ReportNote>)
    returns (summary: ReportSummary, rows: seq<MovementRow>, pending: seq<PendingRow>)
    ensures summary == ReportSummarySpec(movs, notes)
    ensures rows == MovementRows(movs)
    ensures pending == PendingRows(ApprovedNotes(notes))
  {
    var movTotals;
    movTotals, rows := AggregateMovements(movs);
    var approved := ApprovedNotes(notes);
    var noteTotals;
    noteTotals, pending := AggregateNotes(approved);
    summary := Summary(|rows|, movTotals, |approved|, noteTotals);
  }
}
