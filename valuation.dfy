/** The weight-and-price valuation of a ticket, as values: what
    `_recalc_material`, `_recalc_totals` and `apply_prices` compute. The
    classes in NoteService are proved to update their fields exactly as these
    functions say. */
module Valuation {
  import opened Common
  import opened Pricing

  /** A sub-weighing (`Subpesaje`). Its `pesoKg` is the NET reading: the gross
      of a sub-weighing is `pesoKg + descuentoKg`. */
  datatype SubWeighing = SubWeighing(pesoKg: real, descuentoKg: real, fotoUrl: Option<string>)

  /** The stored fields of one ticket line (`NotaMaterial`). */
  datatype LineValue = LineValue(
    id: int,
    materialId: int,
    kgBruto: real,
    kgDescuento: real,
    kgNeto: real,
    precioUnitario: Option<real>,
    versionPrecioId: Option<int>,
    subtotal: Option<real>,
    orden: Option<int>,
    tipoCliente: Option<TipoCliente>,
    evidenciaUrl: Option<string>,
    subpesajes: seq<SubWeighing>)

  /** The stored fields of a ticket (`Nota`) together with its lines. */
  datatype NoteValue = NoteValue(
    id: int,
    sucursalId: int,
    trabajadorId: int,
    adminId: Option<int>,
    proveedorId: Option<int>,
    clienteId: Option<int>,
    tipoOperacion: TipoOperacion,
    estado: NotaEstado,
    totalKgBruto: real,
    totalKgDescuento: real,
    totalKgNeto: real,
    totalMonto: real,
    comentariosTrabajador: Option<string>,
    comentariosAdmin: Option<string>,
    fechaCaducidadPago: Option<int>,
    updatedAt: int,
    lines: seq<LineValue>)

  function Pesos(subs: seq<SubWeighing>): (r: seq<real>)
    ensures |r| == |subs| && forall i :: 0 <= i < |subs| ==> r[i] == subs[i].pesoKg
  {
    seq(|subs|, i requires 0 <= i < |subs| => subs[i].pesoKg)
  }

  function Descuentos(subs: seq<SubWeighing>): (r: seq<real>)
    ensures |r| == |subs| && forall i :: 0 <= i < |subs| ==> r[i] == subs[i].descuentoKg
  {
    seq(|subs|, i requires 0 <= i < |subs| => subs[i].descuentoKg)
  }

  /** `_recalc_material`: with sub-weighings, net and discount are their sums
      and gross is rebuilt as net + discount; without, gross and discount are
      kept and net = gross - discount with NO floor at zero. Either way the
      line ends with net = gross - discount, and only the three weights change. */
  function RecalcLine(l: LineValue): (r: LineValue)
    ensures r.kgNeto == r.kgBruto - r.kgDescuento
    ensures |l.subpesajes| > 0 ==> r.kgNeto == Sum(Pesos(l.subpesajes)) && r.kgDescuento == Sum(Descuentos(l.subpesajes))
    ensures |l.subpesajes| == 0 ==> r.kgBruto == l.kgBruto && r.kgDescuento == l.kgDescuento
    ensures r == l.(kgBruto := r.kgBruto, kgDescuento := r.kgDescuento, kgNeto := r.kgNeto)
  {
    if |l.subpesajes| > 0 then
      var neto := Sum(Pesos(l.subpesajes));
      var desc := Sum(Descuentos(l.subpesajes));
      l.(kgNeto := neto, kgDescuento := desc, kgBruto := neto + desc)
    else
      l.(kgNeto := l.kgBruto - l.kgDescuento)
  }

  /** A line whose stored weights already agree with `_recalc_material`. */
  predicate Recalculated(l: LineValue) {
    RecalcLine(l) == l
  }

  predicate AllRecalculated(lines: seq<LineValue>) {
    forall i :: 0 <= i < |lines| ==> Recalculated(lines[i])
  }

  /** Recalculating twice is recalculating once. */
  lemma RecalcLineIdempotent(l: LineValue)
    ensures Recalculated(RecalcLine(l))
  {
  }

  function Brutos(lines: seq<LineValue>): seq<real> {
    seq(|lines|, i requires 0 <= i < |lines| => lines[i].kgBruto)
  }

  function DescuentosKg(lines: seq<LineValue>): seq<real> {
    seq(|lines|, i requires 0 <= i < |lines| => lines[i].kgDescuento)
  }

  function Netos(lines: seq<LineValue>): seq<real> {
    seq(|lines|, i requires 0 <= i < |lines| => lines[i].kgNeto)
  }

  /** The subtotals of the priced lines, in line order (`if m.subtotal is not None`). */
  function PricedSubtotals(lines: seq<LineValue>): seq<real> {
    if |lines| == 0 then []
    else
      var last := lines[|lines| - 1];
      PricedSubtotals(lines[..|lines| - 1]) + (if last.subtotal.Some? then [last.subtotal.value] else [])
  }

  /** The line sequence after the recalculation loop of `_recalc_totals`. */
  function RecalcLines(lines: seq<LineValue>): (r: seq<LineValue>)
    ensures |r| == |lines| && forall i :: 0 <= i < |lines| ==> r[i] == RecalcLine(lines[i])
  {
    seq(|lines|, i requires 0 <= i < |lines| => RecalcLine(lines[i]))
  }

  /** `_recalc_totals`: recompute every line, then the four totals are the sums
      of the recomputed line values (the amount over priced lines only); the
      ticket's total net equals its total gross minus total discount, and no
      other field changes. */
  function RecalcTotalsSpec(n: NoteValue): (r: NoteValue)
    ensures r.lines == RecalcLines(n.lines)
    ensures r.totalKgBruto == Sum(Brutos(r.lines))
    ensures r.totalKgDescuento == Sum(DescuentosKg(r.lines))
    ensures r.totalKgNeto == Sum(Netos(r.lines))
    ensures r.totalMonto == Sum(PricedSubtotals(r.lines)) == Sum(PricedSubtotals(n.lines))
    ensures r.totalKgNeto == r.totalKgBruto - r.totalKgDescuento
    ensures r == n.(lines := r.lines, totalKgBruto := r.totalKgBruto, totalKgDescuento := r.totalKgDescuento,
                    totalKgNeto := r.totalKgNeto, totalMonto := r.totalMonto)
  {
    var ls := RecalcLines(n.lines);
    PricedSubtotalsIgnoreWeights(n.lines, ls);
    NetTotalIsGrossMinusDiscount(ls);
    n.(lines := ls,
       totalKgBruto := Sum(Brutos(ls)),
       totalKgDescuento := Sum(DescuentosKg(ls)),
       totalKgNeto := Sum(Netos(ls)),
       totalMonto := Sum(PricedSubtotals(ls)))
  }

  /** The ticket `_recalc_totals` leaves, given its recomputed lines and sums. */
  lemma RecalcTotalsSpecIs(n: NoteValue, ls: seq<LineValue>, bruto: real, desc: real, neto: real, monto: real)
    requires ls == RecalcLines(n.lines)
    requires bruto == Sum(Brutos(ls)) && desc == Sum(DescuentosKg(ls)) && neto == Sum(Netos(ls))
    requires monto == Sum(PricedSubtotals(ls))
    ensures RecalcTotalsSpec(n) == n.(lines := ls, totalKgBruto := bruto, totalKgDescuento := desc,
                                      totalKgNeto := neto, totalMonto := monto)
  {
  }

  /** Lines that differ only in their weights have the same priced subtotals. */
  lemma {:induction false} PricedSubtotalsIgnoreWeights(a: seq<LineValue>, b: seq<LineValue>)
    requires |a| == |b|
    requires forall i :: 0 <= i < |a| ==> a[i].subtotal == b[i].subtotal
    ensures PricedSubtotals(a) == PricedSubtotals(b)
    decreases |a|
  {
    if |a| > 0 {
      PricedSubtotalsIgnoreWeights(a[..|a| - 1], b[..|b| - 1]);
    }
  }

  /** When every line has net = gross - discount, so do the sums. */
  lemma {:induction false} NetTotalIsGrossMinusDiscount(lines: seq<LineValue>)
    requires forall i :: 0 <= i < |lines| ==> lines[i].kgNeto == lines[i].kgBruto - lines[i].kgDescuento
    ensures Sum(Netos(lines)) == Sum(Brutos(lines)) - Sum(DescuentosKg(lines))
  {
    var negD := seq(|lines|, i requires 0 <= i < |lines| => -lines[i].kgDescuento);
    SumAdd(Brutos(lines), negD, Netos(lines));
    SumNegate(DescuentosKg(lines), negD);
  }

  lemma {:induction false} SumNegate(a: seq<real>, b: seq<real>)
    requires |a| == |b| && forall i :: 0 <= i < |a| ==> b[i] == -a[i]
    ensures Sum(b) == -Sum(a)
    decreases |a|
  {
    if |a| > 0 {
      SumNegate(a[..|a| - 1], b[..|b| - 1]);
    }
  }

  /** The key a line is priced under: its customer class, `regular` when unset. */
  function PriceKeyOf(l: LineValue, op: TipoOperacion): PriceKey {
    PriceKey(l.materialId, op, l.tipoCliente.GetOr(Regular))
  }

  /** A line amount: unit price times kilograms. */
  function Amount(precio: real, kg: real): real {
    precio * kg
  }

  /** One iteration of `apply_prices` (see PriceLineMeaning): only the price,
      the price-version reference and the subtotal change. */
  function PriceLine(l: LineValue, op: TipoOperacion, prices: seq<PriceRow>): (r: LineValue)
    ensures r == l.(precioUnitario := r.precioUnitario, versionPrecioId := r.versionPrecioId, subtotal := r.subtotal)
  {
    match ActivePrice(prices, PriceKeyOf(l, op))
    case Some(tp) =>
      l.(precioUnitario := Some(tp.precio), versionPrecioId := Some(tp.id), subtotal := Some(Amount(tp.precio, l.kgNeto)))
    case None =>
      l.(precioUnitario := None, versionPrecioId := None, subtotal := None)
  }

  /** A line is priced by the highest-version active row of its key (customer
      class `regular` when unset), with subtotal = price x the line's stored net;
      with no active row, price, version and subtotal are all cleared. */
  lemma PriceLineMeaning(l: LineValue, op: TipoOperacion, prices: seq<PriceRow>)
    ensures var r := PriceLine(l, op, prices);
            && (r.subtotal.Some? <==> exists row :: row in prices && row.key == PriceKeyOf(l, op) && row.activo)
            && (r.subtotal.None? ==> r.precioUnitario.None? && r.versionPrecioId.None?)
            && (r.subtotal.Some? ==>
                  exists row :: && row in prices && row.key == PriceKeyOf(l, op) && row.activo
                                && r.precioUnitario == Some(row.precio) && r.versionPrecioId == Some(row.id)
                                && r.subtotal.value == Amount(row.precio, l.kgNeto)
                                && (forall other :: other in prices && other.key == row.key && other.activo ==>
                                                      other.version <= row.version))
  {
    var tp := ActivePrice(prices, PriceKeyOf(l, op));
    if tp.Some? {
      var row := tp.value;
      assert row in prices && row.key == PriceKeyOf(l, op) && row.activo;
      var sub := PriceLine(l, op, prices).subtotal;
      var amount := Amount(row.precio, l.kgNeto);
      assert sub.Some? && sub.value == amount;
    }
  }

  function PriceLines(lines: seq<LineValue>, op: TipoOperacion, prices: seq<PriceRow>): (r: seq<LineValue>)
    ensures |r| == |lines| && forall i :: 0 <= i < |lines| ==> r[i] == PriceLine(lines[i], op, prices)
  {
    seq(|lines|, i requires 0 <= i < |lines| => PriceLine(lines[i], op, prices))
  }

  /** `apply_prices`: price every line, then `_recalc_totals`. */
  function ApplyPricesSpec(n: NoteValue, prices: seq<PriceRow>): NoteValue {
    RecalcTotalsSpec(n.(lines := PriceLines(n.lines, n.tipoOperacion, prices)))
  }

  /** After `apply_prices` the ticket has as many lines as before, all consistent. */
  lemma {:induction false} ApplyPricesResult(n: NoteValue, prices: seq<PriceRow>)
    ensures |ApplyPricesSpec(n, prices).lines| == |n.lines|
    ensures AllRecalculated(ApplyPricesSpec(n, prices).lines)
  {
    var r := ApplyPricesSpec(n, prices);
    var priced := PriceLines(n.lines, n.tipoOperacion, prices);
    forall i | 0 <= i < |n.lines|
      ensures Recalculated(r.lines[i])
    {
      RecalcLineIdempotent(priced[i]);
    }
  }

  /** On consistent lines every subtotal `apply_prices` leaves is the amount of
      the unit price it set and the line's net weight. */
  lemma {:induction false} ApplyPricesSubtotals(n: NoteValue, prices: seq<PriceRow>)
    requires AllRecalculated(n.lines)
    ensures forall i :: 0 <= i < |n.lines| ==>
              var l := ApplyPricesSpec(n, prices).lines[i];
              l.subtotal.Some? ==> l.precioUnitario.Some? && l.subtotal.value == Amount(l.precioUnitario.value, l.kgNeto)
  {
    var r := ApplyPricesSpec(n, prices);
    var priced := PriceLines(n.lines, n.tipoOperacion, prices);
    forall i | 0 <= i < |n.lines|
      ensures r.lines[i] == priced[i]
    {
      assert Recalculated(n.lines[i]);
    }
  }

  /** On consistent lines `_recalc_totals` changes nothing twice: recalculation
      of an already recalculated ticket only rewrites its totals. */
  lemma {:induction false} RecalcTotalsIdempotent(n: NoteValue)
    ensures RecalcTotalsSpec(RecalcTotalsSpec(n)) == RecalcTotalsSpec(n)
  {
    var r := RecalcTotalsSpec(n);
    forall i | 0 <= i < |r.lines|
      ensures RecalcLine(r.lines[i]) == r.lines[i]
    {
      RecalcLineIdempotent(n.lines[i]);
    }
    assert RecalcLines(r.lines) == r.lines;
  }

  /** `apply_prices` is idempotent on tickets whose lines are consistent (which
      every ticket it produces is): re-pricing with the same table yields the
      same lines and totals. */
  lemma {:induction false} ApplyPricesIdempotent(n: NoteValue, prices: seq<PriceRow>)
    requires AllRecalculated(n.lines)
    ensures ApplyPricesSpec(ApplyPricesSpec(n, prices), prices) == ApplyPricesSpec(n, prices)
  {
    var once := ApplyPricesSpec(n, prices);
    var twice := ApplyPricesSpec(once, prices);
    var priced := PriceLines(n.lines, n.tipoOperacion, prices);
    forall i | 0 <= i < |n.lines|
      ensures once.lines[i] == priced[i]
    {
      assert Recalculated(n.lines[i]);
    }
    assert once.lines == priced;
    forall i | 0 <= i < |n.lines|
      ensures twice.lines[i] == once.lines[i]
    {
      var l := n.lines[i];
      assert Recalculated(l);
      assert PriceLine(priced[i], n.tipoOperacion, prices) == priced[i];
      assert RecalcLine(priced[i]) == priced[i];
    }
    assert twice.lines == once.lines;
  }
}
