/** The ticket service (`note_service`): ticket lines and tickets as objects
    whose fields the operations overwrite in place, each operation proved to
    leave the object exactly as the value specifications of module Valuation
    and of this module say. Database ids and the clock are parameters; the
    material catalogue is the set of existing material ids and the price
    query is `Pricing.ActivePrice` over the stored price rows. */
module NoteService {
  import opened Common
  import opened Pricing
  import opened Valuation
  import opened TextUtil

  /** The errors the service raises. */
  datatype NoteError = MaterialNotFound(materialId: int) | NotDraft

  // ---------------------------------------------------------------- _sum_decimal

  /** `v or 0` for every entry. */
  function OrZeros(values: seq<Option<real>>): (r: seq<real>)
    ensures |r| == |values| && forall i :: 0 <= i < |values| ==> r[i] == OrZero(values[i])
  {
    seq(|values|, i requires 0 <= i < |values| => OrZero(values[i]))
  }

  /** Present values, as the generators of the source yield them. */
  function Present(s: seq<real>): (r: seq<Option<real>>)
    ensures OrZeros(r) == s
  {
    var r := seq(|s|, i requires 0 <= i < |s| => Some(s[i]));
    assert OrZeros(r) == s;
    r
  }

  /** `_sum_decimal`: the exact sum, a missing entry counting as 0. */
  method SumDecimal(values: seq<Option<real>>) returns (total: real)
    ensures total == Sum(OrZeros(values))
  {
    total := 0.0;
    var i := 0;
    while i < |values|
      invariant 0 <= i <= |values|
      invariant total == Sum(OrZeros(values[..i]))
    {
      assert OrZeros(values[..i + 1])[..i] == OrZeros(values[..i]);
      total := total + OrZero(values[i]);
      i := i + 1;
    }
    assert values[..i] == values;
  }

  /** Missing entries add nothing: the sum of `OrZeros` equals the sum of the
      present values alone. */
  lemma {:induction false} SumDecimalSkipsMissing(values: seq<Option<real>>)
    ensures Sum(OrZeros(values)) == Sum(PresentValues(values))
    decreases |values|
  {
    if |values| > 0 {
      var n := |values| - 1;
      SumDecimalSkipsMissing(values[..n]);
      assert OrZeros(values)[..n] == OrZeros(values[..n]);
      assert values[..n + 1] == values;
      if values[n].Some? {
        SumAppend(PresentValues(values[..n]), [values[n].value]);
        assert Sum([values[n].value]) == Sum([values[n].value][..0]) + values[n].value;
      } else {
        assert PresentValues(values) == PresentValues(values[..n]) + [];
        assert PresentValues(values[..n]) + [] == PresentValues(values[..n]);
      }
    }
  }

  /** The values that are present, in order. */
  function PresentValues(values: seq<Option<real>>): seq<real> {
    if |values| == 0 then []
    else PresentValues(values[..|values| - 1]) + (if values[|values| - 1].Some? then [values[|values| - 1].value] else [])
  }

  // ---------------------------------------------------------------- a ticket line

  /** A ticket line (`NotaMaterial`); its sub-weighings are not changed by the service. */
  class Line {
    var id: int
    var materialId: int
    var kgBruto: real
    var kgDescuento: real
    var kgNeto: real
    var precioUnitario: Option<real>
    var versionPrecioId: Option<int>
    var subtotal: Option<real>
    var orden: Option<int>
    var tipoCliente: Option<TipoCliente>
    var evidenciaUrl: Option<string>
    var subpesajes: seq<SubWeighing>

    function Value(): LineValue
      reads this
    {
      LineValue(id, materialId, kgBruto, kgDescuento, kgNeto, precioUnitario, versionPrecioId,
                subtotal, orden, tipoCliente, evidenciaUrl, subpesajes)
    }

    constructor (v: LineValue)
      ensures Value() == v
    {
      id := v.id;
      materialId := v.materialId;
      kgBruto := v.kgBruto;
      kgDescuento := v.kgDescuento;
      kgNeto := v.kgNeto;
      precioUnitario := v.precioUnitario;
      versionPrecioId := v.versionPrecioId;
      subtotal := v.subtotal;
      orden := v.orden;
      tipoCliente := v.tipoCliente;
      evidenciaUrl := v.evidenciaUrl;
      subpesajes := v.subpesajes;
    }

    /** `_recalc_material`. */
    method Recalc()
      modifies this
      ensures Value() == RecalcLine(old(Value()))
    {
      if |subpesajes| > 0 {
        var netoSum := SumDecimal(Present(Pesos(subpesajes)));
        var descSum := SumDecimal(Present(Descuentos(subpesajes)));
        kgNeto := netoSum;
        kgDescuento := descSum;
        kgBruto := netoSum + descSum;
      } else {
        kgNeto := kgBruto - kgDescuento;
      }
    }

    /** One iteration of the `apply_prices` loop. */
    method Price(op: TipoOperacion, prices: seq<PriceRow>)
      modifies this
      ensures Value() == PriceLine(old(Value()), op, prices)
    {
      var key := PriceKey(materialId, op, tipoCliente.GetOr(Regular));
      var tp := ActivePrice(prices, key);
      if tp.Some? {
        precioUnitario := Some(tp.value.precio);
        versionPrecioId := Some(tp.value.id);
        subtotal := Some(Amount(tp.value.precio, kgNeto));
      } else {
        precioUnitario := None;
        versionPrecioId := None;
        subtotal := None;
      }
    }

    method SetTipoCliente(t: TipoCliente)
      modifies this
      ensures Value() == old(Value()).(tipoCliente := Some(t))
    {
      tipoCliente := Some(t);
    }
  }

  function LineValues(ls: seq<Line>): (r: seq<LineValue>)
    reads ls
    ensures |r| == |ls| && forall i :: 0 <= i < |ls| ==> r[i] == ls[i].Value()
  {
    seq(|ls|, i requires 0 <= i < |ls| reads ls => ls[i].Value())
  }

  // ---------------------------------------------------------------- lifecycle specifications

  /** A ticket's partner fields agree with its operation: a purchase has no
      customer and a sale no supplier. */
  predicate PartnerConsistent(n: NoteValue) {
    && (n.tipoOperacion == Compra ==> n.clienteId.None?)
    && (n.tipoOperacion == Venta ==> n.proveedorId.None?)
  }

  /** The `send_to_revision` default: an unset customer class becomes `regular`. */
  function FillRegular(lines: seq<LineValue>): (r: seq<LineValue>)
    ensures |r| == |lines|
    ensures forall i :: 0 <= i < |lines| ==> r[i] == lines[i].(tipoCliente := Some(lines[i].tipoCliente.GetOr(Regular)))
  {
    seq(|lines|, i requires 0 <= i < |lines| => lines[i].(tipoCliente := Some(lines[i].tipoCliente.GetOr(Regular))))
  }

  /** `send_to_revision` on a ticket value: only a draft may be sent; its unset
      customer classes become `regular`, it is priced, moved to review, stamped
      and recalculated. */
  function SendToRevisionSpec(n: NoteValue, prices: seq<PriceRow>, now: int): Result<NoteValue, NoteError> {
    if n.estado != Borrador then Failure(NotDraft)
    else
      var priced := ApplyPricesSpec(n.(lines := FillRegular(n.lines)), prices);
      Success(RecalcTotalsSpec(priced.(estado := EnRevision, updatedAt := now)))
  }

  /** `send_to_revision` fails exactly on non-drafts. On success the ticket is
      in review, every line has a customer class (the one it had, else
      `regular`), and the ticket is exactly the re-pricing of the filled
      ticket: the final recalculation changes nothing. */
  lemma {:induction false} SendToRevisionOutcome(n: NoteValue, prices: seq<PriceRow>, now: int)
    ensures SendToRevisionSpec(n, prices, now).Failure? <==> n.estado != Borrador
    ensures SendToRevisionSpec(n, prices, now).Failure? ==> SendToRevisionSpec(n, prices, now).error == NotDraft
    ensures SendToRevisionSpec(n, prices, now).Success? ==>
              var v := SendToRevisionSpec(n, prices, now).value;
              && v == ApplyPricesSpec(n.(lines := FillRegular(n.lines)), prices).(estado := EnRevision, updatedAt := now)
              && v.estado == EnRevision && v.updatedAt == now
              && |v.lines| == |n.lines|
              && (forall i :: 0 <= i < |v.lines| ==>
                    && v.lines[i].tipoCliente.Some?
                    && (n.lines[i].tipoCliente.Some? ==> v.lines[i].tipoCliente == n.lines[i].tipoCliente))
  {
    if n.estado == Borrador {
      var filled := n.(lines := FillRegular(n.lines));
      var priced := ApplyPricesSpec(filled, prices);
      var pre := RecalcTotalsSpec(filled.(lines := PriceLines(filled.lines, n.tipoOperacion, prices)));
      assert priced == pre;
      RecalcTotalsIdempotent(filled.(lines := PriceLines(filled.lines, n.tipoOperacion, prices)));
      var moved := priced.(estado := EnRevision, updatedAt := now);
      assert RecalcTotalsSpec(moved) == RecalcTotalsSpec(priced).(estado := EnRevision, updatedAt := now);
    }
  }

  /** `update_state` on a ticket value: set the state, overwrite the admin, the
      admin comment (stripped, empty meaning none) and the payment due date only
      when given, stamp, and recalculate. */
  function UpdateStateSpec(n: NoteValue, newState: NotaEstado, adminId: Option<int>,
                           comentariosAdmin: Option<string>, fecha: Option<int>, now: int): NoteValue
  {
    RecalcTotalsSpec(StateFields(n, newState, adminId, comentariosAdmin, fecha, now))
  }

  /** The field assignments of `update_state`. */
  function StateFields(n: NoteValue, newState: NotaEstado, adminId: Option<int>,
                       comentariosAdmin: Option<string>, fecha: Option<int>, now: int): NoteValue
  {
    n.(estado := newState,
       adminId := if adminId.Some? then adminId else n.adminId,
       comentariosAdmin := if comentariosAdmin.Some? then BlankToNone(comentariosAdmin) else n.comentariosAdmin,
       fechaCaducidadPago := if fecha.Some? then fecha else n.fechaCaducidadPago,
       updatedAt := now)
  }

  /** `update_state` sets the state, keeps every optional field it is not
      given, and on consistent lines changes no line: only the totals are
      rewritten, as the sums of the lines. */
  lemma {:induction false} UpdateStateOutcome(n: NoteValue, newState: NotaEstado, adminId: Option<int>,
                                              comentariosAdmin: Option<string>, fecha: Option<int>, now: int)
    ensures var r := UpdateStateSpec(n, newState, adminId, comentariosAdmin, fecha, now);
            && r.estado == newState && r.updatedAt == now
            && (adminId.None? ==> r.adminId == n.adminId) && (adminId.Some? ==> r.adminId == adminId)
            && (comentariosAdmin.None? ==> r.comentariosAdmin == n.comentariosAdmin)
            && (fecha.None? ==> r.fechaCaducidadPago == n.fechaCaducidadPago)
            && (fecha.Some? ==> r.fechaCaducidadPago == fecha)
            && r.proveedorId == n.proveedorId && r.clienteId == n.clienteId
            && r.totalMonto == Sum(PricedSubtotals(n.lines))
            && (AllRecalculated(n.lines) ==> r.lines == n.lines)
  {
    var r := UpdateStateSpec(n, newState, adminId, comentariosAdmin, fecha, now);
    if AllRecalculated(n.lines) {
      forall i | 0 <= i < |n.lines|
        ensures r.lines[i] == n.lines[i]
      {
        assert Recalculated(n.lines[i]);
      }
    }
  }

  /** `attach_partner` on a ticket value: the field matching the operation is
      set, the other is cleared, nothing else changes. */
  function AttachPartnerSpec(n: NoteValue, proveedorId: Option<int>, clienteId: Option<int>): (r: NoteValue)
    ensures PartnerConsistent(r)
    ensures n.tipoOperacion == Compra ==> r.proveedorId == proveedorId
    ensures n.tipoOperacion == Venta ==> r.clienteId == clienteId
    ensures r == n.(proveedorId := r.proveedorId, clienteId := r.clienteId)
  {
    match n.tipoOperacion
    case Compra => n.(proveedorId := proveedorId, clienteId := None)
    case Venta => n.(clienteId := clienteId, proveedorId := None)
  }

  /** The lines after the first loop of `set_tipo_cliente_and_prices`. */
  function Retype(lines: seq<LineValue>, classes: map<int, TipoCliente>): (r: seq<LineValue>)
    ensures |r| == |lines|
    ensures forall i :: 0 <= i < |lines| ==>
              r[i] == if lines[i].id in classes then lines[i].(tipoCliente := Some(classes[lines[i].id])) else lines[i]
  {
    seq(|lines|, i requires 0 <= i < |lines| =>
          if lines[i].id in classes then lines[i].(tipoCliente := Some(classes[lines[i].id])) else lines[i])
  }

  /** `set_tipo_cliente_and_prices` on a ticket value. */
  function SetTipoClienteSpec(n: NoteValue, classes: map<int, TipoCliente>, prices: seq<PriceRow>): NoteValue {
    ApplyPricesSpec(n.(lines := Retype(n.lines, classes)), prices)
  }

  /** After `set_tipo_cliente_and_prices` a line named in the map carries the
      mapped class and is priced under it; any other line keeps its class; and a
      line is priced exactly when an active row exists for its key. */
  lemma {:induction false} SetTipoClienteOutcome(n: NoteValue, classes: map<int, TipoCliente>, prices: seq<PriceRow>)
    ensures var r := SetTipoClienteSpec(n, classes, prices);
            && |r.lines| == |n.lines|
            && (forall i :: 0 <= i < |n.lines| && n.lines[i].id in classes ==>
                  r.lines[i].tipoCliente == Some(classes[n.lines[i].id]))
            && (forall i :: 0 <= i < |n.lines| && n.lines[i].id !in classes ==>
                  r.lines[i].tipoCliente == n.lines[i].tipoCliente)
            && (forall i :: 0 <= i < |n.lines| ==>
                  (r.lines[i].subtotal.Some? <==>
                     exists row :: row in prices && row.activo &&
                       row.key == PriceKey(n.lines[i].materialId, n.tipoOperacion, r.lines[i].tipoCliente.GetOr(Regular))))
  {
    var retyped := Retype(n.lines, classes);
    var r := SetTipoClienteSpec(n, classes, prices);
    forall i | 0 <= i < |n.lines|
      ensures r.lines[i].tipoCliente == retyped[i].tipoCliente
      ensures r.lines[i].subtotal.Some? <==>
                exists row :: row in prices && row.activo &&
                  row.key == PriceKey(n.lines[i].materialId, n.tipoOperacion, r.lines[i].tipoCliente.GetOr(Regular))
    {
      PriceLineMeaning(retyped[i], n.tipoOperacion, prices);
    }
  }

  // ---------------------------------------------------------------- draft creation

  /** One sub-weighing of the creation payload. */
  datatype SubPayload = SubPayload(pesoKg: real, descuentoKg: real, fotoUrl: Option<string>)

  /** One line of the creation payload. `tipoCliente` is the raw text. */
  datatype MaterialPayload = MaterialPayload(
    materialId: int,
    kgBruto: real,
    kgDescuento: real,
    subpesajes: seq<SubPayload>,
    tipoCliente: Option<string>,
    evidenciaUrl: Option<string>)

  function TipoClienteName(t: TipoCliente): string {
    match t
    case Regular => "regular"
    case Mayorista => "mayorista"
    case Menudeo => "menudeo"
  }

  /** `TipoCliente(raw)`: the class whose stored name is `raw`, if any. */
  function ParseTipoCliente(raw: string): (r: Option<TipoCliente>)
    ensures r.Some? ==> TipoClienteName(r.value) == raw
    ensures r.None? ==> forall t :: TipoClienteName(t) != raw
  {
    if raw == "regular" then Some(Regular)
    else if raw == "mayorista" then Some(Mayorista)
    else if raw == "menudeo" then Some(Menudeo)
    else None
  }

  /** Every class is recognised by its own name. */
  lemma TipoClienteRoundTrip(t: TipoCliente)
    ensures ParseTipoCliente(TipoClienteName(t)) == Some(t)
  {
  }

  /** The stored class of a payload line: none when blank or unrecognised. */
  function PayloadTipoCliente(raw: Option<string>): (r: Option<TipoCliente>)
    ensures r.Some? <==> raw.Some? && exists t :: TipoClienteName(t) == raw.value
    ensures r.Some? ==> TipoClienteName(r.value) == raw.value
  {
    if raw.Some? && raw.value != "" then
      var r := ParseTipoCliente(raw.value);
      assert r.Some? ==> TipoClienteName(r.value) == raw.value;
      r
    else None
  }

  function PayloadPesos(subs: seq<SubPayload>): seq<real> {
    seq(|subs|, i requires 0 <= i < |subs| => subs[i].pesoKg)
  }

  function PayloadDescuentos(subs: seq<SubPayload>): seq<real> {
    seq(|subs|, i requires 0 <= i < |subs| => subs[i].descuentoKg)
  }

  /** The stored sub-weighings: readings kept, an empty photo URL stored as none. */
  function DraftSubs(subs: seq<SubPayload>): (r: seq<SubWeighing>)
    ensures |r| == |subs|
    ensures Pesos(r) == PayloadPesos(subs) && Descuentos(r) == PayloadDescuentos(subs)
  {
    var r := seq(|subs|, i requires 0 <= i < |subs| => SubWeighing(subs[i].pesoKg, subs[i].descuentoKg, EmptyToNone(subs[i].fotoUrl)));
    assert Pesos(r) == PayloadPesos(subs);
    assert Descuentos(r) == PayloadDescuentos(subs);
    r
  }

  /** The line `create_draft_note` stores for payload line `idx`. */
  function DraftLine(p: MaterialPayload, idx: int, lineId: int): LineValue {
    var subs := DraftSubs(p.subpesajes);
    var neto := if |subs| > 0 then Sum(PayloadPesos(p.subpesajes)) else p.kgBruto - p.kgDescuento;
    var desc := if |subs| > 0 then Sum(PayloadDescuentos(p.subpesajes)) else p.kgDescuento;
    var bruto := if |subs| > 0 then neto + desc else p.kgBruto;
    LineValue(lineId, p.materialId, bruto, desc, neto, None, None, None, Some(idx),
              PayloadTipoCliente(p.tipoCliente), EmptyToNone(p.evidenciaUrl), subs)
  }

  function DraftLines(payload: seq<MaterialPayload>, firstLineId: int): (r: seq<LineValue>)
    ensures |r| == |payload| && forall i :: 0 <= i < |payload| ==> r[i] == DraftLine(payload[i], i, firstLineId + i)
  {
    seq(|payload|, i requires 0 <= i < |payload| => DraftLine(payload[i], i, firstLineId + i))
  }

  /** The ticket as first inserted, before the recalculation and pricing. */
  function DraftValue(notaId: int, firstLineId: int, sucursalId: int, trabajadorId: int, op: TipoOperacion,
                      payload: seq<MaterialPayload>, comentarios: Option<string>,
                      proveedorId: Option<int>, clienteId: Option<int>, now: int): NoteValue
  {
    NoteValue(notaId, sucursalId, trabajadorId, None,
              if op == Compra then proveedorId else None,
              if op == Venta then clienteId else None,
              op, Borrador, 0.0, 0.0, 0.0, 0.0, BlankToNone(comentarios), None, None, now,
              DraftLines(payload, firstLineId))
  }

  /** The first payload line whose material does not exist, if any. */
  function FirstMissing(payload: seq<MaterialPayload>, materials: set<int>): (r: Option<nat>)
    ensures r.Some? ==> r.value < |payload| && payload[r.value].materialId !in materials
                        && forall j :: 0 <= j < r.value ==> payload[j].materialId in materials
    ensures r.None? <==> forall j :: 0 <= j < |payload| ==> payload[j].materialId in materials
  {
    if |payload| == 0 then None
    else if payload[0].materialId !in materials then Some(0)
    else
      match FirstMissing(payload[1..], materials)
      case Some(k) => Some(k + 1)
      case None => None
  }

  /** `create_draft_note` on values: the error for the first unknown material,
      or the inserted draft recalculated and priced. */
  function DraftSpec(notaId: int, firstLineId: int, sucursalId: int, trabajadorId: int, op: TipoOperacion,
                     payload: seq<MaterialPayload>, comentarios: Option<string>,
                     proveedorId: Option<int>, clienteId: Option<int>,
                     materials: set<int>, prices: seq<PriceRow>, now: int): Result<NoteValue, NoteError>
  {
    match FirstMissing(payload, materials)
    case Some(k) => Failure(MaterialNotFound(payload[k].materialId))
    case None =>
      var draft := DraftValue(notaId, firstLineId, sucursalId, trabajadorId, op, payload, comentarios,
                              proveedorId, clienteId, now);
      Success(ApplyPricesSpec(RecalcTotalsSpec(draft), prices))
  }

  /** A stored draft line is already consistent with `_recalc_material`. */
  lemma DraftLineRecalculated(p: MaterialPayload, idx: int, lineId: int)
    ensures Recalculated(DraftLine(p, idx, lineId))
  {
    var subs := DraftSubs(p.subpesajes);
    assert Pesos(subs) == PayloadPesos(p.subpesajes);
  }

  /** Pricing a consistent line keeps it consistent. */
  lemma PriceKeepsRecalculated(l: LineValue, op: TipoOperacion, prices: seq<PriceRow>)
    requires Recalculated(l)
    ensures Recalculated(PriceLine(l, op, prices))
  {
  }

  /** `create_draft_note` fails exactly when some payload material does not
      exist, and then names the first such material. */
  lemma DraftFailure(notaId: int, firstLineId: int, sucursalId: int, trabajadorId: int,
                                  op: TipoOperacion, payload: seq<MaterialPayload>, comentarios: Option<string>,
                                  proveedorId: Option<int>, clienteId: Option<int>,
                                  materials: set<int>, prices: seq<PriceRow>, now: int)
    ensures DraftSpec(notaId, firstLineId, sucursalId, trabajadorId, op, payload, comentarios,
                            proveedorId, clienteId, materials, prices, now).Failure? <==>
              exists j :: 0 <= j < |payload| && payload[j].materialId !in materials
    ensures DraftSpec(notaId, firstLineId, sucursalId, trabajadorId, op, payload, comentarios,
                            proveedorId, clienteId, materials, prices, now).Failure? ==>
              exists j :: && 0 <= j < |payload| && payload[j].materialId !in materials
                          && DraftSpec(notaId, firstLineId, sucursalId, trabajadorId, op, payload, comentarios,
                            proveedorId, clienteId, materials, prices, now).error == MaterialNotFound(payload[j].materialId)
                          && forall k :: 0 <= k < j ==> payload[k].materialId in materials
  {
  }

  /** A created ticket is a draft, carries the partner of its operation only,
      and stores the worker comment stripped (none when blank). */
  lemma DraftHeader(notaId: int, firstLineId: int, sucursalId: int, trabajadorId: int,
                                  op: TipoOperacion, payload: seq<MaterialPayload>, comentarios: Option<string>,
                                  proveedorId: Option<int>, clienteId: Option<int>,
                                  materials: set<int>, prices: seq<PriceRow>, now: int)
    requires DraftSpec(notaId, firstLineId, sucursalId, trabajadorId, op, payload, comentarios,
                            proveedorId, clienteId, materials, prices, now).Success?
    ensures var v := DraftSpec(notaId, firstLineId, sucursalId, trabajadorId, op, payload, comentarios,
                            proveedorId, clienteId, materials, prices, now).value;
            && v.estado == Borrador && v.id == notaId && v.sucursalId == sucursalId
            && v.trabajadorId == trabajadorId && v.tipoOperacion == op
            && PartnerConsistent(v)
            && (op == Compra ==> v.proveedorId == proveedorId)
            && (op == Venta ==> v.clienteId == clienteId)
            && v.comentariosTrabajador == BlankToNone(comentarios)
  {
  }

  /** Line i of a created ticket comes from payload line i: its `orden` is i,
      its customer class is the parsed one (none when unrecognised), its weights
      are the sums of its sub-weighings when it has any (gross = net +
      discount) and otherwise the payload's gross and discount with net =
      gross - discount and no floor; it is priced from the table, and every
      line is consistent with `_recalc_material`. */
  lemma {:induction false} DraftLinesOutcome(notaId: int, firstLineId: int, sucursalId: int, trabajadorId: int,
                                  op: TipoOperacion, payload: seq<MaterialPayload>, comentarios: Option<string>,
                                  proveedorId: Option<int>, clienteId: Option<int>,
                                  materials: set<int>, prices: seq<PriceRow>, now: int)
    requires DraftSpec(notaId, firstLineId, sucursalId, trabajadorId, op, payload, comentarios,
                            proveedorId, clienteId, materials, prices, now).Success?
    ensures var v := DraftSpec(notaId, firstLineId, sucursalId, trabajadorId, op, payload, comentarios,
                            proveedorId, clienteId, materials, prices, now).value;
            && |v.lines| == |payload|
            && AllRecalculated(v.lines)
            && forall i :: 0 <= i < |payload| ==>
                 && PricedDraftLineShape(payload[i], i, firstLineId + i, v.lines[i])
                 && v.lines[i] == PriceLine(DraftLine(payload[i], i, firstLineId + i), op, prices)
  {
    var draft := DraftValue(notaId, firstLineId, sucursalId, trabajadorId, op, payload, comentarios,
                            proveedorId, clienteId, now);
    PricedDraftLines(payload, firstLineId, draft, prices);
  }

  lemma {:induction false} PricedDraftLines(payload: seq<MaterialPayload>, firstLineId: int, draft: NoteValue,
                                            prices: seq<PriceRow>)
    requires draft.lines == DraftLines(payload, firstLineId)
    ensures var v := ApplyPricesSpec(RecalcTotalsSpec(draft), prices);
            && |v.lines| == |payload|
            && AllRecalculated(v.lines)
            && forall i :: 0 <= i < |payload| ==>
                 && PricedDraftLineShape(payload[i], i, firstLineId + i, v.lines[i])
                 && v.lines[i] == PriceLine(DraftLine(payload[i], i, firstLineId + i), draft.tipoOperacion, prices)
  {
    forall i | 0 <= i < |payload|
      ensures Recalculated(draft.lines[i])
    {
      DraftLineRecalculated(payload[i], i, firstLineId + i);
    }
    PricingConsistentLines(draft, prices);
    forall i | 0 <= i < |payload|
      ensures PricedDraftLineShape(payload[i], i, firstLineId + i, PriceLine(draft.lines[i], draft.tipoOperacion, prices))
    {
      DraftLineShape(payload[i], i, firstLineId + i, draft.tipoOperacion, prices);
    }
  }

  /** The stored fields of a priced draft line, as `create_draft_note` sets them. */
  predicate PricedDraftLineShape(p: MaterialPayload, i: int, lineId: int, l: LineValue) {
    && l.orden == Some(i) && l.materialId == p.materialId && l.id == lineId
    && l.tipoCliente == PayloadTipoCliente(p.tipoCliente)
    && (|p.subpesajes| > 0 ==> l.kgNeto == Sum(PayloadPesos(p.subpesajes))
                               && l.kgDescuento == Sum(PayloadDescuentos(p.subpesajes))
                               && l.kgBruto == l.kgNeto + l.kgDescuento)
    && (|p.subpesajes| == 0 ==> l.kgBruto == p.kgBruto && l.kgDescuento == p.kgDescuento
                                && l.kgNeto == p.kgBruto - p.kgDescuento)
  }

  lemma DraftLineShape(p: MaterialPayload, i: int, lineId: int, op: TipoOperacion, prices: seq<PriceRow>)
    ensures PricedDraftLineShape(p, i, lineId, PriceLine(DraftLine(p, i, lineId), op, prices))
  {
  }

  /** Recalculating and pricing a ticket whose lines are consistent prices each
      line and changes no weight. */
  lemma {:induction false} PricingConsistentLines(n: NoteValue, prices: seq<PriceRow>)
    requires AllRecalculated(n.lines)
    ensures ApplyPricesSpec(RecalcTotalsSpec(n), prices).lines == PriceLines(n.lines, n.tipoOperacion, prices)
    ensures AllRecalculated(ApplyPricesSpec(RecalcTotalsSpec(n), prices).lines)
  {
    var recalc := RecalcTotalsSpec(n);
    var priced := PriceLines(n.lines, n.tipoOperacion, prices);
    forall i | 0 <= i < |n.lines|
      ensures recalc.lines[i] == n.lines[i]
      ensures RecalcLine(priced[i]) == priced[i]
    {
      assert Recalculated(n.lines[i]);
      PriceKeepsRecalculated(n.lines[i], n.tipoOperacion, prices);
    }
    assert recalc.lines == n.lines;
    var out := ApplyPricesSpec(recalc, prices);
    assert out.lines == RecalcLines(priced);
  }

  // ---------------------------------------------------------------- the ticket

  /** A ticket (`Nota`) with its lines. */
  class Nota {
    var id: int
    var sucursalId: int
    var trabajadorId: int
    var adminId: Option<int>
    var proveedorId: Option<int>
    var clienteId: Option<int>
    var tipoOperacion: TipoOperacion
    var estado: NotaEstado
    var totalKgBruto: real
    var totalKgDescuento: real
    var totalKgNeto: real
    var totalMonto: real
    var comentariosTrabajador: Option<string>
    var comentariosAdmin: Option<string>
    var fechaCaducidadPago: Option<int>
    var updatedAt: int
    var materiales: seq<Line>

    /** The lines are distinct objects. */
    ghost predicate Valid()
      reads `materiales
    {
      forall i, j :: 0 <= i < j < |materiales| ==> materiales[i] != materiales[j]
    }

    function View(): NoteValue
      reads this, materiales
    {
      NoteValue(id, sucursalId, trabajadorId, adminId, proveedorId, clienteId, tipoOperacion, estado,
                totalKgBruto, totalKgDescuento, totalKgNeto, totalMonto,
                comentariosTrabajador, comentariosAdmin, fechaCaducidadPago, updatedAt,
                LineValues(materiales))
    }

    /** A new ticket: a draft with zero totals and no lines or partner. */
    constructor (id: int, sucursalId: int, trabajadorId: int, op: TipoOperacion, comentarios: Option<string>, now: int)
      ensures Valid()
      ensures View() == NoteValue(id, sucursalId, trabajadorId, None, None, None, op, Borrador,
                                  0.0, 0.0, 0.0, 0.0, comentarios, None, None, now, [])
    {
      this.id := id;
      this.sucursalId := sucursalId;
      this.trabajadorId := trabajadorId;
      adminId := None;
      proveedorId := None;
      clienteId := None;
      tipoOperacion := op;
      estado := Borrador;
      totalKgBruto := 0.0;
      totalKgDescuento := 0.0;
      totalKgNeto := 0.0;
      totalMonto := 0.0;
      comentariosTrabajador := comentarios;
      comentariosAdmin := None;
      fechaCaducidadPago := None;
      updatedAt := now;
      materiales := [];
    }

    /** The partner of a new ticket: the supplier on a purchase, the customer on a sale. */
    method SetDraftPartner(proveedorId: Option<int>, clienteId: Option<int>)
      modifies this
      ensures materiales == old(materiales)
      ensures View() == old(View()).(proveedorId := if tipoOperacion == Compra then proveedorId else old(this.proveedorId),
                                     clienteId := if tipoOperacion == Compra then old(this.clienteId) else clienteId)
    {
      if tipoOperacion == Compra {
        this.proveedorId := proveedorId;
      } else {
        this.clienteId := clienteId;
      }
    }

    /** The lines of a new ticket, inserted once they are all built. */
    method SetLines(lines: seq<Line>)
      requires forall i, j :: 0 <= i < j < |lines| ==> lines[i] != lines[j]
      modifies this
      ensures Valid() && materiales == lines
      ensures View() == old(View()).(lines := LineValues(lines))
    {
      materiales := lines;
    }

    /** The first loop of `_recalc_totals`: `_recalc_material` on every line. */
    method RecalcLinesInPlace()
      requires Valid()
      modifies materiales
      ensures View() == old(View()).(lines := RecalcLines(old(View()).lines))
    {
      ghost var before := View();
      var i := 0;
      while i < |materiales|
        invariant 0 <= i <= |materiales|
        invariant forall k :: 0 <= k < i ==> materiales[k].Value() == RecalcLine(before.lines[k])
        invariant forall k :: i <= k < |materiales| ==> materiales[k].Value() == before.lines[k]
      {
        materiales[i].Recalc();
        i := i + 1;
      }
      assert LineValues(materiales) == RecalcLines(before.lines);
    }

    /** The four total assignments of `_recalc_totals`. */
    method SetTotals(bruto: real, desc: real, neto: real, monto: real)
      modifies this
      ensures materiales == old(materiales)
      ensures View() == old(View()).(totalKgBruto := bruto, totalKgDescuento := desc,
                                     totalKgNeto := neto, totalMonto := monto)
    {
      totalKgBruto, totalKgDescuento, totalKgNeto, totalMonto := bruto, desc, neto, monto;
    }

    /** `_recalc_totals`. */
    method RecalcTotals()
      requires Valid()
      modifies this, materiales
      ensures Valid() && materiales == old(materiales)
      ensures View() == RecalcTotalsSpec(old(View()))
    {
      ghost var before := View();
      RecalcLinesInPlace();
      var vals := LineValues(materiales);
      var b, d, n, m := LineTotals(vals);
      RecalcTotalsSpecIs(before, vals, b, d, n, m);
      SetTotals(b, d, n, m);
    }

    /** The loop of `apply_prices`: price every line from the table. */
    method PriceLinesInPlace(prices: seq<PriceRow>)
      requires Valid()
      modifies materiales
      ensures View() == old(View()).(lines := PriceLines(old(View()).lines, tipoOperacion, prices))
    {
      ghost var before := View();
      var i := 0;
      while i < |materiales|
        invariant 0 <= i <= |materiales|
        invariant forall k :: 0 <= k < i ==> materiales[k].Value() == PriceLine(before.lines[k], tipoOperacion, prices)
        invariant forall k :: i <= k < |materiales| ==> materiales[k].Value() == before.lines[k]
      {
        materiales[i].Price(tipoOperacion, prices);
        i := i + 1;
      }
      assert LineValues(materiales) == PriceLines(before.lines, tipoOperacion, prices);
    }

    /** `apply_prices`: price every line, then `_recalc_totals`. */
    method ApplyPrices(prices: seq<PriceRow>)
      requires Valid()
      modifies this, materiales
      ensures Valid() && materiales == old(materiales)
      ensures View() == ApplyPricesSpec(old(View()), prices)
    {
      PriceLinesInPlace(prices);
      RecalcTotals();
    }

    /** The field assignments of `update_state` before its recalculation. */
    method AssignStateFields(newState: NotaEstado, adminId: Option<int>, comentariosAdmin: Option<string>,
                             fecha: Option<int>, now: int)
      modifies this
      ensures materiales == old(materiales)
      ensures View() == StateFields(old(View()), newState, adminId, comentariosAdmin, fecha, now)
    {
      var comment := if comentariosAdmin.Some? then BlankToNone(comentariosAdmin) else this.comentariosAdmin;
      var next := StateFields(View(), newState, adminId, comentariosAdmin, fecha, now);
      assert next.comentariosAdmin == comment;
      estado, this.adminId, this.comentariosAdmin, fechaCaducidadPago, updatedAt :=
        next.estado, next.adminId, comment, next.fechaCaducidadPago, next.updatedAt;
    }

    /** `update_state`. */
    method UpdateState(newState: NotaEstado, adminId: Option<int>, comentariosAdmin: Option<string>,
                       fecha: Option<int>, now: int)
      requires Valid()
      modifies this, materiales
      ensures Valid() && materiales == old(materiales)
      ensures View() == UpdateStateSpec(old(View()), newState, adminId, comentariosAdmin, fecha, now)
    {
      AssignStateFields(newState, adminId, comentariosAdmin, fecha, now);
      RecalcTotals();
    }

    /** The first loop of `send_to_revision`: unset customer classes become `regular`. */
    method FillRegularInPlace()
      requires Valid()
      modifies materiales
      ensures View() == old(View()).(lines := FillRegular(old(View()).lines))
    {
      ghost var before := View();
      var i := 0;
      while i < |materiales|
        invariant 0 <= i <= |materiales|
        invariant forall k :: 0 <= k < i ==> materiales[k].Value() == FillRegular(before.lines)[k]
        invariant forall k :: i <= k < |materiales| ==> materiales[k].Value() == before.lines[k]
      {
        if materiales[i].tipoCliente.None? {
          materiales[i].SetTipoCliente(Regular);
        }
        i := i + 1;
      }
      assert LineValues(materiales) == FillRegular(before.lines);
    }

    /** The state change and stamp of `send_to_revision`. */
    method MoveToReview(now: int)
      modifies this
      ensures materiales == old(materiales)
      ensures View() == old(View()).(estado := EnRevision, updatedAt := now)
    {
      estado := EnRevision;
      updatedAt := now;
    }

    /** `send_to_revision`: a non-draft is rejected and left untouched. */
    method SendToRevision(prices: seq<PriceRow>, now: int) returns (err: Option<NoteError>)
      requires Valid()
      modifies this, materiales
      ensures Valid() && materiales == old(materiales)
      ensures SendToRevisionSpec(old(View()), prices, now).Failure? ==>
                err == Some(SendToRevisionSpec(old(View()), prices, now).error) && View() == old(View())
      ensures SendToRevisionSpec(old(View()), prices, now).Success? ==>
                err.None? && View() == SendToRevisionSpec(old(View()), prices, now).value
    {
      if estado != Borrador {
        return Some(NotDraft);
      }
      FillRegularInPlace();
      ApplyPrices(prices);
      MoveToReview(now);
      RecalcTotals();
      err := None;
    }

    /** `attach_partner`. */
    method AttachPartner(proveedorId: Option<int>, clienteId: Option<int>)
      modifies this
      ensures materiales == old(materiales)
      ensures View() == AttachPartnerSpec(old(View()), proveedorId, clienteId)
    {
      if tipoOperacion == Compra {
        this.proveedorId := proveedorId;
        this.clienteId := None;
      } else {
        this.clienteId := clienteId;
        this.proveedorId := None;
      }
    }

    /** The first loop of `set_tipo_cliente_and_prices`. */
    method RetypeInPlace(classes: map<int, TipoCliente>)
      requires Valid()
      modifies materiales
      ensures View() == old(View()).(lines := Retype(old(View()).lines, classes))
    {
      ghost var before := View();
      var i := 0;
      while i < |materiales|
        invariant 0 <= i <= |materiales|
        invariant forall k :: 0 <= k < i ==> materiales[k].Value() == Retype(before.lines, classes)[k]
        invariant forall k :: i <= k < |materiales| ==> materiales[k].Value() == before.lines[k]
      {
        var line := materiales[i];
        if line.id in classes {
          line.SetTipoCliente(classes[line.id]);
        }
        i := i + 1;
      }
      assert LineValues(materiales) == Retype(before.lines, classes);
    }

    /** `set_tipo_cliente_and_prices`. */
    method SetTipoClienteAndPrices(classes: map<int, TipoCliente>, prices: seq<PriceRow>)
      requires Valid()
      modifies this, materiales
      ensures Valid() && materiales == old(materiales)
      ensures View() == SetTipoClienteSpec(old(View()), classes, prices)
    {
      RetypeInPlace(classes);
      ApplyPrices(prices);
    }
  }

  /** The four sums of `_recalc_totals`, each taken with `_sum_decimal`. */
  method LineTotals(vals: seq<LineValue>) returns (bruto: real, desc: real, neto: real, monto: real)
    ensures bruto == Sum(Brutos(vals)) && desc == Sum(DescuentosKg(vals)) && neto == Sum(Netos(vals))
    ensures monto == Sum(PricedSubtotals(vals))
  {
    bruto := SumDecimal(Present(Brutos(vals)));
    desc := SumDecimal(Present(DescuentosKg(vals)));
    neto := SumDecimal(Present(Netos(vals)));
    monto := SumDecimal(Present(PricedSubtotals(vals)));
  }

  /** Build one stored line from its payload, as the loop body of `create_draft_note` does. */
  method MakeLine(p: MaterialPayload, idx: int, lineId: int) returns (line: Line)
    ensures fresh(line)
    ensures line.Value() == DraftLine(p, idx, lineId)
  {
    var kgBruto, kgDescuento, kgNeto;
    if |p.subpesajes| > 0 {
      var netoSum := SumDecimal(Present(PayloadPesos(p.subpesajes)));
      var descSum := SumDecimal(Present(PayloadDescuentos(p.subpesajes)));
      kgNeto := netoSum;
      kgDescuento := descSum;
      kgBruto := netoSum + descSum;
    } else {
      kgBruto := p.kgBruto;
      kgDescuento := p.kgDescuento;
      kgNeto := kgBruto - kgDescuento;
    }
    var tipo: Option<TipoCliente> := None;
    if p.tipoCliente.Some? && p.tipoCliente.value != "" {
      tipo := ParseTipoCliente(p.tipoCliente.value);
    }
    var subs: seq<SubWeighing> := [];
    var k := 0;
    while k < |p.subpesajes|
      invariant 0 <= k <= |p.subpesajes|
      invariant subs == DraftSubs(p.subpesajes[..k])
    {
      var sp := p.subpesajes[k];
      subs := subs + [SubWeighing(sp.pesoKg, sp.descuentoKg, EmptyToNone(sp.fotoUrl))];
      k := k + 1;
    }
    assert p.subpesajes[..k] == p.subpesajes;
    line := new Line(LineValue(lineId, p.materialId, kgBruto, kgDescuento, kgNeto, None, None, None,
                               Some(idx), tipo, EmptyToNone(p.evidenciaUrl), subs));
  }

  /** The loop of `create_draft_note`: one stored line per payload line, in
      order, stopping at the first unknown material. */
  method MakeLines(payload: seq<MaterialPayload>, firstLineId: int, materials: set<int>)
    returns (lines: seq<Line>, err: Option<NoteError>)
    ensures FirstMissing(payload, materials).Some? ==>
              err == Some(MaterialNotFound(payload[FirstMissing(payload, materials).value].materialId))
    ensures FirstMissing(payload, materials).None? ==>
              && err.None? && |lines| == |payload|
              && (forall k :: 0 <= k < |payload| ==> lines[k].Value() == DraftLine(payload[k], k, firstLineId + k))
              && (forall k :: 0 <= k < |lines| ==> fresh(lines[k]))
              && (forall i, j :: 0 <= i < j < |lines| ==> lines[i] != lines[j])
  {
    lines := [];
    var idx := 0;
    while idx < |payload|
      invariant 0 <= idx <= |payload|
      invariant forall k :: 0 <= k < |lines| ==> fresh(lines[k])
      invariant forall i, j :: 0 <= i < j < |lines| ==> lines[i] != lines[j]
      invariant forall j :: 0 <= j < idx ==> payload[j].materialId in materials
      invariant |lines| == idx
      invariant forall k :: 0 <= k < idx ==> lines[k].Value() == DraftLine(payload[k], k, firstLineId + k)
    {
      if payload[idx].materialId !in materials {
        assert FirstMissing(payload, materials) == Some(idx);
        return lines, Some(MaterialNotFound(payload[idx].materialId));
      }
      var line := MakeLine(payload[idx], idx, firstLineId + idx);
      lines := lines + [line];
      idx := idx + 1;
    }
    assert FirstMissing(payload, materials).None?;
    err := None;
  }

  /** The inserts of `create_draft_note`: the ticket, its partner and its lines,
      failing on the first unknown material. */
  method InsertDraft(notaId: int, firstLineId: int, sucursalId: int, trabajadorId: int, op: TipoOperacion,
                     payload: seq<MaterialPayload>, comentarios: Option<string>,
                     proveedorId: Option<int>, clienteId: Option<int>, materials: set<int>, now: int)
    returns (nota: Nota, err: Option<NoteError>)
    ensures FirstMissing(payload, materials).Some? ==>
              err == Some(MaterialNotFound(payload[FirstMissing(payload, materials).value].materialId))
    ensures FirstMissing(payload, materials).None? ==>
              && err.None? && fresh(nota) && nota.Valid()
              && (forall k :: 0 <= k < |nota.materiales| ==> fresh(nota.materiales[k]))
              && nota.View() == DraftValue(notaId, firstLineId, sucursalId, trabajadorId, op, payload,
                                           comentarios, proveedorId, clienteId, now)
  {
    nota := new Nota(notaId, sucursalId, trabajadorId, op, BlankToNone(comentarios), now);
    nota.SetDraftPartner(proveedorId, clienteId);
    var lines;
    lines, err := MakeLines(payload, firstLineId, materials);
    if err.Some? {
      return;
    }
    nota.SetLines(lines);
    assert LineValues(lines) == DraftLines(payload, firstLineId);
  }

  /** `create_draft_note`: insert the draft and its lines, failing on the first
      unknown material, then recalculate and price. */
  method CreateDraftNote(notaId: int, firstLineId: int, sucursalId: int, trabajadorId: int, op: TipoOperacion,
                         payload: seq<MaterialPayload>, comentarios: Option<string>,
                         proveedorId: Option<int>, clienteId: Option<int>,
                         materials: set<int>, prices: seq<PriceRow>, now: int)
    returns (r: Result<Nota, NoteError>)
    ensures var spec := DraftSpec(notaId, firstLineId, sucursalId, trabajadorId, op, payload, comentarios,
                                  proveedorId, clienteId, materials, prices, now);
            && (spec.Failure? ==> r.Failure? && r.error == spec.error)
            && (spec.Success? ==> r.Success? && fresh(r.value) && r.value.Valid() && r.value.View() == spec.value)
  {
    var nota, err := InsertDraft(notaId, firstLineId, sucursalId, trabajadorId, op, payload, comentarios,
                                 proveedorId, clienteId, materials, now);
    if err.Some? {
      return Failure(err.value);
    }
    nota.RecalcTotals();
    nota.ApplyPrices(prices);
    r := Success(nota);
  }
}
