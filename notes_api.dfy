/** The ticket endpoints around the service: the request validators, the
    empty-ticket check of creation, the state-transition guard of
    `update_note_state` and the partner check of `update_note_partner`. Looking
    the ticket up by id (the 404 answer) is a database query and is not part of
    this model: every operation here receives the ticket itself. */
module NotesApi {
  import opened Common
  import opened Pricing
  import opened Valuation
  import opened NoteService

  /** Why a request is refused (each is a 400 answer in the source). */
  datatype ApiError =
    | CancelledIsFinal
    | OnlyDraftToReview
    | ApprovalFlowRequired
    | CannotCancelApproved
    | OnlyReviewToDraft
    | NoMaterials
    | PartnerRequired(op: TipoOperacion)
    | Service(e: NoteError)

  // ---------------------------------------------------------------- validators

  /** One sub-weighing of a creation request. */
  datatype SubpesajeIn = SubpesajeIn(pesoKg: real, fotoUrl: Option<string>)

  /** One line of a creation request. */
  datatype NotaMaterialIn = NotaMaterialIn(materialId: int, kgBruto: real, kgDescuento: real,
                                           subpesajes: seq<SubpesajeIn>)

  /** A rejected field of a request line. */
  datatype FieldError =
    | BrutoNotPositive
    | DescuentoNegative
    | DescuentoAboveBruto
    | PesoNotPositive(index: nat)

  /** The `peso_kg` errors of the sub-weighings from position `from` on. */
  function SubErrors(subs: seq<SubpesajeIn>, from: nat): (r: seq<FieldError>)
    requires from <= |subs|
    decreases |subs| - from
    ensures forall e :: e in r ==> e.PesoNotPositive? && from <= e.index < |subs| && subs[e.index].pesoKg <= 0.0
    ensures forall i :: from <= i < |subs| && subs[i].pesoKg <= 0.0 ==> PesoNotPositive(i) in r
    ensures r == [] <==> forall i :: from <= i < |subs| ==> subs[i].pesoKg > 0.0
  {
    if from == |subs| then []
    else (if subs[from].pesoKg <= 0.0 then [PesoNotPositive(from)] else []) + SubErrors(subs, from + 1)
  }

  /** Every validation error of a request line, in field order. The gross
      weight must be positive; the discount must not be negative and, only
      when the gross weight itself passed, must not exceed it; every
      sub-weighing must be positive. */
  function MaterialErrors(m: NotaMaterialIn): (r: seq<FieldError>)
    ensures BrutoNotPositive in r <==> m.kgBruto <= 0.0
    ensures DescuentoNegative in r <==> m.kgDescuento < 0.0
    ensures DescuentoAboveBruto in r <==> m.kgBruto > 0.0 && 0.0 <= m.kgDescuento && m.kgDescuento > m.kgBruto
    ensures forall i :: 0 <= i < |m.subpesajes| ==> (PesoNotPositive(i) in r <==> m.subpesajes[i].pesoKg <= 0.0)
    ensures r == [] <==> && m.kgBruto > 0.0 && 0.0 <= m.kgDescuento <= m.kgBruto
                         && forall i :: 0 <= i < |m.subpesajes| ==> m.subpesajes[i].pesoKg > 0.0
  {
    var bruto := if m.kgBruto <= 0.0 then [BrutoNotPositive] else [];
    var desc := if m.kgDescuento < 0.0 then [DescuentoNegative]
                else if m.kgBruto > 0.0 && m.kgDescuento > m.kgBruto then [DescuentoAboveBruto]
                else [];
    var subs := SubErrors(m.subpesajes, 0);
    assert forall e :: e in subs ==> e.PesoNotPositive?;
    bruto + desc + subs
  }

  /** The service payload of a request line: the request carries no customer
      class, no evidence URL and no sub-weighing discount. */
  function ToPayload(m: NotaMaterialIn): (r: MaterialPayload)
    ensures r.materialId == m.materialId && |r.subpesajes| == |m.subpesajes|
    ensures r.tipoCliente.None? && r.evidenciaUrl.None?
    ensures forall i :: 0 <= i < |m.subpesajes| ==>
              r.subpesajes[i] == SubPayload(m.subpesajes[i].pesoKg, 0.0, m.subpesajes[i].fotoUrl)
  {
    MaterialPayload(m.materialId, m.kgBruto, m.kgDescuento,
                    seq(|m.subpesajes|, i requires 0 <= i < |m.subpesajes| =>
                          SubPayload(m.subpesajes[i].pesoKg, 0.0, m.subpesajes[i].fotoUrl)),
                    None, None)
  }

  function ToPayloads(ms: seq<NotaMaterialIn>): (r: seq<MaterialPayload>)
    ensures |r| == |ms| && forall i :: 0 <= i < |ms| ==> r[i] == ToPayload(ms[i])
  {
    seq(|ms|, i requires 0 <= i < |ms| => ToPayload(ms[i]))
  }

  /** A line that passed validation is stored with a non-negative net not above
      its gross: from sub-weighings the net is their positive sum and the
      discount zero; without them the net is gross minus a discount that does
      not exceed it. */
  lemma ValidLineWeights(m: NotaMaterialIn, idx: int, lineId: int, l: LineValue)
    requires MaterialErrors(m) == [] && PricedDraftLineShape(ToPayload(m), idx, lineId, l)
    ensures && 0.0 <= l.kgDescuento && 0.0 <= l.kgNeto <= l.kgBruto
            && l.kgBruto - l.kgDescuento == l.kgNeto
            && (|m.subpesajes| > 0 ==> l.kgDescuento == 0.0 && l.kgNeto > 0.0)
  {
    var p := ToPayload(m);
    if |m.subpesajes| > 0 {
      ZeroSum(PayloadDescuentos(p.subpesajes));
      PositiveSum(PayloadPesos(p.subpesajes));
    }
  }

  /** The request the `NotaCreate` schema lets through: every line passes its validators. */
  predicate ValidRequest(materiales: seq<NotaMaterialIn>) {
    forall j :: 0 <= j < |materiales| ==> MaterialErrors(materiales[j]) == []
  }

  // ---------------------------------------------------------------- create_note

  /** `create_note`: an empty line list is refused; otherwise the draft is
      created without a partner, and an unknown material is refused. */
  function CreateNoteSpec(notaId: int, firstLineId: int, sucursalId: int, trabajadorId: int,
                          op: TipoOperacion, materiales: seq<NotaMaterialIn>, comentarios: Option<string>,
                          materials: set<int>, prices: seq<PriceRow>, now: int): Result<NoteValue, ApiError>
  {
    if |materiales| == 0 then Failure(NoMaterials)
    else
      match DraftSpec(notaId, firstLineId, sucursalId, trabajadorId, op, ToPayloads(materiales), comentarios,
                      None, None, materials, prices, now)
      case Failure(e) => Failure(Service(e))
      case Success(v) => Success(v)
  }

  /** A created ticket has at least one line, one per request line, and no
      partner; the request is refused for no lines or an unknown material.
      Every line of a request the schema accepted is stored with a
      non-negative discount and a net between 0 and its gross. */
  lemma CreateNoteOutcome(notaId: int, firstLineId: int, sucursalId: int, trabajadorId: int,
                          op: TipoOperacion, materiales: seq<NotaMaterialIn>, comentarios: Option<string>,
                          materials: set<int>, prices: seq<PriceRow>, now: int)
    requires ValidRequest(materiales)
    ensures var r := CreateNoteSpec(notaId, firstLineId, sucursalId, trabajadorId, op, materiales, comentarios,
                                    materials, prices, now);
            && (r.Failure? <==> |materiales| == 0 || exists j :: 0 <= j < |materiales| && materiales[j].materialId !in materials)
            && (r.Success? ==> && r.value.estado == Borrador && |r.value.lines| == |materiales| > 0
                               && r.value.proveedorId.None? && r.value.clienteId.None?)
            && (r.Success? ==> forall i :: 0 <= i < |r.value.lines| ==>
                                 var l := r.value.lines[i];
                                 && 0.0 <= l.kgDescuento && 0.0 <= l.kgNeto <= l.kgBruto
                                 && l.kgBruto - l.kgDescuento == l.kgNeto)
  {
    var payload := ToPayloads(materiales);
    var spec := DraftSpec(notaId, firstLineId, sucursalId, trabajadorId, op, payload, comentarios,
                          None, None, materials, prices, now);
    DraftFailure(notaId, firstLineId, sucursalId, trabajadorId, op, payload, comentarios,
                 None, None, materials, prices, now);
    if spec.Success? {
      DraftHeader(notaId, firstLineId, sucursalId, trabajadorId, op, payload, comentarios,
                  None, None, materials, prices, now);
      DraftLinesOutcome(notaId, firstLineId, sucursalId, trabajadorId, op, payload, comentarios,
                        None, None, materials, prices, now);
      forall i | 0 <= i < |spec.value.lines|
        ensures && 0.0 <= spec.value.lines[i].kgDescuento
                && 0.0 <= spec.value.lines[i].kgNeto <= spec.value.lines[i].kgBruto
                && spec.value.lines[i].kgBruto - spec.value.lines[i].kgDescuento == spec.value.lines[i].kgNeto
      {
        ValidLineWeights(materiales[i], i, firstLineId + i, spec.value.lines[i]);
      }
    }
  }

  /** `create_note`. */
  method CreateNote(notaId: int, firstLineId: int, sucursalId: int, trabajadorId: int,
                    op: TipoOperacion, materiales: seq<NotaMaterialIn>, comentarios: Option<string>,
                    materials: set<int>, prices: seq<PriceRow>, now: int)
    returns (r: Result<Nota, ApiError>)
    requires ValidRequest(materiales)
    ensures var spec := CreateNoteSpec(notaId, firstLineId, sucursalId, trabajadorId, op, materiales,
                                       comentarios, materials, prices, now);
            && (spec.Failure? ==> r.Failure? && r.error == spec.error)
            && (spec.Success? ==> r.Success? && fresh(r.value) && r.value.Valid() && r.value.View() == spec.value)
  {
    if |materiales| == 0 {
      return Failure(NoMaterials);
    }
    var payload := ToPayloads(materiales);
    ghost var draft := DraftSpec(notaId, firstLineId, sucursalId, trabajadorId, op, payload, comentarios,
                                 None, None, materials, prices, now);
    var created := CreateDraftNote(notaId, firstLineId, sucursalId, trabajadorId, op, payload,
                                   comentarios, None, None, materials, prices, now);
    if created.Failure? {
      assert draft.Failure?;
      return Failure(Service(created.error));
    }
    assert draft.Success? && created.value.View() == draft.value;
    r := Success(created.value);
  }

  // ---------------------------------------------------------------- update_note_state

  /** What an accepted state change does: a draft sent to review goes through
      `send_to_revision`, any other change through `update_state`. */
  datatype StateAction = SendToReview | SetState(target: NotaEstado)

  /** The changes the route accepts, by current state: a draft may go
      anywhere but to approved, a ticket in review only back to draft or to
      cancelled, an approved or cancelled ticket nowhere. */
  predicate Allowed(current: NotaEstado, target: NotaEstado) {
    || (current == Borrador && target != Aprobada)
    || (current == EnRevision && (target == Borrador || target == Cancelada))
  }

  /** The guard chain of `update_note_state`, checked in the source's order. */
  function StateGuard(current: NotaEstado, target: NotaEstado): (r: Result<StateAction, ApiError>)
    ensures r.Success? <==> Allowed(current, target)
    ensures r.Success? ==> (r.value == SendToReview <==> target == EnRevision)
    ensures r.Success? && target != EnRevision ==> r.value == SetState(target)
    ensures current == Cancelada ==> r == Failure(CancelledIsFinal)
    ensures current == Aprobada ==> r.Failure?
    ensures target == Aprobada ==> r.Failure?
  {
    if current == Cancelada then Failure(CancelledIsFinal)
    else if target == EnRevision then
      (if current != Borrador then Failure(OnlyDraftToReview) else Success(SendToReview))
    else if target == Aprobada then Failure(ApprovalFlowRequired)
    else if target == Cancelada && current == Aprobada then Failure(CannotCancelApproved)
    else if target == Borrador && current != EnRevision && current != Borrador then Failure(OnlyReviewToDraft)
    else Success(SetState(target))
  }

  /** `update_note_state` on a ticket value. */
  function UpdateNoteStateSpec(n: NoteValue, target: NotaEstado, adminId: Option<int>,
                               comentariosAdmin: Option<string>, fecha: Option<int>,
                               prices: seq<PriceRow>, now: int): Result<NoteValue, ApiError>
  {
    match StateGuard(n.estado, target)
    case Failure(e) => Failure(e)
    case Success(SendToReview) =>
      (match SendToRevisionSpec(n, prices, now)
       case Failure(e) => Failure(Service(e))
       case Success(v) => Success(v))
    case Success(SetState(t)) => Success(UpdateStateSpec(n, t, adminId, comentariosAdmin, fecha, now))
  }

  /** The route changes a ticket exactly on the allowed transitions and then
      leaves it in the requested state: a cancelled or approved ticket never
      changes, and no ticket is approved here. */
  lemma {:induction false} UpdateNoteStateOutcome(n: NoteValue, target: NotaEstado, adminId: Option<int>,
                                                  comentariosAdmin: Option<string>, fecha: Option<int>,
                                                  prices: seq<PriceRow>, now: int)
    ensures var r := UpdateNoteStateSpec(n, target, adminId, comentariosAdmin, fecha, prices, now);
            && (r.Success? <==> Allowed(n.estado, target))
            && (r.Success? ==> r.value.estado == target && r.value.updatedAt == now)
            && (n.estado == Cancelada || n.estado == Aprobada ==> r.Failure?)
  {
    if StateGuard(n.estado, target) == Success(SendToReview) {
      SendToRevisionOutcome(n, prices, now);
    } else if StateGuard(n.estado, target).Success? {
      UpdateStateOutcome(n, target, adminId, comentariosAdmin, fecha, now);
    }
  }

  /** `update_note_state`: a refused request leaves the ticket untouched. */
  method UpdateNoteState(nota: Nota, target: NotaEstado, adminId: Option<int>,
                         comentariosAdmin: Option<string>, fecha: Option<int>,
                         prices: seq<PriceRow>, now: int)
    returns (err: Option<ApiError>)
    requires nota.Valid()
    modifies nota, nota.materiales
    ensures nota.Valid() && nota.materiales == old(nota.materiales)
    ensures var spec := UpdateNoteStateSpec(old(nota.View()), target, adminId, comentariosAdmin, fecha, prices, now);
            && (spec.Failure? ==> err == Some(spec.error) && nota.View() == old(nota.View()))
            && (spec.Success? ==> err.None? && nota.View() == spec.value)
  {
    var guard := StateGuard(nota.estado, target);
    if guard.Failure? {
      return Some(guard.error);
    }
    if guard.value == SendToReview {
      var e := nota.SendToRevision(prices, now);
      if e.Some? {
        return Some(Service(e.value));
      }
      return None;
    }
    nota.UpdateState(target, adminId, comentariosAdmin, fecha, now);
    err := None;
  }

  // ---------------------------------------------------------------- update_note_partner

  /** `not x` for an optional id: none and zero both count as missing. */
  predicate MissingId(x: Option<int>) {
    x.None? || x.value == 0
  }

  /** The check of `update_note_partner`: a purchase needs a supplier, a sale
      a customer. */
  function PartnerCheck(op: TipoOperacion, proveedorId: Option<int>, clienteId: Option<int>): (r: Option<ApiError>)
    ensures r.None? <==> (op == Compra ==> proveedorId.Some? && proveedorId.value != 0)
                         && (op == Venta ==> clienteId.Some? && clienteId.value != 0)
    ensures r.Some? ==> r.value == PartnerRequired(op)
  {
    if op == Compra && MissingId(proveedorId) then Some(PartnerRequired(Compra))
    else if op == Venta && MissingId(clienteId) then Some(PartnerRequired(Venta))
    else None
  }

  /** `update_note_partner` on a ticket value. */
  function UpdateNotePartnerSpec(n: NoteValue, proveedorId: Option<int>, clienteId: Option<int>): Result<NoteValue, ApiError>
  {
    match PartnerCheck(n.tipoOperacion, proveedorId, clienteId)
    case Some(e) => Failure(e)
    case None => Success(AttachPartnerSpec(n, proveedorId, clienteId))
  }

  /** An accepted partner update leaves the ticket with a real partner of the
      right kind and none of the other kind. */
  lemma UpdateNotePartnerOutcome(n: NoteValue, proveedorId: Option<int>, clienteId: Option<int>)
    ensures var r := UpdateNotePartnerSpec(n, proveedorId, clienteId);
            && (r.Success? ==> && PartnerConsistent(r.value)
                               && (n.tipoOperacion == Compra ==> r.value.proveedorId.Some? && r.value.proveedorId.value != 0)
                               && (n.tipoOperacion == Venta ==> r.value.clienteId.Some? && r.value.clienteId.value != 0))
            && (r.Failure? ==> r.error == PartnerRequired(n.tipoOperacion))
  {
  }

  /** `update_note_partner`: a refused request leaves the ticket untouched. */
  method UpdateNotePartner(nota: Nota, proveedorId: Option<int>, clienteId: Option<int>)
    returns (err: Option<ApiError>)
    modifies nota
    ensures nota.materiales == old(nota.materiales)
    ensures var spec := UpdateNotePartnerSpec(old(nota.View()), proveedorId, clienteId);
            && (spec.Failure? ==> err == Some(spec.error) && nota.View() == old(nota.View()))
            && (spec.Success? ==> err.None? && nota.View() == spec.value)
  {
    err := PartnerCheck(nota.tipoOperacion, proveedorId, clienteId);
    if err.None? {
      nota.AttachPartner(proveedorId, clienteId);
    }
  }
}
