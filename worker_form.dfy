/** The worker web form's line parser `_parse_materials_from_form`: five
    parallel lists of form fields become the line payloads of a new ticket.
    The sub-weighing field holds JSON text; it is modelled as already decoded
    (a list of records, or a decoding failure). */
module WorkerForm {
  import opened Common
  import opened NoteService

  /** The material id field: empty, an integer, or text `int()` refuses. */
  datatype MaterialField = BlankId | MaterialId(id: int) | NotAnInteger

  /** One decoded sub-weighing record. A weight key that is absent is
      `Missing`; for `peso_kg` and `peso_neto` a false value (null, "") is
      `Missing` too. `Unparseable` is any other value whose text `Decimal`
      refuses; for `descuento_kg` that includes null and "", read as the
      texts "None" and "". */
  datatype SubItem = SubItem(pesoKg: RawValue, pesoNeto: RawValue, descuentoKg: RawValue,
                             fotoUrl: Option<string>)

  /** One element the loop over the decoded JSON visits: a record, or any
      other value, which has no `.get`. */
  datatype JsonItem = Record(item: SubItem) | NotARecord

  /** The sub-weighing field: empty; decoded JSON the loop can iterate (a
      list, or an object or a string, iterated as its keys or characters);
      a JSON number, boolean or null, which it cannot iterate; or text that
      is not JSON. */
  datatype SubField = NoSubText | SubJson(items: seq<JsonItem>) | NotIterable | MalformedJson

  /** One form row. Each weight field is empty (`Missing`, read as "0"), a
      decimal, or text `Decimal` refuses. */
  datatype FormRow = FormRow(mid: MaterialField, kgBruto: RawValue, kgDesc: RawValue, sub: SubField,
                             tipoCliente: string)

  /** Why the parse stops. `MalformedSubs`, `DescuentoAboveBruto` and
      `InvalidMaterialId` are `ValueError`s. `Uncaught` stands for the
      exceptions that are not: `decimal.InvalidOperation` from a text
      `Decimal` refuses, and the `AttributeError` or `TypeError` of a
      sub-weighing value that is not a sequence of records. */
  datatype FormError = Uncaught | MalformedSubs | DescuentoAboveBruto | InvalidMaterialId

  /** The errors `notes_new_post` catches (`except ValueError`) and answers
      by showing the form again with status 400; an `Uncaught` one ends the
      request with a server error. */
  predicate AnsweredWithForm(e: FormError) {
    e != Uncaught
  }

  /** `zip` of the five field lists: as many rows as the shortest list. */
  function Zip(mids: seq<MaterialField>, brutos: seq<RawValue>, descs: seq<RawValue>,
               subs: seq<SubField>, tipos: seq<string>): (r: seq<FormRow>)
    ensures |r| <= |mids| && |r| <= |brutos| && |r| <= |descs| && |r| <= |subs| && |r| <= |tipos|
    ensures |r| == |mids| || |r| == |brutos| || |r| == |descs| || |r| == |subs| || |r| == |tipos|
    ensures forall i :: 0 <= i < |r| ==> r[i] == FormRow(mids[i], brutos[i], descs[i], subs[i], tipos[i])
  {
    var n := Min(Min(Min(|mids|, |brutos|), Min(|descs|, |subs|)), |tipos|);
    seq(n, i requires 0 <= i < n => FormRow(mids[i], brutos[i], descs[i], subs[i], tipos[i]))
  }

  function Min(a: int, b: int): int {
    if a <= b then a else b
  }

  // ---------------------------------------------------------------- sub-weighings

  /** A value Python treats as true: a non-zero number, or text. */
  predicate Truthy(v: RawValue) {
    (v.Number? && v.x != 0.0) || v.Unparseable?
  }

  /** `item.get("peso_kg") or item.get("peso_neto") or 0`: the first true
      one of the two weight keys, else 0. */
  function PesoField(item: SubItem): (r: RawValue)
    ensures r.Unparseable? ==> item.pesoKg.Unparseable? || (!Truthy(item.pesoKg) && item.pesoNeto.Unparseable?)
    ensures r.Number? && r.x != 0.0 ==> r == item.pesoKg || (!Truthy(item.pesoKg) && r == item.pesoNeto)
    ensures Truthy(item.pesoKg) ==> r == item.pesoKg
    ensures !Truthy(item.pesoKg) && Truthy(item.pesoNeto) ==> r == item.pesoNeto
    ensures !Truthy(item.pesoKg) && !Truthy(item.pesoNeto) ==> r == Number(0.0)
  {
    if Truthy(item.pesoKg) then item.pesoKg
    else if Truthy(item.pesoNeto) then item.pesoNeto
    else Number(0.0)
  }

  /** The weight of a record that does not raise. */
  function ItemPeso(item: SubItem): real {
    ValueOrZero(PesoField(item))
  }

  /** The loop raises at this element: it is no record, or its weight or its
      discount is text `Decimal` refuses. */
  predicate ItemRaises(it: JsonItem) {
    it.NotARecord? || PesoField(it.item).Unparseable? || it.item.descuentoKg.Unparseable?
  }

  /** The element is kept: a record with a positive weight. */
  predicate Kept(it: JsonItem) {
    it.Record? && ItemPeso(it.item) > 0.0
  }

  /** The sub-weighing a kept record becomes; an absent discount is 0. */
  function ItemSub(item: SubItem): SubPayload {
    SubPayload(ItemPeso(item), ValueOrZero(item.descuentoKg), item.fotoUrl)
  }

  /** The kept elements, in order. */
  function KeptSubs(items: seq<JsonItem>): (r: seq<SubPayload>)
    ensures |r| <= |items|
  {
    if |items| == 0 then []
    else
      var last := items[|items| - 1];
      KeptSubs(items[..|items| - 1]) + (if Kept(last) then [ItemSub(last.item)] else [])
  }

  /** Keeping distributes over concatenation. */
  lemma {:induction false} KeptSubsAppend(a: seq<JsonItem>, b: seq<JsonItem>)
    ensures KeptSubs(a + b) == KeptSubs(a) + KeptSubs(b)
    decreases |b|
  {
    if |b| == 0 {
      assert a + b == a;
    } else {
      var n := |b| - 1;
      var ab := a + b;
      assert ab[..|ab| - 1] == a + b[..n];
      assert ab[|ab| - 1] == b[n];
      KeptSubsAppend(a, b[..n]);
      var tail := if Kept(b[n]) then [ItemSub(b[n].item)] else [];
      calc {
        KeptSubs(ab);
        KeptSubs(a + b[..n]) + tail;
        (KeptSubs(a) + KeptSubs(b[..n])) + tail;
        KeptSubs(a) + (KeptSubs(b[..n]) + tail);
        KeptSubs(a) + KeptSubs(b);
      }
    }
  }

  /** Elements without a positive weight are dropped; every other one is
      kept in its own place, after what the elements before it keep and
      before what the elements after it keep; so when every element is kept
      nothing is dropped. */
  lemma {:induction false} KeptSubsMeaning(items: seq<JsonItem>)
    ensures forall k :: 0 <= k < |KeptSubs(items)| ==> KeptSubs(items)[k].pesoKg > 0.0
    ensures forall i :: 0 <= i < |items| ==>
              KeptSubs(items) == KeptSubs(items[..i])
                                 + (if Kept(items[i]) then [ItemSub(items[i].item)] else [])
                                 + KeptSubs(items[i + 1..])
    ensures (forall i :: 0 <= i < |items| ==> Kept(items[i])) ==>
              KeptSubs(items) == seq(|items|, i requires 0 <= i < |items| && items[i].Record? => ItemSub(items[i].item))
    ensures (forall i :: 0 <= i < |items| ==> !Kept(items[i])) ==> KeptSubs(items) == []
  {
    KeptSubsBounds(items);
    forall i | 0 <= i < |items| {
      KeptSubsAt(items, i);
    }
  }

  /** The weight and all-or-nothing parts of `KeptSubsMeaning`, by induction. */
  lemma {:induction false} KeptSubsBounds(items: seq<JsonItem>)
    ensures forall k :: 0 <= k < |KeptSubs(items)| ==> KeptSubs(items)[k].pesoKg > 0.0
    ensures (forall i :: 0 <= i < |items| ==> Kept(items[i])) ==>
              KeptSubs(items) == seq(|items|, i requires 0 <= i < |items| && items[i].Record? => ItemSub(items[i].item))
    ensures (forall i :: 0 <= i < |items| ==> !Kept(items[i])) ==> KeptSubs(items) == []
  {
    if |items| > 0 {
      KeptSubsBounds(items[..|items| - 1]);
      var front := items[..|items| - 1];
      if forall i :: 0 <= i < |items| ==> Kept(items[i]) {
        assert forall i :: 0 <= i < |front| ==> Kept(front[i]);
      }
      if forall i :: 0 <= i < |items| ==> !Kept(items[i]) {
        assert forall i :: 0 <= i < |front| ==> !Kept(front[i]);
      }
    }
  }

  /** What element `i` contributes, and where. */
  lemma {:induction false} KeptSubsAt(items: seq<JsonItem>, i: nat)
    requires i < |items|
    ensures KeptSubs(items) == KeptSubs(items[..i])
                               + (if Kept(items[i]) then [ItemSub(items[i].item)] else [])
                               + KeptSubs(items[i + 1..])
  {
    var pre, post := items[..i], items[i + 1..];
    assert items == (pre + [items[i]]) + post;
    KeptSubsAppend(pre + [items[i]], post);
    KeptSubsAppend(pre, [items[i]]);
    KeptSubsSingle(items[i]);
  }

  lemma {:induction false} KeptSubsSingle(it: JsonItem)
    ensures KeptSubs([it]) == if Kept(it) then [ItemSub(it.item)] else []
  {
    assert [it][..0] == [];
  }

  /** The loop over the decoded JSON: an error when any element raises,
      otherwise the kept sub-weighings. */
  function SubsOutcome(items: seq<JsonItem>): Result<seq<SubPayload>, FormError> {
    if exists i :: 0 <= i < |items| && ItemRaises(items[i]) then Failure(Uncaught)
    else Success(KeptSubs(items))
  }

  /** The loop over the decoded JSON. */
  method CollectSubs(items: seq<JsonItem>) returns (r: Result<seq<SubPayload>, FormError>)
    ensures r == SubsOutcome(items)
  {
    var subList := [];
    var i := 0;
    while i < |items|
      invariant 0 <= i <= |items|
      invariant forall k :: 0 <= k < i ==> !ItemRaises(items[k])
      invariant subList == KeptSubs(items[..i])
    {
      var it := items[i];
      if it.NotARecord? {
        return Failure(Uncaught);
      }
      var item := it.item;
      var pesoRaw := if Truthy(item.pesoKg) then item.pesoKg
                     else if Truthy(item.pesoNeto) then item.pesoNeto
                     else Number(0.0);
      if pesoRaw.Unparseable? || item.descuentoKg.Unparseable? {
        return Failure(Uncaught);
      }
      var peso := pesoRaw.x;
      var desc := ValueOrZero(item.descuentoKg);
      assert items[..i + 1][..i] == items[..i];
      if peso > 0.0 {
        subList := subList + [SubPayload(peso, desc, item.fotoUrl)];
      }
      i := i + 1;
    }
    assert items[..i] == items;
    r := Success(subList);
  }

  /** `peso_kg + descuento_kg` of each kept sub-weighing. */
  function PayloadGross(subs: seq<SubPayload>): (r: seq<real>)
    ensures |r| == |subs| && forall i :: 0 <= i < |subs| ==> r[i] == subs[i].pesoKg + subs[i].descuentoKg
  {
    seq(|subs|, i requires 0 <= i < |subs| => subs[i].pesoKg + subs[i].descuentoKg)
  }

  /** With sub-weighings, gross minus discount is the sum of the weights. */
  lemma SubTotalsNet(subs: seq<SubPayload>)
    ensures Sum(PayloadGross(subs)) - Sum(PayloadDescuentos(subs)) == Sum(PayloadPesos(subs))
  {
    SumAdd(PayloadPesos(subs), PayloadDescuentos(subs), PayloadGross(subs));
  }

  // ---------------------------------------------------------------- one row

  /** `tc or None`. */
  function TextOrNone(s: string): (r: Option<string>)
    ensures r.None? <==> s == ""
    ensures r.Some? ==> r.value == s
  {
    if s == "" then None else Some(s)
  }

  /** What one row becomes: skipped (none), a line payload, or an error. */
  function ParseRow(row: FormRow): Result<Option<MaterialPayload>, FormError> {
    if row.mid.BlankId? then Success(None)
    else if row.kgBruto.Unparseable? || row.kgDesc.Unparseable? then Failure(Uncaught)
    else
      var bruto := ValueOrZero(row.kgBruto);
      var desc := ValueOrZero(row.kgDesc);
      if bruto <= 0.0 && row.sub.NoSubText? then Success(None)
      else if row.sub.MalformedJson? then Failure(MalformedSubs)
      else if row.sub.NotIterable? then Failure(Uncaught)
      else if row.sub.SubJson? && SubsOutcome(row.sub.items).Failure? then Failure(Uncaught)
      else if row.sub.NoSubText? && desc > bruto then Failure(DescuentoAboveBruto)
      else if row.mid.NotAnInteger? then Failure(InvalidMaterialId)
      else if row.sub.SubJson? then
        var subs := KeptSubs(row.sub.items);
        Success(Some(MaterialPayload(row.mid.id, Sum(PayloadGross(subs)), Sum(PayloadDescuentos(subs)), subs,
                                     TextOrNone(row.tipoCliente), None)))
      else
        Success(Some(MaterialPayload(row.mid.id, bruto, desc, [], TextOrNone(row.tipoCliente), None)))
  }

  /** The row gets past every check before the material id is converted:
      the id is not empty, the weights parse, the row is not skipped, the
      sub-weighings are a sequence of records that parse, and without
      sub-weighings the discount is not above the gross weight. */
  predicate PassesChecks(row: FormRow) {
    && !row.mid.BlankId? && !row.kgBruto.Unparseable? && !row.kgDesc.Unparseable?
    && !(ValueOrZero(row.kgBruto) <= 0.0 && row.sub.NoSubText?)
    && !row.sub.MalformedJson? && !row.sub.NotIterable?
    && !(row.sub.SubJson? && exists i :: 0 <= i < |row.sub.items| && ItemRaises(row.sub.items[i]))
    && !(row.sub.NoSubText? && ValueOrZero(row.kgDesc) > ValueOrZero(row.kgBruto))
  }

  /** A row is skipped exactly when its material id is empty, or when it has
      neither a positive gross weight nor sub-weighing text. It ends in an
      error the handler does not catch exactly when a weight field, or a
      weight or discount inside the sub-weighings, is text `Decimal` refuses,
      or the sub-weighings are not a sequence of records; it is refused on
      sub-weighing text that is not JSON, on a discount above the gross weight
      without sub-weighings, and on a non-integer id once every other check
      passes; it becomes a line exactly when every check passes and the id is
      an integer. A kept row keeps its material id, holds exactly the kept
      sub-weighings and maps an empty customer class to none; from
      sub-weighings its gross is the sum of weight plus discount, so gross
      minus discount is the sum of the positive weights kept, and without
      them its gross is positive and not below its discount. */
  lemma ParseRowOutcome(row: FormRow)
    ensures ParseRow(row) == Success(None) <==>
              || row.mid.BlankId?
              || (!row.kgBruto.Unparseable? && !row.kgDesc.Unparseable?
                  && ValueOrZero(row.kgBruto) <= 0.0 && row.sub.NoSubText?)
    ensures ParseRow(row) == Failure(Uncaught) <==>
              && !row.mid.BlankId?
              && (|| row.kgBruto.Unparseable? || row.kgDesc.Unparseable? || row.sub.NotIterable?
                  || (row.sub.SubJson? && exists i :: 0 <= i < |row.sub.items| && ItemRaises(row.sub.items[i])))
    ensures ParseRow(row) == Failure(MalformedSubs) <==>
              !row.mid.BlankId? && !row.kgBruto.Unparseable? && !row.kgDesc.Unparseable? && row.sub.MalformedJson?
    ensures ParseRow(row) == Failure(DescuentoAboveBruto) <==>
              && !row.mid.BlankId? && !row.kgBruto.Unparseable? && !row.kgDesc.Unparseable? && row.sub.NoSubText?
              && 0.0 < ValueOrZero(row.kgBruto) < ValueOrZero(row.kgDesc)
    ensures ParseRow(row) == Failure(InvalidMaterialId) <==> PassesChecks(row) && row.mid.NotAnInteger?
    ensures ParseRow(row).Success? && ParseRow(row).value.Some? <==> PassesChecks(row) && row.mid.MaterialId?
    ensures ParseRow(row).Success? && ParseRow(row).value.Some? ==>
              var m := ParseRow(row).value.value;
              && row.mid == MaterialId(m.materialId)
              && m.subpesajes == (if row.sub.SubJson? then KeptSubs(row.sub.items) else [])
              && m.tipoCliente == TextOrNone(row.tipoCliente) && m.evidenciaUrl.None?
              && (forall k :: 0 <= k < |m.subpesajes| ==> m.subpesajes[k].pesoKg > 0.0)
              && (row.sub.SubJson? ==> m.kgBruto - m.kgDescuento == Sum(PayloadPesos(m.subpesajes)))
              && (row.sub.NoSubText? ==> m.subpesajes == [] && 0.0 < m.kgBruto && m.kgDescuento <= m.kgBruto)
  {
    if row.sub.SubJson? {
      KeptSubsBounds(row.sub.items);
      SubTotalsNet(KeptSubs(row.sub.items));
    }
  }

  /** A row whose sub-weighings hold no positive weight still becomes a
      line, with zero weights whatever gross weight was typed. */
  lemma EmptySubsGiveZeroLine(row: FormRow)
    requires row.mid.MaterialId? && !row.kgBruto.Unparseable? && !row.kgDesc.Unparseable?
    requires row.sub.SubJson? && forall i :: 0 <= i < |row.sub.items| ==>
               !ItemRaises(row.sub.items[i]) && !Kept(row.sub.items[i])
    ensures ParseRow(row).Success? && ParseRow(row).value.Some?
    ensures var m := ParseRow(row).value.value; m.kgBruto == 0.0 && m.kgDescuento == 0.0 && m.subpesajes == []
  {
    KeptSubsBounds(row.sub.items);
    var subs := KeptSubs(row.sub.items);
    assert subs == [];
    assert PayloadGross(subs) == [] && PayloadDescuentos(subs) == [];
  }

  /** The body of the loop for one row. */
  method ParseOneRow(row: FormRow) returns (r: Result<Option<MaterialPayload>, FormError>)
    ensures r == ParseRow(row)
  {
    if row.mid.BlankId? {
      return Success(None);
    }
    if row.kgBruto.Unparseable? || row.kgDesc.Unparseable? {
      return Failure(Uncaught);
    }
    var kgBruto := ValueOrZero(row.kgBruto);
    var kgDesc := ValueOrZero(row.kgDesc);
    if kgBruto <= 0.0 && row.sub.NoSubText? {
      return Success(None);
    }
    var subList: seq<SubPayload> := [];
    if !row.sub.NoSubText? {
      if row.sub.MalformedJson? {
        return Failure(MalformedSubs);
      }
      if row.sub.NotIterable? {
        return Failure(Uncaught);
      }
      var collected := CollectSubs(row.sub.items);
      if collected.Failure? {
        return Failure(collected.error);
      }
      subList := collected.value;
      kgBruto := Sum(PayloadGross(subList));
      kgDesc := Sum(PayloadDescuentos(subList));
    } else if kgDesc > kgBruto {
      return Failure(DescuentoAboveBruto);
    }
    if row.mid.NotAnInteger? {
      return Failure(InvalidMaterialId);
    }
    r := Success(Some(MaterialPayload(row.mid.id, kgBruto, kgDesc, subList, TextOrNone(row.tipoCliente), None)));
  }

  // ---------------------------------------------------------------- all rows

  /** The rows in order: the first failing row's error, else the kept lines. */
  function ParseForm(rows: seq<FormRow>): Result<seq<MaterialPayload>, FormError> {
    if |rows| == 0 then Success([])
    else
      match ParseForm(rows[..|rows| - 1])
      case Failure(e) => Failure(e)
      case Success(acc) =>
        match ParseRow(rows[|rows| - 1])
        case Failure(e) => Failure(e)
        case Success(None) => Success(acc)
        case Success(Some(m)) => Success(acc + [m])
  }

  /** The form fails exactly when some row fails, and then with the error of
      the first failing row. */
  lemma {:induction false} ParseFormFailure(rows: seq<FormRow>)
    ensures ParseForm(rows).Failure? <==> exists i :: 0 <= i < |rows| && ParseRow(rows[i]).Failure?
    ensures ParseForm(rows).Failure? ==>
              exists i :: && 0 <= i < |rows| && ParseRow(rows[i]) == Failure(ParseForm(rows).error)
                          && forall j :: 0 <= j < i ==> ParseRow(rows[j]).Success?
  {
    if |rows| > 0 {
      var front := rows[..|rows| - 1];
      ParseFormFailure(front);
      assert forall i :: 0 <= i < |front| ==> rows[i] == front[i];
      if ParseForm(front).Failure? {
        var i :| 0 <= i < |front| && ParseRow(front[i]) == Failure(ParseForm(front).error)
                 && forall j :: 0 <= j < i ==> ParseRow(front[j]).Success?;
        assert ParseRow(rows[i]) == Failure(ParseForm(rows).error);
      } else if ParseRow(rows[|rows| - 1]).Failure? {
        assert forall j :: 0 <= j < |rows| - 1 ==> ParseRow(rows[j]).Success?;
      }
    }
  }

  /** The handler shows the form again with status 400 exactly when the
      first failing row is refused with a `ValueError`; when that row raises
      an uncaught exception the request ends in a server error instead. */
  lemma FormAnswer(rows: seq<FormRow>)
    requires ParseForm(rows).Failure?
    ensures !AnsweredWithForm(ParseForm(rows).error) <==>
              exists i :: && 0 <= i < |rows| && ParseRow(rows[i]) == Failure(Uncaught)
                          && forall j :: 0 <= j < i ==> ParseRow(rows[j]).Success?
  {
    ParseFormFailure(rows);
    var i :| && 0 <= i < |rows| && ParseRow(rows[i]) == Failure(ParseForm(rows).error)
             && forall j :: 0 <= j < i ==> ParseRow(rows[j]).Success?;
    forall i' | 0 <= i' < |rows| && ParseRow(rows[i']).Failure? && forall j :: 0 <= j < i' ==> ParseRow(rows[j]).Success?
      ensures i' == i
    {
    }
  }

  /** A parsed form keeps the input order: line k comes from row idx[k], the
      rows it comes from strictly increase, and every line is what its row
      parses to; hence there are never more lines than rows. */
  lemma {:induction false} ParseFormOrder(rows: seq<FormRow>) returns (idx: seq<nat>)
    requires ParseForm(rows).Success?
    ensures |idx| == |ParseForm(rows).value| <= |rows|
    ensures forall k :: 0 <= k < |idx| ==> idx[k] < |rows| && ParseRow(rows[idx[k]]) == Success(Some(ParseForm(rows).value[k]))
    ensures forall k, l :: 0 <= k < l < |idx| ==> idx[k] < idx[l]
  {
    if |rows| == 0 {
      idx := [];
    } else {
      var n := |rows| - 1;
      var front := rows[..n];
      idx := ParseFormOrder(front);
      assert forall i :: 0 <= i < n ==> rows[i] == front[i];
      if ParseRow(rows[n]).value.Some? {
        idx := idx + [n];
      }
    }
  }

  /** Once a prefix of the rows fails, the whole form fails with its error. */
  lemma {:induction false} ParseFormFailurePersists(rows: seq<FormRow>, i: nat)
    requires i <= |rows| && ParseForm(rows[..i]).Failure?
    ensures ParseForm(rows) == ParseForm(rows[..i])
    decreases |rows| - i
  {
    if i < |rows| {
      assert rows[..i + 1][..i] == rows[..i];
      ParseFormFailurePersists(rows, i + 1);
    } else {
      assert rows[..i] == rows;
    }
  }

  /** `_parse_materials_from_form`. */
  method ParseMaterialsFromForm(mids: seq<MaterialField>, brutos: seq<RawValue>, descs: seq<RawValue>,
                                subs: seq<SubField>, tipos: seq<string>)
    returns (r: Result<seq<MaterialPayload>, FormError>)
    ensures r == ParseForm(Zip(mids, brutos, descs, subs, tipos))
  {
    var rows := Zip(mids, brutos, descs, subs, tipos);
    var materiales: seq<MaterialPayload> := [];
    var i := 0;
    while i < |rows|
      invariant 0 <= i <= |rows|
      invariant ParseForm(rows[..i]) == Success(materiales)
    {
      assert rows[..i + 1][..i] == rows[..i];
      var row := ParseOneRow(rows[i]);
      if row.Failure? {
        ParseFormFailurePersists(rows, i + 1);
        return Failure(row.error);
      }
      if row.value.Some? {
        materiales := materiales + [row.value.value];
      }
      i := i + 1;
    }
    assert rows[..i] == rows;
    r := Success(materiales);
  }

  /** The service stores a parsed line with the weights the form computed:
      from sub-weighings, the same gross and discount and a net equal to the
      sum of the kept weights; without them, the typed gross and discount. */
  lemma FormLineDraftAgrees(row: FormRow, idx: int, lineId: int)
    requires ParseRow(row).Success? && ParseRow(row).value.Some?
    ensures var m := ParseRow(row).value.value;
            var l := DraftLine(m, idx, lineId);
            && l.kgBruto == m.kgBruto && l.kgDescuento == m.kgDescuento
            && l.kgNeto == m.kgBruto - m.kgDescuento
            && |l.subpesajes| == |m.subpesajes|
  {
    var m := ParseRow(row).value.value;
    if row.sub.SubJson? {
      SubTotalsNet(m.subpesajes);
      if |m.subpesajes| == 0 {
        assert PayloadGross(m.subpesajes) == [] && PayloadDescuentos(m.subpesajes) == [];
      }
    }
  }
}
