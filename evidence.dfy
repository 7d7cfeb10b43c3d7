/** `build_evidence_groups`: the photo evidence of a ticket, one group per
    line, each with its sub-weighings numbered and their nets clamped at 0. */
module Evidence {
  import opened Common
  import opened TextUtil
  import opened Sorting

  /** The catalogue material of a line, when it is loaded. */
  datatype MaterialInfo = MaterialInfo(nombre: string, unidadMedida: string)

  /** A stored sub-weighing (`Subpesaje`); the weights are read with `_as_float`. */
  datatype StoredSub = StoredSub(id: int, pesoKg: RawValue, descuentoKg: RawValue, fotoUrl: Option<string>, createdAt: int)

  /** A stored ticket line as the grouping reads it. */
  datatype EvidenceLine = EvidenceLine(
    id: int,
    orden: Option<int>,
    materialId: int,
    material: Option<MaterialInfo>,
    subpesajes: seq<StoredSub>)

  /** One numbered sub-weighing entry of a group. */
  datatype SubEntry = SubEntry(id: int, order: int, pesoKg: real, descuentoKg: real, netoKg: real,
                               fotoUrl: Option<string>, createdAt: int)

  /** One evidence group. */
  datatype Group = Group(materialId: int, materialName: string, unit: string, order: int, subpesajes: seq<SubEntry>)

  /** The sort key `(orden is None, orden or 0, id)`. */
  function EvidenceKey(l: EvidenceLine): Key {
    Key(if l.orden.None? then 1 else 0, l.orden.GetOr(0), l.id)
  }

  /** The entry for the sub-weighing numbered `order`: the net is weight minus
      discount, or 0 when the discount exceeds the weight. */
  function SubEntryOf(sp: StoredSub, order: int): (r: SubEntry)
    ensures r.netoKg >= 0.0 && r.netoKg >= r.pesoKg - r.descuentoKg
    ensures r.netoKg == 0.0 || r.netoKg == r.pesoKg - r.descuentoKg
    ensures r.pesoKg == ValueOrZero(sp.pesoKg) && r.descuentoKg == ValueOrZero(sp.descuentoKg)
    ensures r.order == order && r.id == sp.id && r.fotoUrl == sp.fotoUrl && r.createdAt == sp.createdAt
  {
    var peso := ValueOrZero(sp.pesoKg);
    var desc := ValueOrZero(sp.descuentoKg);
    SubEntry(sp.id, order, peso, desc, if peso - desc > 0.0 then peso - desc else 0.0, sp.fotoUrl, sp.createdAt)
  }

  /** The entries of a line: its sub-weighings in stored order, numbered from 1. */
  function SubEntries(subs: seq<StoredSub>): (r: seq<SubEntry>)
    ensures |r| == |subs|
  {
    seq(|subs|, k requires 0 <= k < |subs| => SubEntryOf(subs[k], k + 1))
  }

  /** The inner loop over `enumerate(subpesajes, start=1)`. */
  method BuildSubEntries(subs: seq<StoredSub>) returns (entries: seq<SubEntry>)
    ensures entries == SubEntries(subs)
  {
    entries := [];
    var i := 0;
    while i < |subs|
      invariant 0 <= i <= |subs|
      invariant entries == SubEntries(subs)[..i]
    {
      entries := entries + [SubEntryOf(subs[i], i + 1)];
      i := i + 1;
    }
  }

  /** The group of the line at 1-based sorted position `idx`. */
  function GroupOf(l: EvidenceLine, idx: int): (g: Group)
    ensures g.order == (if l.orden.Some? then l.orden.value else idx)
    ensures l.material.Some? ==> g.materialName == l.material.value.nombre && g.unit == l.material.value.unidadMedida
    ensures l.material.None? ==> g.materialName == "Material " + IntToString(l.materialId) && g.unit == "kg"
    ensures g.materialId == l.materialId && g.subpesajes == SubEntries(l.subpesajes)
  {
    var name := if l.material.Some? then l.material.value.nombre else "Material " + IntToString(l.materialId);
    var unit := if l.material.Some? then l.material.value.unidadMedida else "kg";
    Group(l.materialId, name, unit, if l.orden.Some? then l.orden.value else idx, SubEntries(l.subpesajes))
  }

  /** The ticket's lines in the order the groups are listed. */
  function SortedLines(lines: seq<EvidenceLine>): seq<EvidenceLine> {
    SortBy(lines, EvidenceKey)
  }

  /** The groups `build_evidence_groups` returns. */
  function EvidenceGroups(lines: seq<EvidenceLine>): (r: seq<Group>)
    ensures |r| == |lines|
  {
    var sorted := SortedLines(lines);
    seq(|sorted|, k requires 0 <= k < |sorted| => GroupOf(sorted[k], k + 1))
  }

  /** `build_evidence_groups`: sort the lines, then append one group per line. */
  method BuildEvidenceGroups(lines: seq<EvidenceLine>) returns (groups: seq<Group>)
    ensures groups == EvidenceGroups(lines)
  {
    var materiales := SortBy(lines, EvidenceKey);
    groups := [];
    var idx := 1;
    while idx <= |materiales|
      invariant 1 <= idx <= |materiales| + 1
      invariant groups == EvidenceGroups(lines)[..idx - 1]
    {
      var nm := materiales[idx - 1];
      var subList := BuildSubEntries(nm.subpesajes);
      var name := if nm.material.Some? then nm.material.value.nombre else "Material " + IntToString(nm.materialId);
      var unit := if nm.material.Some? then nm.material.value.unidadMedida else "kg";
      var order := if nm.orden.Some? then nm.orden.value else idx;
      var g := Group(nm.materialId, name, unit, order, subList);
      assert g == GroupOf(nm, idx);
      GroupsSnoc(lines, idx);
      groups := groups + [g];
      idx := idx + 1;
    }
  }

  /** One iteration appends the group of the next sorted line. */
  lemma GroupsSnoc(lines: seq<EvidenceLine>, idx: int)
    requires 1 <= idx <= |lines|
    ensures EvidenceGroups(lines)[..idx] == EvidenceGroups(lines)[..idx - 1] + [GroupOf(SortedLines(lines)[idx - 1], idx)]
  {
    var r := EvidenceGroups(lines);
    assert r[..idx] == r[..idx - 1] + [r[idx - 1]];
  }

  /** Exactly one group per ticket line: the groups are those of a
      rearrangement of the lines in which lines with an `orden` come first,
      by `orden` then id, and the lines without one follow by id. */
  lemma EvidenceOrder(lines: seq<EvidenceLine>)
    ensures multiset(SortedLines(lines)) == multiset(lines)
    ensures var s := SortedLines(lines);
            forall i, j :: 0 <= i < j < |s| ==>
              && (s[j].orden.Some? ==> s[i].orden.Some? && (s[i].orden.value < s[j].orden.value
                                                             || (s[i].orden.value == s[j].orden.value && s[i].id <= s[j].id)))
              && (s[i].orden.None? ==> s[j].orden.None? && s[i].id <= s[j].id)
    ensures forall k :: 0 <= k < |lines| ==> EvidenceGroups(lines)[k] == GroupOf(SortedLines(lines)[k], k + 1)
  {
    SortByCorrect(lines, EvidenceKey);
    var s := SortedLines(lines);
    forall i, j | 0 <= i < j < |s|
      ensures s[i].orden.None? ==> s[j].orden.None? && s[i].id <= s[j].id
    {
      assert KeyLe(EvidenceKey(s[i]), EvidenceKey(s[j]));
    }
  }

  /** A ticket whose lines carry no `orden` gets its groups numbered 1..n. */
  lemma PositionsWithoutOrden(lines: seq<EvidenceLine>)
    requires forall k :: 0 <= k < |lines| ==> lines[k].orden.None?
    ensures forall k :: 0 <= k < |lines| ==> EvidenceGroups(lines)[k].order == k + 1
  {
    var s := SortedLines(lines);
    SortByCorrect(lines, EvidenceKey);
    forall k | 0 <= k < |s| ensures s[k].orden.None? {
      assert s[k] in multiset(lines);
    }
  }

  /** Every net shown in the evidence view is non-negative. */
  lemma NetsNonNegative(lines: seq<EvidenceLine>)
    ensures forall k, e :: 0 <= k < |lines| && e in EvidenceGroups(lines)[k].subpesajes ==> e.netoKg >= 0.0
  {
  }
}
