/** The data step of the migration that adds `folio_seq` to tickets: every
    existing ticket is numbered within its (branch, operation) pair, 1, 2, 3
    ... in id order. */
module FolioBackfill {
  import opened Common
  import opened Sorting

  /** The columns the migration selects from `notas`. */
  datatype NoteRow = NoteRow(id: int, sucursalId: int, tipo: TipoOperacion)

  /** The counter key `(sucursal_id, tipo_operacion)`. */
  type CounterKey = (int, TipoOperacion)

  /** One `UPDATE notas SET folio_seq = :seq WHERE id = :id`. */
  datatype FolioUpdate = FolioUpdate(id: int, folioSeq: int)

  function RowKey(r: NoteRow): CounterKey {
    (r.sucursalId, r.tipo)
  }

  /** The database orders the operation enum as declared: compra, venta. */
  function TipoRank(t: TipoOperacion): int {
    if t == Compra then 0 else 1
  }

  /** `ORDER BY sucursal_id, tipo_operacion, id`. */
  function QueryKey(r: NoteRow): Key {
    Key(r.sucursalId, TipoRank(r.tipo), r.id)
  }

  /** The rows as the query returns them. */
  function QueryOrder(rows: seq<NoteRow>): seq<NoteRow> {
    SortBy(rows, QueryKey)
  }

  /** How many rows of `s` have key `key`. */
  function CountKey(s: seq<NoteRow>, key: CounterKey): (n: nat)
    ensures n <= |s|
  {
    if |s| == 0 then 0
    else CountKey(s[..|s| - 1], key) + (if RowKey(s[|s| - 1]) == key then 1 else 0)
  }

  /** The counters after visiting `s`: `counters[key] = counters.get(key, 0) + 1` per row. */
  function Counters(s: seq<NoteRow>): map<CounterKey, int> {
    if |s| == 0 then map[]
    else
      var m := Counters(s[..|s| - 1]);
      var key := RowKey(s[|s| - 1]);
      m[key := (if key in m then m[key] else 0) + 1]
  }

  /** The update for the row at position `k`: its key's counter after the increment. */
  function FolioUpdates(s: seq<NoteRow>): (r: seq<FolioUpdate>)
    ensures |r| == |s|
  {
    seq(|s|, k requires 0 <= k < |s| => FolioUpdate(s[k].id, CountKey(s[..k + 1], RowKey(s[k]))))
  }

  /** A counter exists exactly for the keys seen, and holds how many rows of
      that key were seen. */
  lemma {:induction false} CountersMeaning(s: seq<NoteRow>)
    ensures forall key :: key in Counters(s) <==> CountKey(s, key) > 0
    ensures forall key :: key in Counters(s) ==> Counters(s)[key] == CountKey(s, key)
    decreases |s|
  {
    if |s| > 0 {
      CountersMeaning(s[..|s| - 1]);
    }
  }

  /** The loop of `upgrade`: one counter bump and one update per row, in
      query order. */
  method BackfillFolios(rows: seq<NoteRow>) returns (updates: seq<FolioUpdate>, counters: map<CounterKey, int>)
    ensures updates == FolioUpdates(QueryOrder(rows))
    ensures counters == Counters(QueryOrder(rows))
  {
    var ordered := SortBy(rows, QueryKey);
    counters := map[];
    updates := [];
    var i := 0;
    while i < |ordered|
      invariant 0 <= i <= |ordered|
      invariant counters == Counters(ordered[..i])
      invariant updates == FolioUpdates(ordered)[..i]
    {
      var row := ordered[i];
      var key := (row.sucursalId, row.tipo);
      BumpStep(ordered, i);
      counters := counters[key := (if key in counters then counters[key] else 0) + 1];
      updates := updates + [FolioUpdate(row.id, counters[key])];
      i := i + 1;
    }
    assert ordered[..i] == ordered;
  }

  /** One iteration: the bumped counter is the count up to and including row `i`. */
  lemma BumpStep(s: seq<NoteRow>, i: int)
    requires 0 <= i < |s|
    ensures s[..i + 1][..i] == s[..i]
    ensures var key := RowKey(s[i]);
            var m := Counters(s[..i]);
            (if key in m then m[key] else 0) + 1 == CountKey(s[..i + 1], key)
  {
    assert s[..i + 1][..i] == s[..i];
    CountersMeaning(s[..i]);
  }

  /** Counting is monotone along prefixes. */
  lemma {:induction false} CountPrefixMonotone(s: seq<NoteRow>, i: int, j: int, key: CounterKey)
    requires 0 <= i <= j <= |s|
    ensures CountKey(s[..i], key) <= CountKey(s[..j], key)
    decreases j - i
  {
    if i < j {
      CountPrefixMonotone(s, i, j - 1, key);
      assert s[..j][..j - 1] == s[..j - 1];
    }
  }

  /** Within a key the numbers rise strictly with the visiting order (hence
      with id, the query's last sort column), so no two tickets of a key share
      a number; each lies between 1 and the key's ticket count. */
  lemma {:induction false} SeqIncreasingWithinKey(s: seq<NoteRow>, i: int, j: int)
    requires 0 <= i < j < |s| && RowKey(s[i]) == RowKey(s[j])
    ensures 1 <= FolioUpdates(s)[i].folioSeq < FolioUpdates(s)[j].folioSeq <= CountKey(s, RowKey(s[j]))
  {
    var key := RowKey(s[j]);
    assert s[..i + 1][..i] == s[..i];
    assert s[..j + 1][..j] == s[..j];
    CountPrefixMonotone(s, i + 1, j, key);
    CountPrefixMonotone(s, j + 1, |s|, key);
    assert s[..|s|] == s;
  }

  /** Every number from 1 to the key's ticket count is given to some ticket
      of that key: the numbers of a key are exactly 1..n. */
  lemma {:induction false} SeqCoversKey(s: seq<NoteRow>, key: CounterKey, v: int)
    requires 1 <= v <= CountKey(s, key)
    ensures exists k :: 0 <= k < |s| && RowKey(s[k]) == key && FolioUpdates(s)[k].folioSeq == v
    decreases |s|
  {
    var init := s[..|s| - 1];
    var last := |s| - 1;
    if RowKey(s[last]) == key && v == CountKey(s, key) {
      assert s[..last + 1] == s;
      assert FolioUpdates(s)[last].folioSeq == v;
    } else {
      SeqCoversKey(init, key, v);
      var k :| 0 <= k < |init| && RowKey(init[k]) == key && FolioUpdates(init)[k].folioSeq == v;
      assert init[..k + 1] == s[..k + 1];
      assert FolioUpdates(s)[k].folioSeq == v;
    }
  }

  /** The rows of each key are visited in id order. */
  lemma VisitedByIdWithinKey(rows: seq<NoteRow>)
    ensures multiset(QueryOrder(rows)) == multiset(rows)
    ensures var s := QueryOrder(rows);
            forall i, j :: 0 <= i < j < |s| && RowKey(s[i]) == RowKey(s[j]) ==> s[i].id <= s[j].id
  {
    SortByCorrect(rows, QueryKey);
    var s := QueryOrder(rows);
    forall i, j | 0 <= i < j < |s| && RowKey(s[i]) == RowKey(s[j])
      ensures s[i].id <= s[j].id
    {
      assert KeyLe(QueryKey(s[i]), QueryKey(s[j]));
    }
  }
}
