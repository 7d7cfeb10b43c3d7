/** The versioned price table (`TablaPrecio`) and its audit log
    (`PriceChangeLog`), with `create_price_version` as a method of the store. */
module Pricing {
  import opened Common

  /** The combination a price is versioned by. */
  datatype PriceKey = PriceKey(materialId: int, op: TipoOperacion, cliente: TipoCliente)

  /** One row of `tablas_precios`; times are clock readings supplied by the caller. */
  datatype PriceRow = PriceRow(
    id: int,
    key: PriceKey,
    precio: real,
    version: int,
    vigenteDesde: int,
    vigenteHasta: Option<int>,
    activo: bool)

  /** One row of `price_change_logs`. */
  datatype PriceChange = PriceChange(
    key: PriceKey,
    oldPrecio: Option<real>,
    newPrecio: real,
    oldVersion: Option<int>,
    newVersion: int,
    userId: Option<int>,
    source: string,
    createdAt: int)

  /** The row the query `filter(key[, activo]).order_by(version.desc()).first()`
      returns: the row of `key` (active ones only when `activeOnly`) with the
      highest version; among equal versions the earliest stored row. */
  function Highest(rows: seq<PriceRow>, key: PriceKey, activeOnly: bool): (r: Option<PriceRow>)
    ensures r.Some? ==> r.value in rows && r.value.key == key && (activeOnly ==> r.value.activo)
    ensures r.Some? ==> forall row :: row in rows && row.key == key && (activeOnly ==> row.activo)
                                     ==> row.version <= r.value.version
    ensures r.None? <==> forall row :: row in rows ==> !(row.key == key && (activeOnly ==> row.activo))
  {
    if |rows| == 0 then None
    else
      var best := Highest(rows[..|rows| - 1], key, activeOnly);
      var last := rows[|rows| - 1];
      assert rows == rows[..|rows| - 1] + [last];
      if last.key == key && (activeOnly ==> last.activo) && (best.None? || best.value.version < last.version)
      then Some(last)
      else best
  }

  /** The price `apply_prices` looks up: the highest-version active row of the key. */
  function ActivePrice(rows: seq<PriceRow>, key: PriceKey): Option<PriceRow> {
    Highest(rows, key, true)
  }

  /** The `last` row `create_price_version` reads: highest version, active or not. */
  function Latest(rows: seq<PriceRow>, key: PriceKey): Option<PriceRow> {
    Highest(rows, key, false)
  }

  /** `(last.version + 1) if last else 1`: strictly above every stored version
      of the key, so (key, version) stays unique. */
  function NextVersion(rows: seq<PriceRow>, key: PriceKey): (v: int)
    ensures forall row :: row in rows && row.key == key ==> row.version < v
    ensures (forall row :: row in rows ==> row.key != key) ==> v == 1
    ensures v == 1 || exists row :: row in rows && row.key == key && v == row.version + 1
  {
    match Latest(rows, key)
    case Some(last) => last.version + 1
    case None => 1
  }

  /** A row after the deactivation step: active rows of `key` are closed at `now`. */
  function Deactivated(row: PriceRow, key: PriceKey, now: int): PriceRow {
    if row.key == key && row.activo then row.(activo := false, vigenteHasta := Some(now)) else row
  }

  /** The whole table after the deactivation loop: every active row of `key` is
      closed at `now`; every other row is untouched; keys, versions and prices
      never change. */
  function DeactivateAll(rows: seq<PriceRow>, key: PriceKey, now: int): (r: seq<PriceRow>)
    ensures |r| == |rows|
    ensures forall i :: 0 <= i < |rows| && (rows[i].key != key || !rows[i].activo) ==> r[i] == rows[i]
    ensures forall i :: 0 <= i < |rows| && rows[i].key == key && rows[i].activo ==>
              r[i] == rows[i].(activo := false, vigenteHasta := Some(now))
    ensures forall i :: 0 <= i < |rows| ==> !(r[i].key == key && r[i].activo)
  {
    seq(|rows|, i requires 0 <= i < |rows| => Deactivated(rows[i], key, now))
  }

  /** The table invariant the store keeps: ids increase in insertion order, a
      (key, version) pair occurs once (the table's unique constraint), and a key
      has at most one active row. */
  ghost predicate TableInvariant(rows: seq<PriceRow>) {
    && (forall i :: 0 < i < |rows| ==> rows[i - 1].id < rows[i].id)
    && (forall i, j :: 0 <= i < j < |rows| && rows[i].key == rows[j].key ==> rows[i].version != rows[j].version)
    && (forall i, j :: 0 <= i < j < |rows| && rows[i].key == rows[j].key ==> !(rows[i].activo && rows[j].activo))
  }

  /** The serial primary key hands out an id above every id already stored;
      it may skip values (a rolled-back insert, a deleted row). */
  predicate FreshId(rows: seq<PriceRow>, newId: int) {
    forall i :: 0 <= i < |rows| ==> rows[i].id < newId
  }

  /** The row `create_price_version` inserts, under the id the database assigns. */
  function NewRow(rows: seq<PriceRow>, newId: int, key: PriceKey, precio: real, now: int): PriceRow {
    PriceRow(newId, key, precio, NextVersion(rows, key), now, None, true)
  }

  /** The audit entry `create_price_version` appends. */
  function ChangeEntry(rows: seq<PriceRow>, key: PriceKey, precio: real, userId: Option<int>, source: string, now: int): PriceChange {
    var last := Latest(rows, key);
    PriceChange(
      key,
      if last.Some? then Some(last.value.precio) else None,
      precio,
      if last.Some? then Some(last.value.version) else None,
      NextVersion(rows, key),
      userId, source, now)
  }

  /** The price store: the version table and the change log, both append-only. */
  class PriceTable {
    var rows: seq<PriceRow>
    var log: seq<PriceChange>

    ghost predicate Valid()
      reads this
    {
      TableInvariant(rows)
    }

    constructor ()
      ensures Valid() && rows == [] && log == []
    {
      rows := [];
      log := [];
    }

    /** `create_price_version`: bump the key's version, close its active rows,
        insert the new active row under the id the database assigns (`newId`,
        above every stored id) and log the change. The positive price is
        enforced by the API schema before this is called. */
    method CreatePriceVersion(newId: int, key: PriceKey, precio: real, userId: Option<int>, source: string, now: int)
      returns (tp: PriceRow)
      requires Valid()
      requires precio > 0.0
      requires FreshId(rows, newId)
      modifies this
      ensures Valid()
      ensures tp == NewRow(old(rows), newId, key, precio, now)
      ensures rows == AfterCreate(old(rows), newId, key, precio, now)
      ensures log == old(log) + [ChangeEntry(old(rows), key, precio, userId, source, now)]
    {
      var last := Latest(rows, key);
      var oldPrice := if last.Some? then Some(last.value.precio) else None;
      var oldVersion := if last.Some? then Some(last.value.version) else None;
      var nextVersion := if last.Some? then last.value.version + 1 else 1;
      ghost var before := rows;
      assert nextVersion == NextVersion(before, key);
      ghost var after := AfterCreate(before, newId, key, precio, now);
      assert TableInvariant(after) by {
        assert TableInvariant(before) && FreshId(before, newId);
      }

      CloseActive(key, now);
      tp := PriceRow(newId, key, precio, nextVersion, now, None, true);
      assert tp == NewRow(before, newId, key, precio, now);
      rows := rows + [tp];
      assert rows == after;
      log := log + [PriceChange(key, oldPrice, precio, oldVersion, nextVersion, userId, source, now)];
    }

    /** The deactivation loop of `create_price_version`: every active row of
        `key` is closed at `now`. */
    method CloseActive(key: PriceKey, now: int)
      modifies this
      ensures rows == DeactivateAll(old(rows), key, now)
      ensures log == old(log)
    {
      ghost var before := rows;
      var i := 0;
      while i < |rows|
        invariant 0 <= i <= |rows| == |before|
        invariant forall k :: 0 <= k < i ==> rows[k] == Deactivated(before[k], key, now)
        invariant forall k :: i <= k < |rows| ==> rows[k] == before[k]
        invariant log == old(log)
      {
        var row := rows[i];
        if row.key == key && row.activo {
          rows := rows[i := row.(activo := false, vigenteHasta := Some(now))];
        }
        i := i + 1;
      }
      assert rows == DeactivateAll(before, key, now);
    }
  }

  /** The table after `create_price_version`: the key's active rows closed and
      the new row appended. Afterwards the key has exactly one active row (the
      new one), lookups return it, other keys are untouched and the table
      invariant still holds. */
  function AfterCreate(rows: seq<PriceRow>, newId: int, key: PriceKey, precio: real, now: int): (after: seq<PriceRow>)
    ensures |after| == |rows| + 1 && after[|rows|] == NewRow(rows, newId, key, precio, now)
    ensures after[|rows|].activo && after[|rows|].vigenteHasta.None? && after[|rows|].vigenteDesde == now
    ensures forall i :: 0 <= i < |rows| ==> !(after[i].key == key && after[i].activo)
    ensures forall i :: 0 <= i < |rows| && rows[i].key != key ==> after[i] == rows[i]
    ensures ActivePrice(after, key) == Some(NewRow(rows, newId, key, precio, now))
    ensures forall other :: other != key ==> ActivePrice(after, other) == ActivePrice(rows, other)
    ensures TableInvariant(rows) && FreshId(rows, newId) ==> TableInvariant(after)
  {
    var after := DeactivateAll(rows, key, now) + [NewRow(rows, newId, key, precio, now)];
    LookupAfterCreate(rows, newId, key, precio, now);
    LookupOtherKeysAfterCreate(rows, newId, key, precio, now);
    CreatePreservesInvariant(rows, newId, key, precio, now);
    after
  }

  /** `create_price_version` keeps the table invariant. */
  lemma {:induction false} CreatePreservesInvariant(rows: seq<PriceRow>, newId: int, key: PriceKey, precio: real, now: int)
    ensures TableInvariant(rows) && FreshId(rows, newId) ==> TableInvariant(DeactivateAll(rows, key, now) + [NewRow(rows, newId, key, precio, now)])
  {
    if !(TableInvariant(rows) && FreshId(rows, newId)) {
      return;
    }
    var d := DeactivateAll(rows, key, now);
    var nr := NewRow(rows, newId, key, precio, now);
    var after := d + [nr];
    forall i, j | 0 <= i < j < |after| && after[i].key == after[j].key
      ensures after[i].version != after[j].version
      ensures !(after[i].activo && after[j].activo)
    {
      if j == |after| - 1 {
        assert rows[i] in rows;
      }
    }
  }

  /** After a creation the lookup `apply_prices` uses returns the new row. */
  lemma {:induction false} LookupAfterCreate(rows: seq<PriceRow>, newId: int, key: PriceKey, precio: real, now: int)
    ensures ActivePrice(DeactivateAll(rows, key, now) + [NewRow(rows, newId, key, precio, now)], key)
            == Some(NewRow(rows, newId, key, precio, now))
  {
    var after := DeactivateAll(rows, key, now) + [NewRow(rows, newId, key, precio, now)];
    var r := ActivePrice(after, key);
    assert after[|after| - 1] in after;
    assert r.Some?;
    var i :| 0 <= i < |after| && after[i] == r.value;
    assert i == |after| - 1;
  }

  /** Lookups of every other key are not affected by a creation. */
  lemma {:induction false} LookupOtherKeysAfterCreate(rows: seq<PriceRow>, newId: int, key: PriceKey, precio: real, now: int)
    ensures var after := DeactivateAll(rows, key, now) + [NewRow(rows, newId, key, precio, now)];
            forall other :: other != key ==> ActivePrice(after, other) == ActivePrice(rows, other)
  {
    var after := DeactivateAll(rows, key, now) + [NewRow(rows, newId, key, precio, now)];
    forall other | other != key
      ensures ActivePrice(after, other) == ActivePrice(rows, other)
    {
      PrefixLookupEqual(rows, after[..|rows|], other, |rows|);
    }
  }

  /** Two equally long tables whose rows of `key` coincide, and whose other rows
      are of other keys, give the same lookup for `key`. */
  lemma {:induction false} PrefixLookupEqual(rows: seq<PriceRow>, other: seq<PriceRow>, key: PriceKey, n: nat)
    requires n == |rows| == |other|
    requires forall i :: 0 <= i < n && rows[i].key == key ==> other[i] == rows[i]
    requires forall i :: 0 <= i < n && rows[i].key != key ==> other[i].key != key
    ensures Highest(other, key, true) == Highest(rows, key, true)
    decreases n
  {
    if n > 0 {
      PrefixLookupEqual(rows[..n - 1], other[..n - 1], key, n - 1);
    }
  }
}
