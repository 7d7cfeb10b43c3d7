/** `Cuenta.display_label`: how a financial account is shown in the payment
    forms, with the account number masked down to its last four characters. */
module Account {
  import opened Common

  /** The fields of a `Cuenta` the label reads. */
  datatype Cuenta = Cuenta(nombre: string, banco: Option<string>, numero: Option<string>)

  /** A nullable column that is set and not empty (Python truthiness). */
  predicate Present(v: Option<string>) {
    v.Some? && v.value != ""
  }

  /** `"****" + last4`: the number's last four characters, or all of it when shorter. */
  function Mask(numero: string): (r: string)
    ensures |r| == 4 + (if |numero| >= 4 then 4 else |numero|)
    ensures r[..4] == "****"
    ensures r[4..] == numero[|numero| - (|r| - 4)..]
  {
    "****" + (if |numero| >= 4 then numero[|numero| - 4..] else numero)
  }

  /** `parts`: the name, then the bank and the masked number when present. */
  function Parts(c: Cuenta): seq<string> {
    [c.nombre]
    + (if Present(c.banco) then [c.banco.value] else [])
    + (if Present(c.numero) then [Mask(c.numero.value)] else [])
  }

  /** `[p for p in parts if p]`. */
  function NonEmpty(parts: seq<string>): (r: seq<string>)
    ensures forall k :: 0 <= k < |r| ==> r[k] != ""
    ensures |r| <= |parts|
  {
    if |parts| == 0 then []
    else NonEmpty(parts[..|parts| - 1]) + (if parts[|parts| - 1] != "" then [parts[|parts| - 1]] else [])
  }

  /** A part is kept exactly when it is not empty. */
  lemma {:induction false} NonEmptyMeaning(parts: seq<string>)
    ensures forall p {:trigger p in NonEmpty(parts)} :: p in NonEmpty(parts) <==> p in parts && p != ""
  {
    if |parts| > 0 {
      var front := parts[..|parts| - 1];
      NonEmptyMeaning(front);
      assert parts == front + [parts[|parts| - 1]];
    }
  }

  /** Filtering keeps the order: the parts kept from a concatenation are
      those kept from the first half followed by those kept from the second. */
  lemma {:induction false} NonEmptyAppend(a: seq<string>, b: seq<string>)
    ensures NonEmpty(a + b) == NonEmpty(a) + NonEmpty(b)
    decreases |b|
  {
    if |b| == 0 {
      assert a + b == a;
    } else {
      var n := |b| - 1;
      var ab := a + b;
      assert ab[..|ab| - 1] == a + b[..n];
      assert ab[|ab| - 1] == b[n];
      NonEmptyAppend(a, b[..n]);
      var tail := if b[n] != "" then [b[n]] else [];
      calc {
        NonEmpty(ab);
        NonEmpty(a + b[..n]) + tail;
        (NonEmpty(a) + NonEmpty(b[..n])) + tail;
        NonEmpty(a) + (NonEmpty(b[..n]) + tail);
        NonEmpty(a) + NonEmpty(b);
      }
    }
  }

  /** `" | ".join(parts)`. */
  function Join(parts: seq<string>): string {
    if |parts| == 0 then ""
    else if |parts| == 1 then parts[0]
    else Join(parts[..|parts| - 1]) + " | " + parts[|parts| - 1]
  }

  function DisplayLabel(c: Cuenta): string {
    Join(NonEmpty(Parts(c)))
  }

  /** What precedes the bank or the number: the name and a separator, or
      nothing when the name is empty. */
  function Lead(c: Cuenta): string {
    if c.nombre != "" then c.nombre + " | " else ""
  }

  /** The label spelled out: the name, then the bank when one is recorded,
      then the masked number when one is recorded, separated by " | ", with
      no separator next to an empty name. */
  lemma DisplayLabelCases(c: Cuenta)
    ensures Present(c.banco) && Present(c.numero) ==>
              DisplayLabel(c) == Lead(c) + c.banco.value + " | " + Mask(c.numero.value)
    ensures Present(c.banco) && !Present(c.numero) ==> DisplayLabel(c) == Lead(c) + c.banco.value
    ensures !Present(c.banco) && Present(c.numero) ==> DisplayLabel(c) == Lead(c) + Mask(c.numero.value)
    ensures !Present(c.banco) && !Present(c.numero) ==> DisplayLabel(c) == c.nombre
  {
    NameKept(c.nombre);
    if Present(c.banco) {
      WithBank(c, NonEmpty([c.nombre]));
    } else {
      WithoutBank(c, NonEmpty([c.nombre]));
    }
  }

  /** The name is kept exactly when it is not empty. */
  lemma NameKept(nombre: string)
    ensures NonEmpty([nombre]) == if nombre != "" then [nombre] else []
  {
    assert [nombre][..0] == [];
  }

  lemma WithBank(c: Cuenta, first: seq<string>)
    requires Present(c.banco) && first == NonEmpty([c.nombre]) && first == if c.nombre != "" then [c.nombre] else []
    ensures Present(c.numero) ==> DisplayLabel(c) == Lead(c) + c.banco.value + " | " + Mask(c.numero.value)
    ensures !Present(c.numero) ==> DisplayLabel(c) == Lead(c) + c.banco.value
  {
    var kept := first + [c.banco.value];
    NonEmptySnoc([c.nombre], c.banco.value);
    JoinSnoc(first, c.banco.value);
    assert [c.nombre] + [c.banco.value] == [c.nombre, c.banco.value];
    assert Join(kept) == Lead(c) + c.banco.value;
    if Present(c.numero) {
      var m := Mask(c.numero.value);
      assert Parts(c) == [c.nombre, c.banco.value] + [m];
      NonEmptySnoc([c.nombre, c.banco.value], m);
      JoinSnoc(kept, m);
    } else {
      assert Parts(c) == [c.nombre, c.banco.value];
    }
  }

  lemma WithoutBank(c: Cuenta, first: seq<string>)
    requires !Present(c.banco) && first == NonEmpty([c.nombre]) && first == if c.nombre != "" then [c.nombre] else []
    ensures Present(c.numero) ==> DisplayLabel(c) == Lead(c) + Mask(c.numero.value)
    ensures !Present(c.numero) ==> DisplayLabel(c) == c.nombre
  {
    if Present(c.numero) {
      var m := Mask(c.numero.value);
      assert Parts(c) == [c.nombre] + [m];
      NonEmptySnoc([c.nombre], m);
      JoinSnoc(first, m);
    } else {
      assert Parts(c) == [c.nombre];
    }
  }

  lemma NonEmptySnoc(parts: seq<string>, p: string)
    ensures NonEmpty(parts + [p]) == NonEmpty(parts) + (if p != "" then [p] else [])
  {
    assert (parts + [p])[..|parts|] == parts;
  }

  lemma JoinSnoc(parts: seq<string>, p: string)
    ensures Join(parts + [p]) == if |parts| == 0 then p else Join(parts) + " | " + p
  {
    assert (parts + [p])[..|parts|] == parts;
  }

  /** The label starts with the account's name, and is just the name when no
      bank and no number are recorded. */
  lemma LabelStartsWithNombre(c: Cuenta)
    ensures c.nombre != "" ==> |DisplayLabel(c)| >= |c.nombre| && DisplayLabel(c)[..|c.nombre|] == c.nombre
    ensures !Present(c.banco) && !Present(c.numero) ==> DisplayLabel(c) == c.nombre
  {
    DisplayLabelCases(c);
  }

  /** The label ends with the masked number when one is recorded: at most
      four of its characters are shown. */
  lemma LabelEndsWithMask(c: Cuenta)
    requires Present(c.numero)
    ensures var l := DisplayLabel(c);
            var m := Mask(c.numero.value);
            |l| >= |m| && l[|l| - |m|..] == m && |m| <= 8
  {
    DisplayLabelCases(c);
  }
}
