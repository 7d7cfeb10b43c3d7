/** Shared vocabulary of the ticket ("nota") core: the closed enumerations the
    source stores as Python enums, an Option/Result pair for nullable columns
    and raised errors, and exact decimal sums. */
module Common {

  datatype Option<+T> = None | Some(value: T) {
    function GetOr(default: T): T {
      match this
      case Some(v) => v
      case None => default
    }
  }

  datatype Result<+R, +E> = Success(value: R) | Failure(error: E)

  /** `TipoOperacion`: a ticket is a purchase or a sale. */
  datatype TipoOperacion = Compra | Venta

  /** `TipoCliente`: the customer class a price applies to. */
  datatype TipoCliente = Regular | Mayorista | Menudeo

  /** `NotaEstado`: the four ticket states. */
  datatype NotaEstado = Borrador | EnRevision | Aprobada | Cancelada

  /** A value read from a nullable column or an untyped field: absent, a number,
      or something that does not convert to a number. */
  datatype RawValue = Missing | Number(x: real) | Unparseable

  /** `Decimal(str(v or 0))` inside a try: absent and unconvertible both give 0. */
  function ValueOrZero(v: RawValue): (r: real)
    ensures v.Number? ==> r == v.x
    ensures !v.Number? ==> r == 0.0
  {
    match v
    case Number(x) => x
    case _ => 0.0
  }

  /** `v or 0` for a nullable decimal. */
  function OrZero(v: Option<real>): real {
    v.GetOr(0.0)
  }

  /** The exact sum of a sequence, accumulated left to right as the source's loops do. */
  function Sum(s: seq<real>): real {
    if |s| == 0 then 0.0 else Sum(s[..|s| - 1]) + s[|s| - 1]
  }

  /** `x or default` for an optional string: absent and empty both fall back. */
  function NonEmptyOr(s: Option<string>, default: string): (r: string)
    ensures s.Some? && s.value != "" ==> r == s.value
    ensures (s.None? || s.value == "") ==> r == default
  {
    if s.Some? && s.value != "" then s.value else default
  }

  lemma {:induction false} SumAppend(a: seq<real>, b: seq<real>)
    ensures Sum(a + b) == Sum(a) + Sum(b)
    decreases |b|
  {
    if |b| == 0 {
      assert a + b == a;
    } else {
      assert (a + b)[..|a + b| - 1] == a + b[..|b| - 1];
      SumAppend(a, b[..|b| - 1]);
    }
  }

  lemma {:induction false} SumCons(x: real, s: seq<real>)
    ensures Sum([x] + s) == x + Sum(s)
  {
    SumAppend([x], s);
    assert Sum([x]) == Sum([x][..0]) + x;
  }

  /** A sum of non-negative terms is non-negative. */
  lemma {:induction false} SumNonNegative(s: seq<real>)
    requires forall i :: 0 <= i < |s| ==> s[i] >= 0.0
    ensures Sum(s) >= 0.0
    decreases |s|
  {
    if |s| > 0 {
      SumNonNegative(s[..|s| - 1]);
    }
  }

  /** Sum distributes over elementwise addition. */
  lemma {:induction false} SumAdd(a: seq<real>, b: seq<real>, c: seq<real>)
    requires |a| == |b| == |c|
    requires forall i :: 0 <= i < |c| ==> c[i] == a[i] + b[i]
    ensures Sum(c) == Sum(a) + Sum(b)
    decreases |c|
  {
    if |c| > 0 {
      var n := |c| - 1;
      SumAdd(a[..n], b[..n], c[..n]);
    }
  }

  /** A sum of zeros is zero. */
  lemma {:induction false} ZeroSum(s: seq<real>)
    requires forall i :: 0 <= i < |s| ==> s[i] == 0.0
    ensures Sum(s) == 0.0
  {
    if |s| > 0 {
      ZeroSum(s[..|s| - 1]);
    }
  }

  /** A non-empty sum of positive terms is positive. */
  lemma {:induction false} PositiveSum(s: seq<real>)
    requires |s| > 0 && forall i :: 0 <= i < |s| ==> s[i] > 0.0
    ensures Sum(s) > 0.0
  {
    if |s| > 1 {
      PositiveSum(s[..|s| - 1]);
    }
  }
}
