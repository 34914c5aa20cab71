/** The exact-size accumulator shared by the three revisions of edu: a byte count kept as a
    (megabytes, bytes) pair, together with the closed form of what the `Add` loop computes and
    the facts about the pairs that the walkers can reach. */
module Megabytes {

  /** Bytes in one megabyte. */
  const MEGABYTE: nat := 1048576

  /** An accumulator: whole megabytes and leftover bytes. */
  datatype Total = Total(megabytes: nat, bytes: nat)

  /** The byte count a pair stands for. */
  function Value(t: Total): nat
  {
    t.megabytes * MEGABYTE + t.bytes
  }

  /** The pairs the walkers build: never more than one megabyte of leftover bytes, and zero
      leftover bytes only for the empty total. */
  predicate Canonical(t: Total)
  {
    t.bytes <= MEGABYTE && (t.bytes == 0 ==> t.megabytes == 0)
  }

  /** An addend that keeps a canonical accumulator canonical: a file length `(0, n)` or a
      canonical subtotal. */
  predicate Addend(t: Total)
  {
    t.bytes == 0 ==> t.megabytes == 0
  }

  /** The canonical pair for a byte count: leftover bytes in 1..MEGABYTE unless the count is 0. */
  function Normal(n: nat): (t: Total)
    ensures Canonical(t) && Value(t) == n
  {
    if n == 0 then Total(0, 0) else Total((n - 1) / MEGABYTE, (n - 1) % MEGABYTE + 1)
  }

  /** The leftover bytes once a byte field `b` has been normalised by repeated subtraction
      while it exceeds MEGABYTE: a value up to and including MEGABYTE is left as it is. */
  function Remainder(b: nat): nat
  {
    if b <= MEGABYTE then b else (b - 1) % MEGABYTE + 1
  }

  /** The megabytes moved out of a byte field `b` by the same normalisation. */
  function Carry(b: nat): nat
  {
    if b <= MEGABYTE then 0 else (b - 1) / MEGABYTE
  }

  /** Closed form of `Add(megs, bytes, number)`: both fields increased, then the byte field
      normalised. */
  function Added(number: Total, megs: nat, bytes: nat): (r: Total)
    ensures Value(r) == Value(number) + megs * MEGABYTE + bytes
    ensures r.bytes <= MEGABYTE
    ensures number.bytes + bytes <= MEGABYTE <==> r == Total(number.megabytes + megs, number.bytes + bytes)
  {
    var b := number.bytes + bytes;
    Total(number.megabytes + megs + Carry(b), Remainder(b))
  }

  /** One pass of the normalising loop body keeps the closed form unchanged. */
  lemma CarryStep(b: nat)
    requires b > MEGABYTE
    ensures Carry(b - MEGABYTE) + 1 == Carry(b)
    ensures Remainder(b - MEGABYTE) == Remainder(b)
  {
    var q := (b - 1 - MEGABYTE) / MEGABYTE;
    var r := (b - 1 - MEGABYTE) % MEGABYTE;
    assert b - 1 == (q + 1) * MEGABYTE + r;
    DivModUnique(b - 1, q + 1, r);
  }

  /** Quotient and remainder by MEGABYTE are unique. */
  lemma DivModUnique(a: nat, q: nat, r: nat)
    requires a == q * MEGABYTE + r && r < MEGABYTE
    ensures a / MEGABYTE == q && a % MEGABYTE == r
  {
  }

  /** A canonical pair is determined by the byte count it stands for. */
  lemma CanonicalIsNormal(t: Total)
    requires Canonical(t)
    ensures t == Normal(Value(t))
  {
    if t.bytes != 0 {
      DivModUnique(Value(t) - 1, t.megabytes, t.bytes - 1);
    }
  }

  /** Adding an addend to a canonical pair gives the canonical pair of the sum. */
  lemma AddedNormal(number: Total, addend: Total)
    requires Canonical(number) && Addend(addend)
    ensures Added(number, addend.megabytes, addend.bytes) == Normal(Value(number) + Value(addend))
  {
    var r := Added(number, addend.megabytes, addend.bytes);
    assert Canonical(r);
    CanonicalIsNormal(r);
  }

  /** The pair reached from (0, 0) by adding `addends` in order. */
  function Accumulate(addends: seq<Total>): Total
  {
    if addends == [] then Total(0, 0)
    else
      var last := addends[|addends| - 1];
      Added(Accumulate(addends[..|addends| - 1]), last.megabytes, last.bytes)
  }

  /** The byte count of all `addends`. */
  function Sum(addends: seq<Total>): nat
  {
    if addends == [] then 0 else Sum(addends[..|addends| - 1]) + Value(addends[|addends| - 1])
  }

  lemma {:induction false} SumAppend(xs: seq<Total>, ys: seq<Total>)
    ensures Sum(xs + ys) == Sum(xs) + Sum(ys)
  {
    if ys != [] {
      assert (xs + ys)[..|xs + ys| - 1] == xs + ys[..|ys| - 1];
      SumAppend(xs, ys[..|ys| - 1]);
    } else {
      assert xs + ys == xs;
    }
  }

  /** Starting from (0, 0), the pair reached depends only on the byte count added, not on the
      order or grouping of the files and subtotals: it is the canonical pair of that count. */
  lemma {:induction false} AccumulateIsNormal(addends: seq<Total>)
    requires forall i :: 0 <= i < |addends| ==> Addend(addends[i])
    ensures Accumulate(addends) == Normal(Sum(addends))
  {
    if addends != [] {
      var init := addends[..|addends| - 1];
      AccumulateIsNormal(init);
      AddedNormal(Accumulate(init), addends[|addends| - 1]);
    }
  }

  /** Two runs of additions with the same byte count end at the same pair. */
  lemma AccumulateOrderFree(xs: seq<Total>, ys: seq<Total>)
    requires forall i :: 0 <= i < |xs| ==> Addend(xs[i])
    requires forall i :: 0 <= i < |ys| ==> Addend(ys[i])
    requires Sum(xs) == Sum(ys)
    ensures Accumulate(xs) == Accumulate(ys)
  {
    AccumulateIsNormal(xs);
    AccumulateIsNormal(ys);
  }

  /** The off-by-one boundary: a byte field of exactly MEGABYTE is not normalised, anything
      above it is, into 1..MEGABYTE. */
  lemma RemainderBoundary(b: nat)
    ensures Remainder(b) == b <==> b <= MEGABYTE
    ensures b > MEGABYTE ==> 1 <= Remainder(b) <= MEGABYTE && Carry(b) >= 1
  {
  }
}
