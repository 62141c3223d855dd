/** The serial-number sequencer of sequencer.go.

    The package-level counter `seqNo` becomes the field of a `Sequencer` object
    that callers construct and pass to the certificate factory. The mutex that
    guards it is not modelled: the model is sequential. */
module Sequencing {
  import opened Wrappers

  /** The values handed out by the first `n` calls, in order: 1, 2, ..., n. */
  function Serials(n: nat): (r: seq<int>)
    ensures |r| == n
  {
    if n == 0 then [] else Serials(n - 1) + [n]
  }

  /** The k-th call (counting from 0) returns k + 1. */
  lemma {:induction false} SerialsAt(n: nat, k: nat)
    requires k < n
    ensures Serials(n)[k] == k + 1
  {
    if k < n - 1 {
      SerialsAt(n - 1, k);
    }
  }

  /** Any n calls return strictly increasing, hence pairwise distinct, values,
      all of them between 1 and n. */
  lemma SerialsIncreasing(n: nat)
    ensures forall i, j :: 0 <= i < j < n ==> Serials(n)[i] < Serials(n)[j]
    ensures forall i, j :: 0 <= i < n && 0 <= j < n && i != j ==> Serials(n)[i] != Serials(n)[j]
    ensures forall x :: x in Serials(n) ==> 1 <= x <= n
  {
    forall k | 0 <= k < n
      ensures Serials(n)[k] == k + 1
    {
      SerialsAt(n, k);
    }
  }

  class Sequencer {
    /** The last serial handed out; the Go zero value 0 before the first call. */
    var seqNo: int
    /** Every serial handed out so far, in order. */
    ghost var issued: seq<int>

    ghost predicate Valid()
      reads this
    {
      seqNo >= 0 && issued == Serials(seqNo)
    }

    constructor ()
      ensures Valid()
      ensures seqNo == 0 && issued == []
    {
      seqNo := 0;
      issued := [];
    }

    /** NextSeqNo as intended: store the increment and return it. The error result
        is always nil. */
    method Next() returns (n: int, err: Option<Error>)
      requires Valid()
      modifies this
      ensures Valid()
      ensures n == old(seqNo) + 1 && seqNo == n
      ensures issued == old(issued) + [n]
      ensures err == None
      ensures n >= 1
      ensures forall x :: x in old(issued) ==> x < n
    {
      SerialsIncreasing(seqNo);
      seqNo := seqNo + 1;
      issued := issued + [seqNo];
      n, err := seqNo, None;
    }

    /** NextSeqNo as written: `seqNo := seqNo + 1` declares a local that shadows
        the package variable, so the call reads the counter and changes nothing. */
    method NextAsWritten() returns (n: int, err: Option<Error>)
      ensures n == seqNo + 1
      ensures err == None
    {
      var local := seqNo + 1;
      n, err := local, None;
    }
  }

  /** Under the code as written, two successive calls return the same serial,
      while the intended Next returns two different ones. */
  method AsWrittenRepeatsSerial(s: Sequencer) returns (first: int, second: int)
    ensures first == second
  {
    var e;
    first, e := s.NextAsWritten();
    second, e := s.NextAsWritten();
  }

  /** A fresh sequencer hands out 1 and then 2. */
  method FirstSerials() returns (first: int, second: int)
    ensures first == 1 && second == 2
  {
    var s := new Sequencer();
    var e;
    first, e := s.Next();
    second, e := s.Next();
  }
}
