/** src/vm/IdIssuer.ts: a counter that hands out 1, 2, 3, ... */
module IdIssuing {

  class IdIssuer {
    var id: int

    constructor ()
      ensures id == 0
    {
      id := 0;
    }

    /** `return ++this.id`: the new value is both stored and returned. */
    method Issue() returns (r: int)
      modifies this
      ensures r == old(id) + 1
      ensures id == r
    {
      id := id + 1;
      r := id;
    }
  }

  /** The values a fresh issuer returns for its first `n` calls after
      `start` calls have already been made. */
  function Issued(start: nat, n: nat): (r: seq<int>)
    ensures |r| == n
    decreases n
  {
    if n == 0 then [] else Issued(start, n - 1) + [start + n]
  }

  /** Issued values are exactly start+1 .. start+n. */
  lemma {:induction false} IssuedAt(start: nat, n: nat, k: nat)
    requires k < n
    ensures Issued(start, n)[k] == start + k + 1
  {
    if k < n - 1 {
      IssuedAt(start, n - 1, k);
    }
  }

  /** Issued values are positive and strictly increasing, so no value is
      returned twice by one issuer. */
  lemma IssuedStrictlyIncreasing(start: nat, n: nat)
    ensures forall i :: 0 <= i < n ==> Issued(start, n)[i] > 0
    ensures forall i, j :: 0 <= i < j < n ==> Issued(start, n)[i] < Issued(start, n)[j]
  {
    forall i | 0 <= i < n
      ensures Issued(start, n)[i] > 0
    {
      IssuedAt(start, n, i);
    }
    forall i, j | 0 <= i < j < n
      ensures Issued(start, n)[i] < Issued(start, n)[j]
    {
      IssuedAt(start, n, i);
      IssuedAt(start, n, j);
    }
  }

  /** A client of the class: a new issuer returns 1 first, then 2. */
  method FirstTwoIssues() returns (a: int, b: int)
    ensures [a, b] == Issued(0, 2)
  {
    var issuer := new IdIssuer();
    a := issuer.Issue();
    b := issuer.Issue();
  }
}
