/** The pure checks of the ledger: readiness of a posting group
    (`PostingGroup.ready`) and the consistency screen that opens
    `Ledger.atomic_commit`. */
module Checks {
  import opened Wrappers
  import opened LedgerErrors
  import opened Postings

  /** The largest declared count among the postings (Python's `max`). */
  function MaxCount(ps: seq<Posting>): (m: int)
    requires |ps| > 0
    ensures forall i :: 0 <= i < |ps| ==> ps[i].count <= m
    ensures exists i :: 0 <= i < |ps| && ps[i].count == m
  {
    if |ps| == 1 then ps[0].count
    else
      var rest := MaxCount(ps[1..]);
      assert forall i :: 1 <= i < |ps| ==> ps[i] == ps[1..][i - 1];
      if ps[0].count >= rest then ps[0].count else rest
  }

  /** A group is ready once it holds at least as many postings as the largest
      count any of them declares. */
  predicate IsReady(ps: seq<Posting>)
    requires |ps| > 0
  {
    |ps| >= MaxCount(ps)
  }

  /** Readiness, stated without `max`: no posting declares more postings than
      have been collected. */
  lemma ReadyIff(ps: seq<Posting>)
    requires |ps| > 0
    ensures IsReady(ps) <==> forall i :: 0 <= i < |ps| ==> ps[i].count <= |ps|
  {
  }

  /** Adding the posting that every collected posting is waiting for makes the
      group ready: with `n` collected postings all declaring `n + 1` or less,
      one more posting declaring at most `n + 1` completes it. */
  lemma ReadyAfterLastPosting(ps: seq<Posting>, p: Posting)
    requires forall i :: 0 <= i < |ps| ==> ps[i].count <= |ps| + 1
    requires p.count <= |ps| + 1
    ensures IsReady(ps + [p])
  {
    var qs := ps + [p];
    forall i | 0 <= i < |qs| ensures qs[i].count <= |qs| {
      if i < |ps| { assert qs[i] == ps[i]; }
    }
    ReadyIff(qs);
  }

  function SumWhere(ps: seq<Posting>, direction: string): (s: int)
  {
    if ps == [] then 0
    else (if ps[0].direction == direction then ps[0].quantity else 0) + SumWhere(ps[1..], direction)
  }

  function CreditSum(ps: seq<Posting>): int { SumWhere(ps, "credit") }
  function DebitSum(ps: seq<Posting>): int { SumWhere(ps, "debit") }

  predicate SameKind(ps: seq<Posting>) { forall i, j :: 0 <= i < |ps| && 0 <= j < |ps| ==> ps[i].kind == ps[j].kind }
  predicate SameCount(ps: seq<Posting>) { forall i, j :: 0 <= i < |ps| && 0 <= j < |ps| ==> ps[i].count == ps[j].count }

  /** The consistency screen of `atomic_commit`, in its order: an empty list,
      then the types, then the counts, then the balance. */
  function Screen(ps: seq<Posting>): (r: Option<Error>)
    ensures |ps| == 0 ==> r == Some(INTERNAL_ERROR)
    ensures |ps| > 0 && !SameKind(ps) ==> r == Some(TYPE_MISMATCH)
    ensures |ps| > 0 && SameKind(ps) && !SameCount(ps) ==> r == Some(COUNT_MISMATCH)
    ensures |ps| > 0 && SameKind(ps) && SameCount(ps) && CreditSum(ps) != DebitSum(ps) ==> r == Some(QUANTITY_MISMATCH)
    ensures r == None <==> |ps| > 0 && SameKind(ps) && SameCount(ps) && CreditSum(ps) == DebitSum(ps)
  {
    if |ps| == 0 then Some(INTERNAL_ERROR)
    else if !(forall i :: 0 <= i < |ps| ==> ps[i].kind == ps[0].kind) then Some(TYPE_MISMATCH)
    else if !(forall i :: 0 <= i < |ps| ==> ps[i].count == ps[0].count) then Some(COUNT_MISMATCH)
    else if CreditSum(ps) - DebitSum(ps) != 0 then Some(QUANTITY_MISMATCH)
    else None
  }

  lemma {:induction false} SumWhereAppend(ps: seq<Posting>, qs: seq<Posting>, direction: string)
    ensures SumWhere(ps + qs, direction) == SumWhere(ps, direction) + SumWhere(qs, direction)
  {
    if ps == [] {
      assert ps + qs == qs;
    } else {
      assert (ps + qs)[1..] == ps[1..] + qs;
      SumWhereAppend(ps[1..], qs, direction);
    }
  }

  function Share(p: Posting, direction: string): int {
    if p.direction == direction then p.quantity else 0
  }

  lemma SumWhereRemove(qs: seq<Posting>, j: nat, direction: string)
    requires j < |qs|
    ensures SumWhere(qs, direction) == Share(qs[j], direction) + SumWhere(qs[..j] + qs[j + 1..], direction)
  {
    assert qs == qs[..j] + [qs[j]] + qs[j + 1..];
    SumWhereAppend(qs[..j] + [qs[j]], qs[j + 1..], direction);
    SumWhereAppend(qs[..j], [qs[j]], direction);
    SumWhereAppend(qs[..j], qs[j + 1..], direction);
    assert [qs[j]][1..] == [];
  }

  lemma MultisetRemove(ps: seq<Posting>, qs: seq<Posting>, j: nat)
    requires |ps| > 0 && j < |qs| && qs[j] == ps[0]
    requires multiset(ps) == multiset(qs)
    ensures multiset(ps[1..]) == multiset(qs[..j] + qs[j + 1..])
  {
    var x := ps[0];
    var rest := qs[..j] + qs[j + 1..];
    assert qs == qs[..j] + [x] + qs[j + 1..];
    assert ps == [x] + ps[1..];
    calc {
      multiset(ps[1..]) + multiset{x};
      multiset(ps);
      multiset(qs);
      multiset(qs[..j]) + multiset([x]) + multiset(qs[j + 1..]);
      multiset(rest) + multiset{x};
    }
    assert multiset(ps[1..]) == multiset(ps[1..]) + multiset{x} - multiset{x};
    assert multiset(rest) == multiset(rest) + multiset{x} - multiset{x};
  }

  /** The sums are blind to arrival order: any rearrangement of a posting list
      has the same credit and debit totals. */
  lemma {:induction false} SumWherePermutation(ps: seq<Posting>, qs: seq<Posting>, direction: string)
    requires multiset(ps) == multiset(qs)
    ensures SumWhere(ps, direction) == SumWhere(qs, direction)
    decreases |ps|
  {
    if ps == [] {
      assert |qs| == |multiset(qs)| == 0;
    } else {
      assert ps[0] in multiset(qs);
      var j :| 0 <= j < |qs| && qs[j] == ps[0];
      MultisetRemove(ps, qs, j);
      SumWherePermutation(ps[1..], qs[..j] + qs[j + 1..], direction);
      SumWhereRemove(qs, j, direction);
    }
  }

  /** Two lists with the same multiset hold the same postings. */
  lemma SameElements(ps: seq<Posting>, qs: seq<Posting>)
    requires multiset(ps) == multiset(qs)
    ensures |ps| == |qs|
    ensures forall i :: 0 <= i < |ps| ==> ps[i] in qs
    ensures forall j :: 0 <= j < |qs| ==> qs[j] in ps
  {
    assert |ps| == |multiset(ps)| == |multiset(qs)| == |qs|;
    forall i | 0 <= i < |ps| ensures ps[i] in qs {
      assert ps[i] in multiset(qs);
    }
    forall j | 0 <= j < |qs| ensures qs[j] in ps {
      assert qs[j] in multiset(ps);
    }
  }

  /** The screen gives the same verdict whatever order the postings of a group
      arrived in. */
  lemma ScreenPermutation(ps: seq<Posting>, qs: seq<Posting>)
    requires multiset(ps) == multiset(qs)
    ensures Screen(ps) == Screen(qs)
  {
    SumWherePermutation(ps, qs, "credit");
    SumWherePermutation(ps, qs, "debit");
    SameElements(ps, qs);
    assert SameKind(ps) <==> SameKind(qs) by {
      if SameKind(ps) {
        forall i, j | 0 <= i < |qs| && 0 <= j < |qs| ensures qs[i].kind == qs[j].kind {
          var a :| 0 <= a < |ps| && ps[a] == qs[i];
          var b :| 0 <= b < |ps| && ps[b] == qs[j];
        }
      }
      if SameKind(qs) {
        forall i, j | 0 <= i < |ps| && 0 <= j < |ps| ensures ps[i].kind == ps[j].kind {
          var a :| 0 <= a < |qs| && qs[a] == ps[i];
          var b :| 0 <= b < |qs| && qs[b] == ps[j];
        }
      }
    }
    assert SameCount(ps) <==> SameCount(qs) by {
      if SameCount(ps) {
        forall i, j | 0 <= i < |qs| && 0 <= j < |qs| ensures qs[i].count == qs[j].count {
          var a :| 0 <= a < |ps| && ps[a] == qs[i];
          var b :| 0 <= b < |ps| && ps[b] == qs[j];
        }
      }
      if SameCount(qs) {
        forall i, j | 0 <= i < |ps| && 0 <= j < |ps| ensures ps[i].count == ps[j].count {
          var a :| 0 <= a < |qs| && qs[a] == ps[i];
          var b :| 0 <= b < |qs| && qs[b] == ps[j];
        }
      }
    }
  }
}
