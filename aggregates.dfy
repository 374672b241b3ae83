/**
 * The two aggregates the pages compute over payment lists: the total of the successful
 * amounts (the `reduce` in the reports page and in the member's payment history) and
 * the number of payments with a given status.
 */
module Aggregates {
  import opened Seqs
  import opened MockData

  /** What one payment adds to a total: its amount if it succeeded, nothing otherwise. */
  function Contribution(p: Payment): int
  {
    if p.status == Successful then p.amount else 0
  }

  /** `reduce((total, p) => p.status === 'successful' ? total + p.amount : total, 0)`. */
  function SuccessfulTotal(ps: seq<Payment>): (total: int)
    ensures (forall p :: p in ps ==> p.status != Successful) ==> total == 0
    decreases |ps|
  {
    if ps == [] then 0 else Contribution(ps[0]) + SuccessfulTotal(ps[1..])
  }

  /** The number of payments with status `st`. */
  function CountStatus(ps: seq<Payment>, st: PaymentStatus): (n: nat)
    ensures n <= |ps|
    ensures n == 0 <==> forall p :: p in ps ==> p.status != st
  {
    var kept := Filter(ps, (p: Payment) => p.status == st);
    assert kept != [] ==> kept[0] in kept;
    |kept|
  }

  lemma {:induction false} SuccessfulTotalAppend(a: seq<Payment>, b: seq<Payment>)
    ensures SuccessfulTotal(a + b) == SuccessfulTotal(a) + SuccessfulTotal(b)
    decreases |a|
  {
    if a == [] {
      assert a + b == b;
    } else {
      assert (a + b)[0] == a[0] && (a + b)[1..] == a[1..] + b;
      SuccessfulTotalAppend(a[1..], b);
    }
  }

  /** Failed and pending payments add nothing: the total is that of the successful ones alone. */
  lemma {:induction false} OnlySuccessfulCount(ps: seq<Payment>)
    ensures SuccessfulTotal(ps) == SuccessfulTotal(Filter(ps, (p: Payment) => p.status == Successful))
    ensures SuccessfulTotal(Filter(ps, (p: Payment) => p.status != Successful)) == 0
    decreases |ps|
  {
    if ps != [] {
      OnlySuccessfulCount(ps[1..]);
      var succ := Filter(ps[1..], (p: Payment) => p.status == Successful);
      if ps[0].status == Successful {
        assert ([ps[0]] + succ)[1..] == succ;
      } else {
        var rest := Filter(ps[1..], (p: Payment) => p.status != Successful);
        assert ([ps[0]] + rest)[1..] == rest;
      }
    }
  }

  /** The total does not depend on the order of the payments. */
  lemma {:induction false} SuccessfulTotalPermutation(a: seq<Payment>, b: seq<Payment>)
    requires multiset(a) == multiset(b)
    ensures SuccessfulTotal(a) == SuccessfulTotal(b)
    decreases |a|
  {
    if a == [] {
      assert |b| == |multiset(b)| == 0;
    } else {
      var i := PermutationWithoutHead(a, b);
      var rest := b[..i] + b[i + 1..];
      assert b == b[..i] + [b[i]] + b[i + 1..];
      SuccessfulTotalPermutation(a[1..], rest);
      SuccessfulTotalAppend(b[..i] + [b[i]], b[i + 1..]);
      SuccessfulTotalAppend(b[..i], [b[i]]);
      SuccessfulTotalAppend(b[..i], b[i + 1..]);
      assert [b[i]][1..] == [];
    }
  }

  /** The status counts do not depend on the order of the payments either. */
  lemma CountStatusPermutation(a: seq<Payment>, b: seq<Payment>, st: PaymentStatus)
    requires multiset(a) == multiset(b)
    ensures CountStatus(a, st) == CountStatus(b, st)
  {
    var p := (x: Payment) => x.status == st;
    FilterPermutation(a, b, p);
    assert |Filter(a, p)| == |multiset(Filter(a, p))| == |multiset(Filter(b, p))| == |Filter(b, p)|;
  }

  /** With no negative amount in the list the total is not negative. */
  lemma {:induction false} SuccessfulTotalNonNegative(ps: seq<Payment>)
    requires forall p :: p in ps ==> p.amount >= 0
    ensures SuccessfulTotal(ps) >= 0
    decreases |ps|
  {
    if ps != [] {
      SuccessfulTotalNonNegative(ps[1..]);
    }
  }

  /** Status is a closed set, so the three status counts add up to the length. */
  lemma {:induction false} StatusCountsCover(ps: seq<Payment>)
    ensures CountStatus(ps, Successful) + CountStatus(ps, Failed) + CountStatus(ps, PaymentStatus.Pending) == |ps|
    decreases |ps|
  {
    if ps != [] {
      StatusCountsCover(ps[1..]);
    }
  }
}
