/** The admin dashboard's three lists: recent payments, upcoming recharges and failed-payment alerts. */
module AdminDashboard {
  import opened Common
  import opened Seqs
  import opened MockData
  import opened Aggregates

  /** `recentPayments`: the five newest payments, newest first, taken from a sorted copy. */
  function RecentPayments(ps: seq<Payment>): (r: seq<Payment>)
    ensures |r| == Min(5, |ps|)
    ensures forall i, j :: 0 <= i < j < |r| ==> r[i].date >= r[j].date
    ensures multiset(r) <= multiset(ps)
    ensures forall x, y :: x in ps && x !in r && y in r ==> x.date <= y.date
  {
    Newest(ps, 5);
    TopBy(ps, PaymentDate, 5)
  }

  /** Taking the `n` newest payments, stated on the payment dates. */
  lemma Newest(ps: seq<Payment>, n: nat)
    ensures var r := TopBy(ps, PaymentDate, n);
      && (forall i, j :: 0 <= i < j < |r| ==> r[i].date >= r[j].date)
      && (forall x, y :: x in ps && x !in r && y in r ==> x.date <= y.date)
  {
    var r := TopBy(ps, PaymentDate, n);
    forall i, j | 0 <= i < j < |r| ensures r[i].date >= r[j].date {
      assert PaymentDate(r[i]) >= PaymentDate(r[j]);
    }
    forall x, y | x in ps && x !in r && y in r ensures x.date <= y.date {
      assert PaymentDate(x) <= PaymentDate(y);
    }
  }

  /** Ascending by next recharge date is descending by its negation. */
  function SoonestFirst(m: Member): int
  {
    -m.nextRechargeDate
  }

  /** A larger key is an earlier recharge date, so sorting by the key descending puts the soonest first. */
  lemma SoonestFirstOrder(a: Member, b: Member)
    ensures SoonestFirst(a) >= SoonestFirst(b) <==> a.nextRechargeDate <= b.nextRechargeDate
  {
  }

  predicate DueAfter(m: Member, today: int)
  {
    m.nextRechargeDate > today
  }

  /** The members whose next recharge lies after today, in table order. */
  function DueMembers(ms: seq<Member>, today: int): (due: seq<Member>)
    ensures forall m :: m in due <==> m in ms && m.nextRechargeDate > today
    ensures forall m :: multiset(due)[m] == if DueAfter(m, today) then multiset(ms)[m] else 0
    ensures IsSubsequence(due, ms)
  {
    Filter(ms, (m: Member) => DueAfter(m, today))
  }

  /**
   * `upcomingRecharges`: of the members whose next recharge lies after today, the five
   * due soonest, soonest first.
   */
  function UpcomingRecharges(ms: seq<Member>, today: int): (r: seq<Member>)
    ensures |r| == Min(5, |DueMembers(ms, today)|)
    ensures multiset(r) <= multiset(DueMembers(ms, today))
    ensures forall m :: m in r ==> m in ms && m.nextRechargeDate > today
    ensures forall i, j :: 0 <= i < j < |r| ==> r[i].nextRechargeDate <= r[j].nextRechargeDate
    ensures forall x, y :: x in ms && x.nextRechargeDate > today && x !in r && y in r ==>
      y.nextRechargeDate <= x.nextRechargeDate
  {
    SoonestDue(ms, today, 5);
    TopBy(DueMembers(ms, today), SoonestFirst, 5)
  }

  /** Taking the `n` due members with the smallest keys, stated on the recharge dates. */
  lemma SoonestDue(ms: seq<Member>, today: int, n: nat)
    ensures var r := TopBy(DueMembers(ms, today), SoonestFirst, n);
      && (forall m :: m in r ==> m in ms && m.nextRechargeDate > today)
      && (forall i, j :: 0 <= i < j < |r| ==> r[i].nextRechargeDate <= r[j].nextRechargeDate)
      && (forall x, y :: x in ms && x.nextRechargeDate > today && x !in r && y in r ==>
            y.nextRechargeDate <= x.nextRechargeDate)
  {
    var due := DueMembers(ms, today);
    var r := TopBy(due, SoonestFirst, n);
    forall m | m in r ensures m in ms && m.nextRechargeDate > today {
      assert m in due;
    }
    forall i, j | 0 <= i < j < |r| ensures r[i].nextRechargeDate <= r[j].nextRechargeDate {
      assert SoonestFirst(r[i]) >= SoonestFirst(r[j]);
    }
    forall x, y | x in ms && x.nextRechargeDate > today && x !in r && y in r
      ensures y.nextRechargeDate <= x.nextRechargeDate
    {
      assert x in due;
      assert SoonestFirst(x) <= SoonestFirst(y);
    }
  }

  predicate IsFailed(p: Payment)
  {
    p.status == Failed
  }

  /** `failedRecharges`: the first three failed payments, in table order. */
  function FailedRecharges(ps: seq<Payment>): (r: seq<Payment>)
    ensures |r| == Min(3, CountStatus(ps, Failed))
    ensures forall p :: p in r ==> p in ps && p.status == Failed
    ensures r <= Filter(ps, IsFailed)
    ensures r == [] <==> forall p :: p in ps ==> p.status != Failed
  {
    var failed := Filter(ps, IsFailed);
    FilterSamePredicate(ps, IsFailed, (p: Payment) => p.status == Failed);
    assert failed != [] ==> failed[0] in failed;
    var r := Slice(failed, 3);
    assert forall p :: p in r ==> p in ps && p.status == Failed by {
      forall p | p in r ensures p in ps && p.status == Failed {
        assert p in failed;
      }
    }
    r
  }

  /** The "No alerts" message appears exactly when no payment of the table failed. */
  function ShowsNoAlerts(ps: seq<Payment>): (shown: bool)
    ensures shown <==> forall p :: p in ps ==> p.status != Failed
  {
    |FailedRecharges(ps)| == 0
  }

  /** The member column of the recent payments: the owner's name, or 'Unknown'. */
  function MemberNameOrUnknown(ms: seq<Member>, memberId: string): (name: string)
    ensures name != ""
    ensures (forall m :: m in ms ==> m.id != memberId) ==> name == "Unknown"
    ensures name != "Unknown" ==> exists m :: m in ms && m.id == memberId && m.name == name
    ensures GetMemberById(ms, memberId).Some? && GetMemberById(ms, memberId).value.name != "" ==>
      name == GetMemberById(ms, memberId).value.name
    ensures GetMemberById(ms, memberId).Some? && GetMemberById(ms, memberId).value.name == "" ==>
      name == "Unknown"
  {
    match GetMemberById(ms, memberId)
    case None => "Unknown"
    case Some(m) => if m.name != "" then m.name else "Unknown"
  }

  /** The name in an alert's title; the alerts have no fallback, so a missing owner shows as nothing. */
  function AlertMemberName(ms: seq<Member>, memberId: string): (name: string)
    ensures (forall m :: m in ms ==> m.id != memberId) ==> name == ""
    ensures name != "" ==> name == MemberNameOrUnknown(ms, memberId)
    ensures GetMemberById(ms, memberId).Some? ==> name == GetMemberById(ms, memberId).value.name
  {
    match GetMemberById(ms, memberId)
    case None => ""
    case Some(m) => m.name
  }

  /** In the shipped tables there is one failed payment, so one alert and no "No alerts" message. */
  lemma ShippedAlerts(today: int)
    ensures FailedRecharges(Payments(today)) == [Payments(today)[6]]
    ensures !ShowsNoAlerts(Payments(today))
  {
    FilterSingle(Payments(today), IsFailed, 6);
  }
}
