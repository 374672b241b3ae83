/**
 * The member dashboard: how much of the validity period is left and used, the
 * expiring-soon warnings, and the three newest payments.
 */
module MemberDashboard {
  import opened Common
  import opened Seqs
  import opened Numbers
  import opened MockData

  /** `daysLeft`: the days from today to the end of validity, never below zero. */
  function DaysLeft(m: Member, today: int): (d: int)
    ensures d >= 0
    ensures d >= m.validityEnd - today
    ensures d == 0 || d == m.validityEnd - today
  {
    Max(0, m.validityEnd - today)
  }

  /** `totalDays`: the length of the validity period. */
  function TotalDays(m: Member): int
  {
    m.validityEnd - m.validityStart
  }

  /** `daysUsed`: what the period has left behind. */
  function DaysUsed(m: Member, today: int): (u: int)
    ensures u + DaysLeft(m, today) == TotalDays(m)
    ensures u <= TotalDays(m)
  {
    TotalDays(m) - DaysLeft(m, today)
  }

  /**
   * `percentageUsed`: the used share rounded to a whole per cent and capped at 100. A
   * period of length zero divides by zero, which yields no number (`NaN` or `-Infinity`).
   */
  function PercentageUsed(m: Member, today: int): (pct: Option<int>)
    ensures pct.None? <==> TotalDays(m) == 0
    ensures pct.Some? ==> pct.value <= 100
    ensures pct.Some? && pct.value < 100 ==>
      pct.value == RoundHalfUp(100 * DaysUsed(m, today), TotalDays(m))
    ensures pct.Some? ==> pct.value == Min(100, RoundHalfUp(100 * DaysUsed(m, today), TotalDays(m)))
  {
    var total := TotalDays(m);
    if total == 0 then None
    else Some(Min(100, RoundHalfUp(100 * DaysUsed(m, today), total)))
  }

  /** Within a period that has started, the percentage lies between 0 and 100. */
  lemma PercentageWithinPeriod(m: Member, today: int)
    requires TotalDays(m) > 0 && m.validityStart <= today
    ensures 0 <= PercentageUsed(m, today).value <= 100
  {
    var total, used := TotalDays(m), DaysUsed(m, today);
    assert 0 <= used <= total;
    RoundHalfUpNonNegative(100 * used, total);
  }

  /** As the days pass, the percentage of a period of positive length never goes down. */
  lemma PercentageMonotone(m: Member, today1: int, today2: int)
    requires TotalDays(m) > 0 && today1 <= today2
    ensures PercentageUsed(m, today1).value <= PercentageUsed(m, today2).value
  {
    assert DaysUsed(m, today1) <= DaysUsed(m, today2);
    RoundHalfUpMonotone(100 * DaysUsed(m, today1), 100 * DaysUsed(m, today2), TotalDays(m));
  }

  /** Once the period is over, all of it is used. */
  lemma PercentageWhenExpired(m: Member, today: int)
    requires TotalDays(m) > 0 && m.validityEnd <= today
    ensures PercentageUsed(m, today) == Some(100)
  {
    assert DaysUsed(m, today) == TotalDays(m);
    RoundHalfUpExact(100, TotalDays(m));
  }

  /** The three warnings that all follow `daysLeft <= 5`. */
  datatype ExpiryIndicators = ExpiryIndicators(warningBorder: bool, statusText: string, notification: bool)

  function Indicators(m: Member, today: int): (ind: ExpiryIndicators)
    ensures ind.warningBorder <==> DaysLeft(m, today) <= 5
    ensures ind.notification <==> ind.warningBorder
    ensures ind.statusText == (if ind.warningBorder then "Expires Soon" else "Active")
  {
    var soon := DaysLeft(m, today) <= 5;
    ExpiryIndicators(soon, if soon then "Expires Soon" else "Active", soon)
  }

  /** An expired or nearly expired subscription warns; one with more than five days left does not. */
  lemma ExpiryWarningThreshold(m: Member, today: int)
    ensures Indicators(m, today).warningBorder <==> m.validityEnd - today <= 5
  {
  }

  /** `recentPayments`: the member's three newest payments, newest first. */
  function RecentPayments(ps: seq<Payment>, m: Member): (r: seq<Payment>)
    ensures |r| == Min(3, |GetMemberPayments(ps, m.id)|)
    ensures forall i, j :: 0 <= i < j < |r| ==> r[i].date >= r[j].date
    ensures multiset(r) <= multiset(GetMemberPayments(ps, m.id))
    ensures forall p :: p in r ==> p in ps && p.memberId == m.id
    ensures forall x, y :: x in ps && x.memberId == m.id && x !in r && y in r ==> x.date <= y.date
  {
    NewestOfMember(ps, m.id, 3);
    TopBy(GetMemberPayments(ps, m.id), PaymentDate, 3)
  }

  /** What taking the `n` newest of a member's payments keeps, stated on the payment fields. */
  lemma NewestOfMember(ps: seq<Payment>, id: string, n: nat)
    ensures var r := TopBy(GetMemberPayments(ps, id), PaymentDate, n);
      && (forall i, j :: 0 <= i < j < |r| ==> r[i].date >= r[j].date)
      && (forall p :: p in r ==> p in ps && p.memberId == id)
      && (forall x, y :: x in ps && x.memberId == id && x !in r && y in r ==> x.date <= y.date)
  {
    var mine := GetMemberPayments(ps, id);
    var r := TopBy(mine, PaymentDate, n);
    forall i, j | 0 <= i < j < |r| ensures r[i].date >= r[j].date {
      assert PaymentDate(r[i]) >= PaymentDate(r[j]);
    }
    forall p | p in r ensures p in ps && p.memberId == id {
      assert p in mine;
    }
    forall x, y | x in ps && x.memberId == id && x !in r && y in r ensures x.date <= y.date {
      assert x in mine;
      assert PaymentDate(x) <= PaymentDate(y);
    }
  }

  /** The placeholder row appears exactly when the member has no payment. */
  function ShowsNoHistory(ps: seq<Payment>, m: Member): (shown: bool)
    ensures shown <==> forall p :: p in ps ==> p.memberId != m.id
  {
    var mine := GetMemberPayments(ps, m.id);
    assert mine != [] ==> mine[0] in mine;
    |RecentPayments(ps, m)| == 0
  }

  /** For the shipped first member, 15 of 30 days are used: half the period, 15 days left, no warning. */
  lemma ShippedMemberHalfway(today: int)
    ensures DaysLeft(Members(today)[0], today) == 15
    ensures PercentageUsed(Members(today)[0], today) == Some(50)
    ensures !Indicators(Members(today)[0], today).warningBorder
  {
    RoundHalfUpExact(50, 30);
  }

  /**
   * The same member counted one and two days further on, which is what a count that drops
   * the partial current day shows: 14 days left and 53%, then 13 days left and 57%.
   */
  lemma ShippedMemberLaterInDay(today: int)
    ensures DaysLeft(Members(today)[0], today + 1) == 14
    ensures PercentageUsed(Members(today)[0], today + 1) == Some(53)
    ensures DaysLeft(Members(today)[0], today + 2) == 13
    ensures PercentageUsed(Members(today)[0], today + 2) == Some(57)
  {
    assert RoundHalfUp(1600, 30) == 53;
    assert RoundHalfUp(1700, 30) == 57;
  }
}
