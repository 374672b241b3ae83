/**
 * The reports page: every payment joined with its member, newest first, narrowed by a
 * date range and a provider, then summed and counted.
 */
module AdminReports {
  import opened Common
  import opened Seqs
  import opened Numbers
  import opened MockData
  import opened Aggregates

  /** A payment with its owner's name, plan and provider copied onto it. */
  datatype ReportRow = ReportRow(payment: Payment, memberName: string, plan: string, provider: string)

  function RowDate(r: ReportRow): int
  {
    r.payment.date
  }

  function RowPayment(r: ReportRow): Payment
  {
    r.payment
  }

  /** The payments behind a list of rows, in row order. */
  function PaymentsOf(rows: seq<ReportRow>): seq<Payment>
  {
    Map(rows, RowPayment)
  }

  /** One member's payments, each carrying the member's details. */
  function Enrich(m: Member, ps: seq<Payment>): (rows: seq<ReportRow>)
    ensures PaymentsOf(rows) == ps
    ensures forall r :: r in rows ==> r.memberName == m.name && r.plan == m.plan && r.provider == m.provider
  {
    var rows := seq(|ps|, i requires 0 <= i < |ps| => ReportRow(ps[i], m.name, m.plan, m.provider));
    assert PaymentsOf(rows) == ps;
    rows
  }

  /** The rows the loop of `getAllPayments` has gathered after visiting the members `ms`. */
  function Joined(ms: seq<Member>, ps: seq<Payment>): (rows: seq<ReportRow>)
    ensures |rows| == OwnedCount(ms, ps)
    decreases |ms|
  {
    if ms == [] then []
    else
      var m := ms[|ms| - 1];
      var tail := Enrich(m, GetMemberPayments(ps, m.id));
      assert |tail| == |PaymentsOf(tail)|;
      Joined(ms[..|ms| - 1], ps) + tail
  }

  /** `getAllPayments`: gather every member's payments, then sort them newest first. */
  method GetAllPayments(ms: seq<Member>, ps: seq<Payment>) returns (rows: seq<ReportRow>)
    ensures rows == SortDescBy(Joined(ms, ps), RowDate)
    ensures SortedDesc(rows, RowDate)
    ensures multiset(rows) == multiset(Joined(ms, ps))
  {
    var all: seq<ReportRow> := [];
    for i := 0 to |ms|
      invariant all == Joined(ms[..i], ps)
    {
      var member := ms[i];
      var memberPayments := GetMemberPayments(ps, member.id);
      assert ms[..i + 1][..i] == ms[..i];
      all := all + Enrich(member, memberPayments);
    }
    assert ms[..|ms|] == ms;
    rows := SortDescBy(all, RowDate);
  }

  /** The number of payments the members `ms` own, member by member. */
  function OwnedCount(ms: seq<Member>, ps: seq<Payment>): nat
    decreases |ms|
  {
    if ms == [] then 0
    else OwnedCount(ms[..|ms| - 1], ps) + |GetMemberPayments(ps, ms[|ms| - 1].id)|
  }

  /**
   * Every row of the joined list is a payment of the table carrying the name, plan and provider of a member whose id it bears.
   */
  lemma {:induction false} JoinedRows(ms: seq<Member>, ps: seq<Payment>)
    ensures forall r :: r in Joined(ms, ps) ==>
      r.payment in ps &&
      exists m :: m in ms && r.payment.memberId == m.id && r.memberName == m.name &&
                  r.plan == m.plan && r.provider == m.provider
    decreases |ms|
  {
    if ms != [] {
      var init, m := ms[..|ms| - 1], ms[|ms| - 1];
      JoinedRows(init, ps);
      var mine := GetMemberPayments(ps, m.id);
      var tail := Enrich(m, mine);
      forall r | r in Joined(ms, ps)
        ensures r.payment in ps
        ensures exists m' :: m' in ms && r.payment.memberId == m'.id && r.memberName == m'.name &&
                             r.plan == m'.plan && r.provider == m'.provider
      {
        if r in Joined(init, ps) {
          var m' :| m' in init && r.payment.memberId == m'.id && r.memberName == m'.name &&
                    r.plan == m'.plan && r.provider == m'.provider;
          assert m' in ms;
        } else {
          assert r in tail;
          var k :| 0 <= k < |tail| && tail[k] == r;
          assert r.payment == PaymentsOf(tail)[k] == mine[k];
          assert mine[k] in mine;
          assert m in ms;
        }
      }
    }
  }

  /** The payments whose owner is one of `ids`, in table order. */
  function OwnedBy(ps: seq<Payment>, ids: set<string>): seq<Payment>
  {
    Filter(ps, (p: Payment) => p.memberId in ids)
  }

  function Ids(ms: seq<Member>): set<string>
  {
    set m | m in ms :: m.id
  }

  lemma {:induction false} OwnedBySingle(ps: seq<Payment>, id: string)
    ensures OwnedBy(ps, {id}) == GetMemberPayments(ps, id)
    decreases |ps|
  {
    if ps != [] {
      OwnedBySingle(ps[1..], id);
    }
  }

  lemma {:induction false} OwnedByDisjointUnion(ps: seq<Payment>, a: set<string>, b: set<string>)
    requires a !! b
    ensures multiset(OwnedBy(ps, a + b)) == multiset(OwnedBy(ps, a)) + multiset(OwnedBy(ps, b))
    decreases |ps|
  {
    if ps != [] {
      OwnedByDisjointUnion(ps[1..], a, b);
    }
  }

  /** Visiting one more member appends exactly that member's payments. */
  lemma JoinedSnoc(ms: seq<Member>, ps: seq<Payment>)
    requires ms != []
    ensures multiset(PaymentsOf(Joined(ms, ps)))
         == multiset(PaymentsOf(Joined(ms[..|ms| - 1], ps))) + multiset(GetMemberPayments(ps, ms[|ms| - 1].id))
  {
    var m := ms[|ms| - 1];
    var tail := Enrich(m, GetMemberPayments(ps, m.id));
    MapAppend(Joined(ms[..|ms| - 1], ps), tail, RowPayment);
  }

  /** The ids of a non-empty list: those of all but the last member, plus the last one's, which is new. */
  lemma IdsSnoc(ms: seq<Member>)
    requires ms != [] && DistinctIds(ms)
    ensures Ids(ms) == Ids(ms[..|ms| - 1]) + {ms[|ms| - 1].id}
    ensures Ids(ms[..|ms| - 1]) !! {ms[|ms| - 1].id}
  {
    var init, m := ms[..|ms| - 1], ms[|ms| - 1];
    assert ms == init + [m];
    forall x | x in init ensures x.id != m.id {
      var j :| 0 <= j < |init| && init[j] == x;
    }
  }

  /**
   * With distinct member ids, the joined list holds exactly the payments owned by some
   * member, each once.
   */
  lemma {:induction false} JoinedIsOwnedPayments(ms: seq<Member>, ps: seq<Payment>)
    requires DistinctIds(ms)
    ensures multiset(PaymentsOf(Joined(ms, ps))) == multiset(OwnedBy(ps, Ids(ms)))
    decreases |ms|
  {
    if ms == [] {
      assert Ids(ms) == {};
      FilterKeepsNone(ps, (p: Payment) => p.memberId in Ids(ms));
    } else {
      var init, id := ms[..|ms| - 1], ms[|ms| - 1].id;
      assert DistinctIds(init);
      JoinedIsOwnedPayments(init, ps);
      JoinedSnoc(ms, ps);
      IdsSnoc(ms);
      OwnedBySingle(ps, id);
      OwnedByDisjointUnion(ps, Ids(init), {id});
    }
  }

  /**
   * For the shipped tables the reports page lists every payment exactly once: the sorted
   * list is a rearrangement of the payment table.
   */
  lemma ShippedReportListsEveryPayment(today: int)
    ensures multiset(PaymentsOf(SortDescBy(Joined(Members(today), Payments(today)), RowDate)))
         == multiset(Payments(today))
  {
    var ms, ps := Members(today), Payments(today);
    ShippedTablesConsistent(today);
    JoinedIsOwnedPayments(ms, ps);
    FilterKeepsAll(ps, (p: Payment) => p.memberId in Ids(ms));
    var joined := Joined(ms, ps);
    var sorted := SortDescBy(joined, RowDate);
    MapPermutation(joined, sorted, RowPayment);
  }

  /** The row filter: within the last `days` days, and from the chosen provider unless 'all'. */
  predicate InRange(r: ReportRow, today: int, days: int, provider: string)
  {
    r.payment.date >= today - days && (provider == "all" || r.provider == provider)
  }

  /** `filteredPayments`. */
  function FilteredPayments(all: seq<ReportRow>, today: int, days: int, provider: string): (r: seq<ReportRow>)
    ensures forall x :: x in r <==> x in all && x.payment.date >= today - days && (provider == "all" || x.provider == provider)
    ensures forall x :: multiset(r)[x] == if InRange(x, today, days, provider) then multiset(all)[x] else 0
    ensures IsSubsequence(r, all)
  {
    Filter(all, (x: ReportRow) => InRange(x, today, days, provider))
  }

  /** Filtering a newest-first list leaves it newest first. */
  lemma FilteredStaysSorted(all: seq<ReportRow>, today: int, days: int, provider: string)
    requires SortedDesc(all, RowDate)
    ensures SortedDesc(FilteredPayments(all, today, days, provider), RowDate)
  {
    SubsequenceSorted(FilteredPayments(all, today, days, provider), all, RowDate);
  }

  /** Widening the date range never removes a payment. */
  lemma WiderRangeKeepsMore(all: seq<ReportRow>, today: int, days1: int, days2: int, provider: string)
    requires days1 <= days2
    ensures IsSubsequence(FilteredPayments(all, today, days1, provider), FilteredPayments(all, today, days2, provider))
  {
    FilterMonotone(all, (x: ReportRow) => InRange(x, today, days1, provider),
                        (x: ReportRow) => InRange(x, today, days2, provider));
  }

  /** The summary cards. */
  datatype Summary = Summary(
    totalAmount: int,
    transactions: nat,
    successfulCount: nat,
    failedCount: nat,
    pendingCount: nat,
    average: int)

  /** `successfulCount ? Math.round(totalAmount / successfulCount) : 0`. */
  function Average(total: int, count: nat): (avg: int)
    ensures count == 0 ==> avg == 0
    ensures count > 0 ==> 2 * avg * count - count <= 2 * total < 2 * avg * count + count
  {
    if count != 0 then RoundHalfUp(total, count) else 0
  }

  /** The totals and counts over the filtered rows. */
  function Summarize(filtered: seq<ReportRow>): (s: Summary)
    ensures s.transactions == |filtered|
    ensures s.successfulCount + s.failedCount + s.pendingCount == s.transactions
    ensures s.totalAmount == SuccessfulTotal(Filter(PaymentsOf(filtered), (p: Payment) => p.status == Successful))
    ensures s.successfulCount == 0 ==> s.average == 0
    ensures s.successfulCount == CountStatus(PaymentsOf(filtered), Successful)
    ensures s.failedCount == CountStatus(PaymentsOf(filtered), Failed)
    ensures s.pendingCount == CountStatus(PaymentsOf(filtered), PaymentStatus.Pending)
    ensures s.average == Average(s.totalAmount, s.successfulCount)
  {
    var ps := PaymentsOf(filtered);
    var total := SuccessfulTotal(ps);
    var successful := CountStatus(ps, Successful);
    StatusCountsCover(ps);
    OnlySuccessfulCount(ps);
    Summary(total, |filtered|, successful, CountStatus(ps, Failed), CountStatus(ps, PaymentStatus.Pending),
            Average(total, successful))
  }

  /** The summary cards do not depend on the order of the rows. */
  lemma SummarizePermutation(a: seq<ReportRow>, b: seq<ReportRow>)
    requires multiset(a) == multiset(b)
    ensures Summarize(a) == Summarize(b)
  {
    var pa, pb := PaymentsOf(a), PaymentsOf(b);
    MapPermutation(a, b, RowPayment);
    SuccessfulTotalPermutation(pa, pb);
    CountStatusPermutation(pa, pb, Successful);
    CountStatusPermutation(pa, pb, Failed);
    CountStatusPermutation(pa, pb, PaymentStatus.Pending);
    assert |a| == |multiset(a)| == |multiset(b)| == |b|;
  }

  /** The page as rendered for a date range and a provider. */
  method ReportsPage(ms: seq<Member>, ps: seq<Payment>, today: int, days: int, provider: string)
    returns (rows: seq<ReportRow>, summary: Summary)
    ensures SortedDesc(rows, RowDate)
    ensures forall x :: x in rows <==> x in Joined(ms, ps) && x.payment.date >= today - days &&
                                       (provider == "all" || x.provider == provider)
    ensures multiset(rows) == multiset(FilteredPayments(Joined(ms, ps), today, days, provider))
    ensures summary == Summarize(rows)
    ensures summary == Summarize(FilteredPayments(Joined(ms, ps), today, days, provider))
  {
    var all := GetAllPayments(ms, ps);
    assert forall x :: x in all <==> x in Joined(ms, ps) by {
      forall x ensures x in all <==> x in Joined(ms, ps) {
        assert x in all <==> x in multiset(all);
      }
    }
    rows := FilteredPayments(all, today, days, provider);
    FilteredStaysSorted(all, today, days, provider);
    FilterPermutation(all, Joined(ms, ps), (x: ReportRow) => InRange(x, today, days, provider));
    summary := Summarize(rows);
    SummarizePermutation(rows, FilteredPayments(Joined(ms, ps), today, days, provider));
  }
}
