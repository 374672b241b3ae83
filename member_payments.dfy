/**
 * The member's payment history: the member's payments newest first, a transaction-id
 * search and a status filter that a clear control resets, and the total paid.
 */
module MemberPayments {
  import opened Common
  import opened Text
  import opened Seqs
  import opened MockData
  import opened Aggregates

  /** `sortedPayments`: the member's payments, newest first. */
  function SortedPayments(ps: seq<Payment>, memberId: string): (r: seq<Payment>)
    ensures multiset(r) == multiset(GetMemberPayments(ps, memberId))
    ensures SortedDesc(r, PaymentDate)
    ensures forall p :: p in r <==> p in ps && p.memberId == memberId
  {
    var r := SortDescBy(GetMemberPayments(ps, memberId), PaymentDate);
    assert forall p :: p in r <==> p in multiset(r);
    r
  }

  predicate KeepsPayment(p: Payment, term: string, status: Selection<PaymentStatus>)
  {
    Contains(Lower(p.transactionId), Lower(term)) && Admits(status, p.status)
  }

  /** `filteredPayments`: the transaction id contains the term, ignoring case, and the status is admitted. */
  function FilteredPayments(sorted: seq<Payment>, term: string, status: Selection<PaymentStatus>): (r: seq<Payment>)
    ensures forall p :: p in r <==>
      p in sorted && Contains(Lower(p.transactionId), Lower(term)) && (status.All? || p.status == status.value)
    ensures forall p :: multiset(r)[p] == if KeepsPayment(p, term, status) then multiset(sorted)[p] else 0
    ensures IsSubsequence(r, sorted)
  {
    Filter(sorted, (p: Payment) => KeepsPayment(p, term, status))
  }

  /** Filtering keeps the newest-first order. */
  lemma FilteredStaysNewestFirst(sorted: seq<Payment>, term: string, status: Selection<PaymentStatus>)
    requires SortedDesc(sorted, PaymentDate)
    ensures SortedDesc(FilteredPayments(sorted, term, status), PaymentDate)
  {
    SubsequenceSorted(FilteredPayments(sorted, term, status), sorted, PaymentDate);
  }

  /** With an empty term and 'all' statuses every payment is listed. */
  lemma NoFilterShowsAll(sorted: seq<Payment>)
    ensures FilteredPayments(sorted, "", All) == sorted
  {
    forall p | p in sorted ensures KeepsPayment(p, "", All) {
      ContainsEmpty(Lower(p.transactionId));
    }
    FilterKeepsAll(sorted, (p: Payment) => KeepsPayment(p, "", All));
  }

  /** The receipt column: a download is offered for successful payments only. */
  predicate HasReceipt(p: Payment)
  {
    p.status == Successful
  }

  /**
   * "Total Paid": the successful amounts of all the member's payments. It takes no filter,
   * and it is the same whether summed in table order or in the page's newest-first order.
   */
  function TotalPaid(ps: seq<Payment>, memberId: string): (total: int)
    ensures total == SuccessfulTotal(SortedPayments(ps, memberId))
  {
    var mine := GetMemberPayments(ps, memberId);
    SuccessfulTotalPermutation(mine, SortedPayments(ps, memberId));
    SuccessfulTotal(mine)
  }

  /** With the filters cleared, the rows offering a receipt add up to the total paid. */
  lemma ReceiptsAddUpToTotal(ps: seq<Payment>, memberId: string)
    ensures SuccessfulTotal(Filter(FilteredPayments(SortedPayments(ps, memberId), "", All), HasReceipt))
         == TotalPaid(ps, memberId)
  {
    var sorted := SortedPayments(ps, memberId);
    NoFilterShowsAll(sorted);
    OnlySuccessfulCount(sorted);
    FilterSamePredicate(sorted, HasReceipt, (p: Payment) => p.status == Successful);
  }

  /** The page's state: the current member's payments and the two filter controls. */
  class PaymentHistory {
    const payments: seq<Payment>
    var searchTerm: string
    var statusFilter: Selection<PaymentStatus>

    /** The page always shows the first member of the table. */
    constructor (ms: seq<Member>, ps: seq<Payment>)
      requires ms != []
      ensures payments == GetMemberPayments(ps, ms[0].id)
      ensures searchTerm == "" && statusFilter == All
    {
      payments := GetMemberPayments(ps, ms[0].id);
      searchTerm := "";
      statusFilter := All;
    }

    function Sorted(): seq<Payment>
    {
      SortDescBy(payments, PaymentDate)
    }

    /** The table's rows. */
    function Visible(): seq<Payment>
      reads this
    {
      FilteredPayments(Sorted(), searchTerm, statusFilter)
    }

    /** The clear control is shown while either filter is active. */
    function ShowsClear(): (shown: bool)
      reads this
      ensures shown <==> searchTerm != "" || statusFilter != All
    {
      searchTerm != "" || !statusFilter.All?
    }

    method SetSearchTerm(term: string)
      modifies this`searchTerm
      ensures searchTerm == term
    {
      searchTerm := term;
    }

    method SetStatusFilter(status: Selection<PaymentStatus>)
      modifies this`statusFilter
      ensures statusFilter == status
    {
      statusFilter := status;
    }

    /** The clear control: both filters back to their defaults, every payment listed, the control hidden. */
    method ClearFilters()
      modifies this`searchTerm, this`statusFilter
      ensures searchTerm == "" && statusFilter == All
      ensures Visible() == Sorted()
      ensures !ShowsClear()
    {
      searchTerm := "";
      statusFilter := All;
      NoFilterShowsAll(Sorted());
    }
  }
}
