/**
 * The dashboard's data: members and their payments, the shipped mock tables, and the
 * two lookup helpers every page uses. Dates are day numbers; the tables are built
 * relative to the day the module is loaded, so they are functions of `today`.
 */
module MockData {
  import opened Common
  import opened Seqs

  datatype MemberStatus = Active | Inactive | Pending

  datatype PaymentStatus = Successful | Failed | Pending

  datatype Member = Member(
    id: string,
    name: string,
    email: string,
    plan: string,
    status: MemberStatus,
    provider: string,
    nextRechargeDate: int,
    allotter: string,
    validityStart: int,
    validityEnd: int)

  datatype Payment = Payment(
    id: string,
    memberId: string,
    amount: int,
    date: int,
    status: PaymentStatus,
    transactionId: string)

  /**
   * The five mock members; their dates are offsets from `today`. Every validity period
   * lasts 30 days and the next recharge falls on its last day.
   */
  function Members(today: int): (ms: seq<Member>)
    ensures |ms| == 5
    ensures forall m :: m in ms ==> m.validityEnd - m.validityStart == 30 && m.nextRechargeDate == m.validityEnd
  {
    [ Member("MEM001", "John Doe", "john@example.com", "Premium HD", Active, "CableTech",
             today + 15, "Regional Cable Networks", today - 15, today + 15),
      Member("MEM002", "Jane Smith", "jane@example.com", "Basic", Inactive, "SatelliteVision",
             today - 5, "City Satellite Services", today - 35, today - 5),
      Member("MEM003", "Robert Johnson", "robert@example.com", "Sports Package", Active, "CableTech",
             today + 7, "Regional Cable Networks", today - 23, today + 7),
      Member("MEM004", "Emily Williams", "emily@example.com", "Movies Pack", Active, "TeleStream",
             today + 20, "Metro Cable Company", today - 10, today + 20),
      Member("MEM005", "Michael Brown", "michael@example.com", "4K Ultra HD", MemberStatus.Pending, "SatelliteVision",
             today + 2, "City Satellite Services", today - 28, today + 2) ]
  }

  /** The eight mock payments, all positive amounts dated before today. */
  function Payments(today: int): (ps: seq<Payment>)
    ensures |ps| == 8
    ensures forall p :: p in ps ==> p.amount > 0 && p.date < today
  {
    [ Payment("PAY001", "MEM001", 499, today - 15, Successful, "TRX78945612"),
      Payment("PAY002", "MEM002", 299, today - 35, Successful, "TRX45678912"),
      Payment("PAY003", "MEM003", 599, today - 23, Successful, "TRX12345678"),
      Payment("PAY004", "MEM004", 399, today - 10, Successful, "TRX98765432"),
      Payment("PAY005", "MEM005", 799, today - 28, Successful, "TRX65432198"),
      Payment("PAY006", "MEM001", 499, today - 45, Successful, "TRX12398745"),
      Payment("PAY007", "MEM002", 299, today - 3, Failed, "TRX45678123"),
      Payment("PAY008", "MEM003", 599, today - 53, Successful, "TRX87456321") ]
  }

  /** The payment's date, the key the pages sort by. */
  function PaymentDate(p: Payment): int
  {
    p.date
  }

  /** `getMemberPayments`: the payments made by member `memberId`, in table order. */
  function GetMemberPayments(ps: seq<Payment>, memberId: string): (r: seq<Payment>)
    ensures forall p :: p in r <==> p in ps && p.memberId == memberId
    ensures forall p :: multiset(r)[p] == if p.memberId == memberId then multiset(ps)[p] else 0
    ensures IsSubsequence(r, ps)
  {
    Filter(ps, (p: Payment) => p.memberId == memberId)
  }

  /** `getMemberById`: the first member with that id, or none when no member has it. */
  function GetMemberById(ms: seq<Member>, memberId: string): (r: Option<Member>)
    ensures r.None? <==> forall m :: m in ms ==> m.id != memberId
    ensures r.Some? ==> r.value.id == memberId
    ensures r.Some? ==> exists i :: 0 <= i < |ms| && ms[i] == r.value && forall j :: 0 <= j < i ==> ms[j].id != memberId
    decreases |ms|
  {
    if ms == [] then None
    else if ms[0].id == memberId then Some(ms[0])
    else
      var r := GetMemberById(ms[1..], memberId);
      assert r.Some? ==> forall i :: 0 <= i < |ms[1..]| ==> ms[1..][i] == ms[i + 1];
      r
  }

  /** Member ids are pairwise distinct. */
  ghost predicate DistinctIds(ms: seq<Member>)
  {
    forall i, j :: 0 <= i < j < |ms| ==> ms[i].id != ms[j].id
  }

  /** Every payment belongs to a member of the table. */
  ghost predicate PaymentsOwned(ms: seq<Member>, ps: seq<Payment>)
  {
    forall p :: p in ps ==> exists m :: m in ms && m.id == p.memberId
  }

  /** The shipped tables have distinct member ids and no payment without its member. */
  lemma ShippedTablesConsistent(today: int)
    ensures DistinctIds(Members(today))
    ensures PaymentsOwned(Members(today), Payments(today))
  {
    var ms := Members(today);
    forall p | p in Payments(today) ensures exists m :: m in ms && m.id == p.memberId {
      if p.memberId == "MEM001" { assert ms[0] in ms; }
      else if p.memberId == "MEM002" { assert ms[1] in ms; }
      else if p.memberId == "MEM003" { assert ms[2] in ms; }
      else if p.memberId == "MEM004" { assert ms[3] in ms; }
      else { assert ms[4] in ms; }
    }
  }
}
