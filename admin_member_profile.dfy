/** The member profile page: a lookup by route parameter, then the member's details and payment history. */
module AdminMemberProfile {
  import opened Common
  import opened Text
  import opened Seqs
  import opened MockData
  import opened Badges

  /** `memberId || ''`: a missing parameter is looked up as the empty string. */
  function LookupKey(param: Option<string>): (key: string)
    ensures param.Some? ==> key == param.value
    ensures param.None? ==> key == ""
  {
    match param
    case None => ""
    case Some(id) => id
  }

  /** The status cell of the history table. */
  function PaymentStatusLabel(s: PaymentStatus): (text: string)
    ensures text == "Successful" <==> s == Successful
    ensures text == "Failed" <==> s == Failed
    ensures text == "Pending" <==> s.Pending?
  {
    if s == Successful then "Successful"
    else if s == Failed then "Failed"
    else "Pending"
  }

  /** The status values as the data stores them. */
  function PaymentStatusName(s: PaymentStatus): string
  {
    match s
    case Successful => "successful"
    case Failed => "failed"
    case Pending => "pending"
  }

  /** The label is the stored status name with its first letter capitalised. */
  lemma LabelNamesStatus(s: PaymentStatus)
    ensures Lower(PaymentStatusLabel(s)) == PaymentStatusName(s)
    ensures PaymentStatusLabel(s)[1..] == PaymentStatusName(s)[1..]
  {
    var shown := PaymentStatusLabel(s);
    assert Lower(shown)[0] == LowerChar(shown[0]);
    assert forall i :: 1 <= i < |shown| ==> Lower(shown)[i] == shown[i];
  }

  /** One row of the history table. */
  datatype HistoryRow = PaymentRow(payment: Payment, status: string) | NoHistoryRow

  /** The history table: one row per payment, or a single placeholder row when there is none. */
  function HistoryRows(payments: seq<Payment>): (rows: seq<HistoryRow>)
    ensures payments == [] ==> rows == [NoHistoryRow]
    ensures payments != [] ==> |rows| == |payments|
    ensures payments != [] ==>
      forall i :: 0 <= i < |rows| ==> rows[i] == PaymentRow(payments[i], PaymentStatusLabel(payments[i].status))
    ensures NoHistoryRow in rows <==> payments == []
  {
    if payments == [] then [NoHistoryRow]
    else seq(|payments|, i requires 0 <= i < |payments| => PaymentRow(payments[i], PaymentStatusLabel(payments[i].status)))
  }

  /** What the page shows. */
  datatype ProfileView =
    | NotFound
    | Profile(member: Member, badge: BadgeVariant, rechargeNeeded: bool, history: seq<HistoryRow>)

  /** The page for a route parameter, on day `today`. */
  function ProfilePage(ms: seq<Member>, ps: seq<Payment>, param: Option<string>, today: int): (v: ProfileView)
    ensures v.NotFound? <==> GetMemberById(ms, LookupKey(param)).None?
    ensures v.Profile? ==>
      v.member == GetMemberById(ms, LookupKey(param)).value &&
      v.member in ms && v.member.id == LookupKey(param) &&
      v.badge == MemberBadge(v.member.status) &&
      (v.rechargeNeeded <==> v.member.nextRechargeDate <= today) &&
      v.history == HistoryRows(GetMemberPayments(ps, LookupKey(param)))
  {
    var key := LookupKey(param);
    match GetMemberById(ms, key)
    case None => NotFound
    case Some(m) =>
      Profile(m, MemberBadge(m.status), m.nextRechargeDate <= today, HistoryRows(GetMemberPayments(ps, key)))
  }

  /** With no parameter, the page shows the not-found view unless some member has the empty id. */
  lemma MissingParamNotFound(ms: seq<Member>, ps: seq<Payment>, today: int)
    requires forall m :: m in ms ==> m.id != ""
    ensures ProfilePage(ms, ps, None, today) == NotFound
  {
  }

  /**
   * On the day a member's recharge falls due the profile already asks for a recharge,
   * and on the day before it does not.
   */
  lemma RechargeDueBoundary(ms: seq<Member>, ps: seq<Payment>, id: string, m: Member)
    requires GetMemberById(ms, id) == Some(m)
    ensures ProfilePage(ms, ps, Some(id), m.nextRechargeDate).rechargeNeeded
    ensures !ProfilePage(ms, ps, Some(id), m.nextRechargeDate - 1).rechargeNeeded
  {
  }
}
