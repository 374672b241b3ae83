/**
 * The badge variants the pages choose from a status, one mapping per place it is drawn.
 * The members table and the member profile share one mapping; the admin recharge table
 * marks inactive members as destructive instead; the member payment history has its own.
 */
module Badges {
  import opened MockData

  datatype BadgeVariant = Default | Outline | Secondary | Destructive

  /** The status badge of the members table and of the member profile. */
  function MemberBadge(s: MemberStatus): (v: BadgeVariant)
    ensures v == Default <==> s == Active
    ensures v == Outline <==> s == Inactive
    ensures v == Secondary <==> s.Pending?
    ensures v != Destructive
  {
    if s == Active then Default
    else if s == Inactive then Outline
    else Secondary
  }

  /** The status badge of the admin recharge table. */
  function RechargeStatusBadge(s: MemberStatus): (v: BadgeVariant)
    ensures v == Default <==> s == Active
    ensures v == Destructive <==> s == Inactive
    ensures v == Secondary <==> s.Pending?
    ensures v != Outline
  {
    if s == Active then Default
    else if s == Inactive then Destructive
    else Secondary
  }

  /** The status badge of the member's payment history. */
  function PaymentBadge(s: PaymentStatus): (v: BadgeVariant)
    ensures v == Default <==> s == Successful
    ensures v == Destructive <==> s == Failed
    ensures v == Secondary <==> s.Pending?
    ensures v != Outline
  {
    if s == Successful then Default
    else if s == Failed then Destructive
    else Secondary
  }

  /** The two member-status mappings differ exactly on inactive members. */
  lemma MemberBadgesDifferOnlyWhenInactive(s: MemberStatus)
    ensures MemberBadge(s) == RechargeStatusBadge(s) <==> s != Inactive
  {
  }
}
