/** The admin recharge table: a name-or-id search and the auto-recharge badge. */
module AdminRecharge {
  import opened Common
  import opened Text
  import opened Seqs
  import opened MockData
  import AdminMembers

  /** The lower-cased term occurs in the lower-cased name or id; the email is not searched. */
  predicate MatchesNameOrId(m: Member, term: string)
  {
    var t := Lower(term);
    Contains(Lower(m.name), t) || Contains(Lower(m.id), t)
  }

  /** `filteredMembers` of the recharge page. */
  function RechargeMembers(ms: seq<Member>, term: string): (r: seq<Member>)
    ensures forall m :: m in r <==>
      m in ms && (Contains(Lower(m.name), Lower(term)) || Contains(Lower(m.id), Lower(term)))
    ensures forall m :: multiset(r)[m] == if MatchesNameOrId(m, term) then multiset(ms)[m] else 0
    ensures IsSubsequence(r, ms)
  {
    Filter(ms, (m: Member) => MatchesNameOrId(m, term))
  }

  /** A term found only in a member's email leaves that member out. */
  lemma EmailIsNotSearched(ms: seq<Member>, m: Member, term: string)
    requires !Contains(Lower(m.name), Lower(term)) && !Contains(Lower(m.id), Lower(term))
    ensures m !in RechargeMembers(ms, term)
  {
  }

  /** An empty term lists every member, in table order. */
  lemma EmptyTermKeepsAll(ms: seq<Member>)
    ensures RechargeMembers(ms, "") == ms
  {
    forall m | m in ms ensures MatchesNameOrId(m, "") {
      ContainsEmpty(Lower(m.name));
    }
    FilterKeepsAll(ms, (m: Member) => MatchesNameOrId(m, ""));
  }

  /**
   * The recharge search finds no member the members-page search with both filters on 'all'
   * would not, since it looks at fewer fields.
   */
  lemma NarrowerThanMembersSearch(ms: seq<Member>, term: string)
    ensures IsSubsequence(RechargeMembers(ms, term), AdminMembers.FilteredMembers(ms, term, All, "all"))
  {
    FilterMonotone(ms, (m: Member) => MatchesNameOrId(m, term),
                       (m: Member) => AdminMembers.Keeps(m, term, All, "all"));
  }

  /** The auto-recharge column: enabled when the id contains the digit one. */
  function AutoRechargeEnabled(m: Member): (enabled: bool)
    ensures enabled <==> '1' in m.id
  {
    ContainsChar(m.id, '1');
    Contains(m.id, "1")
  }

  function AutoRechargeLabel(m: Member): (text: string)
    ensures text == "Enabled" <==> '1' in m.id
    ensures text == "Disabled" <==> !('1' in m.id)
  {
    if AutoRechargeEnabled(m) then "Enabled" else "Disabled"
  }

  /** In the shipped table only MEM001 shows auto-recharge as enabled. */
  lemma ShippedAutoRecharge(today: int)
    ensures forall m :: m in Members(today) ==> (AutoRechargeEnabled(m) <==> m.id == "MEM001")
  {
  }
}
