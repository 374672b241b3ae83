/** The members table: a search over name, id and email, a status filter and a provider filter. */
module AdminMembers {
  import opened Common
  import opened Text
  import opened Seqs
  import opened MockData

  /** The lower-cased term occurs in the lower-cased name, id or email. */
  predicate MatchesSearch(m: Member, term: string)
  {
    var t := Lower(term);
    Contains(Lower(m.name), t) || Contains(Lower(m.id), t) || Contains(Lower(m.email), t)
  }

  /** The provider filter: the value 'all' admits every provider. */
  predicate AdmitsProvider(filter: string, provider: string)
  {
    filter == "all" || provider == filter
  }

  predicate Keeps(m: Member, term: string, status: Selection<MemberStatus>, provider: string)
  {
    MatchesSearch(m, term) && Admits(status, m.status) && AdmitsProvider(provider, m.provider)
  }

  /** `filteredMembers`. */
  function FilteredMembers(ms: seq<Member>, term: string, status: Selection<MemberStatus>, provider: string)
    : (r: seq<Member>)
    ensures forall m :: m in r <==>
      m in ms && MatchesSearch(m, term) && (status.All? || m.status == status.value) &&
      (provider == "all" || m.provider == provider)
    ensures forall m :: multiset(r)[m] == if Keeps(m, term, status, provider) then multiset(ms)[m] else 0
    ensures IsSubsequence(r, ms)
    ensures status.Only? ==> forall m :: m in r ==> m.status == status.value
    ensures provider != "all" ==> forall m :: m in r ==> m.provider == provider
  {
    Filter(ms, (m: Member) => Keeps(m, term, status, provider))
  }

  /** An empty search with both filters on 'all' lists every member, in table order. */
  lemma NoFilterKeepsAll(ms: seq<Member>)
    ensures FilteredMembers(ms, "", All, "all") == ms
  {
    forall m | m in ms ensures Keeps(m, "", All, "all") {
      ContainsEmpty(Lower(m.name));
    }
    FilterKeepsAll(ms, (m: Member) => Keeps(m, "", All, "all"));
  }

  /** The search ignores case: terms that lower-case alike give the same list. */
  lemma SearchIgnoresCase(ms: seq<Member>, t1: string, t2: string, status: Selection<MemberStatus>, provider: string)
    requires Lower(t1) == Lower(t2)
    ensures FilteredMembers(ms, t1, status, provider) == FilteredMembers(ms, t2, status, provider)
  {
    FilterSamePredicate(ms, (m: Member) => Keeps(m, t1, status, provider),
                            (m: Member) => Keeps(m, t2, status, provider));
  }

  /** In particular, typing the term in lower case changes nothing. */
  lemma LowerCaseTermSameList(ms: seq<Member>, term: string, status: Selection<MemberStatus>, provider: string)
    ensures FilteredMembers(ms, Lower(term), status, provider) == FilteredMembers(ms, term, status, provider)
  {
    LowerIdempotent(term);
    SearchIgnoresCase(ms, Lower(term), term, status, provider);
  }

  /** Choosing a status instead of 'all' never adds a member. */
  lemma ChoosingStatusNarrows(ms: seq<Member>, term: string, s: MemberStatus, provider: string)
    ensures IsSubsequence(FilteredMembers(ms, term, Only(s), provider), FilteredMembers(ms, term, All, provider))
  {
    FilterMonotone(ms, (m: Member) => Keeps(m, term, Only(s), provider),
                       (m: Member) => Keeps(m, term, All, provider));
  }

  /** Choosing a provider instead of 'all' never adds a member. */
  lemma ChoosingProviderNarrows(ms: seq<Member>, term: string, status: Selection<MemberStatus>, p: string)
    ensures IsSubsequence(FilteredMembers(ms, term, status, p), FilteredMembers(ms, term, status, "all"))
  {
    FilterMonotone(ms, (m: Member) => Keeps(m, term, status, p),
                       (m: Member) => Keeps(m, term, status, "all"));
  }

  function ProviderOf(m: Member): string
  {
    m.provider
  }

  /** `uniqueProviders`: each provider of the table once, in order of first appearance. */
  function UniqueProviders(ms: seq<Member>): (r: seq<string>)
    ensures forall p :: p in r <==> exists m :: m in ms && m.provider == p
    ensures forall i, j :: 0 <= i < j < |r| ==> r[i] != r[j]
    ensures forall i, j, k :: 0 <= i < j < |r| && 0 <= k < |ms| && ms[k].provider == r[j] ==>
      exists l :: 0 <= l < k && ms[l].provider == r[i]
  {
    ProvidersListed(ms);
    ProvidersInOrder(ms);
    Dedup(Map(ms, ProviderOf))
  }

  /** De-duplicating the provider column keeps exactly the members' providers. */
  lemma ProvidersListed(ms: seq<Member>)
    ensures forall p :: p in Dedup(Map(ms, ProviderOf)) <==> exists m :: m in ms && m.provider == p
  {
    var all := Map(ms, ProviderOf);
    forall m | m in ms ensures m.provider in all {
      var i :| 0 <= i < |ms| && ms[i] == m;
      assert all[i] == m.provider;
    }
    forall p | p in all ensures exists m :: m in ms && m.provider == p {
      var i :| 0 <= i < |all| && all[i] == p;
      assert ms[i] in ms;
    }
  }

  /** De-duplicating the provider column keeps the order in which providers first appear. */
  lemma ProvidersInOrder(ms: seq<Member>)
    ensures forall i, j, k ::
      0 <= i < j < |Dedup(Map(ms, ProviderOf))| && 0 <= k < |ms| && ms[k].provider == Dedup(Map(ms, ProviderOf))[j] ==>
        exists l :: 0 <= l < k && ms[l].provider == Dedup(Map(ms, ProviderOf))[i]
  {
    var all := Map(ms, ProviderOf);
    var r := Dedup(all);
    DedupFirstAppearance(all);
    forall i, j, k | 0 <= i < j < |r| && 0 <= k < |ms| && ms[k].provider == r[j]
      ensures exists l :: 0 <= l < k && ms[l].provider == r[i]
    {
      assert k < |all| && all[k] == r[j];
      assert r[i] in all[..k];
      var l :| 0 <= l < k && all[..k][l] == r[i];
      assert ms[l].provider == all[l];
    }
  }

  /** The shipped table has three providers, listed once each. */
  lemma ShippedProviders(today: int)
    ensures UniqueProviders(Members(today)) == ["CableTech", "SatelliteVision", "TeleStream"]
  {
    assert Map(Members(today), ProviderOf) == ["CableTech", "SatelliteVision", "CableTech", "TeleStream", "SatelliteVision"];
    ProviderColumnPattern("CableTech", "SatelliteVision", "TeleStream");
  }

  /** The shape of the shipped provider column: first, second, first, third, second. */
  lemma ProviderColumnPattern<T(!new)>(a: T, b: T, c: T)
    requires a != b && a != c && b != c
    ensures Dedup([a, b, a, c, b]) == [a, b, c]
  {
    var s0: seq<T> := [];
    DedupSnocNew(s0, a);
    DedupSnocNew(s0 + [a], b);
    DedupSnocSeen(s0 + [a] + [b], a);
    DedupSnocNew(s0 + [a] + [b] + [a], c);
    DedupSnocSeen(s0 + [a] + [b] + [a] + [c], b);
    AppendedOneByOne(a, b, c);
  }

  /** The column and its de-duplication, spelled out as one-element appends. */
  lemma AppendedOneByOne<T>(a: T, b: T, c: T)
    ensures [] + [a] + [b] + [a] + [c] + [b] == [a, b, a, c, b]
    ensures [] + [a] + [b] + [c] == [a, b, c]
  {
  }
}
