/** The escrow side of the client: the campaign records read from the ledger,
    the display form they are normalised to, and the status filter. */
module Campaigns {
  import opened Wrappers

  datatype CampaignStatus = Active | Completed | Withdrawn

  /** The display name of each status; these are also the labels of the filter buttons. */
  function Name(st: CampaignStatus): (r: string)
    ensures r != "All"
  {
    match st
    case Active => "Active"
    case Completed => "Completed"
    case Withdrawn => "Withdrawn"
  }

  lemma NameInjective(a: CampaignStatus, b: CampaignStatus)
    ensures Name(a) == Name(b) ==> a == b
  {
  }

  /** `['Active', 'Completed', 'Withdrawn'][ordinal]`: an index past the end
      of the array yields `undefined`, modelled as None. */
  function StatusOfOrdinal(n: nat): (r: Option<CampaignStatus>)
    ensures r == Some(Active) <==> n == 0
    ensures r == Some(Completed) <==> n == 1
    ensures r == Some(Withdrawn) <==> n == 2
    ensures r == None <==> n >= 3
  {
    if n == 0 then Some(Active)
    else if n == 1 then Some(Completed)
    else if n == 2 then Some(Withdrawn)
    else None
  }

  /** The ledger's ordinal of a status; the inverse of StatusOfOrdinal on its range. */
  function Ordinal(st: CampaignStatus): (n: nat)
    ensures n < 3
    ensures StatusOfOrdinal(n) == Some(st)
  {
    match st
    case Active => 0
    case Completed => 1
    case Withdrawn => 2
  }

  lemma OrdinalRoundTrip(n: nat)
    requires n < 3
    ensures StatusOfOrdinal(n).Some? && Ordinal(StatusOfOrdinal(n).value) == n
  {
  }

  /** A campaign as `getAllCampaigns()` returns it; amounts are in wei. */
  datatype RawCampaign = RawCampaign(
    id: nat, title: string, description: string,
    goal: nat, fundsRaised: nat, creator: string, status: nat)

  /** A campaign as the component keeps it after `loadCampaigns`. */
  datatype Campaign = Campaign(
    id: nat, title: string, description: string,
    goal: nat, fundsRaised: nat, creator: string, status: Option<CampaignStatus>)

  /** The body of the `map` callback in `loadCampaigns`. */
  function Normalize(raw: RawCampaign): (c: Campaign)
    ensures c.id == raw.id && c.title == raw.title && c.description == raw.description
    ensures c.goal == raw.goal && c.fundsRaised == raw.fundsRaised && c.creator == raw.creator
    ensures c.status.Some? <==> raw.status < 3
    ensures c.status.Some? ==> Ordinal(c.status.value) == raw.status
  {
    Campaign(raw.id, raw.title, raw.description, raw.goal, raw.fundsRaised, raw.creator,
             StatusOfOrdinal(raw.status))
  }

  /** `allCampaigns.map(...)`: same length and order, nothing dropped. */
  function NormalizeAll(raws: seq<RawCampaign>): (cs: seq<Campaign>)
    ensures |cs| == |raws|
    ensures forall i :: 0 <= i < |raws| ==> cs[i] == Normalize(raws[i])
  {
    if raws == [] then [] else [Normalize(raws[0])] + NormalizeAll(raws[1..])
  }

  /** The campaign list after `loadCampaigns`: a failed read (None) is only
      logged, so the previous list stays. */
  function ReloadCampaigns(current: seq<Campaign>, read: Option<seq<RawCampaign>>): (r: seq<Campaign>)
    ensures read.None? ==> r == current
    ensures read.Some? ==> r == NormalizeAll(read.value)
  {
    match read
    case None => current
    case Some(raws) => NormalizeAll(raws)
  }

  /** The filter buttons: 'All' or one status. */
  datatype Selector = All | Only(status: CampaignStatus)

  predicate HasStatus(c: Campaign, st: CampaignStatus) {
    c.status == Some(st)
  }

  /** `campaigns.filter(c => c.status === st)`. */
  function Keep(cs: seq<Campaign>, st: CampaignStatus): (r: seq<Campaign>)
    ensures |r| <= |cs|
    ensures forall c :: c in r <==> c in cs && HasStatus(c, st)
  {
    if cs == [] then []
    else if HasStatus(cs[0], st) then [cs[0]] + Keep(cs[1..], st)
    else Keep(cs[1..], st)
  }

  /** `getFilteredCampaigns`. */
  function Filter(cs: seq<Campaign>, sel: Selector): (r: seq<Campaign>)
    ensures sel == All ==> r == cs
    ensures sel.Only? ==> forall c :: c in r <==> c in cs && HasStatus(c, sel.status)
    ensures sel.Only? ==> r == Keep(cs, sel.status)
  {
    match sel
    case All => cs
    case Only(st) => Keep(cs, st)
  }

  /** `a` is `b` with some elements deleted, the rest in their original order. */
  predicate IsSubsequence<T(==)>(a: seq<T>, b: seq<T>)
    decreases |b|
  {
    if a == [] then true
    else if b == [] then false
    else if a[0] == b[0] then IsSubsequence(a[1..], b[1..])
    else IsSubsequence(a, b[1..])
  }

  lemma {:induction false} KeepIsSubsequence(cs: seq<Campaign>, st: CampaignStatus)
    ensures IsSubsequence(Keep(cs, st), cs)
  {
    if cs != [] {
      KeepIsSubsequence(cs[1..], st);
      if !HasStatus(cs[0], st) {
        SubsequenceOfTail(Keep(cs[1..], st), cs);
      }
    }
  }

  lemma {:induction false} SubsequenceOfTail<T>(a: seq<T>, b: seq<T>)
    requires b != [] && IsSubsequence(a, b[1..])
    ensures IsSubsequence(a, b)
    decreases |b|, 0
  {
    if a != [] && a[0] == b[0] {
      SubsequenceDropHead(a, b[1..]);
    }
  }

  lemma {:induction false} SubsequenceDropHead<T>(a: seq<T>, b: seq<T>)
    requires a != [] && IsSubsequence(a, b)
    ensures IsSubsequence(a[1..], b)
    decreases |b|, 1
  {
    assert b != [];
    if a[0] == b[0] {
      if a[1..] != [] {
        SubsequenceDropHead(a[1..], b[1..]);
        SubsequenceOfTail(a[1..], b);
      }
    } else {
      SubsequenceDropHead(a, b[1..]);
      if a[1..] != [] {
        SubsequenceOfTail(a[1..], b);
      }
    }
  }

  /** Filtering respects concatenation; together with its effect on one
      campaign this determines the whole list, order included. */
  lemma {:induction false} KeepConcat(a: seq<Campaign>, b: seq<Campaign>, st: CampaignStatus)
    ensures Keep(a + b, st) == Keep(a, st) + Keep(b, st)
  {
    if a == [] {
      assert a + b == b;
    } else {
      assert (a + b)[1..] == a[1..] + b;
      KeepConcat(a[1..], b, st);
    }
  }

  lemma KeepSingleton(c: Campaign, st: CampaignStatus)
    ensures Keep([c], st) == if HasStatus(c, st) then [c] else []
  {
    assert [c][1..] == [];
  }

  /** Every matching campaign is kept as often as it occurs; no other is kept. */
  lemma {:induction false} KeepCount(cs: seq<Campaign>, st: CampaignStatus, c: Campaign)
    ensures multiset(Keep(cs, st))[c] == if HasStatus(c, st) then multiset(cs)[c] else 0
  {
    if cs != [] {
      KeepCount(cs[1..], st, c);
      assert cs == [cs[0]] + cs[1..];
    }
  }

  lemma {:induction false} KeepIdempotent(cs: seq<Campaign>, st: CampaignStatus)
    ensures Keep(Keep(cs, st), st) == Keep(cs, st)
  {
    if cs != [] {
      KeepIdempotent(cs[1..], st);
      if HasStatus(cs[0], st) {
        assert ([cs[0]] + Keep(cs[1..], st))[1..] == Keep(cs[1..], st);
      }
    }
  }

  /** The statuses of the campaigns, in list order. */
  function Statuses(cs: seq<Campaign>): (r: seq<Option<CampaignStatus>>)
    ensures |r| == |cs|
    ensures forall i :: 0 <= i < |cs| ==> r[i] == cs[i].status
  {
    if cs == [] then [] else [cs[0].status] + Statuses(cs[1..])
  }

  /** Number of campaigns whose ordinal had no name. */
  function CountUnnamed(cs: seq<Campaign>): (n: nat)
    ensures n <= |cs|
  {
    if cs == [] then 0 else (if cs[0].status == None then 1 else 0) + CountUnnamed(cs[1..])
  }

  /** What `CountUnnamed` counts: how often the undefined status occurs. */
  lemma {:induction false} CountUnnamedIsMultiplicity(cs: seq<Campaign>)
    ensures CountUnnamed(cs) == multiset(Statuses(cs))[None]
  {
    if cs != [] {
      CountUnnamedIsMultiplicity(cs[1..]);
      assert Statuses(cs) == [cs[0].status] + Statuses(cs[1..]);
    }
  }

  /** The three status filters split the list, except the campaigns whose
      status is undefined: those appear under 'All' only. */
  lemma {:induction false} StatusFiltersPartition(cs: seq<Campaign>)
    ensures |Keep(cs, Active)| + |Keep(cs, Completed)| + |Keep(cs, Withdrawn)| + CountUnnamed(cs) == |cs|
  {
    if cs != [] {
      StatusFiltersPartition(cs[1..]);
      var c := cs[0];
      assert |Keep(cs, Active)| == (if HasStatus(c, Active) then 1 else 0) + |Keep(cs[1..], Active)|;
      assert |Keep(cs, Completed)| == (if HasStatus(c, Completed) then 1 else 0) + |Keep(cs[1..], Completed)|;
      assert |Keep(cs, Withdrawn)| == (if HasStatus(c, Withdrawn) then 1 else 0) + |Keep(cs[1..], Withdrawn)|;
      assert CountUnnamed(cs) == (if c.status == None then 1 else 0) + CountUnnamed(cs[1..]);
      match c.status {
        case None =>
        case Some(st) => assert st == Active || st == Completed || st == Withdrawn;
      }
    }
  }
}
