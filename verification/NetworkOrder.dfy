/**
 * Saved Wi-Fi networks and their order (`adapters/networkmanager.py`): listing by priority, saving
 * first or last, and reordering, whatever priorities, ties and duplicate profiles there are.
 */
module NetworkOrder {
  import opened Prelude

  type Ssid = string

  const MAX_PRIORITY := 999
  const MIN_PRIORITY := -999

  /** A stored connection profile; one SSID can have several. */
  datatype Profile = Profile(path: string, ssid: Ssid, priority: int)

  // ----- Ordering -----

  function Insert(p: Profile, ps: seq<Profile>): seq<Profile> {
    if ps == [] || p.priority >= ps[0].priority then [p] + ps else [ps[0]] + Insert(p, ps[1..])
  }

  /** Highest priority first; ties keep NetworkManager's order. */
  function Ordered(ps: seq<Profile>): seq<Profile> {
    if ps == [] then [] else Insert(ps[0], Ordered(ps[1..]))
  }

  predicate Descending(ps: seq<Profile>) {
    forall i, j | 0 <= i < j < |ps| :: ps[i].priority >= ps[j].priority
  }

  /** The profiles of one priority, in their order. */
  function Tied(ps: seq<Profile>, priority: int): seq<Profile> {
    if ps == [] then []
    else if ps[0].priority == priority then [ps[0]] + Tied(ps[1..], priority)
    else Tied(ps[1..], priority)
  }

  lemma {:induction false} InsertKeeps(p: Profile, ps: seq<Profile>)
    ensures multiset(Insert(p, ps)) == multiset{p} + multiset(ps)
  {
    if ps != [] && p.priority < ps[0].priority {
      InsertKeeps(p, ps[1..]);
      assert ps == [ps[0]] + ps[1..];
    }
  }

  lemma PrependSorts(p: Profile, ps: seq<Profile>)
    requires Descending(ps) && forall q | q in ps :: p.priority >= q.priority
    ensures Descending([p] + ps)
  {
  }

  lemma {:induction false} InsertSorts(p: Profile, ps: seq<Profile>)
    requires Descending(ps)
    ensures Descending(Insert(p, ps))
  {
    if ps == [] {
    } else if p.priority >= ps[0].priority {
      PrependSorts(p, ps);
    } else {
      InsertSorts(p, ps[1..]);
      InsertKeeps(p, ps[1..]);
      forall q | q in Insert(p, ps[1..]) ensures ps[0].priority >= q.priority {
        assert q in multiset(Insert(p, ps[1..]));
        assert q == p || q in ps[1..];
      }
      PrependSorts(ps[0], Insert(p, ps[1..]));
    }
  }

  lemma {:induction false} InsertIsStable(p: Profile, ps: seq<Profile>, priority: int)
    ensures Tied(Insert(p, ps), priority) == if p.priority == priority then [p] + Tied(ps, priority) else Tied(ps, priority)
  {
    if ps == [] || p.priority >= ps[0].priority {
      assert ([p] + ps)[1..] == ps;
    } else {
      InsertIsStable(p, ps[1..], priority);
      assert ([ps[0]] + Insert(p, ps[1..]))[1..] == Insert(p, ps[1..]);
    }
  }

  /** The order is the stable sort: descending, with the same profiles, and ties in their old order. */
  lemma {:induction false} OrderedIsStableSort(ps: seq<Profile>, priority: int)
    ensures Descending(Ordered(ps)) && multiset(Ordered(ps)) == multiset(ps)
    ensures Tied(Ordered(ps), priority) == Tied(ps, priority)
  {
    if ps == [] {
    } else {
      OrderedIsStableSort(ps[1..], priority);
      InsertSorts(ps[0], Ordered(ps[1..]));
      InsertKeeps(ps[0], Ordered(ps[1..]));
      InsertIsStable(ps[0], Ordered(ps[1..]), priority);
      assert ps == [ps[0]] + ps[1..];
    }
  }

  lemma OrderedMembers(ps: seq<Profile>)
    ensures forall p :: p in Ordered(ps) <==> p in ps
    ensures |Ordered(ps)| == |ps|
  {
    OrderedIsStableSort(ps, 0);
    forall p ensures p in Ordered(ps) <==> p in ps {
      assert p in multiset(Ordered(ps)) <==> p in multiset(ps);
    }
    assert |multiset(Ordered(ps))| == |multiset(ps)|;
  }

  // ----- Listing -----

  /** The SSIDs in order of first occurrence: only the first profile of an SSID counts. */
  function Listed(ps: seq<Profile>): seq<Ssid> {
    if ps == [] then []
    else
      var before := Listed(ps[..|ps| - 1]);
      if ps[|ps| - 1].ssid in before then before else before + [ps[|ps| - 1].ssid]
  }

  datatype SavedNetwork = SavedNetwork(ssid: Ssid, priority: int, active: bool)

  method ListSaved(profiles: seq<Profile>, active: set<string>) returns (listed: seq<SavedNetwork>)
    ensures |listed| == |Listed(Ordered(profiles))|
    ensures forall i | 0 <= i < |listed| :: listed[i].ssid == Listed(Ordered(profiles))[i]
    ensures forall i | 0 <= i < |listed| ::
              exists p :: p in profiles && listed[i] == SavedNetwork(p.ssid, p.priority, p.path in active)
  {
    var ordered := Ordered(profiles);
    OrderedMembers(profiles);
    listed := [];
    var seen: set<Ssid> := {};
    for k := 0 to |ordered|
      invariant |listed| == |Listed(ordered[..k])|
      invariant forall i | 0 <= i < |listed| :: listed[i].ssid == Listed(ordered[..k])[i]
      invariant forall s :: s in seen <==> s in Listed(ordered[..k])
      invariant forall i | 0 <= i < |listed| ::
        exists p :: p in profiles && listed[i] == SavedNetwork(p.ssid, p.priority, p.path in active)
    {
      assert ordered[..k + 1][..k] == ordered[..k];
      var p := ordered[k];
      if p.ssid !in seen {
        seen := seen + {p.ssid};
        listed := listed + [SavedNetwork(p.ssid, p.priority, p.path in active)];
      }
    }
    assert ordered[..|ordered|] == ordered;
  }

  predicate Distinct(s: seq<Ssid>) {
    forall i, j | 0 <= i < j < |s| :: s[i] != s[j]
  }

  /** Listing keeps every SSID, once. */
  lemma {:induction false} ListedMembers(ps: seq<Profile>)
    ensures Distinct(Listed(ps))
    ensures forall s :: s in Listed(ps) <==> s in SsidSet(ps)
  {
    if ps != [] {
      var before, last := ps[..|ps| - 1], ps[|ps| - 1];
      ListedMembers(before);
      SsidSetGrows(before, last);
      assert ps == before + [last];
    }
  }

  function SsidSet(ps: seq<Profile>): set<Ssid> {
    set p | p in ps :: p.ssid
  }

  lemma SsidSetGrows(ps: seq<Profile>, p: Profile)
    ensures SsidSet(ps + [p]) == SsidSet(ps) + {p.ssid}
  {
    assert p in ps + [p];
    forall q | q in ps ensures q in ps + [p] {
    }
  }

  // ----- Reordering -----

  function IndexOf(s: seq<Ssid>, x: Ssid): (i: nat)
    requires x in s
    ensures i < |s| && s[i] == x
  {
    if s[0] == x then 0 else 1 + IndexOf(s[1..], x)
  }

  lemma {:induction false} IndexIsUnique(s: seq<Ssid>, i: nat)
    requires Distinct(s) && i < |s|
    ensures IndexOf(s, s[i]) == i
  {
    var k := IndexOf(s, s[i]);
    assert s[k] == s[i];
  }

  /** The first of `n` SSIDs gets priority `n`, the last gets 1. */
  function PriorityFor(ssids: seq<Ssid>, s: Ssid): int {
    if s in ssids then |ssids| - IndexOf(ssids, s) else 0
  }

  predicate Accepts(ps: seq<Profile>, ssids: seq<Ssid>) {
    Distinct(ssids) && (set s | s in ssids) == SsidSet(ps)
  }

  function Renumbered(ps: seq<Profile>, ssids: seq<Ssid>): (r: seq<Profile>)
    ensures |r| == |ps|
  {
    seq(|ps|, i requires 0 <= i < |ps| => ps[i].(priority := PriorityFor(ssids, ps[i].ssid)))
  }

  // ----- Saving -----

  predicate InRange(ps: seq<Profile>) {
    forall p | p in ps :: MIN_PRIORITY <= p.priority <= MAX_PRIORITY
  }

  /** `max(priorities, default=d)`. */
  function Highest(ps: seq<Profile>, d: int): (m: int)
    ensures forall p | p in ps :: p.priority <= m
    ensures if ps == [] then m == d else exists p :: p in ps && p.priority == m
  {
    if ps == [] then d
    else if |ps| == 1 then ps[0].priority
    else Max(ps[0].priority, Highest(ps[1..], d))
  }

  /** `min(priorities, default=d)`. */
  function Lowest(ps: seq<Profile>, d: int): (m: int)
    ensures forall p | p in ps :: m <= p.priority
    ensures if ps == [] then m == d else exists p :: p in ps && p.priority == m
  {
    if ps == [] then d
    else if |ps| == 1 then ps[0].priority
    else Min(ps[0].priority, Lowest(ps[1..], d))
  }

  /** The priority `_save` gives to a network it has no profile of. */
  function NewPriority(ps: seq<Profile>, first: bool): int {
    if first then Min(Highest(ps, 0) + 1, MAX_PRIORITY) else Max(Lowest(ps, 1) - 1, MIN_PRIORITY)
  }

  /** A network saved again as first: its profile's new priority, from all the others. */
  function Promoted(ps: seq<Profile>, at: nat): Profile
    requires at < |ps|
  {
    ps[at].(priority := Min(Highest(ps[..at] + ps[at + 1..], 0) + 1, MAX_PRIORITY))
  }

  /** NetworkManager's stored profiles, in its own order. */
  class NetworkManager {
    var profiles: seq<Profile>

    constructor (ps: seq<Profile>)
      ensures profiles == ps
    {
      profiles := ps;
    }

    ghost predicate Valid()
      reads this
    {
      forall i, j | 0 <= i < j < |profiles| :: profiles[i].path != profiles[j].path
    }

    method UpdatePriority(path: string, priority: int)
      modifies this
      ensures |profiles| == |old(profiles)|
      ensures forall i | 0 <= i < |profiles| ::
                profiles[i] == if old(profiles[i].path) == path
                               then old(profiles[i]).(priority := priority) else old(profiles[i])
    {
      profiles := seq(|profiles|, i requires 0 <= i < |profiles| reads this =>
        if profiles[i].path == path then profiles[i].(priority := priority) else profiles[i]);
    }

    /**
     * `_save`: a new network is added, at the path and place NetworkManager chooses; one that is
     * known keeps its place, and its priority too unless it is to be first.
     */
    method Save(ssid: Ssid, first: bool, path: string, pos: nat)
      requires Valid() && pos <= |profiles| && forall p | p in profiles :: p.path != path
      modifies this
      ensures Valid()
      ensures ssid !in SsidSet(old(profiles)) ==>
                profiles == old(profiles)[..pos] + [Profile(path, ssid, NewPriority(old(profiles), first))] + old(profiles)[pos..]
      ensures ssid in SsidSet(old(profiles)) ==>
                exists at :: 0 <= at < |old(profiles)| && old(profiles)[at].ssid == ssid
                  && (forall k | 0 <= k < at :: old(profiles)[k].ssid != ssid)
                  && profiles == if first then old(profiles)[at := Promoted(old(profiles), at)] else old(profiles)
    {
      var at := 0;
      while at < |profiles| && profiles[at].ssid != ssid
        invariant at <= |profiles| && forall k | 0 <= k < at :: profiles[k].ssid != ssid
      {
        at := at + 1;
      }
      if at == |profiles| {
        profiles := profiles[..pos] + [Profile(path, ssid, NewPriority(profiles, first))] + profiles[pos..];
      } else {
        assert profiles[at].ssid in SsidSet(profiles);
        if first {
          profiles := profiles[at := Promoted(profiles, at)];
        }
      }
    }

    /** Whether `k` has been given its priority when the SSIDs before `i`, and the ordered profiles before `j`, are done. */
    ghost predicate Done(was: seq<Profile>, ssids: seq<Ssid>, ordered: seq<Profile>, i: nat, j: nat, k: nat)
      requires k < |was| && i <= |ssids| && j <= |ordered|
    {
      was[k].ssid in ssids[..i] || (i < |ssids| && was[k].ssid == ssids[i] && was[k] in ordered[..j])
    }

    method Reorder(ssids: seq<Ssid>) returns (ok: bool)
      requires Valid()
      modifies this
      ensures ok <==> Accepts(old(profiles), ssids)
      ensures if ok then profiles == Renumbered(old(profiles), ssids) else profiles == old(profiles)
    {
      ghost var was := profiles;
      var ordered := Ordered(profiles);
      OrderedMembers(profiles);
      if !Distinct(ssids) || (set s | s in ssids) != SsidSet(profiles) {
        return false;
      }
      assert forall p | p in was :: p.ssid in ssids by {
        forall p | p in was ensures p.ssid in (set s | s in ssids) {
          assert p.ssid in SsidSet(was);
        }
      }
      for i := 0 to |ssids|
        invariant |profiles| == |was|
        invariant forall k | 0 <= k < |was| ::
          profiles[k] == if was[k].ssid in ssids[..i] then was[k].(priority := PriorityFor(ssids, was[k].ssid)) else was[k]
      {
        IndexIsUnique(ssids, i);
        assert ssids[i] !in ssids[..i];
        UpdateOne(ssids, i, ordered, was);
        assert ssids[..i + 1] == ssids[..i] + [ssids[i]];
      }
      assert ssids[..|ssids|] == ssids;
      ok := true;
    }

    /** The inner loop: the profiles of one SSID get its priority. */
    method UpdateOne(ssids: seq<Ssid>, i: nat, ordered: seq<Profile>, ghost was: seq<Profile>)
      requires i < |ssids| && |profiles| == |was| && ssids[i] !in ssids[..i]
      requires forall a, b | 0 <= a < b < |was| :: was[a].path != was[b].path
      requires forall p :: p in ordered <==> p in was
      requires forall p | p in was :: p.ssid in ssids
      requires PriorityFor(ssids, ssids[i]) == |ssids| - i
      requires forall k | 0 <= k < |was| ::
                 profiles[k] == if was[k].ssid in ssids[..i]
                                then was[k].(priority := PriorityFor(ssids, was[k].ssid)) else was[k]
      modifies this
      ensures |profiles| == |was|
      ensures forall k | 0 <= k < |was| ::
                profiles[k] == if was[k].ssid in ssids[..i] || was[k].ssid == ssids[i]
                               then was[k].(priority := PriorityFor(ssids, was[k].ssid)) else was[k]
    {
      var priority := |ssids| - i;
      for j := 0 to |ordered|
        invariant |profiles| == |was|
        invariant forall k | 0 <= k < |was| ::
          profiles[k] == if Done(was, ssids, ordered, i, j, k)
                         then was[k].(priority := PriorityFor(ssids, was[k].ssid)) else was[k]
      {
        var p := ordered[j];
        assert ordered[..j + 1] == ordered[..j] + [p];
        assert p in ordered && p in was;
        ghost var at :| 0 <= at < |was| && was[at] == p;
        assert forall k | 0 <= k < |was| ::
            Done(was, ssids, ordered, i, j + 1, k) <==> Done(was, ssids, ordered, i, j, k) || (p.ssid == ssids[i] && k == at);
        if p.ssid == ssids[i] && p.priority != priority {
          UpdatePriority(p.path, priority);
        }
      }
      assert ordered[..|ordered|] == ordered;
    }
  }

  // ----- Reorder, then list -----

  /** Strictly increasing numbers below their count are all of them. */
  lemma {:induction false} StrictlyIncreasing(s: seq<nat>, k: nat)
    requires forall i, j | 0 <= i < j < |s| :: s[i] < s[j]
    requires forall i | 0 <= i < |s| :: s[i] < |s|
    requires k < |s|
    ensures s[k] == k
  {
    FromBelow(s, k);
    FromAbove(s, k);
  }

  lemma {:induction false} FromBelow(s: seq<nat>, k: nat)
    requires k < |s| && forall i, j | 0 <= i < j < |s| :: s[i] < s[j]
    ensures s[k] >= k
  {
    if k > 0 {
      FromBelow(s, k - 1);
    }
  }

  lemma {:induction false} FromAbove(s: seq<nat>, k: nat)
    requires k < |s| && forall i, j | 0 <= i < j < |s| :: s[i] < s[j]
    requires forall i | 0 <= i < |s| :: s[i] < |s|
    ensures s[k] <= k
    decreases |s| - k
  {
    if k < |s| - 1 {
      FromAbove(s, k + 1);
    }
  }

  /** The listed SSIDs appear in `ssids`, in the same order. */
  predicate Follows(listed: seq<Ssid>, ssids: seq<Ssid>) {
    && (forall i | 0 <= i < |listed| :: listed[i] in ssids)
    && (forall i, j | 0 <= i < j < |listed| :: IndexOf(ssids, listed[i]) < IndexOf(ssids, listed[j]))
  }

  lemma AppendFollows(listed: seq<Ssid>, ssids: seq<Ssid>, last: Ssid)
    requires Follows(listed, ssids) && last in ssids
    requires forall i | 0 <= i < |listed| :: IndexOf(ssids, listed[i]) < IndexOf(ssids, last)
    ensures Follows(listed + [last], ssids)
  {
  }

  lemma HigherComesFirst(ssids: seq<Ssid>, a: Profile, b: Profile)
    requires a.ssid in ssids && b.ssid in ssids && a.ssid != b.ssid && a.priority >= b.priority
    requires a.priority == PriorityFor(ssids, a.ssid) && b.priority == PriorityFor(ssids, b.ssid)
    ensures IndexOf(ssids, a.ssid) < IndexOf(ssids, b.ssid)
  {
    assert ssids[IndexOf(ssids, a.ssid)] != ssids[IndexOf(ssids, b.ssid)];
  }

  /** In a descending list whose priorities count down along `ssids`, first occurrences follow `ssids`. */
  lemma {:induction false} ListedFollows(ps: seq<Profile>, ssids: seq<Ssid>)
    requires Descending(ps) && forall p | p in ps :: p.ssid in ssids && p.priority == PriorityFor(ssids, p.ssid)
    ensures Follows(Listed(ps), ssids)
  {
    if ps != [] {
      var before, last := ps[..|ps| - 1], ps[|ps| - 1];
      ListedFollows(before, ssids);
      ListedMembers(before);
      if last.ssid !in Listed(before) {
        forall i | 0 <= i < |Listed(before)| ensures IndexOf(ssids, Listed(before)[i]) < IndexOf(ssids, last.ssid) {
          assert Listed(before)[i] in SsidSet(before);
          var p :| p in before && p.ssid == Listed(before)[i];
          HigherComesFirst(ssids, p, last);
        }
        AppendFollows(Listed(before), ssids, last.ssid);
      }
    }
  }

  lemma SameSetSameLength(a: seq<Ssid>, b: seq<Ssid>)
    requires Distinct(a) && Distinct(b) && (forall s :: s in a <==> s in b)
    ensures |a| == |b|
  {
    DistinctCount(a);
    DistinctCount(b);
    assert (set s | s in a) == (set s | s in b);
  }

  lemma {:induction false} DistinctCount(a: seq<Ssid>)
    requires Distinct(a)
    ensures |set s | s in a| == |a|
  {
    if a != [] {
      DistinctCount(a[1..]);
      assert (set s | s in a) == {a[0]} + set s | s in a[1..];
    }
  }

  /**
   * Reorder, then list: after a successful reorder, listing gives exactly `ssids` in that order.
   * That holds for any priorities, ties and duplicate profiles there were, and for
   * any order in which NetworkManager then returns its profiles.
   */
  lemma {:induction false} ReorderThenList(ps: seq<Profile>, ssids: seq<Ssid>, after: seq<Profile>)
    requires Accepts(ps, ssids)
    requires multiset(after) == multiset(Renumbered(ps, ssids))
    ensures Listed(Ordered(after)) == ssids
  {
    var sorted := Ordered(after);
    OrderedIsStableSort(after, 0);
    SameMembers(sorted, Renumbered(ps, ssids));
    RenumberedSsids(ps, ssids);
    ListedFollows(sorted, ssids);
    ListedCovers(sorted, ssids);
    FollowsExactly(Listed(sorted), ssids);
  }

  lemma SameMembers(a: seq<Profile>, b: seq<Profile>)
    requires multiset(a) == multiset(b)
    ensures forall p :: p in a <==> p in b
  {
    forall p ensures p in a <==> p in b {
      assert p in multiset(a) <==> p in multiset(b);
    }
  }

  lemma ListedCovers(ps: seq<Profile>, ssids: seq<Ssid>)
    requires (forall p | p in ps :: p.ssid in ssids) && forall s | s in ssids :: exists p :: p in ps && p.ssid == s
    ensures forall s :: s in Listed(ps) <==> s in ssids
  {
    ListedMembers(ps);
    forall s | s in ssids ensures s in SsidSet(ps) {
      var p :| p in ps && p.ssid == s;
    }
  }

  lemma FollowsExactly(listed: seq<Ssid>, ssids: seq<Ssid>)
    requires Distinct(ssids) && forall s :: s in listed <==> s in ssids
    requires Follows(listed, ssids)
    ensures listed == ssids
  {
    forall i, j | 0 <= i < j < |listed| ensures listed[i] != listed[j] {
      assert IndexOf(ssids, listed[i]) < IndexOf(ssids, listed[j]);
    }
    SameSetSameLength(listed, ssids);
    var indices: seq<nat> :=
      seq(|listed|, i requires 0 <= i < |listed| => assert listed[i] in listed; IndexOf(ssids, listed[i]));
    forall k | 0 <= k < |listed| ensures listed[k] == ssids[k] {
      StrictlyIncreasing(indices, k);
    }
  }

  lemma RenumberedSsids(ps: seq<Profile>, ssids: seq<Ssid>)
    requires Accepts(ps, ssids)
    ensures forall p | p in Renumbered(ps, ssids) :: p.ssid in ssids && p.priority == PriorityFor(ssids, p.ssid)
    ensures forall s | s in ssids :: exists p :: p in Renumbered(ps, ssids) && p.ssid == s
  {
    forall p | p in ps ensures p.ssid in ssids {
      assert p.ssid in SsidSet(ps);
      assert p.ssid in (set s | s in ssids);
    }
    forall s | s in ssids ensures exists p :: p in Renumbered(ps, ssids) && p.ssid == s {
      assert s in SsidSet(ps) by {
        assert s in (set s | s in ssids);
      }
      var q :| q in ps && q.ssid == s;
      var k :| 0 <= k < |ps| && ps[k] == q;
      assert Renumbered(ps, ssids)[k].ssid == s;
    }
  }

  // ----- Saving first -----

  /** The first profile, in NetworkManager's order, among those of highest priority. */
  ghost predicate LeadsAt(ps: seq<Profile>, i: nat) {
    && i < |ps|
    && (forall k | 0 <= k < |ps| :: ps[k].priority <= ps[i].priority)
    && (forall k | 0 <= k < i :: ps[k].priority < ps[i].priority)
  }

  lemma {:induction false} OrderedHead(ps: seq<Profile>, i: nat)
    requires LeadsAt(ps, i)
    ensures Ordered(ps) != [] && Ordered(ps)[0] == ps[i]
  {
    if i > 0 {
      OrderedHead(ps[1..], i - 1);
      assert ps[0].priority < ps[i].priority;
    } else if ps[1..] != [] {
      OrderedMembers(ps[1..]);
      assert Ordered(ps[1..])[0] in ps[1..];
    }
  }

  lemma {:induction false} ListedHead(ps: seq<Profile>)
    requires ps != []
    ensures Listed(ps) != [] && Listed(ps)[0] == ps[0].ssid
  {
    if |ps| > 1 {
      ListedHead(ps[..|ps| - 1]);
    }
  }

  /** A profile with the highest priority leads, unless an equal one comes before it. */
  lemma LeaderExists(ps: seq<Profile>, at: nat) returns (i: nat)
    requires at < |ps| && forall k | 0 <= k < |ps| :: ps[k].priority <= ps[at].priority
    ensures LeadsAt(ps, i) && i <= at && ps[i].priority == ps[at].priority
  {
    i := 0;
    while ps[i].priority < ps[at].priority
      invariant i <= at && forall k | 0 <= k < i :: ps[k].priority < ps[at].priority
      decreases at - i
    {
      i := i + 1;
    }
  }

  /**
   * A network saved as first, wherever NetworkManager inserts its profile, heads the list exactly
   * when no profile that comes before it is already at the highest priority there is.
   */
  lemma {:induction false} SavedFirstHeadsExactly(ps: seq<Profile>, pos: nat, saved: Profile)
    requires InRange(ps) && pos <= |ps| && saved.ssid !in SsidSet(ps) && saved.priority == NewPriority(ps, true)
    ensures var after := ps[..pos] + [saved] + ps[pos..];
            Listed(Ordered(after)) != []
            && (Listed(Ordered(after))[0] == saved.ssid <==> forall k | 0 <= k < pos :: ps[k].priority < MAX_PRIORITY)
  {
    var after := ps[..pos] + [saved] + ps[pos..];
    forall k | 0 <= k < |after| ensures after[k].priority <= saved.priority {
      assert after[k] == saved || after[k] in ps;
    }
    var i := LeaderExists(after, pos);
    OrderedHead(after, i);
    ListedHead(Ordered(after));
    if i < pos {
      assert after[i] == ps[i] && ps[i] in ps;
      assert ps[i].ssid in SsidSet(ps);
      assert saved.priority == MAX_PRIORITY;
    } else {
      forall k | 0 <= k < pos ensures ps[k].priority < MAX_PRIORITY {
        assert after[k] == ps[k];
      }
    }
  }

  /** It heads the list exactly when no earlier profile of another network is at the highest priority first. */
  lemma {:induction false} PromotedHeadsExactly(ps: seq<Profile>, at: nat)
    requires InRange(ps) && at < |ps|
    requires forall k | 0 <= k < at :: ps[k].ssid != ps[at].ssid
    ensures var after := ps[at := Promoted(ps, at)];
            Listed(Ordered(after)) != []
            && (Listed(Ordered(after))[0] == ps[at].ssid <==> forall k | 0 <= k < at :: ps[k].priority < MAX_PRIORITY)
  {
    var after := ps[at := Promoted(ps, at)];
    var others := ps[..at] + ps[at + 1..];
    forall k | 0 <= k < |after| ensures after[k].priority <= after[at].priority {
      if k != at {
        assert others[if k < at then k else k - 1] == ps[k];
        assert ps[k] in others && ps[k] in ps;
      }
    }
    var i := LeaderExists(after, at);
    OrderedHead(after, i);
    ListedHead(Ordered(after));
    if i < at {
      assert others[i] == ps[i] && ps[i] in others;
      assert after[at].priority == MAX_PRIORITY;
    } else {
      forall k | 0 <= k < at ensures ps[k].priority < MAX_PRIORITY {
        assert after[k] == ps[k];
      }
    }
  }

  // ----- Saving last -----

  function Above(ps: seq<Profile>, priority: int): seq<Profile> {
    if ps == [] then []
    else if ps[0].priority > priority then [ps[0]] + Above(ps[1..], priority)
    else Above(ps[1..], priority)
  }

  lemma {:induction false} InsertAmong(p: Profile, ps: seq<Profile>, low: seq<Profile>)
    requires low != [] && p.priority > low[0].priority
    ensures Insert(p, ps + low) == Insert(p, ps) + low
  {
    if ps == [] || p.priority >= ps[0].priority {
      assert [p] + (ps + low) == [p] + ps + low;
    } else {
      assert (ps + low)[1..] == ps[1..] + low;
      InsertAmong(p, ps[1..], low);
      assert [ps[0]] + (Insert(p, ps[1..]) + low) == [ps[0]] + Insert(p, ps[1..]) + low;
    }
  }

  lemma {:induction false} InsertTie(p: Profile, ps: seq<Profile>, low: seq<Profile>)
    requires (forall q | q in ps :: q.priority > p.priority) && (low == [] || low[0].priority == p.priority)
    ensures Insert(p, ps + low) == ps + [p] + low
  {
    if ps == [] {
      assert ps + low == low;
    } else {
      assert (ps + low)[1..] == ps[1..] + low;
      InsertTie(p, ps[1..], low);
      assert [ps[0]] + (ps[1..] + [p] + low) == ps + [p] + low;
    }
  }

  lemma {:induction false} TiedAll(ps: seq<Profile>, priority: int)
    ensures forall q | q in Tied(ps, priority) :: q.priority == priority && q in ps
    ensures forall q | q in Above(ps, priority) :: q.priority > priority && q in ps
  {
    if ps != [] {
      TiedAll(ps[1..], priority);
    }
  }

  lemma AboveOrdered(ps: seq<Profile>, priority: int)
    ensures forall q | q in Ordered(Above(ps, priority)) :: q.priority > priority
  {
    OrderedMembers(Above(ps, priority));
    TiedAll(ps, priority);
  }

  lemma InsertHigh(p: Profile, high: seq<Profile>, low: seq<Profile>)
    requires forall q | q in low :: q.priority < p.priority
    ensures Insert(p, high + low) == Insert(p, high) + low
  {
    if low == [] {
      assert high + low == high && Insert(p, high) + low == Insert(p, high);
    } else {
      assert low[0] in low;
      InsertAmong(p, high, low);
    }
  }

  lemma InsertLow(p: Profile, high: seq<Profile>, low: seq<Profile>)
    requires (forall q | q in high :: q.priority > p.priority) && (forall q | q in low :: q.priority == p.priority)
    ensures Insert(p, high + low) == high + ([p] + low)
  {
    assert low != [] ==> low[0] in low;
    InsertTie(p, high, low);
    assert high + [p] + low == high + ([p] + low);
  }

  /** The profiles of lowest priority come last, in their order. */
  lemma {:induction false} LowestComeLast(ps: seq<Profile>, lowest: int)
    requires forall q | q in ps :: q.priority >= lowest
    ensures Ordered(ps) == Ordered(Above(ps, lowest)) + Tied(ps, lowest)
  {
    if ps != [] {
      LowestComeLast(ps[1..], lowest);
      AboveOrdered(ps[1..], lowest);
      TiedAll(ps[1..], lowest);
      var high, low := Ordered(Above(ps[1..], lowest)), Tied(ps[1..], lowest);
      if ps[0].priority > lowest {
        assert Above(ps, lowest)[1..] == Above(ps[1..], lowest);
        InsertHigh(ps[0], high, low);
      } else {
        InsertLow(ps[0], high, low);
      }
    }
  }

  lemma {:induction false} TiedAppend(a: seq<Profile>, b: seq<Profile>, priority: int)
    ensures Tied(a + b, priority) == Tied(a, priority) + Tied(b, priority)
    ensures Above(a + b, priority) == Above(a, priority) + Above(b, priority)
  {
    if a == [] {
      assert a + b == b;
    } else {
      assert (a + b)[1..] == a[1..] + b;
      TiedAppend(a[1..], b, priority);
    }
  }

  lemma {:induction false} ListedGrows(ps: seq<Profile>, low: seq<Profile>)
    ensures Listed(ps) <= Listed(ps + low)
    ensures (forall q | q in low :: q.ssid in Listed(ps)) ==> Listed(ps + low) == Listed(ps)
  {
    if low == [] {
      assert ps + low == ps;
    } else {
      assert (ps + low)[..|ps + low| - 1] == ps + low[..|low| - 1];
      ListedGrows(ps, low[..|low| - 1]);
    }
  }

  lemma ListedGains(ps: seq<Profile>, low: seq<Profile>, q: Profile)
    requires q in low && q.ssid !in Listed(ps)
    ensures |Listed(ps + low)| > |Listed(ps)|
  {
    ListedGrows(ps, low);
    ListedAre(ps + low);
    assert q in ps + low;
    assert q.ssid in Listed(ps + low);
  }

  /** Appending profiles to a list leaves its last SSID last exactly when they bring no new SSID. */
  lemma ListedLast(ps: seq<Profile>, low: seq<Profile>, last: Ssid)
    requires Listed(ps) != [] && Listed(ps)[|Listed(ps)| - 1] == last
    ensures Listed(ps + low) != []
    ensures Listed(ps + low)[|Listed(ps + low)| - 1] == last <==> forall q | q in low :: q.ssid in Listed(ps)
  {
    ListedGrows(ps, low);
    if q :| q in low && q.ssid !in Listed(ps) {
      ListedGains(ps, low, q);
      ListedMembers(ps + low);
      assert Listed(ps + low)[|Listed(ps)| - 1] == last;
    }
  }

  /**
   * A network saved as last, wherever NetworkManager inserts its profile, ends the list exactly when
   * every later profile at the same lowest priority is a duplicate of a network listed before it.
   */
  lemma {:induction false} SavedLastEndsExactly(ps: seq<Profile>, pos: nat, saved: Profile)
    requires InRange(ps) && pos <= |ps| && saved.ssid !in SsidSet(ps) && saved.priority == NewPriority(ps, false)
    ensures var after := ps[..pos] + [saved] + ps[pos..];
            var listed := Listed(Ordered(after));
            && listed != []
            && (listed[|listed| - 1] == saved.ssid <==>
                forall q | q in Tied(ps[pos..], saved.priority) ::
                  exists p :: p in ps[..pos] + Above(ps[pos..], saved.priority) && p.ssid == q.ssid)
  {
    var after := ps[..pos] + [saved] + ps[pos..];
    var low := saved.priority;
    forall q | q in after ensures q.priority >= low {
      assert q == saved || q in ps;
    }
    SplitAtSaved(ps, pos, saved);
    var before := Ordered(Above(ps[..pos] + ps[pos..], low)) + Tied(ps[..pos], low);
    BeforeSaved(ps, pos, saved, before);
    assert (before + [saved])[..|before|] == before;
    assert Listed(before + [saved]) == Listed(before) + [saved.ssid];
    ListedLast(before + [saved], Tied(ps[pos..], low), saved.ssid);
    NewcomersAmongTied(ps, pos, saved, before);
  }

  lemma NewcomersAmongTied(ps: seq<Profile>, pos: nat, saved: Profile, before: seq<Profile>)
    requires pos <= |ps| && saved.ssid !in SsidSet(ps)
    requires forall s :: s in Listed(before) <==> exists p :: p in ps[..pos] + Above(ps[pos..], saved.priority) && p.ssid == s
    ensures (forall q | q in Tied(ps[pos..], saved.priority) :: q.ssid in Listed(before) + [saved.ssid])
            <==> forall q | q in Tied(ps[pos..], saved.priority) ::
                   exists p :: p in ps[..pos] + Above(ps[pos..], saved.priority) && p.ssid == q.ssid
  {
    TiedAll(ps[pos..], saved.priority);
    forall q | q in Tied(ps[pos..], saved.priority) ensures q.ssid != saved.ssid {
      assert q in ps && q.ssid in SsidSet(ps);
    }
  }

  lemma SplitAtSaved(ps: seq<Profile>, pos: nat, saved: Profile)
    requires pos <= |ps| && forall q | q in ps[..pos] + [saved] + ps[pos..] :: q.priority >= saved.priority
    ensures Ordered(ps[..pos] + [saved] + ps[pos..])
            == Ordered(Above(ps[..pos] + ps[pos..], saved.priority)) + Tied(ps[..pos], saved.priority) + [saved]
               + Tied(ps[pos..], saved.priority)
  {
    LowestComeLast(ps[..pos] + [saved] + ps[pos..], saved.priority);
    AroundSaved(ps[..pos], saved, ps[pos..]);
    var high := Ordered(Above(ps[..pos] + ps[pos..], saved.priority));
    var a, b := Tied(ps[..pos], saved.priority), Tied(ps[pos..], saved.priority);
    assert high + (a + [saved] + b) == high + a + [saved] + b;
  }

  lemma AroundSaved(a: seq<Profile>, saved: Profile, b: seq<Profile>)
    ensures Above(a + [saved] + b, saved.priority) == Above(a + b, saved.priority)
    ensures Tied(a + [saved] + b, saved.priority) == Tied(a, saved.priority) + [saved] + Tied(b, saved.priority)
  {
    OneTied(saved);
    TiedAppend(a + [saved], b, saved.priority);
    TiedAppend(a, [saved], saved.priority);
    TiedAppend(a, b, saved.priority);
    assert Above(a, saved.priority) + [] == Above(a, saved.priority);
  }

  lemma OneTied(p: Profile)
    ensures Tied([p], p.priority) == [p] && Above([p], p.priority) == []
  {
    assert [p][1..] == [];
  }

  /** What precedes the saved profile is listed, and has none of its SSID. */
  lemma BeforeSaved(ps: seq<Profile>, pos: nat, saved: Profile, before: seq<Profile>)
    requires pos <= |ps| && saved.ssid !in SsidSet(ps)
    requires before == Ordered(Above(ps[..pos] + ps[pos..], saved.priority)) + Tied(ps[..pos], saved.priority)
    requires forall q | q in ps :: q.priority >= saved.priority
    ensures forall s :: s in Listed(before) <==> exists p :: p in ps[..pos] + Above(ps[pos..], saved.priority) && p.ssid == s
    ensures saved.ssid !in Listed(before)
  {
    var low := saved.priority;
    OrderedMembers(Above(ps[..pos] + ps[pos..], low));
    TiedAppend(ps[..pos], ps[pos..], low);
    TiedAll(ps[pos..], low);
    AboveOrTied(ps[..pos], low);
    assert forall p :: p in before <==> p in ps[..pos] + Above(ps[pos..], low);
    ListedAre(before);
    forall p | p in before ensures p.ssid != saved.ssid {
      assert p in ps && p.ssid in SsidSet(ps);
    }
  }

  lemma {:induction false} AboveOrTied(ps: seq<Profile>, low: int)
    requires forall q | q in ps :: q.priority >= low
    ensures forall p :: p in ps <==> p in Above(ps, low) || p in Tied(ps, low)
  {
    if ps != [] {
      AboveOrTied(ps[1..], low);
      assert forall p :: p in ps <==> p == ps[0] || p in ps[1..];
    }
  }

  lemma ListedAre(ps: seq<Profile>)
    ensures forall s :: s in Listed(ps) <==> exists p :: p in ps && p.ssid == s
  {
    ListedMembers(ps);
  }
}
