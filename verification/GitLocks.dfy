/**
 * The sweep of stale git lock files before an update (`adapters/git_uv_updater.py`): a lock is
 * removed only when the checkout marker accounts for it, or when this process has watched it long enough.
 */
module GitLocks {
  import opened Prelude

  type Path = string
  type Time = real

  const STALE_LOCK_MIN_AGE_SECONDS: Time := 600.0

  /**
   * What one sweep finds.
   *   candidates: the fixed lock names, then every `*.lock` under `refs/`
   *   files: the lock files that exist, with their modification time
   *   marker: the checkout marker's modification time, if there is one
   *   now: this process's monotonic clock
   *   stuck: locks that cannot be unlinked
   */
  datatype Sweep = Sweep(candidates: seq<Path>, files: map<Path, Time>, marker: Option<Time>, now: Time, stuck: set<Path>)

  predicate Present(s: Sweep, p: Path) {
    p in s.candidates && p in s.files
  }

  /** The lock predates the marker, hence this updater's last attempt. */
  predicate ViaMarker(s: Sweep, p: Path) {
    p in s.files && s.marker.Some? && s.files[p] <= s.marker.value
  }

  /** When this process first saw the lock, counting this sweep. */
  function SeenSince(seen: map<Path, Time>, s: Sweep, p: Path): Time {
    if p in seen then seen[p] else s.now
  }

  predicate Stale(seen: map<Path, Time>, s: Sweep, p: Path) {
    ViaMarker(s, p) || s.now - SeenSince(seen, s, p) >= STALE_LOCK_MIN_AGE_SECONDS
  }

  predicate Removed(seen: map<Path, Time>, s: Sweep, p: Path) {
    Present(s, p) && Stale(seen, s, p) && p !in s.stuck
  }

  /** The first-seen times after one sweep. */
  function SeenAfter(seen: map<Path, Time>, s: Sweep): map<Path, Time> {
    map p | p in s.candidates && Present(s, p) && !Removed(seen, s, p) && (p in seen || !ViaMarker(s, p)) ::
      SeenSince(seen, s, p)
  }

  class LockSweeper {
    var lockFirstSeen: map<Path, Time>

    constructor ()
      ensures lockFirstSeen == map[]
    {
      lockFirstSeen := map[];
    }

    /** Forget the locks that no longer exist, so that one that comes back is newly seen. */
    method Prune(s: Sweep)
      modifies this
      ensures lockFirstSeen == map p | p in old(lockFirstSeen) && Present(s, p) :: old(lockFirstSeen)[p]
    {
      ghost var before := lockFirstSeen;
      var left := lockFirstSeen.Keys;
      while left != {}
        invariant left <= lockFirstSeen.Keys <= before.Keys
        invariant forall p | p in lockFirstSeen :: lockFirstSeen[p] == before[p]
        invariant forall p | p in before :: if p in left then p in lockFirstSeen else p in lockFirstSeen <==> Present(s, p)
        decreases left
      {
        var tracked :| tracked in left;
        left := left - {tracked};
        if tracked !in s.candidates || tracked !in s.files {
          lockFirstSeen := lockFirstSeen - {tracked};
        }
      }
    }

    /** One candidate's turn. */
    method SweepOne(s: Sweep, path: Path) returns (gone: bool)
      modifies this
      ensures gone <==> path in s.files && Stale(old(lockFirstSeen), s, path) && path !in s.stuck
      ensures forall p | p != path :: Get(lockFirstSeen, p) == old(Get(lockFirstSeen, p))
      ensures Get(lockFirstSeen, path)
              == (if path !in s.files || (!gone && ViaMarker(s, path)) then old(Get(lockFirstSeen, path))
                  else if gone then None else Some(SeenSince(old(lockFirstSeen), s, path)))
    {
      if path !in s.files {
        return false;
      }
      var attributable := true;
      if !(s.marker.Some? && s.files[path] <= s.marker.value) {
        if path !in lockFirstSeen {
          lockFirstSeen := lockFirstSeen[path := s.now];
        }
        attributable := s.now - lockFirstSeen[path] >= STALE_LOCK_MIN_AGE_SECONDS;
      }
      gone := attributable && path !in s.stuck;
      if gone {
        lockFirstSeen := lockFirstSeen - {path};
      }
    }

    method SweepStaleLocks(s: Sweep) returns (removed: set<Path>)
      requires forall i, j | 0 <= i < j < |s.candidates| :: s.candidates[i] != s.candidates[j]
      modifies this
      ensures forall p :: p in removed <==> Removed(old(lockFirstSeen), s, p)
      ensures lockFirstSeen == SeenAfter(old(lockFirstSeen), s)
    {
      ghost var before := lockFirstSeen;
      Prune(s);
      removed := {};
      for i := 0 to |s.candidates|
        invariant forall k | 0 <= k < i :: s.candidates[k] in removed <==> Removed(before, s, s.candidates[k])
        invariant forall p | p in removed :: Removed(before, s, p) && p in s.candidates[..i]
        invariant forall k | i <= k < |s.candidates| ::
          Get(lockFirstSeen, s.candidates[k]) == if Present(s, s.candidates[k]) then Get(before, s.candidates[k]) else None
        invariant forall k | 0 <= k < i ::
          Get(lockFirstSeen, s.candidates[k]) == Get(SeenAfter(before, s), s.candidates[k])
        invariant forall p | p in lockFirstSeen :: p in s.candidates
      {
        var path := s.candidates[i];
        ghost var was := lockFirstSeen;
        var gone := SweepOne(s, path);
        forall p | p in lockFirstSeen ensures p == path || p in was {
          assert p != path ==> Get(lockFirstSeen, p) == Get(was, p);
        }
        OnePath(before, s, path);
        if gone {
          removed := removed + {path};
        }
      }
      SameFirstSeen(lockFirstSeen, SeenAfter(before, s), s.candidates);
    }
  }

  /** What a sweep does about one lock. */
  lemma OnePath(seen: map<Path, Time>, s: Sweep, p: Path)
    requires p in s.candidates
    ensures Get(SeenAfter(seen, s), p)
            == if p !in s.files || Removed(seen, s, p) then None
               else if ViaMarker(s, p) then Get(seen, p)
               else Some(SeenSince(seen, s, p))
  {
  }

  lemma SameFirstSeen(a: map<Path, Time>, b: map<Path, Time>, candidates: seq<Path>)
    requires forall p | p in a || p in b :: p in candidates
    requires forall k | 0 <= k < |candidates| :: Get(a, candidates[k]) == Get(b, candidates[k])
    ensures a == b
  {
    forall p | p in a || p in b ensures p in a && p in b && a[p] == b[p] {
      var k :| 0 <= k < |candidates| && candidates[k] == p;
      assert Get(a, candidates[k]) == Get(b, candidates[k]);
    }
    assert a.Keys == b.Keys;
  }

  // ----- Runs -----

  /** The first-seen times after the sweeps of one process. */
  function Seen(sweeps: seq<Sweep>): map<Path, Time> {
    if sweeps == [] then map[] else SeenAfter(Seen(sweeps[..|sweeps| - 1]), sweeps[|sweeps| - 1])
  }

  /** From sweep `i` on, every sweep found the lock and left it. */
  ghost predicate Watched(sweeps: seq<Sweep>, i: nat, p: Path) {
    && i < |sweeps|
    && forall k | i <= k < |sweeps| :: Present(sweeps[k], p) && !Removed(Seen(sweeps[..k]), sweeps[k], p)
  }

  lemma {:induction false} WatchedLonger(sweeps: seq<Sweep>, i: nat, p: Path)
    requires |sweeps| > 0 && Watched(sweeps[..|sweeps| - 1], i, p)
    requires Present(sweeps[|sweeps| - 1], p) && !Removed(Seen(sweeps[..|sweeps| - 1]), sweeps[|sweeps| - 1], p)
    ensures Watched(sweeps, i, p)
  {
    var before := sweeps[..|sweeps| - 1];
    forall k | i <= k < |sweeps|
      ensures Present(sweeps[k], p) && !Removed(Seen(sweeps[..k]), sweeps[k], p)
    {
      if k < |before| {
        assert before[..k] == sweeps[..k] && before[k] == sweeps[k];
      }
    }
  }

  /** A first-seen time is the time of a sweep since which the lock was there all along. */
  lemma {:induction false} SeenIsWatched(sweeps: seq<Sweep>, p: Path) returns (i: nat)
    requires p in Seen(sweeps)
    ensures Watched(sweeps, i, p) && sweeps[i].now == Seen(sweeps)[p]
  {
    var before, s := sweeps[..|sweeps| - 1], sweeps[|sweeps| - 1];
    if p in Seen(before) {
      i := SeenIsWatched(before, p);
      WatchedLonger(sweeps, i, p);
    } else {
      i := |before|;
    }
  }

  /**
   * A lock newer than the checkout marker, such as that of an operator's git command, is never
   * removed unless it was there at every sweep of a span of at least 600 seconds.
   */
  lemma {:induction false} LiveLocksAreSpared(sweeps: seq<Sweep>, s: Sweep, p: Path) returns (i: nat)
    requires Removed(Seen(sweeps), s, p) && !ViaMarker(s, p)
    ensures Watched(sweeps, i, p) && s.now - sweeps[i].now >= STALE_LOCK_MIN_AGE_SECONDS
  {
    i := SeenIsWatched(sweeps, p);
  }

  lemma {:induction false} WatchedIsSeen(sweeps: seq<Sweep>, i: nat, p: Path)
    requires Watched(sweeps, i, p) && !ViaMarker(sweeps[i], p)
    requires forall k | i <= k < |sweeps| :: sweeps[i].now <= sweeps[k].now
    ensures p in Seen(sweeps) && (p in Seen(sweeps[..i]) || Seen(sweeps)[p] == sweeps[i].now)
    ensures p in Seen(sweeps[..i]) ==> Seen(sweeps)[p] == Seen(sweeps[..i])[p]
  {
    var before := sweeps[..|sweeps| - 1];
    assert !Removed(Seen(before), sweeps[|sweeps| - 1], p) && Present(sweeps[|sweeps| - 1], p);
    if i < |before| {
      forall k | i <= k < |before| ensures Present(before[k], p) && !Removed(Seen(before[..k]), before[k], p) {
        assert before[..k] == sweeps[..k];
      }
      WatchedIsSeen(before, i, p);
      assert before[..i] == sweeps[..i];
    }
  }

  /** A lock that was first found at sweep `i`, and is still there 600 seconds later, is removed if it can be. */
  lemma {:induction false} StaleLocksAreRemoved(sweeps: seq<Sweep>, s: Sweep, i: nat, p: Path)
    requires Watched(sweeps, i, p) && !ViaMarker(sweeps[i], p) && p !in Seen(sweeps[..i])
    requires forall k | i <= k < |sweeps| :: sweeps[i].now <= sweeps[k].now
    requires s.now - sweeps[i].now >= STALE_LOCK_MIN_AGE_SECONDS
    ensures Removed(Seen(sweeps), s, p) <==> Present(s, p) && p !in s.stuck
  {
    WatchedIsSeen(sweeps, i, p);
  }
}
