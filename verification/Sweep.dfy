/**
 * The periodic check for app updates (`core/periodic.py`): what it derives from one reading of the
 * ledger, and what reaches the ledger that it finds when the network calls are over.
 */
module Sweep {
  import opened Prelude
  import opened Ledger

  /** What asking a repository gives: its newest commit, a refused credential, or some other failure. */
  datatype Check = Found(available: bool, commit: Option<string>) | CredentialRefused | Unreachable

  /** Apps that follow a branch and whose credential is not already marked. */
  predicate Asked<V, M>(r: AppRecord<V, M>) {
    r.source.Git? && r.source.refKind.Branch? && !r.credentialRejected
  }

  function ScopeOf<V, M>(r: AppRecord<V, M>): Option<string> {
    if r.source.Git? then r.source.url.hostOwner else None
  }

  /** The credential of this app is a stored one, and was refused. */
  predicate Refuses<V, M>(r: AppRecord<V, M>, check: Check, stored: set<string>) {
    Asked(r) && check.CredentialRefused? && ScopeOf(r).Some? && ScopeOf(r).value in stored
  }

  predicate RefusedScope<V, M>(s: AppsState<V, M>, checks: map<AppId, Check>, stored: set<string>, scope: string)
    requires s.apps.Keys <= checks.Keys
  {
    exists n :: n in s.apps && Refuses(s.apps[n], checks[n], stored) && ScopeOf(s.apps[n]) == Some(scope)
  }

  function Marked<V, M>(r: AppRecord<V, M>): SweepResult {
    SweepResult(r.updateAvailable, r.latestCommit, true)
  }

  predicate News<V, M>(r: AppRecord<V, M>, check: Check) {
    Asked(r) && check.Found? && (check.available != r.updateAvailable || check.commit != r.latestCommit)
  }

  /** What the sweep wants to write for one app, if anything. */
  function UpdateFor<V, M>(s: AppsState<V, M>, checks: map<AppId, Check>, stored: set<string>, n: AppId)
    : Option<SweepResult>
    requires s.apps.Keys <= checks.Keys && n in s.apps
  {
    var r := s.apps[n];
    if Refuses(r, checks[n], stored) then Some(Marked(r))
    else if News(r, checks[n]) then Some(SweepResult(checks[n].available, checks[n].commit, r.credentialRejected))
    else if !r.credentialRejected && ScopeOf(r).Some? && RefusedScope(s, checks, stored, ScopeOf(r).value) then Some(Marked(r))
    else None
  }

  /** What an app's own check gives, before the refusals of other apps are looked at. */
  predicate OwnUpdate<V, M>(s: AppsState<V, M>, checks: map<AppId, Check>, stored: set<string>, n: AppId)
    requires s.apps.Keys <= checks.Keys && n in s.apps
  {
    Refuses(s.apps[n], checks[n], stored) || News(s.apps[n], checks[n])
  }

  /** The first loop: each app's own check, and the scopes that were refused. */
  method CheckEach<V, M>(s: AppsState<V, M>, checks: map<AppId, Check>, stored: set<string>)
    returns (updates: map<AppId, SweepResult>, refused: set<string>)
    requires s.apps.Keys <= checks.Keys
    ensures updates.Keys <= s.apps.Keys
    ensures forall n | n in s.apps ::
              Get(updates, n) == if OwnUpdate(s, checks, stored, n) then UpdateFor(s, checks, stored, n) else None
    ensures forall scope :: scope in refused <==> RefusedScope(s, checks, stored, scope)
  {
    updates, refused := map[], {};
    var left := s.apps.Keys;
    while left != {}
      invariant left <= s.apps.Keys && updates.Keys <= s.apps.Keys - left
      invariant forall n | n in s.apps && n !in left ::
        Get(updates, n) == if OwnUpdate(s, checks, stored, n) then UpdateFor(s, checks, stored, n) else None
      invariant forall scope :: scope in refused <==>
        exists n :: n in s.apps && n !in left && Refuses(s.apps[n], checks[n], stored) && ScopeOf(s.apps[n]) == Some(scope)
      decreases left
    {
      var n :| n in left;
      left := left - {n};
      var r := s.apps[n];
      if Asked(r) {
        match checks[n] {
          case CredentialRefused =>
            if ScopeOf(r).Some? && ScopeOf(r).value in stored {
              refused := refused + {ScopeOf(r).value};
              updates := updates[n := Marked(r)];
            }
          case Found(available, commit) =>
            if available != r.updateAvailable || commit != r.latestCommit {
              updates := updates[n := SweepResult(available, commit, r.credentialRejected)];
            }
          case Unreachable =>
        }
      }
    }
  }

  /** Both loops of the sweep, in whatever order the apps come. */
  method Derive<V, M>(s: AppsState<V, M>, checks: map<AppId, Check>, stored: set<string>)
    returns (updates: map<AppId, SweepResult>)
    requires s.apps.Keys <= checks.Keys
    ensures updates.Keys <= s.apps.Keys
    ensures forall n | n in s.apps :: Get(updates, n) == UpdateFor(s, checks, stored, n)
  {
    var refused;
    updates, refused := CheckEach(s, checks, stored);
    var left := s.apps.Keys;
    while left != {}
      invariant left <= s.apps.Keys && updates.Keys <= s.apps.Keys
      invariant forall n | n in s.apps ::
        Get(updates, n) == if n !in left || OwnUpdate(s, checks, stored, n) then UpdateFor(s, checks, stored, n) else None
      decreases left
    {
      var n :| n in left;
      left := left - {n};
      var r := s.apps[n];
      assert n in updates <==> Get(updates, n).Some?;
      if n !in updates && !r.credentialRejected && ScopeOf(r).Some? && ScopeOf(r).value in refused {
        updates := updates[n := Marked(r)];
      }
    }
  }

  /**
   * The whole sweep. `read` is the ledger at the first locked section, `current` the one at the
   * second; a lock that cannot be had means that nothing is written.
   */
  method RunGitCheckSweep<V, M>(readLocked: bool, read: AppsState<V, M>, checks: map<AppId, Check>, stored: set<string>,
                                writeLocked: bool, current: AppsState<V, M>) returns (after: AppsState<V, M>)
    requires read.apps.Keys <= checks.Keys
    ensures after.apps.Keys == current.apps.Keys
    ensures after == current.(apps := after.apps)
    ensures forall n | n in current.apps :: SameButSwept(current.apps[n], after.apps[n])
    ensures forall n | n in current.apps ::
              SweepResult(after.apps[n].updateAvailable, after.apps[n].latestCommit, after.apps[n].credentialRejected)
              == if readLocked && writeLocked && n in read.apps && UpdateFor(read, checks, stored, n).Some?
                 then UpdateFor(read, checks, stored, n).value
                 else SweepResult(current.apps[n].updateAvailable, current.apps[n].latestCommit,
                                  current.apps[n].credentialRejected)
  {
    after := current;
    if !readLocked {
      return;
    }
    var updates := Derive(read, checks, stored);
    forall n | n in read.apps ensures n in updates <==> UpdateFor(read, checks, stored, n).Some? {
      assert Get(updates, n) == UpdateFor(read, checks, stored, n);
    }
    if updates == map[] || !writeLocked {
      return;
    }
    SweepTouchesThreeFields(current, updates);
    after := Write(current, SweepMerge(updates));
    forall n | n in read.apps && n in updates ensures updates[n] == UpdateFor(read, checks, stored, n).value {
      assert Get(updates, n) == UpdateFor(read, checks, stored, n);
    }
  }

  /** One refused credential marks every app in its scope, except one whose own check brought news. */
  lemma RefusalReachesTheScope<V, M>(s: AppsState<V, M>, checks: map<AppId, Check>, stored: set<string>, n: AppId,
                                     scope: string)
    requires s.apps.Keys <= checks.Keys && n in s.apps && ScopeOf(s.apps[n]) == Some(scope)
    requires RefusedScope(s, checks, stored, scope) && !s.apps[n].credentialRejected
    ensures UpdateFor(s, checks, stored, n).Some?
    ensures UpdateFor(s, checks, stored, n).value.credentialRejected <==> !News(s.apps[n], checks[n])
  {
  }
}
