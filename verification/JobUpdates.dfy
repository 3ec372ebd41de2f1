/**
 * Settings, sweeps and a running job, in whole runs of the job protocol: what the ledger holds when
 * an install, an update or a delete ends, whatever landed while it ran.
 */
module JobUpdates {
  import opened Prelude
  import opened Ledger
  import opened JobProtocol
  import opened JobSafety
  import opened JobRecovery
  import Values

  type SettingsWrite = LedgerWrite<Values.Raw>

  /** The settings writes, sweeps and progress writes among some events, in order. */
  function WritesIn(events: seq<Event>): seq<SettingsWrite> {
    if events == [] then []
    else
      var before := WritesIn(events[..|events| - 1]);
      var e := events[|events| - 1];
      if e.Wrote? then before + [e.write] else before
  }

  /**
   * The stretches of a job in which it writes nothing: from the recorded install or update to its
   * registering write, from there to its last step, and a delete that has dropped its record.
   */
  datatype Phase = Building | Registered | Deleting

  predicate InPhase(pc: Pc, j: Job, phase: Phase) {
    match phase
    case Building => Recorded(pc) && pc.job == j && j.kind != Delete
    case Registered => pc.JobRegistered? && pc.job == j
    case Deleting => Dropped(pc) && pc.job == j
  }

  /** Thread `t` works on job `j`. */
  predicate Working(w: World, t: Tid, j: Job, phase: Phase) {
    w.portal.Serving? && t in w.threads && InPhase(w.threads[t], j, phase)
  }

  /** A write of the thread itself ends the stretch. */
  lemma WritesEndPhases(s: State, pc: Pc, op: LedgerOp, next: Pc, j: Job, phase: Phase)
    requires WriteFits(s, pc, op, next) && InPhase(pc, j, phase)
    ensures !InPhase(next, j, phase)
  {
  }

  lemma OwnMoveWritesNothing(w: World, t: Tid, act: Act, j: Job, phase: Phase)
    requires Working(w, t, j, phase)
    requires var m := ThreadMove(w, w.threads[t], act); m.Does? && InPhase(m.next, j, phase)
    ensures !ThreadMove(w, w.threads[t], act).effect.Commit?
  {
    var m := ThreadMove(w, w.threads[t], act);
    MovesStepsLedger(w, w.threads[t], act);
    if m.effect.Commit? {
      WritesEndPhases(w.ledger, w.threads[t], m.effect.op, m.next, j, phase);
    }
  }

  lemma PhasesHoldTheLock(pc: Pc, j: Job, phase: Phase)
    requires InPhase(pc, j, phase)
    ensures HoldsApps(pc) || pc.JobUncontainedFail?
  {
  }

  lemma OtherMoveWritesNothing(w: World, u: Tid, act: Act, t: Tid, j: Job, phase: Phase)
    requires LocksAgree(w) && IdsApart(w) && OneUncontained(w)
    requires Working(w, t, j, phase) && u != t && u in w.threads
    ensures var m := ThreadMove(w, w.threads[u], act); m.Does? ==> !m.effect.Commit?
  {
    var m := ThreadMove(w, w.threads[u], act);
    if m.Does? {
      PhasesHoldTheLock(w.threads[t], j, phase);
      MovesAreDisciplined(w, w.threads[u], act);
      MovesKeepsToJob(w, w.threads[u], act);
      MovesStepsLedger(w, w.threads[u], act);
      OnlyOneWorks(w, u, m.effect, m.next, t);
    }
  }

  /** While a job works, one event changes the ledger only by a settings write. */
  lemma EventDuringJob(w: World, e: Event, t: Tid, j: Job, phase: Phase)
    requires Sound(w) && Working(w, t, j, phase)
    requires Next(w, e).Some? && Working(Next(w, e).value, t, j, phase)
    ensures Next(w, e).value.ledger == if e.Wrote? then Write(w.ledger, e.write) else w.ledger
  {
    if e.Thread? {
      if e.t == t {
        OwnMoveWritesNothing(w, t, e.act, j, phase);
      } else {
        OtherMoveWritesNothing(w, e.t, e.act, t, j, phase);
      }
    }
  }

  /** The job works in every state from the `p`-th on. */
  ghost predicate WorkingFrom(events: seq<Event>, p: nat, t: Tid, j: Job, phase: Phase) {
    && p <= |events| && Run(events).Some?
    && forall q | p <= q <= |events| :: Run(events[..q]).Some? && Working(Run(events[..q]).value, t, j, phase)
  }

  lemma WorkingBefore(events: seq<Event>, p: nat, t: Tid, j: Job, phase: Phase)
    requires WorkingFrom(events, p, t, j, phase)
    ensures Working(Run(events).value, t, j, phase)
    ensures p < |events| ==> WorkingFrom(events[..|events| - 1], p, t, j, phase)
  {
    assert events[..|events|] == events;
    if p < |events| {
      var before := events[..|events| - 1];
      forall q | p <= q <= |before| ensures Run(before[..q]).Some? && Working(Run(before[..q]).value, t, j, phase) {
        assert before[..q] == events[..q];
      }
    }
  }

  lemma WritesInGrows(events: seq<Event>, p: nat)
    requires p < |events|
    ensures var before, e := WritesIn(events[..|events| - 1][p..]), events[|events| - 1];
            WritesIn(events[p..]) == if e.Wrote? then before + [e.write] else before
  {
    assert events[p..][..|events[p..]| - 1] == events[..|events| - 1][p..];
  }

  /** Through each stretch of a job, the ledger is the one it began with, and the settings writes since. */
  lemma {:induction false} LedgerDuringJob(events: seq<Event>, p: nat, t: Tid, j: Job, phase: Phase)
    requires WorkingFrom(events, p, t, j, phase)
    ensures Run(events[..p]).Some?
    ensures Run(events).value.ledger == WriteAll(Run(events[..p]).value.ledger, WritesIn(events[p..]))
  {
    if p == |events| {
      assert events[..p] == events && events[p..] == [];
    } else {
      var before, e := events[..|events| - 1], events[|events| - 1];
      WorkingBefore(events, p, t, j, phase);
      WorkingBefore(before, p, t, j, phase);
      LedgerDuringJob(before, p, t, j, phase);
      assert before[..p] == events[..p];
      RunKeepsSound(before);
      EventDuringJob(Run(before).value, e, t, j, phase);
      WritesInGrows(events, p);
      var ws := WritesIn(before[p..]);
      assert e.Wrote? ==> (ws + [e.write])[..|ws + [e.write]| - 1] == ws;
    }
  }

  // ----- What a job knows as it goes -----

  lemma BegunUpdateIsCurrent(events: seq<Event>, t: Tid, j: Job)
    requires Run(events).Some? && t in Run(events).value.threads && Run(events).value.threads[t] == JobBegun(j)
    ensures var s := Run(events).value.ledger; s.currentJobApp == Some(j.app) && (j.app in s.apps <==> j.kind != Install)
  {
    ThreadFacts(events, t);
  }

  /** After its registering write, a thread stays where it is until its last step. */
  lemma RegisteredStays(w: World, e: Event, t: Tid, j: Job)
    requires Working(w, t, j, Registered) && Next(w, e).Some? && Working(Next(w, e).value, t, j, Registered)
    ensures Next(w, e).value.threads[t] == w.threads[t]
  {
  }

  lemma {:induction false} RegisteredRecord(events: seq<Event>, p: nat, t: Tid, j: Job)
    requires WorkingFrom(events, p, t, j, Registered)
    ensures Run(events[..p]).Some? && t in Run(events[..p]).value.threads && t in Run(events).value.threads
    ensures Run(events).value.threads[t] == Run(events[..p]).value.threads[t]
  {
    WorkingBefore(events, p, t, j, Registered);
    if p == |events| {
      assert events[..p] == events;
    } else {
      var before := events[..|events| - 1];
      WorkingBefore(before, p, t, j, Registered);
      RegisteredRecord(before, p, t, j);
      assert before[..p] == events[..p];
      RegisteredStays(Run(before).value, events[|events| - 1], t, j);
    }
  }

  lemma RegisterCommits(w: World, t: Tid, j: Job, record: Record)
    requires w.portal.Serving? && t in w.threads && w.threads[t] == JobSwapped(j) && IsDoneRecord(record, j)
    ensures Next(w, Thread(t, Register(record)))
            == Some(After(w, t, Commit(OpRegister(j, record)), JobRegistered(j, record)))
  {
    assert ThreadMove(w, JobSwapped(j), Register(record)) == Does(Commit(OpRegister(j, record)), JobRegistered(j, record));
  }

  lemma LastMoveOfUpdate(w: World, j: Job, record: Record, act: Act)
    requires IsDoneRecord(record, j) && j.kind == Update
    ensures var m := ThreadMove(w, JobRegistered(j, record), act);
            m.Does? && m.effect == if act == Go then Nothing else Commit(OpRegister(j, WithLeftover(record)))
  {
  }

  lemma LastStepOfUpdate(w: World, t: Tid, j: Job, record: Record, act: Act)
    requires w.portal.Serving? && t in w.threads && w.threads[t] == JobRegistered(j, record)
    requires IsDoneRecord(record, j) && j.kind == Update
    ensures var n := Next(w, Thread(t, act));
            n.Some? && n.value.ledger == if act == Go then w.ledger else WriteOwnRecord(w.ledger, j.app, WithLeftover(record), true)
  {
    LastMoveOfUpdate(w, j, record, act);
  }

  // ----- Installs and updates -----

  /**
   * An install, in whole runs: the new record is the job's, every other app's is its last accepted
   * writers', and settings for the app that does not exist yet leave nothing behind.
   */
  lemma {:induction false} InstallAddsItsRecord(events: seq<Event>, p: nat, t: Tid, j: Job, record: Record)
    requires WorkingFrom(events, p, t, j, Building) && j.kind == Install && IsDoneRecord(record, j)
    requires Run(events[..p]).value.threads[t] == JobBegun(j) && t in Run(events).value.threads
    requires Run(events).value.threads[t] == JobSwapped(j)
    ensures var was, ws := Run(events[..p]).value.ledger, WritesIn(events[p..]);
            var n := Next(Run(events).value, Thread(t, Register(record)));
            && j.app !in was.apps && n.Some?
            && n.value.ledger == JustApps(WriteAll(was, ws).apps[j.app := record])
            && OthersLanded(was, ws, j.app, n.value.ledger)
  {
    var was, ws := Run(events[..p]).value.ledger, WritesIn(events[p..]);
    LedgerDuringJob(events, p, t, j, Building);
    BegunUpdateIsCurrent(events[..p], t, j);
    WorkingBefore(events, p, t, j, Building);
    RegisterCommits(Run(events).value, t, j, record);
    WriteAllKeepsGit(was, ws);
    OthersLand(was, ws, j.app, record, false);
  }

  /**
   * No lost updates, up to the registering write of an update, in whole runs. While it runs, other
   * threads, the owner and the sweep do what they can. The record has the owner's choices of their last
   * accepted writer and the job's results, and keeps its display name whatever the new manifest says;
   * every other app's record is its last accepted writers'.
   */
  lemma {:induction false} NoUpdateIsLost(events: seq<Event>, p: nat, t: Tid, j: Job, record: Record)
    requires WorkingFrom(events, p, t, j, Building) && j.kind == Update && IsDoneRecord(record, j)
    requires Run(events[..p]).value.threads[t] == JobBegun(j) && t in Run(events).value.threads
    requires Run(events).value.threads[t] == JobSwapped(j)
    ensures var was, ws := Run(events[..p]).value.ledger, WritesIn(events[p..]);
            var n := Next(Run(events).value, Thread(t, Register(record)));
            && j.app in was.apps && n.Some? && j.app in n.value.ledger.apps
            && Merged(was, ws, j.app, record, n.value.ledger.apps[j.app])
            && LastParams(was, ws, j.app) == was.apps[j.app].params
            && OthersLanded(was, ws, j.app, n.value.ledger)
  {
    var was, ws := Run(events[..p]).value.ledger, WritesIn(events[p..]);
    LedgerDuringJob(events, p, t, j, Building);
    BegunUpdateIsCurrent(events[..p], t, j);
    WorkingBefore(events, p, t, j, Building);
    RegisterCommits(Run(events).value, t, j, record);
    NoLostUpdates(was, ws, j.app, record);
    SettingsDuringJob(was, ws, j.app);
  }

  /** The end of an update whose registering write left the ledger `first`, after the settings writes `ws`. */
  ghost predicate UpdateEnds(first: State, ws: seq<SettingsWrite>, j: Job, record: Record, again: bool, end: State)
    requires j.app in first.apps && record.lastJob.Some?
  {
    var mid := WriteAll(first, ws);
    && j.app in mid.apps && j.app in end.apps
    && OthersLanded(first, ws, j.app, end)
    && (!again ==> end == mid)
    && (again ==> Merged(first, ws, j.app, WithLeftover(record), end.apps[j.app]))
    && (SameSettings(mid.apps[j.app], end.apps[j.app]) <==>
        !again || (&& !AsksForAnotherRef(record.source, LastSource(first, ws, j.app))
                   && !PutsDropped(first, ws, j.app, record.lastJob.value.droppedParams)))
  }

  /**
   * Updates through to their last step, in whole runs. After its registering write an update is no
   * longer the current job, so every settings write to its app is accepted again. If it then
   * cannot remove the old tree it writes its record once more, and that write loses an accepted setting
   * if and only if the last source change accepted in between asks for another ref than the
   * update's, or a params write in between sets a param the update dropped. Label and autostart, and
   * every other app's record, are the last writers' in any case.
   */
  lemma {:induction false} UpdateLosesSettingsExactly(events: seq<Event>, p: nat, q: nat, t: Tid, j: Job, record: Record,
                                                      act: Act, begun: World, first: World)
    requires p < q <= |events| && j.kind == Update && IsDoneRecord(record, j)
    requires WorkingFrom(events[..q - 1], p, t, j, Building) && WorkingFrom(events, q, t, j, Registered)
    requires Run(events[..p]) == Some(begun) && InThread(begun, t, JobBegun(j))
    requires InThread(Run(events[..q - 1]).value, t, JobSwapped(j)) && events[q - 1] == Thread(t, Register(record))
    requires Run(events[..q]) == Some(first)
    ensures j.app in begun.ledger.apps && j.app in first.ledger.apps
    ensures Merged(begun.ledger, WritesIn(events[p..q - 1]), j.app, record, first.ledger.apps[j.app])
    ensures var n := Next(Run(events).value, Thread(t, act));
            n.Some? && UpdateEnds(first.ledger, WritesIn(events[q..]), j, record, act != Go, n.value.ledger)
  {
    StepTaken(events, q);
    PrefixOfPrefix(events, p, q - 1);
    UpdateRegisters(events[..q - 1], p, t, j, record, begun, first);
    UpdateCloses(events, q, t, j, record, act, first);
  }

  predicate InThread(w: World, t: Tid, pc: Pc) {
    t in w.threads && w.threads[t] == pc
  }

  lemma StepTaken(events: seq<Event>, q: nat)
    requires 0 < q <= |events| && Run(events[..q]).Some?
    ensures Run(events[..q - 1]).Some?
    ensures Run(events[..q]) == Next(Run(events[..q - 1]).value, events[q - 1])
  {
    assert events[..q][..q - 1] == events[..q - 1];
  }

  lemma PrefixOfPrefix(events: seq<Event>, p: nat, q: nat)
    requires p <= q <= |events|
    ensures events[..q][..p] == events[..p] && events[..q][p..] == events[p..q]
  {
  }

  /** The registering write of an update. */
  lemma UpdateRegisters(events: seq<Event>, p: nat, t: Tid, j: Job, record: Record, begun: World, first: World)
    requires p <= |events| && j.kind == Update && IsDoneRecord(record, j) && WorkingFrom(events, p, t, j, Building)
    requires Run(events[..p]) == Some(begun) && InThread(begun, t, JobBegun(j))
    requires InThread(Run(events).value, t, JobSwapped(j))
    requires Next(Run(events).value, Thread(t, Register(record))) == Some(first)
    ensures InThread(first, t, JobRegistered(j, record)) && j.app in begun.ledger.apps && j.app in first.ledger.apps
    ensures Merged(begun.ledger, WritesIn(events[p..]), j.app, record, first.ledger.apps[j.app])
  {
    NoUpdateIsLost(events, p, t, j, record);
    WorkingBefore(events, p, t, j, Building);
    RegisterCommits(Run(events).value, t, j, record);
  }

  /** The last step of an update that has registered. */
  lemma UpdateCloses(events: seq<Event>, q: nat, t: Tid, j: Job, record: Record, act: Act, first: World)
    requires j.kind == Update && IsDoneRecord(record, j) && WorkingFrom(events, q, t, j, Registered)
    requires Run(events[..q]) == Some(first) && InThread(first, t, JobRegistered(j, record))
    requires j.app in first.ledger.apps && JobsOwn(first.ledger.apps[j.app], record)
    requires forall k | k in first.ledger.apps[j.app].params :: k !in record.lastJob.value.droppedParams
    ensures var n := Next(Run(events).value, Thread(t, act));
            n.Some? && UpdateEnds(first.ledger, WritesIn(events[q..]), j, record, act != Go, n.value.ledger)
  {
    RegisteredRecord(events, q, t, j);
    LedgerDuringJob(events, q, t, j, Registered);
    WorkingBefore(events, q, t, j, Registered);
    LastStepOfUpdate(Run(events).value, t, j, record, act);
    LastStepMeans(first.ledger, WritesIn(events[q..]), j, record, act != Go);
  }

  lemma LastStepMeans(first: State, ws: seq<SettingsWrite>, j: Job, record: Record, again: bool)
    requires j.app in first.apps && record.lastJob.Some? && JobsOwn(first.apps[j.app], record)
    requires forall k | k in first.apps[j.app].params :: k !in record.lastJob.value.droppedParams
    ensures var mid := WriteAll(first, ws);
            UpdateEnds(first, ws, j, record, again, if again then WriteOwnRecord(mid, j.app, WithLeftover(record), true) else mid)
  {
    WriteAllKeepsGit(first, ws);
    SecondWriteLosesExactly(first, ws, j.app, record, WithLeftover(record));
    NoLostUpdates(first, ws, j.app, WithLeftover(record));
    forall n | n in first.apps && n != j.app ensures n in WriteAll(first, ws).apps {
    }
    OthersSettled(first, ws, j.app);
  }

  lemma OthersSettled(first: State, ws: seq<SettingsWrite>, name: AppId)
    ensures OthersLanded(first, ws, name, WriteAll(first, ws))
  {
    WriteAllKeepsGit(first, ws);
    forall n | n in first.apps && n != name
      ensures var r := WriteAll(first, ws).apps[n];
              && r.ownerLabel == LastLabel(first.apps[n].ownerLabel, ws, n)
              && r.autostart == LastAutostart(first, ws, n)
              && r.params == LastParams(first, ws, n)
              && r.source == WithSource(first.apps[n].source, LastSource(first, ws, n))
    {
      SettingsLand(first, ws, n);
    }
  }

  // ----- Deletes -----

  /** A delete under way carries the record it dropped. */
  lemma DeleteCarries(w: World, e: Event, t: Tid, j: Job)
    requires Working(w, t, j, Deleting) && Next(w, e).Some? && Working(Next(w, e).value, t, j, Deleting)
    ensures Carried(Next(w, e).value.threads[t]) == Carried(w.threads[t])
  {
  }

  lemma {:induction false} CarriedThroughout(events: seq<Event>, p: nat, t: Tid, j: Job)
    requires WorkingFrom(events, p, t, j, Deleting)
    ensures Run(events[..p]).Some? && t in Run(events[..p]).value.threads && t in Run(events).value.threads
    ensures Carried(Run(events).value.threads[t]) == Carried(Run(events[..p]).value.threads[t])
  {
    WorkingBefore(events, p, t, j, Deleting);
    if p == |events| {
      assert events[..p] == events;
    } else {
      var before := events[..|events| - 1];
      WorkingBefore(before, p, t, j, Deleting);
      CarriedThroughout(before, p, t, j);
      assert before[..p] == events[..p];
      DeleteCarries(Run(before).value, events[|events| - 1], t, j);
    }
  }

  /**
   * Delete is all or nothing, over whole runs. From the step that drops the record to the delete's last
   * write, whatever else happens: either it ends done, and the app is gone from the ledger and from
   * disk, or it ends failed, and the record is back as it was dropped but for its last job. Every
   * other app's record is its last accepted writers'.
   */
  lemma {:induction false} DeleteIsAllOrNothing(events: seq<Event>, p: nat, t: Tid, j: Job, act: Act, was: World, dropped: World)
    requires 0 < p <= |events| && WorkingFrom(events, p, t, j, Deleting)
    requires Run(events[..p - 1]) == Some(was) && InThread(was, t, JobRunning(j))
    requires events[p - 1].Thread? && events[p - 1].t == t && Run(events[..p]) == Some(dropped)
    requires EndsDelete(Run(events).value, t, act)
    ensures j.app in was.ledger.apps && dropped.ledger.apps == was.ledger.apps - {j.app}
    ensures forall q | p <= q <= |events| :: Run(events[..q]).Some? && j.app !in Run(events[..q]).value.ledger.apps
    ensures DeleteOutcome(Run(events).value, t, j, was.ledger.apps[j.app], Next(Run(events).value, Thread(t, act)).value)
    ensures Next(Run(events).value, Thread(t, act)).value.ledger.apps - {j.app}
            == WriteAll(dropped.ledger, WritesIn(events[p..])).apps - {j.app}
  {
    GoneThroughout(events, p, t, j);
    DropsAndCarries(events, p, t, j, was, dropped);
    WorkingBefore(events, p, t, j, Deleting);
    LedgerDuringJob(events, p, t, j, Deleting);
    DeleteSettles(events, t, j, was.ledger.apps[j.app], act);
  }

  /** Done, and the app is gone from ledger and disk; or failed, and the record is back but for its last job. */
  predicate DeleteOutcome(w: World, t: Tid, j: Job, record: Record, end: World)
    requires t in w.threads
  {
    if w.threads[t].DeleteTrashed? then
      j.app !in end.ledger.apps && j.app !in end.disk.apps && end.ledger.lastOrphanJob == Some(DoneJob(j))
    else
      j.app in end.ledger.apps && end.ledger.apps[j.app] == record.(lastJob := Some(FailedJob(j)))
  }

  lemma DropsAndCarries(events: seq<Event>, p: nat, t: Tid, j: Job, was: World, dropped: World)
    requires 0 < p <= |events| && WorkingFrom(events, p, t, j, Deleting)
    requires Run(events[..p - 1]) == Some(was) && InThread(was, t, JobRunning(j))
    requires events[p - 1].Thread? && events[p - 1].t == t && Run(events[..p]) == Some(dropped)
    ensures j.app in was.ledger.apps && dropped.ledger.apps == was.ledger.apps - {j.app}
    ensures t in Run(events).value.threads && Carried(Run(events).value.threads[t]) == Some(was.ledger.apps[j.app])
  {
    StepTaken(events, p);
    assert Working(Run(events[..p]).value, t, j, Deleting);
    CarriedThroughout(events, p, t, j);
    DropStep(events[..p - 1], t, j, events[p - 1].act, was, dropped);
  }

  /** One step takes thread `t` to its last lock release. */
  predicate EndsDelete(w: World, t: Tid, act: Act) {
    var n := Next(w, Thread(t, act));
    n.Some? && t in n.value.threads && n.value.threads[t].JobClosing?
  }

  lemma GoneThroughout(events: seq<Event>, p: nat, t: Tid, j: Job)
    requires WorkingFrom(events, p, t, j, Deleting)
    ensures forall q | p <= q <= |events| :: Run(events[..q]).Some? && j.app !in Run(events[..q]).value.ledger.apps
  {
    forall q | p <= q <= |events| ensures Run(events[..q]).Some? && j.app !in Run(events[..q]).value.ledger.apps {
      assert Working(Run(events[..q]).value, t, j, Deleting);
      ThreadFacts(events[..q], t);
    }
  }

  /** The last write of a delete that dropped `record`. */
  lemma DeleteSettles(events: seq<Event>, t: Tid, j: Job, record: Record, act: Act)
    requires Run(events).Some? && Working(Run(events).value, t, j, Deleting)
    requires Carried(Run(events).value.threads[t]) == Some(record)
    requires EndsDelete(Run(events).value, t, act)
    ensures var w, n := Run(events).value, Next(Run(events).value, Thread(t, act)).value;
            && DeleteOutcome(w, t, j, record, n)
            && n.ledger.apps - {j.app} == w.ledger.apps - {j.app}
  {
    var w := Run(events).value;
    DeleteStepHolds(events, t, act);
    OthersUntouched(w.ledger, Next(w, Thread(t, act)).value.ledger, j.app);
  }

  lemma OthersUntouched(a: State, b: State, name: AppId)
    requires forall n | n != name :: Get(b.apps, n) == Get(a.apps, n)
    ensures b.apps - {name} == a.apps - {name}
  {
    forall n | n != name ensures (n in a.apps <==> n in b.apps) && (n in a.apps ==> a.apps[n] == b.apps[n]) {
      assert Get(b.apps, n) == Get(a.apps, n);
    }
  }

  /** The step that drops the record. */
  lemma DropStep(events: seq<Event>, t: Tid, j: Job, act: Act, was: World, dropped: World)
    requires Run(events) == Some(was) && InThread(was, t, JobRunning(j)) && Next(was, Thread(t, act)) == Some(dropped)
    requires Working(dropped, t, j, Deleting)
    ensures j.app in was.ledger.apps && dropped.ledger.apps == was.ledger.apps - {j.app}
    ensures Carried(dropped.threads[t]) == Some(was.ledger.apps[j.app])
  {
    ThreadFacts(events, t);
    RunningDrops(was, j, act);
  }

  lemma RunningDrops(w: World, j: Job, act: Act)
    requires j.kind != Delete || j.app in w.ledger.apps
    ensures var m := ThreadMove(w, JobRunning(j), act);
            m.Does? && InPhase(m.next, j, Deleting) ==>
              j.app in w.ledger.apps && m == Does(Commit(OpUnregister(j)), DeleteUnregistered(j, w.ledger.apps[j.app]))
  {
  }
}
