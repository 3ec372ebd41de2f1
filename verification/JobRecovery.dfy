/**
 * The ledger and the directory tree under kills: what every step of every job keeps, and what
 * startup recovery restores.
 */
module JobRecovery {
  import opened Prelude
  import opened Ledger
  import opened JobProtocol
  import opened JobSafety
  import Values

  // ----- The job a thread works on -----

  predicate HasJob(pc: Pc) {
    || IsJobSync(pc) || IsDelete(pc) || (IsJobBegin(pc) && !pc.Asked?)
    || pc.JobSynced? || pc.JobSwapLocked? || pc.JobTrashed? || pc.JobSwapUnlock? || pc.JobSwapped?
    || pc.JobRegistered? || pc.JobFailing? || pc.JobClosing?
  }

  function JobOf(pc: Pc): Option<Job> {
    if HasJob(pc) then Some(pc.job)
    else if pc.Asked? && pc.request.RunJob? then Some(pc.request.job)
    else None
  }

  /** Jobs have ids of their own. */
  predicate IdsApart(w: World) {
    && (forall t | t in w.threads && JobOf(w.threads[t]).Some? :: JobOf(w.threads[t]).value.id in w.usedIds)
    && (forall t, u | t in w.threads && u in w.threads && t != u
                      && JobOf(w.threads[t]).Some? && JobOf(w.threads[u]).Some? ::
          JobOf(w.threads[t]).value.id != JobOf(w.threads[u]).value.id)
  }

  /** A move keeps to the thread's own job and its staging directory. */
  predicate KeepsToJob(pc: Pc, e: Effect, next: Pc) {
    && (JobOf(next).Some? ==> JobOf(next) == JobOf(pc))
    && (e.Stage? || e.Unstage? || e.Synced? ==> JobOf(pc).Some? && e.id == JobOf(pc).value.id)
    && (e.SwapIn? ==> JobOf(pc) == Some(e.job))
  }

  /** A move that starts, stops or probes: it concerns no job, no ledger write and no directory. */
  predicate Aloof(e: Effect, next: Pc) {
    (IsStart(next) || IsService(next) || next.Finished?) && !e.Commit? && NoDiskEffect(e)
  }

  lemma StartIsAloof(w: World, pc: Pc, act: Act)
    ensures var m := StartMove(w, pc, act); m.Does? ==> Aloof(m.effect, m.next)
  {
  }

  lemma StopIsAloof(w: World, pc: Pc, act: Act)
    ensures var m := StopMove(w, pc, act); m.Does? ==> Aloof(m.effect, m.next)
  {
  }

  lemma MaintainIsAloof(w: World, pc: Pc, act: Act)
    ensures var m := MaintainMove(w, pc, act); m.Does? ==> Aloof(m.effect, m.next)
  {
  }

  lemma ProbeIsAloof(w: World, pc: Pc, act: Act)
    ensures var m := ProbeMove(w, pc, act); m.Does? ==> Aloof(m.effect, m.next)
  {
  }

  lemma AloofSteps(w: World, pc: Pc, e: Effect, next: Pc)
    requires (IsStart(pc) || IsService(pc)) && Aloof(e, next)
    ensures KeepsToJob(pc, e, next) && LedgerStep(w, pc, e, next) && DiskStep(w, pc, e, next) && CoverStep(pc, e, next)
  {
    ServiceHasNoJob(pc);
    ServiceHasNoJob(next);
    KnowsNothing(w, next);
  }

  lemma ServiceHasNoJob(pc: Pc)
    requires IsStart(pc) || IsService(pc) || IsReset(pc) || pc.Finished?
    ensures !HasJob(pc) && JobOf(pc).None?
  {
  }

  /** A thread without a job relies on nothing. */
  lemma KnowsNothing(w: World, pc: Pc)
    requires !HasJob(pc)
    ensures !Recorded(pc) && !Dropped(pc)
    ensures LedgerFacts(w.ledger, w.history.accepted, pc) && TreeFacts(w.disk, w.history, pc)
  {
  }

  lemma ServiceIsAloof(w: World, pc: Pc, act: Act)
    requires IsStart(pc) || IsService(pc)
    ensures var m := ThreadMove(w, pc, act);
            m.Does? ==> && KeepsToJob(pc, m.effect, m.next) && LedgerStep(w, pc, m.effect, m.next)
                        && DiskStep(w, pc, m.effect, m.next) && CoverStep(pc, m.effect, m.next)
  {
    StartIsAloof(w, pc, act);
    StopIsAloof(w, pc, act);
    MaintainIsAloof(w, pc, act);
    ProbeIsAloof(w, pc, act);
    var m := ThreadMove(w, pc, act);
    if m.Does? {
      AloofSteps(w, pc, m.effect, m.next);
    }
  }

  lemma ResetKeepsToJob(w: World, pc: Pc, act: Act)
    ensures var m := ResetMove(w, pc, act); m.Does? ==> KeepsToJob(pc, m.effect, m.next)
  {
  }

  lemma JobBeginKeepsToJob(w: World, pc: Pc, act: Act)
    ensures var m := JobBeginMove(w, pc, act); m.Does? ==> KeepsToJob(pc, m.effect, m.next)
  {
  }

  lemma JobSyncKeepsToJob(w: World, pc: Pc, act: Act)
    ensures var m := JobSyncMove(w, pc, act); m.Does? ==> KeepsToJob(pc, m.effect, m.next)
  {
  }

  lemma JobSwapKeepsToJob(w: World, pc: Pc, act: Act)
    ensures var m := JobSwapMove(w, pc, act); m.Does? ==> KeepsToJob(pc, m.effect, m.next)
  {
  }

  lemma JobEndKeepsToJob(w: World, pc: Pc, act: Act)
    ensures var m := JobEndMove(w, pc, act); m.Does? ==> KeepsToJob(pc, m.effect, m.next)
  {
  }

  lemma DeleteKeepsToJob(w: World, pc: Pc, act: Act)
    ensures var m := DeleteMove(w, pc, act); m.Does? ==> KeepsToJob(pc, m.effect, m.next)
  {
  }

  /** Every move of every thread keeps to the thread's own job. */
  lemma MovesKeepsToJob(w: World, pc: Pc, act: Act)
    ensures var m := ThreadMove(w, pc, act); m.Does? ==> KeepsToJob(pc, m.effect, m.next)
  {
    if IsStart(pc) || IsService(pc) {
      ServiceIsAloof(w, pc, act);
    } else {
      ResetKeepsToJob(w, pc, act);
      JobBeginKeepsToJob(w, pc, act);
      JobSyncKeepsToJob(w, pc, act);
      JobSwapKeepsToJob(w, pc, act);
      JobEndKeepsToJob(w, pc, act);
      DeleteKeepsToJob(w, pc, act);
    }
  }

  // ----- The ledger, as the holder of `apps.lock` knows it -----

  /** The job is the current one of the ledger. */
  predicate Recorded(pc: Pc) {
    || pc.JobBegun? || IsJobSync(pc) || IsDelete(pc) || pc.JobSynced? || pc.JobSwapLocked? || pc.JobTrashed?
    || pc.JobSwapUnlock? || pc.JobSwapped? || pc.JobFailing?
  }

  /** The delete has dropped its record from the ledger. */
  predicate Dropped(pc: Pc) {
    IsDelete(pc) && !pc.JobRunning?
  }

  predicate LedgerFacts(s: State, accepted: Option<JobId>, pc: Pc) {
    && (Recorded(pc) ==>
          && s.currentJob.Some? && s.currentJob.value.id == pc.job.id && s.currentJobApp == Some(pc.job.app)
          && accepted == Some(pc.job.id)
          && (pc.job.app in s.apps <==> pc.job.kind != Install && !Dropped(pc)))
    && (pc.JobRegistered? ==> pc.job.app in s.apps && accepted == Some(pc.job.id) && IsDoneRecord(pc.registered, pc.job))
    && (Dropped(pc) ==> pc.job.kind == Delete)
    && (pc.DeleteFailing? ==> pc.failedOriginal.Some?)
    && (IsJobSync(pc) || pc.JobSynced? || pc.JobSwapped? || pc.JobRegistered? || pc.JobFailing? ==> pc.job.kind != Delete)
    && (pc.JobSwapLocked? || pc.JobTrashed? || pc.JobSwapUnlock? ==> pc.job.kind == Update)
  }

  predicate Found(s: State, accepted: Option<JobId>) {
    accepted.Some? ==> Findable(s, accepted.value)
  }

  function AcceptedAfter(accepted: Option<JobId>, e: Effect): Option<JobId> {
    match e
    case Commit(OpBegin(j)) => Some(j.id)
    case Commit(OpErase) => None
    case _ => accepted
  }

  /** Which thread makes which write, and where it goes from there. */
  predicate WriteFits(s: State, pc: Pc, op: LedgerOp, next: Pc) {
    match op
    case OpBegin(j) => pc == JobChecked(j) && next == JobBegun(j) && (j.app in s.apps <==> j.kind != Install)
    case OpRegister(j, r) =>
      && IsDoneRecord(r, j)
      && ((pc == JobSwapped(j) && next == JobRegistered(j, r))
          || (pc.JobRegistered? && pc.job == j && j.kind == Update && r.lastJob.Some? && next == JobClosing(j)))
    case OpFail(j, _, _) =>
      (pc == JobFailing(j) && (next == JobClosing(j) || next == JobUnlocking)) || (pc == JobUncontainedFail(j) && next == Finished)
    case OpUnregister(j) =>
      pc == JobRunning(j) && j.kind == Delete && j.app in s.apps && next == DeleteUnregistered(j, s.apps[j.app])
    case OpFinishDelete(j) => pc.DeleteTrashed? && pc.job == j && next == JobClosing(j)
    case OpFailDelete(j, original) => pc == DeleteFailing(j, original) && next == JobClosing(j)
    case OpErase => pc == ResetErasing && next == ResetUnlocking
  }

  /** A move that writes nothing to the ledger leaves the next pc with the same knowledge of it. */
  predicate LedgerStep(w: World, pc: Pc, e: Effect, next: Pc) {
    if e.Commit? then WriteFits(w.ledger, pc, e.op, next)
    else LedgerFacts(w.ledger, w.history.accepted, pc) ==> LedgerFacts(w.ledger, w.history.accepted, next)
  }

  lemma ResetStepsLedger(w: World, pc: Pc, act: Act)
    ensures var m := ResetMove(w, pc, act); m.Does? ==> LedgerStep(w, pc, m.effect, m.next)
  {
    ResetGoesOn(w, pc, act);
    var m := ResetMove(w, pc, act);
    if m.Does? {
      KnowsNothing(w, m.next);
    }
  }

  lemma ResetGoesOn(w: World, pc: Pc, act: Act)
    ensures var m := ResetMove(w, pc, act);
            m.Does? ==> !HasJob(m.next) && (m.effect.Commit? ==> pc == ResetErasing && m.effect.op == OpErase && m.next == ResetUnlocking)
  {
  }

  lemma JobBeginStepsLedger(w: World, pc: Pc, act: Act)
    ensures var m := JobBeginMove(w, pc, act); m.Does? ==> LedgerStep(w, pc, m.effect, m.next)
  {
  }

  lemma JobSyncStepsLedger(w: World, pc: Pc, act: Act)
    ensures var m := JobSyncMove(w, pc, act); m.Does? ==> LedgerStep(w, pc, m.effect, m.next)
  {
    if pc.JobRunning? || pc.JobFetching? || pc.JobReady? {
      FetchStepsLedger(w, pc, act);
    } else {
      ContainStepsLedger(w, pc, act);
    }
  }

  lemma FetchStepsLedger(w: World, pc: Pc, act: Act)
    requires pc.JobRunning? || pc.JobFetching? || pc.JobReady?
    ensures var m := JobSyncMove(w, pc, act); m.Does? ==> LedgerStep(w, pc, m.effect, m.next)
  {
  }

  lemma ContainStepsLedger(w: World, pc: Pc, act: Act)
    requires !(pc.JobRunning? || pc.JobFetching? || pc.JobReady?)
    ensures var m := JobSyncMove(w, pc, act); m.Does? ==> LedgerStep(w, pc, m.effect, m.next)
  {
  }

  lemma JobSwapStepsLedger(w: World, pc: Pc, act: Act)
    ensures var m := JobSwapMove(w, pc, act); m.Does? ==> LedgerStep(w, pc, m.effect, m.next)
  {
  }

  lemma JobEndStepsLedger(w: World, pc: Pc, act: Act)
    ensures var m := JobEndMove(w, pc, act); m.Does? ==> LedgerStep(w, pc, m.effect, m.next)
  {
  }

  lemma DeleteStepsLedger(w: World, pc: Pc, act: Act)
    ensures var m := DeleteMove(w, pc, act); m.Does? ==> LedgerStep(w, pc, m.effect, m.next)
  {
  }

  /** Every move either makes a write that is its to make, or keeps what it knows of the ledger. */
  lemma MovesStepsLedger(w: World, pc: Pc, act: Act)
    ensures var m := ThreadMove(w, pc, act); m.Does? ==> LedgerStep(w, pc, m.effect, m.next)
  {
    if IsStart(pc) || IsService(pc) {
      ServiceIsAloof(w, pc, act);
    } else {
      ResetStepsLedger(w, pc, act);
      JobBeginStepsLedger(w, pc, act);
      JobSyncStepsLedger(w, pc, act);
      JobSwapStepsLedger(w, pc, act);
      JobEndStepsLedger(w, pc, act);
      DeleteStepsLedger(w, pc, act);
    }
  }

  lemma JobEndFound(s: State, j: Job, r: Record)
    requires IsDoneRecord(r, j)
    ensures var s' := LedgerAfter(s, OpRegister(j, r));
            j.app in s'.apps && s'.apps[j.app].lastJob == r.lastJob && Findable(s', j.id)
  {
  }

  predicate LedgerKept(s: State, accepted: Option<JobId>, op: LedgerOp, next: Pc) {
    && LedgerFacts(LedgerAfter(s, op), AcceptedAfter(accepted, Commit(op)), next)
    && Found(LedgerAfter(s, op), AcceptedAfter(accepted, Commit(op)))
  }

  lemma BeginKeepsLedger(s: State, accepted: Option<JobId>, pc: Pc, op: LedgerOp, next: Pc)
    requires op.OpBegin? && WriteFits(s, pc, op, next) && LedgerFacts(s, accepted, pc) && Found(s, accepted)
    ensures LedgerKept(s, accepted, op, next)
  {
  }

  lemma RegisterKeepsLedger(s: State, accepted: Option<JobId>, pc: Pc, op: LedgerOp, next: Pc)
    requires op.OpRegister? && WriteFits(s, pc, op, next) && LedgerFacts(s, accepted, pc) && Found(s, accepted)
    ensures LedgerKept(s, accepted, op, next)
  {
    JobEndFound(s, op.job, op.record);
    RegisterTells(s, accepted, pc, op.job, op.record, next);
  }

  lemma RegisterTells(s: State, accepted: Option<JobId>, pc: Pc, j: Job, r: Record, next: Pc)
    requires WriteFits(s, pc, OpRegister(j, r), next) && LedgerFacts(s, accepted, pc)
    ensures accepted == Some(j.id) && LedgerFacts(LedgerAfter(s, OpRegister(j, r)), accepted, next)
  {
    JobEndFound(s, j, r);
    assert pc.job == j && accepted == Some(j.id) && j.kind != Delete;
    if next.JobRegistered? {
      RegisteredKnows(LedgerAfter(s, OpRegister(j, r)), accepted, j, r);
    }
  }

  lemma RegisteredKnows(s: State, accepted: Option<JobId>, j: Job, r: Record)
    requires j.app in s.apps && accepted == Some(j.id) && IsDoneRecord(r, j) && j.kind != Delete
    ensures LedgerFacts(s, accepted, JobRegistered(j, r))
  {
  }

  lemma FailKeepsLedger(s: State, accepted: Option<JobId>, pc: Pc, op: LedgerOp, next: Pc)
    requires op.OpFail? && WriteFits(s, pc, op, next) && LedgerFacts(s, accepted, pc) && Found(s, accepted)
    ensures LedgerKept(s, accepted, op, next)
  {
    var s' := LedgerAfter(s, op);
    assert op.job.app in s.apps ==> s'.apps[op.job.app].lastJob.Some? && s'.apps[op.job.app].lastJob.value.id == op.job.id;
  }

  lemma UnregisterKeepsLedger(s: State, accepted: Option<JobId>, pc: Pc, op: LedgerOp, next: Pc)
    requires op.OpUnregister? && WriteFits(s, pc, op, next) && LedgerFacts(s, accepted, pc) && Found(s, accepted)
    ensures LedgerKept(s, accepted, op, next)
  {
  }

  lemma FinishDeleteKeepsLedger(s: State, accepted: Option<JobId>, pc: Pc, op: LedgerOp, next: Pc)
    requires op.OpFinishDelete? && WriteFits(s, pc, op, next) && LedgerFacts(s, accepted, pc) && Found(s, accepted)
    ensures LedgerKept(s, accepted, op, next)
  {
  }

  lemma FailDeleteKeepsLedger(s: State, accepted: Option<JobId>, pc: Pc, op: LedgerOp, next: Pc)
    requires op.OpFailDelete? && WriteFits(s, pc, op, next) && LedgerFacts(s, accepted, pc) && Found(s, accepted)
    ensures LedgerKept(s, accepted, op, next)
  {
    var s' := LedgerAfter(s, op);
    assert s'.apps[op.job.app].lastJob.Some? && s'.apps[op.job.app].lastJob.value.id == op.job.id;
  }

  lemma EraseKeepsLedger(s: State, accepted: Option<JobId>, pc: Pc, op: LedgerOp, next: Pc)
    requires op.OpErase? && WriteFits(s, pc, op, next) && LedgerFacts(s, accepted, pc) && Found(s, accepted)
    ensures LedgerKept(s, accepted, op, next)
  {
  }

  /** Every write keeps the accepted job findable, and tells the next pc what it needs. */
  lemma WritesKeepLedger(s: State, accepted: Option<JobId>, pc: Pc, op: LedgerOp, next: Pc)
    requires WriteFits(s, pc, op, next) && LedgerFacts(s, accepted, pc) && Found(s, accepted)
    ensures LedgerKept(s, accepted, op, next)
  {
    match op {
      case OpBegin(_) => BeginKeepsLedger(s, accepted, pc, op, next);
      case OpRegister(_, _) => RegisterKeepsLedger(s, accepted, pc, op, next);
      case OpFail(_, _, _) => FailKeepsLedger(s, accepted, pc, op, next);
      case OpUnregister(_) => UnregisterKeepsLedger(s, accepted, pc, op, next);
      case OpFinishDelete(_) => FinishDeleteKeepsLedger(s, accepted, pc, op, next);
      case OpFailDelete(_, _) => FailDeleteKeepsLedger(s, accepted, pc, op, next);
      case OpErase => EraseKeepsLedger(s, accepted, pc, op, next);
    }
  }

  // ----- The directory tree, as the holder of `apps.lock` knows it -----

  /** The job has not touched the tree of its app. */
  predicate Untouched(pc: Pc) {
    || pc.JobBegun? || IsJobSync(pc) || pc.JobSynced? || pc.JobSwapLocked?
    || (IsDelete(pc) && !pc.DeleteSwapUnlock? && !pc.DeleteTrashed? && !pc.DeleteFailing?)
  }

  predicate AppTrashed(pc: Pc) {
    pc.JobTrashed? || pc.DeleteSwapUnlock? || pc.DeleteTrashed?
  }

  predicate SwappedIn(pc: Pc) {
    pc.JobSwapUnlock? || pc.JobSwapped? || pc.JobRegistered?
  }

  predicate TreeFacts(d: Disk, h: History, pc: Pc) {
    && (Recorded(pc) || pc.JobRegistered? ==> h.jobApp == Some(pc.job.app))
    && (Untouched(pc) ==> Get(d.apps, pc.job.app) == h.before)
    && (AppTrashed(pc) ==> pc.job.app !in d.apps)
    && (SwappedIn(pc) ==> h.built.Some? && Get(d.apps, pc.job.app) == h.built)
    && (pc.JobSynced? || pc.JobSwapLocked? || pc.JobTrashed? ==>
          pc.job.id in d.staging ==> h.built == Some(d.staging[pc.job.id]))
  }

  /**
   * Every app tree is whole, and the tree of the last job's app is the one before the job, the one
   * it built, or absent.
   */
  predicate Trees(d: Disk, h: History) {
    && (forall a | a in d.apps :: d.apps[a].Whole?)
    && (h.built.Some? ==> h.built.value.Whole?)
    && (h.jobApp.Some? ==>
          var tree := Get(d.apps, h.jobApp.value);
          tree.None? || tree == h.before || tree == h.built)
  }

  predicate NoDiskEffect(e: Effect) {
    !(|| e.Stage? || e.Synced? || e.Unstage? || e.ClearStaging? || e.SwapIn? || e.TrashApp?
      || (e.Commit? && (e.op.OpBegin? || e.op.OpErase?)))
  }

  /** Which thread has which effect on the directory tree, and where it goes from there. */
  predicate DiskFits(w: World, pc: Pc, e: Effect, next: Pc) {
    match e
    case Stage(_, _) =>
      || next.Preparing? || next.Prepared?
      || (pc.JobRunning? && IsJobSync(pc) && next == JobFetching(pc.job))
      || (pc.JobFetching? && next == JobReady(pc.job))
    case Synced(id, tree) => pc.JobSyncing? && next == JobSynced(pc.job) && id == pc.job.id && tree.Whole?
    case Unstage(_) => next.Finished? || next.JobUnlocking? || (pc.JobFailing? && next == pc)
    case ClearStaging => pc.ResetClearing? && next.ResetErasing?
    case SwapIn(j) =>
      && j.id in w.disk.staging
      && ((pc == JobSynced(j) && next == JobSwapped(j) && j.kind == Install && j.app !in w.disk.apps)
          || (pc == JobTrashed(j) && next == JobSwapUnlock(j)))
    case TrashApp(a, _) =>
      || (pc.JobSwapLocked? && next == JobTrashed(pc.job) && a == pc.job.app)
      || (pc.DeleteSwapLocked? && next.DeleteSwapUnlock? && next.job == pc.job && a == pc.job.app)
      || (pc.ResetErasing? && next.ResetErasing?)
    case Commit(OpBegin(j)) => pc == JobChecked(j) && next == JobBegun(j)
    case Commit(OpErase) => pc.ResetErasing? && next.ResetUnlocking?
    case _ => true
  }

  predicate DiskStep(w: World, pc: Pc, e: Effect, next: Pc) {
    && DiskFits(w, pc, e, next)
    && (NoDiskEffect(e) ==> TreeFacts(w.disk, w.history, pc) ==> TreeFacts(w.disk, w.history, next))
    && (Recorded(next) && !(e.Commit? && e.op.OpBegin?) ==> Recorded(pc))
  }

  lemma ResetStepsDisk(w: World, pc: Pc, act: Act)
    ensures var m := ResetMove(w, pc, act); m.Does? ==> DiskStep(w, pc, m.effect, m.next)
  {
    ResetGoesOn(w, pc, act);
    var m := ResetMove(w, pc, act);
    if m.Does? {
      KnowsNothing(w, m.next);
    }
  }

  lemma JobBeginStepsDisk(w: World, pc: Pc, act: Act)
    ensures var m := JobBeginMove(w, pc, act); m.Does? ==> DiskStep(w, pc, m.effect, m.next)
  {
  }

  lemma JobSyncStepsDisk(w: World, pc: Pc, act: Act)
    ensures var m := JobSyncMove(w, pc, act); m.Does? ==> DiskStep(w, pc, m.effect, m.next)
  {
  }

  lemma JobSwapStepsDisk(w: World, pc: Pc, act: Act)
    ensures var m := JobSwapMove(w, pc, act); m.Does? ==> DiskStep(w, pc, m.effect, m.next)
  {
  }

  lemma JobEndStepsDisk(w: World, pc: Pc, act: Act)
    ensures var m := JobEndMove(w, pc, act); m.Does? ==> DiskStep(w, pc, m.effect, m.next)
  {
  }

  lemma DeleteStepsDisk(w: World, pc: Pc, act: Act)
    ensures var m := DeleteMove(w, pc, act); m.Does? ==> DiskStep(w, pc, m.effect, m.next)
  {
  }

  /** Every move either has an effect on the disk that is its to have, or keeps what it knows of it. */
  lemma MovesStepsDisk(w: World, pc: Pc, act: Act)
    ensures var m := ThreadMove(w, pc, act); m.Does? ==> DiskStep(w, pc, m.effect, m.next)
  {
    if IsStart(pc) || IsService(pc) {
      ServiceIsAloof(w, pc, act);
    } else {
      ResetStepsDisk(w, pc, act);
      JobBeginStepsDisk(w, pc, act);
      JobSyncStepsDisk(w, pc, act);
      JobSwapStepsDisk(w, pc, act);
      JobEndStepsDisk(w, pc, act);
      DeleteStepsDisk(w, pc, act);
    }
  }

  predicate TreesKept(w: World, e: Effect, next: Pc) {
    && TreeFacts(DiskAfter(w.disk, e), HistoryAfter(w.history, w, e), next)
    && Trees(DiskAfter(w.disk, e), HistoryAfter(w.history, w, e))
  }

  predicate TreesPre(w: World, pc: Pc, e: Effect, next: Pc) {
    && DiskStep(w, pc, e, next) && KeepsToJob(pc, e, next)
    && TreeFacts(w.disk, w.history, pc) && Trees(w.disk, w.history)
  }

  lemma StageKeepsTrees(w: World, pc: Pc, e: Effect, next: Pc)
    requires e.Stage? && TreesPre(w, pc, e, next)
    ensures TreesKept(w, e, next)
  {
    if !(next.Preparing? || next.Prepared?) {
      StageKeepsJobTree(w.disk, DiskAfter(w.disk, e), w.history, pc, next);
    }
  }

  lemma StageKeepsJobTree(d: Disk, d': Disk, h: History, pc: Pc, next: Pc)
    requires IsJobSync(pc) && (next == JobFetching(pc.job) || next == JobReady(pc.job))
    requires TreeFacts(d, h, pc) && d'.apps == d.apps
    ensures TreeFacts(d', h, next)
  {
  }

  /** Past its work, or with its staging directory gone, a thread knows what it knew of the app trees. */
  lemma UnstageKeepsTrees(w: World, e: Effect, next: Pc)
    requires || (e.Unstage? && (next.Finished? || next.JobUnlocking?))
             || (e.Unstage? && next.JobFailing? && TreeFacts(w.disk, w.history, next))
             || (e.ClearStaging? && next.ResetErasing?)
    requires Trees(w.disk, w.history)
    ensures TreesKept(w, e, next)
  {
  }

  lemma SyncKeepsTrees(w: World, pc: Pc, e: Effect, next: Pc)
    requires (e.Synced?) && TreesPre(w, pc, e, next)
    ensures TreesKept(w, e, next)
  {
  }

  lemma SwapInKeepsTrees(w: World, pc: Pc, e: Effect, next: Pc)
    requires e.SwapIn? && TreesPre(w, pc, e, next)
    ensures TreesKept(w, e, next)
  {
    var built := w.disk.staging[e.job.id];
    assert w.history.jobApp == Some(e.job.app) && w.history.built == Some(built) by {
      assert pc.job == e.job && Recorded(pc);
    }
    assert next == JobSwapped(e.job) || next == JobSwapUnlock(e.job);
    SwapInTree(w.disk, w.history, e.job, built, next);
  }

  lemma SwapInTree(d: Disk, h: History, j: Job, built: Tree, next: Pc)
    requires Get(d.staging, j.id) == Some(built) && h.built == Some(built) && h.jobApp == Some(j.app) && Trees(d, h)
    requires next == JobSwapped(j) || next == JobSwapUnlock(j)
    ensures TreeFacts(DiskAfter(d, SwapIn(j)), h, next) && Trees(DiskAfter(d, SwapIn(j)), h)
  {
    assert DiskAfter(d, SwapIn(j)).apps == d.apps[j.app := built];
  }

  lemma TrashKeepsTrees(w: World, pc: Pc, e: Effect, next: Pc)
    requires (e.TrashApp?) && TreesPre(w, pc, e, next)
    ensures TreesKept(w, e, next)
  {
    TrashTree(w.disk, w.history, e.app, e.id);
    if next.ResetErasing? {
      KnowsNothing(w.(disk := DiskAfter(w.disk, e)), next);
    } else {
      assert next.job.app == e.app && w.history.jobApp == Some(e.app);
    }
  }

  lemma TrashTree(d: Disk, h: History, a: AppId, id: string)
    requires Trees(d, h)
    ensures Trees(DiskAfter(d, TrashApp(a, id)), h) && a !in DiskAfter(d, TrashApp(a, id)).apps
  {
  }

  lemma BeginKeepsTrees(w: World, pc: Pc, e: Effect, next: Pc)
    requires (e.Commit? && (e.op.OpBegin? || e.op.OpErase?)) && TreesPre(w, pc, e, next)
    ensures TreesKept(w, e, next)
  {
  }

  lemma NeutralKeepsTrees(w: World, e: Effect, next: Pc)
    requires NoDiskEffect(e) && TreeFacts(w.disk, w.history, next) && Trees(w.disk, w.history)
    ensures TreesKept(w, e, next)
  {
    assert DiskAfter(w.disk, e) == w.disk && HistoryAfter(w.history, w, e) == w.history;
  }

  /** Every effect on the disk leaves every app tree whole, and old, new or absent. */
  lemma EffectsKeepTrees(w: World, pc: Pc, e: Effect, next: Pc)
    requires TreesPre(w, pc, e, next)
    ensures TreesKept(w, e, next)
  {
    if e.Stage? {
      StageKeepsTrees(w, pc, e, next);
    } else if e.Unstage? || e.ClearStaging? {
      UnstageKeepsTrees(w, e, next);
    } else if e.Synced? {
      SyncKeepsTrees(w, pc, e, next);
    } else if e.SwapIn? {
      SwapInKeepsTrees(w, pc, e, next);
    } else if e.TrashApp? {
      TrashKeepsTrees(w, pc, e, next);
    } else if e.Commit? && (e.op.OpBegin? || e.op.OpErase?) {
      BeginKeepsTrees(w, pc, e, next);
    } else {
      NeutralKeepsTrees(w, e, next);
    }
  }

  // ----- Directories and ledger keys -----

  /** A directory without a ledger entry that a job is about to register, or has just unregistered. */
  predicate Covers(pc: Pc, a: AppId) {
    (pc.JobSwapped? || Dropped(pc)) && pc.job.app == a
  }

  predicate DirsCovered(dirs: set<AppId>, keys: set<AppId>, pc: Pc) {
    forall a | a in dirs :: a in keys || (HoldsApps(pc) && Covers(pc, a))
  }

  /** A move that covers a directory keeps covering it, unless it writes the ledger or its app has an entry. */
  predicate CoverStep(pc: Pc, e: Effect, next: Pc) {
    (pc.JobSwapped? || Dropped(pc)) && !e.Commit? ==>
      || ((next.JobSwapped? || Dropped(next)) && next.job.app == pc.job.app && HoldsApps(next))
      || pc.job.kind == Update
  }

  lemma ResetStepsCover(w: World, pc: Pc, act: Act)
    ensures var m := ResetMove(w, pc, act); m.Does? ==> CoverStep(pc, m.effect, m.next)
  {
  }

  lemma JobBeginStepsCover(w: World, pc: Pc, act: Act)
    ensures var m := JobBeginMove(w, pc, act); m.Does? ==> CoverStep(pc, m.effect, m.next)
  {
  }

  lemma JobSyncStepsCover(w: World, pc: Pc, act: Act)
    ensures var m := JobSyncMove(w, pc, act); m.Does? ==> CoverStep(pc, m.effect, m.next)
  {
  }

  lemma JobSwapStepsCover(w: World, pc: Pc, act: Act)
    ensures var m := JobSwapMove(w, pc, act); m.Does? ==> CoverStep(pc, m.effect, m.next)
  {
  }

  lemma JobEndStepsCover(w: World, pc: Pc, act: Act)
    ensures var m := JobEndMove(w, pc, act); m.Does? ==> CoverStep(pc, m.effect, m.next)
  {
  }

  lemma DeleteStepsCover(w: World, pc: Pc, act: Act)
    ensures var m := DeleteMove(w, pc, act); m.Does? ==> CoverStep(pc, m.effect, m.next)
  {
  }

  /** No move forgets a directory that only it accounts for. */
  lemma MovesStepsCover(w: World, pc: Pc, act: Act)
    ensures var m := ThreadMove(w, pc, act); m.Does? ==> CoverStep(pc, m.effect, m.next)
  {
    if IsStart(pc) || IsService(pc) {
      ServiceIsAloof(w, pc, act);
    } else {
      ResetStepsCover(w, pc, act);
      JobBeginStepsCover(w, pc, act);
      JobSyncStepsCover(w, pc, act);
      JobSwapStepsCover(w, pc, act);
      JobEndStepsCover(w, pc, act);
      DeleteStepsCover(w, pc, act);
    }
  }

  predicate CoverPost(w: World, e: Effect, next: Pc) {
    DirsCovered(DiskAfter(w.disk, e).apps.Keys, KeysAfter(w, e), next)
  }

  /** The write that registers an app, or gives it back, covers its directory from then on. */
  lemma RegisterKeepsCover(w: World, pc: Pc, e: Effect, next: Pc)
    requires e.Commit? && (e.op.OpRegister? || e.op.OpFailDelete?) && WriteFits(w.ledger, pc, e.op, next)
    requires pc.DeleteFailing? ==> pc.failedOriginal.Some?
    requires DirsCovered(w.disk.apps.Keys, w.ledger.apps.Keys, pc)
    ensures CoverPost(w, e, next)
  {
    assert DiskAfter(w.disk, e) == w.disk;
    forall a | a in w.disk.apps.Keys ensures a in KeysAfter(w, e) {
      assert a in w.ledger.apps.Keys || Covers(pc, a);
    }
  }

  lemma UnregisterKeepsCover(w: World, pc: Pc, e: Effect, next: Pc)
    requires e.Commit? && (e.op.OpUnregister? || e.op.OpFinishDelete?) && WriteFits(w.ledger, pc, e.op, next)
    requires pc.DeleteTrashed? ==> pc.job.app !in w.disk.apps
    requires DirsCovered(w.disk.apps.Keys, w.ledger.apps.Keys, pc)
    ensures CoverPost(w, e, next)
  {
    assert DiskAfter(w.disk, e) == w.disk;
  }

  lemma OtherWritesKeepCover(w: World, pc: Pc, e: Effect, next: Pc)
    requires e.Commit? && (e.op.OpBegin? || e.op.OpFail?) && WriteFits(w.ledger, pc, e.op, next)
    requires DirsCovered(w.disk.apps.Keys, w.ledger.apps.Keys, pc)
    ensures CoverPost(w, e, next)
  {
    assert DiskAfter(w.disk, e) == w.disk;
  }

  lemma WriteKeepsCover(w: World, pc: Pc, e: Effect, next: Pc)
    requires e.Commit? && !e.op.OpErase? && WriteFits(w.ledger, pc, e.op, next)
    requires pc.DeleteTrashed? ==> pc.job.app !in w.disk.apps
    requires pc.DeleteFailing? ==> pc.failedOriginal.Some?
    requires DirsCovered(w.disk.apps.Keys, w.ledger.apps.Keys, pc)
    ensures CoverPost(w, e, next)
  {
    if e.op.OpRegister? || e.op.OpFailDelete? {
      RegisterKeepsCover(w, pc, e, next);
    } else if e.op.OpUnregister? || e.op.OpFinishDelete? {
      UnregisterKeepsCover(w, pc, e, next);
    } else {
      OtherWritesKeepCover(w, pc, e, next);
    }
  }

  lemma SwapKeepsCover(w: World, pc: Pc, e: Effect, next: Pc)
    requires e.SwapIn? && DiskFits(w, pc, e, next)
    requires pc.JobTrashed? ==> pc.job.app in w.ledger.apps
    requires DirsCovered(w.disk.apps.Keys, w.ledger.apps.Keys, pc)
    ensures CoverPost(w, e, next)
  {
    var j := e.job;
    assert DiskAfter(w.disk, e).apps.Keys == w.disk.apps.Keys + {j.app};
    assert KeysAfter(w, e) == w.ledger.apps.Keys;
  }

  lemma MoveKeepsCover(w: World, pc: Pc, e: Effect, next: Pc)
    requires !e.Commit? && !e.SwapIn? && CoverStep(pc, e, next)
    requires (pc.JobSwapped? || Dropped(pc)) && pc.job.kind == Update ==> pc.job.app in w.ledger.apps
    requires DirsCovered(w.disk.apps.Keys, w.ledger.apps.Keys, pc)
    ensures CoverPost(w, e, next)
  {
    assert DiskAfter(w.disk, e).apps.Keys <= w.disk.apps.Keys;
  }

  // ----- Every reachable state -----

  predicate FactsHold(w: World) {
    && (forall t | t in w.threads :: LedgerFacts(w.ledger, w.history.accepted, w.threads[t]))
    && (forall t | t in w.threads :: TreeFacts(w.disk, w.history, w.threads[t]))
  }

  /** Only one thread works on the ledger and the tree: a second one is done, or has given up the lock for good. */
  predicate OneUncontained(w: World) {
    && (forall t | t in w.threads && w.threads[t].JobUncontainedFail? :: w.appsLock.Retained?)
    && (forall t, u | t in w.threads && u in w.threads && w.threads[t].JobUncontainedFail?
                      && w.threads[u].JobUncontainedFail? :: t == u)
  }

  predicate Tidied(w: World) {
    w.portal.Serving? && w.history.tidy ==>
      forall a | a in w.disk.apps ::
        a in w.ledger.apps || (w.appsLock.HeldBy? && w.appsLock.owner in w.threads && Covers(w.threads[w.appsLock.owner], a))
  }

  predicate Sound(w: World) {
    && LocksAgree(w) && IdsApart(w) && OneUncontained(w)
    && FactsHold(w) && Trees(w.disk, w.history) && Found(w.ledger, w.history.accepted)
    && (!w.portal.Serving? ==> w.history.accepted.None? && !w.history.tidy)
    && Tidied(w)
    && (w.portal == Booting(BootFinalize) ==> w.disk.apps.Keys <= w.ledger.apps.Keys)
  }

  /** Every check on one move of one thread, together. */
  predicate GoodMove(w: World, pc: Pc, e: Effect, next: Pc) {
    && Disciplined(w, pc, e, next) && KeepsToJob(pc, e, next) && LedgerStep(w, pc, e, next) && DiskStep(w, pc, e, next)
    && CoverStep(pc, e, next)
  }

  lemma MovesAreGood(w: World, pc: Pc, act: Act)
    ensures var m := ThreadMove(w, pc, act); m.Does? ==> GoodMove(w, pc, m.effect, m.next)
  {
    MovesAreDisciplined(w, pc, act);
    MovesKeepsToJob(w, pc, act);
    MovesStepsLedger(w, pc, act);
    MovesStepsDisk(w, pc, act);
    MovesStepsCover(w, pc, act);
  }

  lemma MoverKeepsFacts(w: World, t: Tid, e: Effect, next: Pc)
    requires Sound(w) && t in w.threads && GoodMove(w, w.threads[t], e, next)
    ensures var w' := After(w, t, e, next);
            && LedgerFacts(w'.ledger, w'.history.accepted, next) && Found(w'.ledger, w'.history.accepted)
            && TreeFacts(w'.disk, w'.history, next) && Trees(w'.disk, w'.history)
  {
    var pc := w.threads[t];
    assert After(w, t, e, next).history.accepted == AcceptedAfter(w.history.accepted, e);
    if e.Commit? {
      WritesKeepLedger(w.ledger, w.history.accepted, pc, e.op, next);
    }
    EffectsKeepTrees(w, pc, e, next);
  }

  /** A thread that neither holds `apps.lock` nor gave it up for good relies on nothing. */
  lemma IdleKnowsNothing(w: World, pc: Pc)
    requires !HoldsApps(pc) && !pc.JobUncontainedFail?
    ensures LedgerFacts(w.ledger, w.history.accepted, pc) && TreeFacts(w.disk, w.history, pc)
  {
  }

  /** Knowledge of the tree carries over when the app trees and the job's staging directory do. */
  lemma TreeFactsCarryOver(d: Disk, d': Disk, h: History, pc: Pc)
    requires TreeFacts(d, h, pc) && d'.apps == d.apps
    requires HasJob(pc) && pc.job.id in d'.staging ==> pc.job.id in d.staging && d'.staging[pc.job.id] == d.staging[pc.job.id]
    ensures TreeFacts(d', h, pc)
  {
  }

  /** An effect that another worker can have. */
  lemma QuietEffects(w: World, t: Tid, e: Effect, next: Pc)
    requires e.Nothing? || e.LockRun? || e.UnlockRun? || e.Stage? || e.Unstage?
    ensures var w' := After(w, t, e, next);
            && w'.ledger == w.ledger && w'.history == w.history && w'.disk.apps == w.disk.apps
            && forall id | id in w'.disk.staging && !((e.Stage? || e.Unstage?) && e.id == id) ::
                 id in w.disk.staging && w'.disk.staging[id] == w.disk.staging[id]
  {
  }

  /** While one thread moves, what every other thread knows stays true. */
  lemma OthersKeepFacts(w: World, t: Tid, e: Effect, next: Pc, u: Tid)
    requires LocksAgree(w) && IdsApart(w) && OneUncontained(w) && FactsHold(w)
    requires t in w.threads && u in w.threads && u != t
    requires Disciplined(w, w.threads[t], e, next) && KeepsToJob(w.threads[t], e, next) && LedgerStep(w, w.threads[t], e, next)
    ensures var w' := After(w, t, e, next);
            && LedgerFacts(w'.ledger, w'.history.accepted, w.threads[u])
            && TreeFacts(w'.disk, w'.history, w.threads[u])
  {
    var w' := After(w, t, e, next);
    var pc := w.threads[u];
    if HoldsApps(pc) || pc.JobUncontainedFail? {
      OnlyOneWorks(w, t, e, next, u);
      QuietEffects(w, t, e, next);
      TreeFactsCarryOver(w.disk, w'.disk, w.history, pc);
    } else {
      IdleKnowsNothing(w', pc);
    }
  }

  /** While another thread relies on the ledger or the tree, a move touches neither, nor its staging directory. */
  lemma OnlyOneWorks(w: World, t: Tid, e: Effect, next: Pc, u: Tid)
    requires LocksAgree(w) && IdsApart(w) && OneUncontained(w)
    requires t in w.threads && u in w.threads && u != t
    requires Disciplined(w, w.threads[t], e, next) && KeepsToJob(w.threads[t], e, next) && LedgerStep(w, w.threads[t], e, next)
    requires HoldsApps(w.threads[u]) || w.threads[u].JobUncontainedFail?
    ensures e.Nothing? || e.LockRun? || e.UnlockRun? || e.Stage? || e.Unstage?
    ensures e.Stage? || e.Unstage? ==> HasJob(w.threads[u]) ==> e.id != w.threads[u].job.id
  {
    NobodyElseHolds(w, t, u);
  }

  lemma NobodyElseHolds(w: World, t: Tid, u: Tid)
    requires LocksAgree(w) && OneUncontained(w) && t in w.threads && u in w.threads && u != t
    requires HoldsApps(w.threads[u]) || w.threads[u].JobUncontainedFail?
    ensures !HoldsApps(w.threads[t]) && !w.threads[t].JobUncontainedFail? && !w.appsLock.Free?
  {
    assert HoldsApps(w.threads[u]) <==> w.appsLock == HeldBy(u);
    assert HoldsApps(w.threads[t]) <==> w.appsLock == HeldBy(t);
  }

  lemma ThreadKeepsIds(w: World, t: Tid, e: Effect, next: Pc)
    requires IdsApart(w) && t in w.threads && KeepsToJob(w.threads[t], e, next)
    ensures IdsApart(After(w, t, e, next))
  {
    var w' := After(w, t, e, next);
    forall u | u in w'.threads && JobOf(w'.threads[u]).Some?
      ensures u in w.threads && JobOf(w.threads[u]) == JobOf(w'.threads[u])
    {
    }
  }

  lemma ThreadKeepsOneUncontained(w: World, t: Tid, e: Effect, next: Pc)
    requires LocksAgree(w) && OneUncontained(w) && t in w.threads && Disciplined(w, w.threads[t], e, next)
    ensures OneUncontained(After(w, t, e, next))
  {
  }

  lemma ThreadKeepsFacts(w: World, t: Tid, e: Effect, next: Pc)
    requires Sound(w) && t in w.threads && GoodMove(w, w.threads[t], e, next)
    ensures FactsHold(After(w, t, e, next))
  {
    var w' := After(w, t, e, next);
    MoverKeepsFacts(w, t, e, next);
    forall u | u in w'.threads && u != t
      ensures LedgerFacts(w'.ledger, w'.history.accepted, w'.threads[u]) && TreeFacts(w'.disk, w'.history, w'.threads[u])
    {
      OthersKeepFacts(w, t, e, next, u);
    }
  }

  lemma HolderKeepsTidied(w: World, t: Tid, e: Effect, next: Pc)
    requires Sound(w) && w.portal.Serving? && w.history.tidy && t in w.threads && GoodMove(w, w.threads[t], e, next)
    requires HoldsApps(w.threads[t]) && !(e.Commit? && e.op.OpErase?)
    ensures CoverPost(w, e, next)
  {
    var pc := w.threads[t];
    assert w.appsLock == HeldBy(t);
    assert LedgerFacts(w.ledger, w.history.accepted, pc) && TreeFacts(w.disk, w.history, pc);
    assert DirsCovered(w.disk.apps.Keys, w.ledger.apps.Keys, pc);
    if e.Commit? {
      WriteKeepsCover(w, pc, e, next);
    } else if e.SwapIn? {
      SwapKeepsCover(w, pc, e, next);
    } else {
      MoveKeepsCover(w, pc, e, next);
    }
  }

  lemma IdleKeepsTidied(w: World, t: Tid, e: Effect, next: Pc)
    requires LocksAgree(w) && Tidied(w) && w.portal.Serving? && t in w.threads && Disciplined(w, w.threads[t], e, next)
    requires !HoldsApps(w.threads[t])
    ensures Tidied(After(w, t, e, next))
  {
    var w' := After(w, t, e, next);
    KeysAfterIsRight(w, e);
    IdleEffects(w, t, e, next);
    assert w.appsLock.HeldBy? ==> w.appsLock.owner != t && w'.appsLock == w.appsLock;
  }

  lemma IdleEffects(w: World, t: Tid, e: Effect, next: Pc)
    requires t in w.threads && Disciplined(w, w.threads[t], e, next) && !HoldsApps(w.threads[t])
    ensures var w' := After(w, t, e, next);
            w'.disk.apps == w.disk.apps && w'.ledger.apps.Keys == w.ledger.apps.Keys && w'.history.tidy == w.history.tidy
  {
    if e.Commit? {
      FailKeepsKeys(w.ledger, e.op);
    }
  }

  lemma FailKeepsKeys(s: State, op: LedgerOp)
    requires op.OpFail?
    ensures LedgerAfter(s, op).apps.Keys == s.apps.Keys
  {
  }

  lemma ThreadKeepsTidied(w: World, t: Tid, e: Effect, next: Pc)
    requires Sound(w) && w.portal.Serving? && t in w.threads && GoodMove(w, w.threads[t], e, next)
    ensures Tidied(After(w, t, e, next))
  {
    var w' := After(w, t, e, next);
    if !HoldsApps(w.threads[t]) {
      IdleKeepsTidied(w, t, e, next);
    } else if w.history.tidy && !(e.Commit? && e.op.OpErase?) {
      HolderKeepsTidied(w, t, e, next);
      assert w'.ledger.apps.Keys == KeysAfter(w, e) by { KeysAfterIsRight(w, e); }
      assert HoldsApps(next) ==> w'.appsLock == HeldBy(t) && w'.threads[t] == next;
    }
  }

  lemma ThreadKeepsSound(w: World, t: Tid, act: Act)
    requires Sound(w)
    ensures var n := Next(w, Thread(t, act)); n.Some? ==> Sound(n.value)
  {
    var n := Next(w, Thread(t, act));
    if n.Some? {
      var m := ThreadMove(w, w.threads[t], act);
      MovesAreGood(w, w.threads[t], act);
      ThreadKeepsLocks(w, t, m.effect, m.next);
      ThreadKeepsIds(w, t, m.effect, m.next);
      ThreadKeepsOneUncontained(w, t, m.effect, m.next);
      ThreadKeepsFacts(w, t, m.effect, m.next);
      MoverKeepsFacts(w, t, m.effect, m.next);
      ThreadKeepsTidied(w, t, m.effect, m.next);
    }
  }

  lemma OrphansKeepSound(w: World, act: Act)
    requires Sound(w) && w.portal.Booting? && HandlesOrphans(w.portal.boot)
    ensures var n := Next(w, BootStep(act)); n.Some? ==> Sound(n.value)
  {
  }

  lemma CleanupKeepsSound(w: World, act: Act)
    requires Sound(w) && w.portal.Booting? && (w.portal.boot.BootClean? || w.portal.boot.BootSweep?)
    ensures var n := Next(w, BootStep(act)); n.Some? ==> Sound(n.value)
  {
  }

  lemma {:induction false} FinalizeKeepsSound(w: World, act: Act)
    requires Sound(w) && w.portal == Booting(BootFinalize)
    ensures var n := Next(w, BootStep(act)); n.Some? ==> Sound(n.value)
  {
    FinalizeMarksBroken(w.ledger, FoundOn(w.disk, w.ledger.apps.Keys), 0.0);
  }

  lemma BootKeepsSound(w: World, act: Act)
    requires Sound(w)
    ensures var n := Next(w, BootStep(act)); n.Some? ==> Sound(n.value)
  {
    if w.portal.Booting? {
      if HandlesOrphans(w.portal.boot) {
        OrphansKeepSound(w, act);
      } else if w.portal.boot.BootFinalize? {
        FinalizeKeepsSound(w, act);
      } else {
        CleanupKeepsSound(w, act);
      }
    }
  }

  lemma WroteKeepsSound(w: World, write: LedgerWrite<Values.Raw>)
    requires Sound(w)
    ensures var n := Next(w, Wrote(write)); n.Some? ==> Sound(n.value)
  {
    WriteKeepsJobs(w.ledger, write);
    if w.history.accepted.Some? {
      SameJobsSameFindable(w.ledger, Write(w.ledger, write), w.history.accepted.value);
    }
    WroteKeepsFacts(w, write);
  }

  lemma SameJobsSameFacts(s: State, s': State, accepted: Option<JobId>, pc: Pc)
    requires SameJobs(s, s') && LedgerFacts(s, accepted, pc)
    ensures LedgerFacts(s', accepted, pc)
  {
  }

  lemma WroteKeepsFacts(w: World, write: LedgerWrite<Values.Raw>)
    requires FactsHold(w) && SameJobs(w.ledger, Write(w.ledger, write))
    ensures FactsHold(w.(ledger := Write(w.ledger, write)))
  {
    forall t | t in w.threads ensures LedgerFacts(Write(w.ledger, write), w.history.accepted, w.threads[t]) {
      SameJobsSameFacts(w.ledger, Write(w.ledger, write), w.history.accepted, w.threads[t]);
    }
  }

  lemma ArriveKeepsIds(w: World, t: Tid, request: Request)
    requires IdsApart(w)
    ensures var n := Next(w, Arrive(t, request)); n.Some? ==> IdsApart(n.value)
  {
    var n := Next(w, Arrive(t, request));
    if n.Some? {
      var w' := n.value;
      assert w.usedIds <= w'.usedIds && JobOf(w'.threads[t]) == if request.RunJob? then Some(request.job) else None;
      forall u | u in w'.threads && u != t ensures u in w.threads && w'.threads[u] == w.threads[u] {
      }
    }
  }

  lemma ArriveKeepsFacts(w: World, t: Tid, request: Request)
    requires FactsHold(w) && OneUncontained(w)
    ensures var n := Next(w, Arrive(t, request)); n.Some? ==> FactsHold(n.value) && OneUncontained(n.value)
  {
    var n := Next(w, Arrive(t, request));
    if n.Some? {
      IdleKnowsNothing(n.value, Asked(request));
    }
  }

  lemma ArriveKeepsRest(w: World, t: Tid, request: Request)
    requires LocksAgree(w) && Tidied(w)
    ensures var n := Next(w, Arrive(t, request));
            n.Some? ==> LocksAgree(n.value) && Tidied(n.value) && n.value.portal.Serving?
                        && n.value.ledger == w.ledger && n.value.disk == w.disk && n.value.history == w.history
  {
  }

  lemma ArriveKeepsSound(w: World, t: Tid, request: Request)
    requires Sound(w)
    ensures var n := Next(w, Arrive(t, request)); n.Some? ==> Sound(n.value)
  {
    ArriveKeepsIds(w, t, request);
    ArriveKeepsFacts(w, t, request);
    ArriveKeepsRest(w, t, request);
  }

  lemma OthersKeepSound(w: World, e: Event)
    requires Sound(w) && (e.Kill? || e.Launch? || e.UnitExits? || e.SyncExits?)
    ensures var n := Next(w, e); n.Some? ==> Sound(n.value)
  {
  }

  lemma {:induction false} RunKeepsSound(events: seq<Event>)
    ensures Run(events).Some? ==> Sound(Run(events).value)
  {
    if events != [] {
      var before, e := events[..|events| - 1], events[|events| - 1];
      RunKeepsSound(before);
      if Run(events).Some? {
        var w := Run(before).value;
        match e {
          case Thread(t, act) => ThreadKeepsSound(w, t, act);
          case BootStep(act) => BootKeepsSound(w, act);
          case Wrote(write) => WroteKeepsSound(w, write);
          case Arrive(t, request) => ArriveKeepsSound(w, t, request);
          case _ => OthersKeepSound(w, e);
        }
      }
    }
  }

  // ----- The theorems -----

  /** An app's tree lacks its manifest or its environment. */
  predicate Damaged(d: Disk, a: AppId) {
    !(a in d.apps && d.apps[a].Whole? && d.apps[a].manifest && d.apps[a].venv)
  }

  /**
   * Kill the Portal at any step of any run: when startup recovery completes, no job is current, every
   * directory is an app of the ledger, an app is marked broken exactly when its tree lacks its
   * manifest or environment, every tree is whole, and the tree of the interrupted job's app is
   * the one before the job, the one it built, or absent and marked broken.
   */
  lemma {:induction false} RecoveryRestores(events: seq<Event>)
    requires Run(events).Some? && Run(events).value.portal == Booting(BootFinalize)
    ensures Next(Run(events).value, BootStep(Go)).Some?
    ensures var w := Next(Run(events).value, BootStep(Go)).value;
            && w.portal.Serving? && w.ledger.currentJob.None? && w.ledger.currentJobApp.None?
            && w.ledger.apps.Keys == Run(events).value.ledger.apps.Keys
            && w.disk.apps.Keys <= w.ledger.apps.Keys
            && (forall a | a in w.ledger.apps :: w.ledger.apps[a].brokenReason.Some? <==> Damaged(w.disk, a))
            && (forall a | a in w.disk.apps :: w.disk.apps[a].Whole?)
            && (w.history.jobApp.Some? ==>
                  var a := w.history.jobApp.value;
                  var tree := Get(w.disk.apps, a);
                  || tree == w.history.before || tree == w.history.built
                  || (tree.None? && (a in w.ledger.apps ==> w.ledger.apps[a].brokenReason.Some?)))
  {
    RunKeepsSound(events);
    var before := Run(events).value;
    FinalizeMarksBroken(before.ledger, FoundOn(before.disk, before.ledger.apps.Keys), 0.0);
  }

  /** Sweeping never touches the tree of an app in the ledger. */
  lemma LedgeredAppsAreNotSwept(w: World, act: Act, a: AppId)
    requires w.portal.Booting? && BootNext(w, w.portal.boot, act).Some? && a in w.ledger.apps
    ensures Get(BootNext(w, w.portal.boot, act).value.disk.apps, a) == Get(w.disk.apps, a)
  {
  }

  /** Only the job on an app, a reset, or the sweep of a directory without a ledger entry changes a tree. */
  lemma TreesChangeOnlyByTheirJob(w: World, t: Tid, act: Act, a: AppId)
    requires Next(w, Thread(t, act)).Some?
    ensures var pc := w.threads[t];
            Get(Next(w, Thread(t, act)).value.disk.apps, a) != Get(w.disk.apps, a) ==>
              pc.ResetErasing? || (JobOf(pc).Some? && JobOf(pc).value.app == a)
  {
    MovesStepsDisk(w, w.threads[t], act);
    MovesKeepsToJob(w, w.threads[t], act);
  }

  /** In a recovered process every directory is in the ledger, but for the one a job is just moving. */
  lemma {:induction false} DirectoriesAreLedgered(events: seq<Event>, a: AppId)
    requires Run(events).Some? && Run(events).value.portal.Serving? && Run(events).value.history.tidy
    requires a in Run(events).value.disk.apps && a !in Run(events).value.ledger.apps
    ensures var w := Run(events).value;
            exists t :: t in w.threads && HoldsApps(w.threads[t]) && Covers(w.threads[t], a)
  {
    RunKeepsSound(events);
    var w := Run(events).value;
    assert w.appsLock.owner in w.threads;
  }

  /**
   * The job accepted last is findable in every later state, until the next job is accepted, a
   * reset erases the ledger, or the Portal dies.
   */
  lemma {:induction false} AcceptedJobStaysFindable(events: seq<Event>)
    requires Run(events).Some? && Run(events).value.history.accepted.Some?
    ensures Findable(Run(events).value.ledger, Run(events).value.history.accepted.value)
  {
    RunKeepsSound(events);
  }

  /** What makes the Portal forget which job was accepted last, and nothing else does. */
  lemma AcceptanceChanges(w: World, e: Event)
    requires Next(w, e).Some? && Next(w, e).value.history.accepted != w.history.accepted
    ensures || e.Kill?
            || (e.Thread? && e.t in w.threads && (w.threads[e.t].JobChecked? || w.threads[e.t].ResetErasing?))
  {
    if e.Thread? {
      MovesStepsLedger(w, w.threads[e.t], e.act);
    }
  }

  /** A job that fails always finds itself in the ledger as the current one. */
  lemma {:induction false} FailingJobIsCurrent(events: seq<Event>, t: Tid)
    requires Run(events).Some? && t in Run(events).value.threads
    requires var pc := Run(events).value.threads[t]; pc.JobFailing? || pc.JobUncontainedFail?
    ensures var w := Run(events).value;
            && w.ledger.currentJob.Some? && w.ledger.currentJob.value.id == w.threads[t].job.id
            && w.ledger.currentJobApp == Some(w.threads[t].job.app)
  {
    RunKeepsSound(events);
  }

  // ----- Delete -----

  /** The record a delete dropped and still carries. */
  function Carried(pc: Pc): Option<Record> {
    if pc.DeleteUnregistered? || pc.DeleteSwapLocked? || pc.DeleteSwapUnlock? || pc.DeleteTrashed? then Some(pc.original)
    else if pc.DeleteFailing? then pc.failedOriginal
    else None
  }

  /** What one step of a delete does to the ledger. */
  ghost predicate DeleteStep(w: World, pc: Pc, w': World, pc': Pc)
    requires IsDelete(pc)
  {
    var a := pc.job.app;
    && (pc.JobRunning? ==> a in w.ledger.apps && Carried(pc') == Some(w.ledger.apps[a]) && a !in w'.ledger.apps)
    && (!pc.JobRunning? && !pc'.JobClosing? ==> Carried(pc') == Carried(pc) && w'.ledger == w.ledger)
    && (pc'.JobClosing? && pc.DeleteTrashed? ==>
          && a !in w'.ledger.apps && a !in w'.disk.apps
          && w'.ledger.lastOrphanJob == Some(DoneJob(pc.job)))
    && (pc'.JobClosing? && !pc.DeleteTrashed? ==>
          && Carried(pc).Some? && a in w'.ledger.apps
          && w'.ledger.apps[a] == Carried(pc).value.(lastJob := Some(FailedJob(pc.job))))
    && (forall b | b != a :: Get(w'.ledger.apps, b) == Get(w.ledger.apps, b))
  }

  lemma DeleteBegins(w: World, t: Tid, pc: Pc, act: Act)
    requires IsDelete(pc) && pc.JobRunning? && LedgerFacts(w.ledger, w.history.accepted, pc)
    ensures var m := DeleteMove(w, pc, act); m.Does? ==> DeleteStep(w, pc, After(w, t, m.effect, m.next), m.next)
  {
  }

  lemma DeleteProceeds(w: World, t: Tid, pc: Pc, act: Act)
    requires IsDelete(pc) && !pc.JobRunning? && !pc.DeleteTrashed? && !pc.DeleteFailing?
    ensures var m := DeleteMove(w, pc, act); m.Does? ==> DeleteStep(w, pc, After(w, t, m.effect, m.next), m.next)
  {
  }

  lemma DeleteEnds(w: World, t: Tid, pc: Pc, act: Act)
    requires (pc.DeleteTrashed? || pc.DeleteFailing?) && LedgerFacts(w.ledger, w.history.accepted, pc)
    requires TreeFacts(w.disk, w.history, pc)
    ensures var m := DeleteMove(w, pc, act); m.Does? ==> DeleteStep(w, pc, After(w, t, m.effect, m.next), m.next)
  {
  }

  lemma DeleteMoves(w: World, t: Tid, act: Act)
    requires w.portal.Serving? && t in w.threads && IsDelete(w.threads[t])
    ensures var m := DeleteMove(w, w.threads[t], act);
            Next(w, Thread(t, act)) == if m.Does? then Some(After(w, t, m.effect, m.next)) else None
  {
  }

  lemma {:induction false} ThreadFacts(events: seq<Event>, t: Tid)
    requires Run(events).Some? && t in Run(events).value.threads
    ensures var w := Run(events).value;
            LedgerFacts(w.ledger, w.history.accepted, w.threads[t]) && TreeFacts(w.disk, w.history, w.threads[t])
  {
    RunKeepsSound(events);
  }

  /** Every step of a delete: it drops the record, carries it along, and ends done or gives it back. */
  lemma {:induction false} DeleteStepHolds(events: seq<Event>, t: Tid, act: Act)
    requires Run(events).Some? && Next(Run(events).value, Thread(t, act)).Some?
    requires IsDelete(Run(events).value.threads[t])
    ensures var w := Run(events).value;
            var w' := Next(w, Thread(t, act)).value;
            DeleteStep(w, w.threads[t], w', w'.threads[t])
  {
    var w := Run(events).value;
    var pc := w.threads[t];
    ThreadFacts(events, t);
    DeleteMoves(w, t, act);
    if pc.JobRunning? {
      DeleteBegins(w, t, pc, act);
    } else if pc.DeleteTrashed? || pc.DeleteFailing? {
      DeleteEnds(w, t, pc, act);
    } else {
      DeleteProceeds(w, t, pc, act);
    }
  }

  // ----- Recovery, however often it runs and wherever it is cut short -----

  /** Systemd, kills and startup; no request, job or settings write. */
  predicate IsRecoveryEvent(e: Event) {
    e.Kill? || e.Launch? || e.BootStep? || e.UnitExits? || e.SyncExits?
  }

  function RunFrom(w: World, events: seq<Event>): Option<World> {
    if events == [] then Some(w)
    else
      var v := RunFrom(w, events[..|events| - 1]);
      if v.None? then None else Next(v.value, events[|events| - 1])
  }

  /** The ledger that recovery makes of a crashed world. */
  function RecoveredLedger(w: World): State {
    FinalizeAppsState(w.ledger, FoundOn(w.disk, w.ledger.apps.Keys), 0.0)
  }

  /** Recovery of `crash` is under way, or done, in `w`. */
  predicate Recovering(crash: World, w: World) {
    && w.ledger.apps.Keys == crash.ledger.apps.Keys
    && (w.ledger == crash.ledger || w.ledger == RecoveredLedger(crash))
    && (forall a | a in crash.ledger.apps :: Get(w.disk.apps, a) == Get(crash.disk.apps, a))
    && (w.portal == Booting(BootFinalize) ==> w.disk.apps.Keys <= w.ledger.apps.Keys)
    && (w.portal.Serving? ==> w.threads == map[])
    && (w.portal.Serving? && w.history.tidy ==>
          w.ledger == RecoveredLedger(crash) && w.disk.apps.Keys <= w.ledger.apps.Keys)
    && (!w.portal.Serving? ==> !w.history.tidy)
  }

  lemma RecoveryFinishes(crash: World, w: World)
    requires Recovering(crash, w)
    ensures RecoveredLedger(w) == RecoveredLedger(crash)
    ensures RecoveredLedger(crash).apps.Keys == crash.ledger.apps.Keys
  {
    var found := FoundOn(crash.disk, crash.ledger.apps.Keys);
    FinalizeMarksBroken(crash.ledger, found, 0.0);
    assert FoundOn(w.disk, w.ledger.apps.Keys) == found;
    FinalizeIdempotent(crash.ledger, found, 0.0, 0.0);
  }

  lemma RecoveryFinalizeStep(crash: World, w: World, act: Act)
    requires Recovering(crash, w) && w.threads == map[] && w.portal == Booting(BootFinalize)
    ensures Next(w, BootStep(act)).Some? ==>
              Recovering(crash, Next(w, BootStep(act)).value) && Next(w, BootStep(act)).value.threads == map[]
  {
    RecoveryFinishes(crash, w);
    assert act == Go ==> Next(w, BootStep(act)).value.ledger == RecoveredLedger(w);
  }

  /** No step of a recovery but its last touches the ledger, and none the tree of an app in it. */
  lemma RecoveryEarlyStep(w: World, e: Event)
    requires w.threads == map[] && IsRecoveryEvent(e) && !(e.BootStep? && w.portal == Booting(BootFinalize))
    requires !w.portal.Serving? ==> !w.history.tidy
    requires w.portal == Booting(BootFinalize) ==> w.disk.apps.Keys <= w.ledger.apps.Keys
    requires Next(w, e).Some?
    ensures var w' := Next(w, e).value;
            && w'.ledger == w.ledger && w'.threads == map[]
            && (forall a | a in w.ledger.apps :: Get(w'.disk.apps, a) == Get(w.disk.apps, a))
            && (w'.portal == Booting(BootFinalize) ==> w'.disk.apps.Keys <= w.ledger.apps.Keys)
            && (w'.history.tidy ==> w'.portal.Serving? && w.portal.Serving? && w.history.tidy && w'.disk == w.disk)
  {
  }

  lemma RecoveryStep(crash: World, w: World, e: Event)
    requires Recovering(crash, w) && w.threads == map[] && IsRecoveryEvent(e) && Next(w, e).Some?
    ensures Recovering(crash, Next(w, e).value) && Next(w, e).value.threads == map[]
  {
    if e.BootStep? && w.portal == Booting(BootFinalize) {
      RecoveryFinalizeStep(crash, w, e.act);
    } else {
      RecoveryEarlyStep(w, e);
    }
  }

  lemma {:induction false} RecoverySteps(crash: World, events: seq<Event>)
    requires crash.portal.Down? && crash.threads == map[] && !crash.history.tidy
    requires forall i | 0 <= i < |events| :: IsRecoveryEvent(events[i])
    ensures RunFrom(crash, events).Some? ==>
              Recovering(crash, RunFrom(crash, events).value) && RunFrom(crash, events).value.threads == map[]
  {
    if events != [] {
      RecoverySteps(crash, events[..|events| - 1]);
      if RunFrom(crash, events).Some? {
        RecoveryStep(crash, RunFrom(crash, events[..|events| - 1]).value, events[|events| - 1]);
      }
    }
  }

  /**
   * Recovery is idempotent, and can be cut short. Whatever sequence of starts, kills and recovery
   * steps follows a crash, once one recovery has completed the ledger and the app trees are the
   * ones a single undisturbed recovery of that crash would have left.
   */
  lemma {:induction false} RecoveryIsIdempotent(crash: seq<Event>, events: seq<Event>)
    requires Run(crash).Some? && Run(crash).value.portal.Down?
    requires forall i | 0 <= i < |events| :: IsRecoveryEvent(events[i])
    requires RunFrom(Run(crash).value, events).Some?
    requires var w := RunFrom(Run(crash).value, events).value; w.portal.Serving? && w.history.tidy
    ensures var c, w := Run(crash).value, RunFrom(Run(crash).value, events).value;
            && w.ledger == RecoveredLedger(c)
            && w.disk.apps == (map a | a in c.disk.apps && a in c.ledger.apps.Keys :: c.disk.apps[a])
  {
    RunKeepsSound(crash);
    var c, w := Run(crash).value, RunFrom(Run(crash).value, events).value;
    assert c.threads == map[] && !c.history.tidy;
    RecoverySteps(c, events);
    KeptTrees(c.disk.apps, w.disk.apps, c.ledger.apps.Keys);
  }

  lemma KeptTrees(before: map<AppId, Tree>, after: map<AppId, Tree>, keys: set<AppId>)
    requires after.Keys <= keys && forall a | a in keys :: Get(after, a) == Get(before, a)
    ensures after == (map a | a in before && a in keys :: before[a])
  {
    forall a | a in keys ensures a in after <==> a in before {
      assert Get(after, a) == Get(before, a);
    }
    forall a | a in after ensures after[a] == before[a] {
      assert Get(after, a) == Get(before, a);
    }
  }

  /**
   * Startup goes on when recovery raises. The job a dead process left behind is then resolved if and
   * only if finalize was reached and completed, or there was no such job.
   */
  lemma StartupEndsJobExactly(w: World, act: Act)
    requires w.portal.Booting? && Next(w, BootStep(act)).Some? && Next(w, BootStep(act)).value.portal.Serving?
    ensures Next(w, BootStep(act)).value.ledger.currentJob.None?
            <==> (w.portal.boot.BootFinalize? && act == Go) || w.ledger.currentJob.None?
  {
  }
}
