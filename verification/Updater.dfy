/**
 * Whole runs of the self-updater: update attempts with any failure and any kill point, operator
 * edits, power cuts and boot repairs, in any order.
 */
module Updater {
  import opened Prelude
  import opened Outcomes
  import C = Checkout
  import S = StaticSwap

  type Tag = string

  /** The `assets` step: it stages a whole build, or stops and leaves anything in the staging directory. */
  datatype Staging = Stages | StagingStops(op: Op, left: Option<S.Build>)

  /** How each operation of one `apply` turns out, should it come to it. */
  datatype ApplyPlan = ApplyPlan(
    firstStatus: Op,
    firstClear: Op,
    fetch: Op,
    staging: Staging,
    checkout: C.CheckoutPlan,
    sync: Op,
    dropTemp: S.Removal,
    swap: S.SwapPlan)

  predicate Proper(p: ApplyPlan) {
    && (p.staging.StagingStops? ==> !p.staging.op.Works?)
    && C.Proper(p.checkout) && S.Proper(p.dropTemp) && S.ProperSwap(p.swap)
  }

  /** What survives the Portal; `installed` are the tags whose checkout and sync ever completed together. */
  datatype Device = Device(up: bool, tree: C.Tree, dirs: S.Dirs, installed: set<Tag>)

  /** The error path of `apply` between staging and the swap: the staged build is removed. */
  function Abandon(d: Device, end: Ending, drop: S.Removal): (Device, Ending) {
    if end.Dead? then (d, Dead)
    else (d.(dirs := d.dirs.(temp := S.Left(d.dirs.temp, drop))), if S.Kills(drop) then Dead else Failed)
  }

  function SyncAndSwap(d: Device, tag: Tag, p: ApplyPlan): (Device, Ending)
    requires Proper(p)
  {
    if !p.sync.Works? then Abandon(d.(tree := d.tree.(synced := None)), Stop(p.sync), p.dropTemp)
    else
      var done := d.(tree := d.tree.(synced := Some(tag)), installed := d.installed + {tag});
      var (dirs, end) := S.Swap(done.dirs, p.swap);
      (done.(dirs := dirs), end)
  }

  function FetchAndCheckOut(d: Device, tag: Tag, p: ApplyPlan): (Device, Ending)
    requires Proper(p)
  {
    if !p.fetch.Works? then (d, Stop(p.fetch))
    else if p.staging.StagingStops? then (d.(dirs := d.dirs.(temp := p.staging.left)), Stop(p.staging.op))
    else
      var staged := d.(dirs := d.dirs.(temp := Some(S.Whole(tag))));
      var (tree, end) := C.CheckOut(d.tree, tag, p.checkout);
      var after := staged.(tree := tree);
      if end.Finished? then SyncAndSwap(after, tag, p) else Abandon(after, end, p.dropTemp)
  }

  /** What one `apply` leaves, and how it ends. */
  function Apply(d: Device, tag: Tag, p: ApplyPlan): (Device, Ending)
    requires Proper(p)
  {
    var (tree, end) := C.ClearStale(d.tree, p.firstStatus, p.firstClear);
    if end.Finished? then FetchAndCheckOut(d.(tree := tree), tag, p) else (d.(tree := tree), end)
  }

  /** The updater of the running process. */
  class GitUvUpdater {
    const clone: C.Clone
    const dirs: S.StaticDirs
    ghost var installed: set<Tag>

    constructor (d: Device)
      ensures State() == d.(up := true)
      ensures fresh(clone) && fresh(dirs)
    {
      clone := new C.Clone(d.tree);
      dirs := new S.StaticDirs(d.dirs);
      installed := d.installed;
    }

    ghost function State(): Device
      reads this, clone, dirs
    {
      Device(true, clone.State(), dirs.State(), installed)
    }

    method Run(tag: Tag, p: ApplyPlan) returns (end: Ending)
      requires Proper(p)
      modifies this, clone, dirs
      ensures (State(), end) == Apply(old(State()), tag, p)
    {
      end := clone.ClearMarkerIfTreeIsClean(p.firstStatus, p.firstClear);
      if !end.Finished? {
        return;
      }
      if !p.fetch.Works? {
        return Stop(p.fetch);
      }
      if p.staging.StagingStops? {
        dirs.temp := p.staging.left;
        return Stop(p.staging.op);
      }
      dirs.temp := Some(S.Whole(tag));
      end := clone.CheckoutTag(tag, p.checkout);
      if end.Finished? {
        if p.sync.Works? {
          clone.synced := Some(tag);
          installed := installed + {tag};
          end := dirs.SwapIntoPlace(p.swap);
          return;
        }
        clone.synced := None;
        end := Stop(p.sync);
      }
      if !end.Dead? {
        dirs.temp := S.Left(dirs.temp, p.dropTemp);
        end := if S.Kills(p.dropTemp) then Dead else Failed;
      }
    }
  }

  // ----- Runs -----

  datatype Event =
    | Update(tag: Tag, plan: ApplyPlan)
    /** An operator changes tracked files over SSH, while no update runs. */
    | EditFiles
    /** An operator commits, stashes or resets: the tree is clean, at any commit. */
    | Restore(head: Option<Tag>)
    | PowerCut
    | Boot(repair: S.RepairPlan)

  function Edited(t: C.Tree): C.Tree {
    t.(edit := if t.edit != C.NoEdit then t.edit else if t.marker then C.Exposed else C.Guarded)
  }

  function Next(d: Device, e: Event): Option<Device> {
    match e
    case Update(tag, p) =>
      if !d.up || !Proper(p) then None
      else
        var (after, end) := Apply(d, tag, p);
        Some(after.(up := !end.Dead?))
    case EditFiles => Some(d.(tree := Edited(d.tree)))
    case Restore(head) => Some(d.(tree := d.tree.(head := head, debris := false, edit := C.NoEdit)))
    case PowerCut => Some(d.(up := false))
    case Boot(p) =>
      if d.up then None
      else
        var (dirs, end) := S.Repair(d.dirs, p);
        Some(d.(dirs := dirs, up := end.Finished?))
  }

  /** A device as it was provisioned with a release. */
  function Provisioned(tag: Tag): Device {
    Device(true, C.Tree(Some(tag), false, C.NoEdit, false, Some(tag)), S.Dirs(Some(S.Whole(tag)), None, None), {tag})
  }

  function RunFrom(d: Device, events: seq<Event>): Option<Device> {
    if events == [] then Some(d)
    else
      var before := RunFrom(d, events[..|events| - 1]);
      if before.None? then None else Next(before.value, events[|events| - 1])
  }

  // ----- What one attempt keeps -----

  /** Every whole build on disk that may be served is one whose checkout and sync completed. */
  predicate Traceable(d: Device) {
    && (d.dirs.live.Some? && d.dirs.live.value.Whole? ==> d.dirs.live.value.tag in d.installed)
    && (d.dirs.prev.Some? && d.dirs.prev.value.Whole? ==> d.dirs.prev.value.tag in d.installed)
  }

  lemma SyncAndSwapKeeps(d: Device, tag: Tag, p: ApplyPlan)
    requires Proper(p) && Traceable(d) && d.dirs.temp == Some(S.Whole(tag))
    ensures var (after, end) := SyncAndSwap(d, tag, p);
            && Traceable(after) && after.tree == d.tree.(synced := after.tree.synced)
            && (end.Finished? ==> after.dirs.live == Some(S.Whole(tag)) && after.tree.synced == Some(tag))
            && (after.installed == d.installed
                || (after.installed == d.installed + {tag} && after.tree.synced == Some(tag)))
  {
  }

  /** Whatever one attempt meets: what it leaves of the tree, and which build it may have installed. */
  lemma {:induction false} ApplyKeeps(d: Device, tag: Tag, p: ApplyPlan)
    requires Proper(p) && C.Attested(d.tree) && Traceable(d)
    ensures var (after, end) := Apply(d, tag, p);
            && C.Attested(after.tree) && Traceable(after)
            && (d.tree.edit.Guarded? ==> after.tree == d.tree && !end.Finished?)
            && (d.tree.marker && !after.tree.marker ==> !C.Dirty(after.tree))
            && (end.Finished? ==>
                  && after.tree == C.Tree(Some(tag), false, C.NoEdit, false, Some(tag))
                  && after.dirs.live == Some(S.Whole(tag)))
            && (forall t | t in after.installed && t !in d.installed ::
                  t == tag && after.tree == C.Tree(Some(tag), false, C.NoEdit, false, Some(tag)))
  {
    C.ClearStaleKeepsAttested(d.tree, p.firstStatus, p.firstClear);
    var (cleared, end) := C.ClearStale(d.tree, p.firstStatus, p.firstClear);
    if end.Finished? && p.fetch.Works? && p.staging.Stages? {
      C.CheckOutKeepsAttested(cleared, tag, p.checkout);
      var (tree, end) := C.CheckOut(cleared, tag, p.checkout);
      var staged := d.(tree := tree, dirs := d.dirs.(temp := Some(S.Whole(tag))));
      if end.Finished? {
        SyncAndSwapKeeps(staged, tag, p);
      }
    }
  }

  predicate Good(d: Device) {
    C.Attested(d.tree) && Traceable(d)
  }

  lemma NextKeepsGood(d: Device, e: Event)
    requires Good(d) && Next(d, e).Some?
    ensures Good(Next(d, e).value)
  {
    if e.Update? {
      ApplyKeeps(d, e.tag, e.plan);
    }
  }

  lemma {:induction false} RunKeepsGood(tag: Tag, events: seq<Event>)
    requires RunFrom(Provisioned(tag), events).Some?
    ensures Good(RunFrom(Provisioned(tag), events).value)
  {
    if events != [] {
      RunKeepsGood(tag, events[..|events| - 1]);
      NextKeepsGood(RunFrom(Provisioned(tag), events[..|events| - 1]).value, events[|events| - 1]);
    }
  }

  // ----- The theorems -----

  const Smooth := ApplyPlan(
    Works, Works, Works, Stages,
    C.CheckoutPlan(Works, Works, Works, C.Marks, C.Switches, Works, Works, Works),
    Works, S.Removes,
    S.SwapPlan(S.Removes, Works, Works, Works, S.Removes, S.Removes))

  /**
   * After any run, updater debris is attested by the marker. Hence one attempt whose commands all
   * succeed installs its tag, clean and with no marker left, unless the operator has an edit that was made while
   * no marker existed; then it changes nothing but the staging directory.
   */
  lemma {:induction false} OneCleanAttemptRepairs(provisioned: Tag, events: seq<Event>, tag: Tag)
    requires RunFrom(Provisioned(provisioned), events).Some?
    ensures var d := RunFrom(Provisioned(provisioned), events).value;
            && (d.tree.debris ==> d.tree.marker)
            && (C.Dirty(d.tree) && !d.tree.marker <==> d.tree.edit.Guarded?)
            && Proper(Smooth)
            && var (after, end) := Apply(d, tag, Smooth);
               if d.tree.edit.Guarded? then after == d.(dirs := d.dirs.(temp := None)) && end.Failed?
               else
                 && end.Finished?
                 && after.tree == C.Tree(Some(tag), false, C.NoEdit, false, Some(tag))
                 && after.dirs == S.Dirs(Some(S.Whole(tag)), None, None)
  {
    RunKeepsGood(provisioned, events);
    var d := RunFrom(Provisioned(provisioned), events).value;
    ApplyKeeps(d, tag, Smooth);
  }

  lemma EditSurvivesEvent(d: Device, e: Event)
    requires Good(d) && d.tree.edit.Guarded? && !e.Restore? && Next(d, e).Some?
    ensures Next(d, e).value.tree == d.tree
  {
    if e.Update? {
      ApplyKeeps(d, e.tag, e.plan);
    }
  }

  lemma {:induction false} EditSurvivesRun(d: Device, events: seq<Event>)
    requires Good(d) && d.tree.edit.Guarded? && forall i | 0 <= i < |events| :: !events[i].Restore?
    requires RunFrom(d, events).Some?
    ensures Good(RunFrom(d, events).value) && RunFrom(d, events).value.tree == d.tree
  {
    if events != [] {
      var before, e := events[..|events| - 1], events[|events| - 1];
      EditSurvivesRun(d, before);
      NextKeepsGood(RunFrom(d, before).value, e);
      EditSurvivesEvent(RunFrom(d, before).value, e);
    }
  }

  lemma {:induction false} RunInTwo(d: Device, a: seq<Event>, b: seq<Event>)
    requires RunFrom(d, a + b).Some?
    ensures RunFrom(d, a).Some? && RunFrom(d, a + b) == RunFrom(RunFrom(d, a).value, b)
  {
    if b == [] {
      assert a + b == a;
    } else {
      assert (a + b)[..|a + b| - 1] == a + b[..|b| - 1];
      RunInTwo(d, a, b[..|b| - 1]);
    }
  }

  /**
   * An edit that an operator makes outside any update while no marker exists is never discarded:
   * it survives every update attempt, power cut and boot, until the operator takes it back.
   */
  lemma {:induction false} OperatorEditsSurvive(provisioned: Tag, events: seq<Event>, later: seq<Event>)
    requires RunFrom(Provisioned(provisioned), events).Some?
    requires !RunFrom(Provisioned(provisioned), events).value.tree.marker
    requires forall i | 0 <= i < |later| :: !later[i].Restore?
    requires RunFrom(Provisioned(provisioned), events + [EditFiles] + later).Some?
    ensures var d := RunFrom(Provisioned(provisioned), events).value;
            RunFrom(Provisioned(provisioned), events + [EditFiles] + later).value.tree == d.tree.(edit := C.Guarded)
  {
    var edited := events + [EditFiles];
    RunKeepsGood(provisioned, events);
    assert edited[..|edited| - 1] == events;
    RunKeepsGood(provisioned, edited);
    RunInTwo(Provisioned(provisioned), edited, later);
    EditSurvivesRun(RunFrom(Provisioned(provisioned), edited).value, later);
  }

  /** The marker goes only when the tree is clean: by the updater, or not at all. */
  lemma {:induction false} MarkerGoesOnlyWhenClean(provisioned: Tag, events: seq<Event>, e: Event)
    requires RunFrom(Provisioned(provisioned), events).Some?
    requires Next(RunFrom(Provisioned(provisioned), events).value, e).Some?
    ensures var d := RunFrom(Provisioned(provisioned), events).value;
            var after := Next(d, e).value;
            d.tree.marker && !after.tree.marker ==> e.Update? && !C.Dirty(after.tree)
  {
    RunKeepsGood(provisioned, events);
    if e.Update? {
      ApplyKeeps(RunFrom(Provisioned(provisioned), events).value, e.tag, e.plan);
    }
  }

  /** The build that is served, or would be after repair, is one whose checkout and sync completed. */
  lemma {:induction false} ServedBuildWasInstalled(provisioned: Tag, events: seq<Event>)
    requires RunFrom(Provisioned(provisioned), events).Some?
    ensures var d := RunFrom(Provisioned(provisioned), events).value;
            && (d.dirs.live.Some? && d.dirs.live.value.Whole? ==> d.dirs.live.value.tag in d.installed)
            && (d.dirs.prev.Some? && d.dirs.prev.value.Whole? ==> d.dirs.prev.value.tag in d.installed)
  {
    RunKeepsGood(provisioned, events);
  }

  /** A tag becomes installed only in a state where the tree is clean at it and the environment is in step. */
  lemma {:induction false} InstalledMeansCheckedOutAndSynced(provisioned: Tag, events: seq<Event>, e: Event, tag: Tag)
    requires RunFrom(Provisioned(provisioned), events).Some?
    requires Next(RunFrom(Provisioned(provisioned), events).value, e).Some?
    requires tag !in RunFrom(Provisioned(provisioned), events).value.installed
    requires tag in Next(RunFrom(Provisioned(provisioned), events).value, e).value.installed
    ensures e.Update? && e.tag == tag
    ensures Next(RunFrom(Provisioned(provisioned), events).value, e).value.tree
            == C.Tree(Some(tag), false, C.NoEdit, false, Some(tag))
  {
    RunKeepsGood(provisioned, events);
    if e.Update? {
      ApplyKeeps(RunFrom(Provisioned(provisioned), events).value, e.tag, e.plan);
    }
  }

  // ----- The frontend -----

  lemma ApplyKeepsFrontend(d: Device, tag: Tag, p: ApplyPlan)
    requires Proper(p) && S.Served(d.dirs)
    ensures var (after, end) := Apply(d, tag, p);
            S.Recoverable(after.dirs) && (!end.Dead? && !p.swap.restore.Raises? ==> S.Served(after.dirs))
  {
    var (cleared, _) := C.ClearStale(d.tree, p.firstStatus, p.firstClear);
    if p.staging.Stages? {
      var (tree, _) := C.CheckOut(cleared, tag, p.checkout);
      S.SwapInstallsOrKeeps(d.dirs.(temp := Some(S.Whole(tag))), p.swap);
    }
  }

  /** What a caller can check before an update: `static/` is there, or the dirty tree will refuse the update. */
  predicate SafeToUpdate(d: Device) {
    d.dirs.live.Some? || (C.Dirty(d.tree) && !d.tree.marker)
  }

  const Fatal := Smooth.(swap := S.FatalSwap)

  /**
   * One more attempt can cost the frontend exactly when `static/` is missing as it begins and
   * the attempt can get past the dirty-tree guard. No update checks for this.
   */
  lemma {:induction false} UpdateIsSafeExactly(provisioned: Tag, events: seq<Event>, tag: Tag)
    requires RunFrom(Provisioned(provisioned), events).Some?
    requires S.Recoverable(RunFrom(Provisioned(provisioned), events).value.dirs)
    ensures var d := RunFrom(Provisioned(provisioned), events).value;
            (forall p :: Proper(p) ==> S.Recoverable(Apply(d, tag, p).0.dirs))
            <==> SafeToUpdate(d)
  {
    var d := RunFrom(Provisioned(provisioned), events).value;
    RunKeepsGood(provisioned, events);
    if d.dirs.live.Some? {
      forall p | Proper(p) ensures S.Recoverable(Apply(d, tag, p).0.dirs) {
        ApplyKeepsFrontend(d, tag, p);
      }
    } else if C.Dirty(d.tree) && !d.tree.marker {
      forall p | Proper(p) ensures S.Recoverable(Apply(d, tag, p).0.dirs) {
      }
    } else {
      assert Proper(Fatal);
      assert !S.Recoverable(Apply(d, tag, Fatal).0.dirs);
    }
  }

  /** Every update of a run begins where it is safe to. */
  ghost predicate UpdatesBeginSafely(d: Device, events: seq<Event>) {
    forall i | 0 <= i < |events| && events[i].Update? ::
      RunFrom(d, events[..i]).Some? && SafeToUpdate(RunFrom(d, events[..i]).value)
  }

  /**
   * The frontend is never lost. Whatever fails and wherever a run is cut, as long as every update
   * begins with `static/` present or is refused for the dirty tree, `static/` is whole or it is
   * absent and `static.prev` is whole.
   */
  lemma {:induction false} FrontendIsNeverLost(provisioned: Tag, events: seq<Event>)
    requires RunFrom(Provisioned(provisioned), events).Some?
    requires UpdatesBeginSafely(Provisioned(provisioned), events)
    ensures S.Recoverable(RunFrom(Provisioned(provisioned), events).value.dirs)
  {
    if events != [] {
      var before, e := events[..|events| - 1], events[|events| - 1];
      var d := Provisioned(provisioned);
      forall i | 0 <= i < |before| && before[i].Update?
        ensures RunFrom(d, before[..i]).Some? && SafeToUpdate(RunFrom(d, before[..i]).value)
      {
        assert before[..i] == events[..i] && before[i] == events[i];
      }
      FrontendIsNeverLost(provisioned, before);
      var was := RunFrom(d, before).value;
      if e.Update? {
        assert events[|before|] == e && events[..|before|] == before;
        UpdateIsSafeExactly(provisioned, before, e.tag);
      } else if e.Boot? {
        S.RepairServes(was.dirs, e.repair);
      }
    }
  }

  /** The only failure that needs a boot to undo is a rename back to `static/`; here it does not fail. */
  predicate RenamesBack(e: Event) {
    && (e.Update? ==> !e.plan.swap.restore.Raises?)
    && (e.Boot? ==> !e.repair.putBack.Raises?)
  }

  /**
   * Where no rename back to `static/` fails, the Portal has its frontend whenever it is up, in every
   * state of every run.
   */
  lemma {:induction false} FrontendIsServedWhileUp(provisioned: Tag, events: seq<Event>)
    requires RunFrom(Provisioned(provisioned), events).Some?
    requires forall i | 0 <= i < |events| :: RenamesBack(events[i])
    ensures var d := RunFrom(Provisioned(provisioned), events).value;
            S.Recoverable(d.dirs) && (d.up ==> S.Served(d.dirs))
  {
    if events != [] {
      var before, e := events[..|events| - 1], events[|events| - 1];
      FrontendIsServedWhileUp(provisioned, before);
      var d := RunFrom(Provisioned(provisioned), before).value;
      assert RenamesBack(e);
      if e.Update? {
        ApplyKeepsFrontend(d, e.tag, e.plan);
      } else if e.Boot? {
        S.RepairServes(d.dirs, e.repair);
      }
    }
  }

  /** The run this leaves open: a failed swap whose undo fails too, and a second failed swap without a boot between. */
  lemma {:induction false} FrontendCanBeLost()
    ensures var stuck := Smooth.(swap := Smooth.swap.(moveIn := Raises, restore := Raises));
            var run := RunFrom(Provisioned("v1"), [Update("v2", stuck), Update("v2", Fatal)]);
            run.Some? && run.value.up && run.value.dirs == S.Dirs(None, None, None)
  {
    var stuck := Smooth.(swap := Smooth.swap.(moveIn := Raises, restore := Raises));
    var one, two := [Update("v2", stuck)], [Update("v2", stuck), Update("v2", Fatal)];
    assert one[..0] == [] && two[..1] == one;
    var d := Provisioned("v1");
    var (d1, end1) := Apply(d, "v2", stuck);
    assert end1.Failed? && d1.dirs == S.Dirs(None, Some(S.Whole("v1")), Some(S.Whole("v2")));
    assert RunFrom(d, []) == Some(d);
    assert RunFrom(d, one) == Some(d1.(up := true));
  }
}
