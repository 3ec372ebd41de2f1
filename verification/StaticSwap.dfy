/**
 * The two-rename swap of the frontend build, and its repair at boot (`adapters/static_asset.py`),
 * under every failure and every kill point.
 */
module StaticSwap {
  import opened Prelude
  import opened Outcomes

  type Tag = string

  /** A frontend build as it lies in a directory: whole, or with files missing. */
  datatype Build = Whole(tag: Tag) | Torn

  /** `static/`, `static.prev` and `static.tmp-<pid>`. */
  datatype Dirs = Dirs(live: Option<Build>, prev: Option<Build>, temp: Option<Build>)

  /** A recursive removal is not atomic: when it raises or is killed, files may already be gone. */
  datatype Removal = Removes | StopsShort(op: Op, intact: bool)

  predicate Proper(r: Removal) {
    r.StopsShort? ==> !r.op.Works?
  }

  function Left(b: Option<Build>, r: Removal): Option<Build> {
    if r.Removes? || b.None? then None else if r.intact then b else Some(Torn)
  }

  predicate Kills(r: Removal) {
    r.StopsShort? && r.op.Killed?
  }

  /** How each operation of one swap turns out, should the swap come to it. */
  datatype SwapPlan = SwapPlan(
    dropPrev: Removal,
    setAside: Op,
    moveIn: Op,
    restore: Op,
    dropTemp: Removal,
    dropBackup: Removal)

  predicate ProperSwap(p: SwapPlan) {
    Proper(p.dropPrev) && Proper(p.dropTemp) && Proper(p.dropBackup)
  }

  /** The error path: put the old build back if it was set aside, and remove the staged one. */
  function SwapBack(d: Dirs, p: SwapPlan, setAside: bool): (Dirs, Ending) {
    if setAside && d.prev.Some? && d.live.None? && !p.restore.Works? then (d, Stop(p.restore))
    else
      var back := if setAside && d.prev.Some? && d.live.None? then d.(live := d.prev, prev := None) else d;
      (back.(temp := Left(d.temp, p.dropTemp)), if Kills(p.dropTemp) then Dead else Failed)
  }

  function MoveIn(d: Dirs, p: SwapPlan, setAside: bool): (Dirs, Ending) {
    if p.moveIn.Killed? then (d, Dead)
    else if p.moveIn.Raises? || d.temp.None? then SwapBack(d, p, setAside)
    else
      var moved := d.(live := d.temp, temp := None);
      if setAside then (moved.(prev := Left(d.prev, p.dropBackup)), if Kills(p.dropBackup) then Dead else Finished)
      else (moved, Finished)
  }

  /** What one swap leaves, and how it ends. */
  function Swap(d: Dirs, p: SwapPlan): (Dirs, Ending)
    requires ProperSwap(p)
  {
    var prev := if d.prev.Some? then Left(d.prev, p.dropPrev) else None;
    if d.prev.Some? && p.dropPrev.StopsShort? then (d.(prev := prev), Stop(p.dropPrev.op))
    else if d.live.None? then MoveIn(d.(prev := prev), p, false)
    else match p.setAside
      case Works => MoveIn(d.(prev := d.live, live := None), p, true)
      case Raises => SwapBack(d.(prev := prev), p, false)
      case Killed => (d.(prev := prev), Dead)
  }

  /** How each operation of one boot repair turns out. A staging directory whose pid looks alive is left intact. */
  datatype RepairPlan = RepairPlan(putBack: Op, dropTemp: Removal)

  function Repair(d: Dirs, p: RepairPlan): (Dirs, Ending) {
    var missing := d.live.None? && d.prev.Some?;
    if missing && p.putBack.Killed? then (d, Dead)
    else
      var back := if missing && p.putBack.Works? then d.(live := d.prev, prev := None) else d;
      (back.(temp := Left(d.temp, p.dropTemp)), if Kills(p.dropTemp) then Dead else Finished)
  }

  /** The directories as the running process changes them, one operation at a time. */
  class StaticDirs {
    var live: Option<Build>
    var prev: Option<Build>
    var temp: Option<Build>

    constructor (d: Dirs)
      ensures State() == d
    {
      live, prev, temp := d.live, d.prev, d.temp;
    }

    ghost function State(): Dirs
      reads this
    {
      Dirs(live, prev, temp)
    }

    method SwapIntoPlace(p: SwapPlan) returns (end: Ending)
      requires ProperSwap(p)
      modifies this
      ensures (State(), end) == Swap(old(State()), p)
    {
      if prev.Some? {
        prev := Left(prev, p.dropPrev);
        if p.dropPrev.StopsShort? {
          return Stop(p.dropPrev.op);
        }
      }
      var swappedOldIn, raised := false, false;
      if live.Some? {
        if p.setAside.Killed? {
          return Dead;
        } else if p.setAside.Raises? {
          raised := true;
        } else {
          prev, live := live, None;
          swappedOldIn := true;
        }
      }
      if !raised {
        if p.moveIn.Killed? {
          return Dead;
        } else if p.moveIn.Raises? || temp.None? {
          raised := true;
        } else {
          live, temp := temp, None;
        }
      }
      if raised {
        if swappedOldIn && prev.Some? && live.None? {
          if !p.restore.Works? {
            return Stop(p.restore);
          }
          live, prev := prev, None;
        }
        temp := Left(temp, p.dropTemp);
        return if Kills(p.dropTemp) then Dead else Failed;
      }
      if swappedOldIn {
        prev := Left(prev, p.dropBackup);
        if Kills(p.dropBackup) {
          return Dead;
        }
      }
      end := Finished;
    }

    method RepairStaticDir(p: RepairPlan) returns (end: Ending)
      modifies this
      ensures (State(), end) == Repair(old(State()), p)
    {
      if live.None? && prev.Some? {
        if p.putBack.Killed? {
          return Dead;
        } else if p.putBack.Works? {
          live, prev := prev, None;
        }
      }
      temp := Left(temp, p.dropTemp);
      end := if Kills(p.dropTemp) then Dead else Finished;
    }
  }

  // ----- What the swap promises -----

  predicate Served(d: Dirs) {
    d.live.Some? && d.live.value.Whole?
  }

  /** A whole build is served, or is one rename away. */
  predicate Recoverable(d: Dirs) {
    Served(d) || (d.live.None? && d.prev.Some? && d.prev.value.Whole?)
  }

  predicate Staged(d: Dirs) {
    d.temp.Some? && d.temp.value.Whole?
  }

  /** A swap that returns has installed the staged build; one that does not leaves the old one or the new. */
  lemma SwapInstallsOrKeeps(d: Dirs, p: SwapPlan)
    requires ProperSwap(p) && Served(d) && Staged(d)
    ensures var (d', end) := Swap(d, p);
            && (end.Finished? ==> d'.live == d.temp && d'.temp.None?)
            && (end.Failed? && !p.restore.Raises? ==> d'.live == d.live)
            && (d'.live == d.live || d'.live == d.temp || (d'.live.None? && d'.prev == d.live))
            && Recoverable(d')
  {
  }

  /** Repair serves the build that was set aside, and changes nothing while `static/` exists. */
  lemma RepairServes(d: Dirs, p: RepairPlan)
    requires Recoverable(d)
    ensures var (d', end) := Repair(d, p);
            && Recoverable(d')
            && (end.Finished? && !p.putBack.Raises? ==> Served(d'))
            && (d.live.Some? ==> d'.live == d.live && d'.prev == d.prev)
            && (d'.live.Some? ==> d'.live == d.live || d'.live == d.prev)
  {
  }

  /** A repair that is killed and run again ends where one undisturbed repair ends. */
  lemma RepairIsIdempotent(d: Dirs, p: RepairPlan, q: RepairPlan)
    requires q.putBack.Works?
    ensures Repair(Repair(d, p).0, q).0.live == Repair(d, q).0.live
  {
  }

  const FatalSwap := SwapPlan(Removes, Works, Raises, Works, Removes, Removes)

  /**
   * The swap can be relied on exactly when `static/` exists as it begins. Entered without it, the
   * swap first deletes the only build there is, and one failed rename later the frontend is gone.
   */
  lemma SwapIsSafeExactly(d: Dirs)
    requires Recoverable(d) && Staged(d)
    ensures (forall p :: ProperSwap(p) ==> Recoverable(Swap(d, p).0)) <==> d.live.Some?
  {
    if d.live.Some? {
      forall p | ProperSwap(p) ensures Recoverable(Swap(d, p).0) {
        SwapInstallsOrKeeps(d, p);
      }
    } else {
      assert ProperSwap(FatalSwap) && !Recoverable(Swap(d, FatalSwap).0);
    }
  }
}
