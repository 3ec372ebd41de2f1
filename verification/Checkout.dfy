/**
 * The checkout half of a self-update and its attestation marker (`adapters/git_uv_updater.py`),
 * under every failure and every kill point.
 */
module Checkout {
  import opened Prelude
  import opened Outcomes

  type Tag = string

  /**
   * An operator's uncommitted change to tracked files. Guarded: made while no marker existed.
   * Exposed: made while one did, so that it cannot be told from the updater's own debris.
   */
  datatype Edit = NoEdit | Guarded | Exposed

  /**
   * The Portal's own clone.
   *   head: the tag checked out, if HEAD is at one
   *   debris: a checkout that was cut short left tracked files half switched
   *   marker: `.git/palmimo-checkout-in-progress` exists
   *   synced: the tag whose dependencies the environment holds, if it is in step with one
   */
  datatype Tree = Tree(head: Option<Tag>, debris: bool, edit: Edit, marker: bool, synced: Option<Tag>)

  /** What `git status --porcelain` reports. */
  predicate Dirty(t: Tree) {
    t.debris || t.edit != NoEdit
  }

  /** Writing the marker: it can raise or be killed with the file already in place. */
  datatype Marking = Marks | MarkingStops(op: Op, created: bool)

  /** `git checkout`: it switches the tree cleanly, or stops with anything half done. */
  datatype Switching = Switches | SwitchingStops(op: Op, head: Option<Tag>, debris: bool, discards: bool)

  /** How each command of the checkout step turns out, should the step come to it. */
  datatype CheckoutPlan = CheckoutPlan(
    status: Op,
    clear: Op,
    verify: Op,
    mark: Marking,
    switch: Switching,
    recheck: Op,
    unmarkClean: Op,
    unmark: Op)

  predicate Proper(p: CheckoutPlan) {
    && (p.mark.MarkingStops? ==> !p.mark.op.Works?)
    && (p.switch.SwitchingStops? ==> !p.switch.op.Works?)
  }

  /** The operator's changes survive whatever a checkout without `--force` does; with it they may not. */
  function Switched(t: Tree, tag: Tag, force: bool, s: Switching): Tree {
    match s
    case Switches => t.(head := Some(tag), debris := false, edit := if force then NoEdit else t.edit)
    case SwitchingStops(_, head, debris, discards) =>
      t.(head := head, debris := debris, edit := if force && discards then NoEdit else t.edit)
  }

  function Unmark(t: Tree, op: Op): (Tree, Ending) {
    if !t.marker || op.Works? then (t.(marker := false), Finished) else (t, Stop(op))
  }

  /** `_resolve_marker_after_checkout_failure`: the failure is raised again whatever happens here. */
  function Resolve(t: Tree, p: CheckoutPlan): (Tree, Ending) {
    if p.recheck.Killed? then (t, Dead)
    else if p.recheck.Raises? || Dirty(t) then (t, Failed)
    else
      var (u, end) := Unmark(t, p.unmarkClean);
      (u, if end.Dead? then Dead else Failed)
  }

  /** From the marker on. */
  function MarkAndSwitch(t: Tree, tag: Tag, force: bool, p: CheckoutPlan): (Tree, Ending)
    requires Proper(p)
  {
    if p.mark.MarkingStops? then (t.(marker := t.marker || p.mark.created), Stop(p.mark.op))
    else
      var after := Switched(t.(marker := true), tag, force, p.switch);
      if p.switch.Switches? then Unmark(after, p.unmark)
      else if p.switch.op.Killed? then (after, Dead)
      else Resolve(after, p)
  }

  /** What `_checkout` leaves, and how it ends. */
  function CheckOut(t: Tree, tag: Tag, p: CheckoutPlan): (Tree, Ending)
    requires Proper(p)
  {
    if !p.status.Works? then (t, Stop(p.status))
    else if Dirty(t) && !t.marker then (t, Failed)
    else
      var (cleared, end) := if Dirty(t) then (t, Finished) else Unmark(t, p.clear);
      if !end.Finished? then (cleared, end)
      else if !p.verify.Works? then (cleared, Stop(p.verify))
      else MarkAndSwitch(cleared, tag, Dirty(t), p)
  }

  /** `_clear_marker_if_tree_is_clean`: a status that cannot be had leaves the marker alone. */
  function ClearStale(t: Tree, status: Op, clear: Op): (Tree, Ending) {
    if !t.marker then (t, Finished)
    else if status.Killed? then (t, Dead)
    else if status.Raises? || Dirty(t) then (t, Finished)
    else Unmark(t, clear)
  }

  /** The clone as the running process changes it, one command at a time. */
  class Clone {
    var head: Option<Tag>
    var debris: bool
    var edit: Edit
    var marker: bool
    var synced: Option<Tag>

    constructor (t: Tree)
      ensures State() == t
    {
      head, debris, edit, marker, synced := t.head, t.debris, t.edit, t.marker, t.synced;
    }

    ghost function State(): Tree
      reads this
    {
      Tree(head, debris, edit, marker, synced)
    }

    method ClearMarkerIfTreeIsClean(status: Op, clear: Op) returns (end: Ending)
      modifies `marker
      ensures (State(), end) == ClearStale(old(State()), status, clear)
    {
      if !marker {
        return Finished;
      }
      if status.Killed? {
        return Dead;
      }
      if status.Raises? {
        return Finished;
      }
      var dirty := debris || edit != NoEdit;
      if !dirty {
        if !clear.Works? {
          return Stop(clear);
        }
        marker := false;
      }
      end := Finished;
    }

    method ResolveMarkerAfterCheckoutFailure(p: CheckoutPlan) returns (end: Ending)
      modifies `marker
      ensures (State(), end) == Resolve(old(State()), p)
    {
      if p.recheck.Killed? {
        return Dead;
      }
      if p.recheck.Raises? {
        return Failed;
      }
      var stillDirty := debris || edit != NoEdit;
      if !stillDirty && marker {
        if p.unmarkClean.Killed? {
          return Dead;
        }
        marker := !p.unmarkClean.Works?;
      }
      end := Failed;
    }

    method RunGitCheckout(tag: Tag, force: bool, s: Switching)
      modifies `head, `debris, `edit
      ensures State() == Switched(old(State()), tag, force, s)
    {
      match s {
        case Switches =>
          head, debris := Some(tag), false;
          edit := if force then NoEdit else edit;
        case SwitchingStops(_, h, d, discards) =>
          head, debris := h, d;
          edit := if force && discards then NoEdit else edit;
      }
    }

    method CheckoutTag(tag: Tag, p: CheckoutPlan) returns (end: Ending)
      requires Proper(p)
      modifies this
      ensures (State(), end) == CheckOut(old(State()), tag, p)
    {
      var force := false;
      if !p.status.Works? {
        return Stop(p.status);
      }
      if debris || edit != NoEdit {
        if marker {
          force := true;
        } else {
          return Failed;
        }
      } else if marker {
        if !p.clear.Works? {
          return Stop(p.clear);
        }
        marker := false;
      }
      if !p.verify.Works? {
        return Stop(p.verify);
      }
      if p.mark.MarkingStops? {
        marker := marker || p.mark.created;
        return Stop(p.mark.op);
      }
      marker := true;
      RunGitCheckout(tag, force, p.switch);
      if p.switch.SwitchingStops? {
        if p.switch.op.Killed? {
          return Dead;
        }
        end := ResolveMarkerAfterCheckoutFailure(p);
        return;
      }
      if !p.unmark.Works? {
        return Stop(p.unmark);
      }
      marker := false;
      end := Finished;
    }
  }

  // ----- What the marker attests -----

  /** Debris is always attested by the marker, and no edit made without a marker ever meets one. */
  predicate Attested(t: Tree) {
    (t.debris || t.edit.Exposed? ==> t.marker) && (t.edit.Guarded? ==> !t.marker)
  }

  lemma CheckOutKeepsAttested(t: Tree, tag: Tag, p: CheckoutPlan)
    requires Attested(t) && Proper(p)
    ensures var (u, end) := CheckOut(t, tag, p);
            && Attested(u)
            && (t.edit.Guarded? ==> u == t && !end.Finished?)
            && (end.Finished? ==> u.head == Some(tag) && !Dirty(u) && !u.marker)
            && (t.marker && !u.marker ==> !Dirty(u))
            && u.synced == t.synced
  {
  }

  lemma ClearStaleKeepsAttested(t: Tree, status: Op, clear: Op)
    requires Attested(t)
    ensures var (u, end) := ClearStale(t, status, clear);
            Attested(u) && u == t.(marker := u.marker) && (t.marker && !u.marker ==> !Dirty(u))
  {
  }
}
