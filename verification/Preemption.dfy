/**
 * Display-firmware maintenance (`core/display_firmware.py`) as a transition system: the app it stops,
 * the record that remembers it, failed stops and restarts, kills at every step, and Portal restarts.
 */
module Preemption {
  import opened Prelude

  type AppId = string

  datatype UnitState = Active | Activating | Deactivating | Inactive | Failed | Other

  /** The app unit has been started and not been told to stop. */
  predicate Started(u: UnitState) {
    u.Active? || u.Activating?
  }

  /** `RUNNING_ACTIVE_STATES`. */
  predicate Running(u: UnitState) {
    Started(u) || u.Deactivating?
  }

  datatype Owner = DisplayFirmware | WifiSetup

  datatype Record = Record(app: Option<AppId>, owner: Owner, hold: bool)

  /** Why a restore runs: before the maintenance proper, after it, or when the Portal starts. */
  datatype Reason = Before | After | Startup

  /** The next operation of whoever works on the record, under `run.lock`; Outside is nobody. */
  datatype Pc =
    | Outside
    | ReadRecord
    | RestoreRead(why: Reason, held: Option<Record>)
    | RestoreStatus(why: Reason, held: Option<Record>, app: AppId)
    | RestoreStart(why: Reason, held: Option<Record>, app: AppId)
    | RestoreClear(why: Reason, held: Option<Record>)
    | Scan(left: set<AppId>, held: Option<Record>)
    | WriteRecord(app: AppId, held: Option<Record>)
    | Stop(app: AppId, held: Option<Record>)
    | AwaitStop(app: AppId, held: Option<Record>)
    | Ensure(preempted: bool, held: Option<Record>)
    | RestoreHold(held: Option<Record>)

  /**
   * The ledger's apps, the units, the record, and where the work stands.
   *   owed: apps that maintenance stopped and nobody has started since; one that leaves the ledger is owed no more
   */
  datatype World = World(apps: set<AppId>, units: map<AppId, UnitState>, record: Option<Record>, pc: Pc, owed: set<AppId>)

  function StateOf(w: World, a: AppId): UnitState {
    if a in w.units then w.units[a] else Inactive
  }

  function WithUnit(w: World, a: AppId, u: UnitState): World {
    w.(units := w.units[a := u])
  }

  /** A start that had its effect. */
  function StartedNow(w: World, a: AppId): World {
    WithUnit(w, a, Activating).(owed := w.owed - {a})
  }

  /**
   * How an operation turns out; one that raises may have had its effect all the same. The scan passes
   * over an app, or finds that a running one's manifest claims the display.
   */
  datatype Act = Works | Raises | RaisesAfterEffect | PassOver(app: AppId) | Claims(app: AppId)

  /** Where a restore that is over returns to. */
  function AfterRestore(why: Reason, held: Option<Record>, apps: set<AppId>, pending: bool): Pc {
    match why
    case Before => if pending then Outside else Scan(apps, held)
    case After => RestoreHold(held)
    case Startup => Outside
  }

  /** The steps of `_restore_locked`. An exception ends the restore and what it was part of. */
  function RestoreMove(w: World, act: Act): Option<World> {
    match w.pc
    case RestoreRead(why, held) =>
      if act.Raises? then Some(w.(pc := Outside))
      else if w.record.None? then Some(w.(pc := AfterRestore(why, held, w.apps, false)))
      else if !w.record.value.owner.DisplayFirmware? then Some(w.(pc := AfterRestore(why, held, w.apps, true)))
      else if w.record.value.app.None? || w.record.value.app.value !in w.apps then Some(w.(pc := RestoreClear(why, held)))
      else Some(w.(pc := RestoreStatus(why, held, w.record.value.app.value)))
    case RestoreStatus(why, held, a) =>
      // A wait that runs out leaves the restore pending, as does a state that is neither started nor stopped.
      var u := StateOf(w, a);
      if act.Raises? then Some(w.(pc := Outside))
      else if u.Deactivating? then
        (if act.Works? then Some(w) else Some(w.(pc := AfterRestore(why, held, w.apps, true))))
      else if u.Inactive? || u.Failed? then Some(w.(pc := RestoreStart(why, held, a)))
      else if Started(u) then Some(w.(pc := RestoreClear(why, held)))
      else Some(w.(pc := AfterRestore(why, held, w.apps, true)))
    case RestoreStart(why, held, a) =>
      if act.Works? then Some(StartedNow(w, a).(pc := RestoreClear(why, held)))
      else if act.RaisesAfterEffect? then Some(StartedNow(w, a).(pc := Outside))
      else Some(w.(pc := Outside))
    case RestoreClear(why, held) =>
      if act.Works? then Some(w.(record := None, pc := AfterRestore(why, held, w.apps, false)))
      else Some(w.(pc := Outside))
    case _ => None
  }

  /** The steps of `run_display_firmware` around its restores. */
  function MaintenanceMove(w: World, act: Act): Option<World> {
    match w.pc
    case ReadRecord =>
      if act.Raises? then Some(w.(pc := Outside))  // Wi-Fi setup is using the display
      else if w.record.None? then Some(w.(pc := Scan(w.apps, None)))
      else if w.record.value.owner.WifiSetup? then
        Some(w.(pc := if w.record.value.app.None? then Scan(w.apps, w.record) else Outside))
      else Some(w.(pc := RestoreRead(Before, None)))
    case Scan(left, held) =>
      if act.PassOver? && act.app in left then Some(w.(pc := Scan(left - {act.app}, held)))
      else if act.Claims? && act.app in left && Running(StateOf(w, act.app)) then Some(w.(pc := WriteRecord(act.app, held)))
      else if act.Works? && left == {} then Some(w.(pc := Ensure(false, held)))
      else if act.Raises? then Some(w.(pc := RestoreHold(held)))
      else None
    case WriteRecord(a, held) =>
      if act.Works? then Some(w.(record := Some(Record(Some(a), DisplayFirmware, false)), pc := Stop(a, held)))
      else Some(w.(pc := RestoreHold(held)))
    case Stop(a, held) =>
      if act.Works? then Some(WithUnit(w, a, Deactivating).(owed := w.owed + {a}, pc := AwaitStop(a, held)))
      else if act.RaisesAfterEffect? then
        Some(WithUnit(w, a, Deactivating).(owed := w.owed + {a}, pc := RestoreRead(After, held)))
      else Some(w.(pc := RestoreRead(After, held)))
    case AwaitStop(a, held) =>
      if act.Raises? then Some(w.(pc := RestoreRead(After, held)))
      else if Running(StateOf(w, a)) then Some(w)
      else Some(w.(pc := Ensure(true, held)))
    case Ensure(preempted, held) => Some(w.(pc := if preempted then RestoreRead(After, held) else RestoreHold(held)))
    case RestoreHold(held) =>
      if held.Some? && w.record.None? && act.Works? then Some(w.(record := held, pc := Outside))
      else Some(w.(pc := Outside))
    case _ => None
  }

  datatype Event =
    /** The Portal dies; locks and threads with it. */
    | Kill
    | Maintain
    /** Startup finds a record, and restores if it is a display-firmware one. */
    | Launch
    | Work(act: Act)
    /** An owner, autostart or Wi-Fi setup starts or stops an app, under `run.lock`. */
    | StartApp(app: AppId)
    | StopApp(app: AppId)
    /** Wi-Fi setup writes the record, which it never does over one that is not its own. */
    | WifiWrites(record: Option<Record>)
    | Installs(app: AppId)
    | LeavesLedger(app: AppId)
    /** Systemd: a unit moves on by itself. Only the Portal starts app units. */
    | UnitChanges(app: AppId, to: UnitState)

  function Next(w: World, e: Event): Option<World> {
    match e
    case Kill => Some(w.(pc := Outside))
    case Maintain => if w.pc.Outside? then Some(w.(pc := ReadRecord)) else None
    case Launch =>
      if w.pc.Outside? && w.record.Some? && w.record.value.owner.DisplayFirmware? then
        Some(w.(pc := RestoreRead(Startup, None)))
      else None
    case Work(act) =>
      if w.pc.RestoreRead? || w.pc.RestoreStatus? || w.pc.RestoreStart? || w.pc.RestoreClear? then RestoreMove(w, act)
      else MaintenanceMove(w, act)
    case StartApp(a) => if w.pc.Outside? && a in w.apps then Some(StartedNow(w, a)) else None
    case StopApp(a) => if w.pc.Outside? then Some(WithUnit(w, a, Deactivating)) else None
    case WifiWrites(r) =>
      if w.pc.Outside? && (w.record.None? || w.record.value.owner.WifiSetup?) && (r.None? || r.value.owner.WifiSetup?) then
        Some(w.(record := r))
      else None
    case Installs(a) => if w.pc.Outside? then Some(w.(apps := w.apps + {a})) else None
    case LeavesLedger(a) => if w.pc.Outside? then Some(w.(apps := w.apps - {a}, owed := w.owed - {a})) else None
    case UnitChanges(a, to) => if Started(to) && !Started(StateOf(w, a)) then None else Some(WithUnit(w, a, to))
  }

  const Factory := World({}, map[], None, Outside, {})

  function Run(events: seq<Event>): Option<World> {
    if events == [] then Some(Factory)
    else
      var w := Run(events[..|events| - 1]);
      if w.None? then None else Next(w.value, events[|events| - 1])
  }

  // ----- The invariant -----

  predicate Names(r: Option<Record>, a: AppId) {
    r.Some? && r.value.app == Some(a) && r.value.owner.DisplayFirmware?
  }

  /** What each step knows of the record, the units and the debt. */
  predicate PcOk(w: World) {
    match w.pc
    case RestoreStatus(_, _, a) => a in w.apps && Names(w.record, a)
    case RestoreStart(_, _, a) => a in w.apps && Names(w.record, a)
    case RestoreClear(_, _) => w.owed == {}
    case Scan(left, _) => w.owed == {} && left <= w.apps
    case WriteRecord(a, _) => w.owed == {} && a in w.apps
    case Stop(a, _) => w.owed == {} && a in w.apps && Names(w.record, a)
    case AwaitStop(a, _) => a in w.apps && Names(w.record, a)
    case Ensure(preempted, _) => !preempted ==> w.owed == {}
    case _ => true
  }

  predicate Inv(w: World) {
    && (forall a | a in w.owed :: a in w.apps && Names(w.record, a) && !Started(StateOf(w, a)))
    && PcOk(w)
  }

  lemma RestoreKeepsInv(w: World, act: Act)
    requires Inv(w)
    ensures var n := RestoreMove(w, act); n.Some? ==> Inv(n.value)
  {
  }

  lemma MaintenanceKeepsInv(w: World, act: Act)
    requires Inv(w)
    ensures var n := MaintenanceMove(w, act); n.Some? ==> Inv(n.value)
  {
  }

  lemma OthersKeepInv(w: World, e: Event)
    requires Inv(w) && !e.Work?
    ensures var n := Next(w, e); n.Some? ==> Inv(n.value)
  {
  }

  lemma {:induction false} RunKeepsInv(events: seq<Event>)
    ensures Run(events).Some? ==> Inv(Run(events).value)
  {
    if events != [] && Run(events).Some? {
      var before, e := events[..|events| - 1], events[|events| - 1];
      RunKeepsInv(before);
      var w := Run(before).value;
      if e.Work? {
        RestoreKeepsInv(w, e.act);
        MaintenanceKeepsInv(w, e.act);
      } else {
        OthersKeepInv(w, e);
      }
    }
  }

  // ----- The theorems -----

  /**
   * A preempted app is never forgotten. After any run, with kills, failed stops, failed restarts and
   * Portal restarts anywhere, an app that maintenance stopped and nobody has started since is in
   * the ledger and named by the record; so at most one app is owed.
   */
  lemma {:induction false} PreemptedAppIsRemembered(events: seq<Event>, a: AppId)
    requires Run(events).Some? && a in Run(events).value.owed
    ensures var w := Run(events).value;
            a in w.apps && Names(w.record, a) && w.owed == {a}
  {
    RunKeepsInv(events);
  }

  /** While an app is owed, the record that names it is neither overwritten nor cleared. */
  lemma {:induction false} RecordIsNotOverwritten(events: seq<Event>, e: Event, a: AppId)
    requires Run(events).Some? && Next(Run(events).value, e).Some?
    requires a in Run(events).value.owed && a in Next(Run(events).value, e).value.owed
    ensures Next(Run(events).value, e).value.record == Run(events).value.record
  {
    RunKeepsInv(events);
    RunKeepsInv(events + [e]) by {
      assert (events + [e])[..|events|] == events;
    }
  }

  /** How a debt ends: the app is started, or it leaves the ledger. */
  lemma {:induction false} DebtEndsOnlyByStart(events: seq<Event>, e: Event, a: AppId)
    requires Run(events).Some? && Next(Run(events).value, e).Some?
    requires a in Run(events).value.owed && a !in Next(Run(events).value, e).value.owed
    ensures e == LeavesLedger(a) || Next(Run(events).value, e).value.units[a] == Activating
  {
    RunKeepsInv(events);
  }

  lemma Then(w: World, act: Act) returns (w': World)
    requires Next(w, Work(act)).Some?
    ensures w' == Next(w, Work(act)).value
  {
    w' := Next(w, Work(act)).value;
  }

  function RunFrom(w: World, events: seq<Event>): Option<World>
    decreases |events|
  {
    if events == [] then Some(w)
    else if Next(w, events[0]).None? then None
    else RunFrom(Next(w, events[0]).value, events[1..])
  }

  /** The next start of the Portal pays the debt, once the unit has stopped and its start works. */
  lemma {:induction false} StartupPays(events: seq<Event>, a: AppId)
    requires Run(events).Some? && a in Run(events).value.owed && Run(events).value.pc.Outside?
    requires var u := StateOf(Run(events).value, a); u.Inactive? || u.Failed?
    ensures var end := RunFrom(Run(events).value, [Launch, Work(Works), Work(Works), Work(Works), Work(Works)]);
            && end.Some? && end.value.owed == {} && end.value.record.None? && end.value.pc.Outside?
            && StateOf(end.value, a) == Activating
  {
    PreemptedAppIsRemembered(events, a);
    var w := Run(events).value;
    var w1 := Next(w, Launch).value;
    var w2 := Then(w1, Works);
    assert w2.pc == RestoreStatus(Startup, None, a);
    var w3 := Then(w2, Works);
    assert w3.pc == RestoreStart(Startup, None, a);
    var w4 := Then(w3, Works);
    var w5 := Then(w4, Works);
    var work := Work(Works);
    assert RunFrom(w4, [work]) == Some(w5) by { assert [work][1..] == []; }
    assert RunFrom(w3, [work, work]) == Some(w5) by { assert [work, work][1..] == [work]; }
    assert RunFrom(w2, [work, work, work]) == Some(w5) by { assert [work, work, work][1..] == [work, work]; }
    assert RunFrom(w1, [work, work, work, work]) == Some(w5) by { assert [work, work, work, work][1..] == [work, work, work]; }
    assert [Launch, work, work, work, work][1..] == [work, work, work, work];
  }
}
