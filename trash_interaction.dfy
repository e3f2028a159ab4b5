/**
 * The trash-can easter egg of the simulated desktop (useTrashInteraction.ts).
 *
 * The hook keeps `trashState` and two timeout handles, `timerRef` and
 * `timer2Ref`. A timeout is modelled as the callback it will run
 * (a `TimerEvent`) while it is live, and as `None` once it has fired or been
 * cleared; real time is replaced by an explicit `Fire` step that runs the
 * live timeout.
 */
module TrashInteraction {
  import opened Wrappers

  datatype TrashState = Idle | ConfirmEmpty | Emptying | ConfirmDelete | Restoring | DeletedTemp

  /** The callbacks the hook schedules with `setTimeout`. */
  datatype TimerEvent =
    | ShowDeleteConfirm  // scheduled by confirmEmpty: state := confirmDelete
    | FinishRestore      // scheduled by restoreFromConfirm, and by BeginRestore on timer2: state := idle
    | BeginRestore       // scheduled by confirmDelete: state := restoring, then schedule FinishRestore

  /** The delay, in milliseconds, the source passes to `setTimeout` for each callback. */
  function DelayMs(e: TimerEvent): nat {
    match e
    case ShowDeleteConfirm => 1450
    case FinishRestore => 1200
    case BeginRestore => 5000
  }

  /** A snapshot of the hook: the state and the live timeout held by each ref. */
  datatype Machine = Machine(state: TrashState, timer: Option<TimerEvent>, timer2: Option<TimerEvent>)

  /** What a user or the clock can do to the hook. */
  datatype Action =
    | TriggerTrash
    | CancelEmpty
    | ConfirmEmptyAction
    | RestoreFromConfirm
    | ConfirmDeleteAction
    | Fire      // the live timeout elapses and its callback runs

  const Initial := Machine(Idle, None, None)

  /** `desktopVisible`: icons and windows are shown. */
  predicate DesktopVisible(s: TrashState) {
    s == Idle || s == ConfirmEmpty
  }

  /** `trashDisabled`: the dock's trash button ignores clicks. */
  predicate TrashDisabled(s: TrashState) {
    s == Emptying || s == Restoring
  }

  predicate IsUserAction(a: Action) {
    a != Fire
  }

  /** `clearTimers`: both refs are cleared. */
  function Cleared(m: Machine): Machine {
    m.(timer := None, timer2 := None)
  }

  function RunEvent(m: Machine, e: TimerEvent): Machine {
    match e
    case ShowDeleteConfirm => m.(state := ConfirmDelete)
    case FinishRestore => m.(state := Idle)
    case BeginRestore => m.(state := Restoring, timer2 := Some(FinishRestore))
  }

  /** The live timeout fires: timerRef's if it is live, otherwise timer2Ref's. */
  function FireTimer(m: Machine): Machine {
    if m.timer.Some? then RunEvent(m.(timer := None), m.timer.value)
    else if m.timer2.Some? then RunEvent(m.(timer2 := None), m.timer2.value)
    else m
  }

  /** One handler call or one timeout, as the hook performs it. */
  function Step(m: Machine, a: Action): Machine {
    match a
    case TriggerTrash =>
      if m.state != Idle then m else m.(state := ConfirmEmpty)
    case CancelEmpty =>
      if m.state != ConfirmEmpty then m else m.(state := Idle)
    case ConfirmEmptyAction =>
      if m.state != ConfirmEmpty then m
      else Cleared(m).(state := Emptying, timer := Some(ShowDeleteConfirm))
    case RestoreFromConfirm =>
      if m.state != ConfirmDelete then m
      else Cleared(m).(state := Restoring, timer := Some(FinishRestore))
    case ConfirmDeleteAction =>
      if m.state != ConfirmDelete then m
      else Cleared(m).(state := DeletedTemp, timer := Some(BeginRestore))
    case Fire => FireTimer(m)
  }

  function Run(m: Machine, actions: seq<Action>): Machine
    decreases |actions|
  {
    if actions == [] then m else Run(Step(m, actions[0]), actions[1..])
  }

  /** The timeout that is live, whichever ref holds it. */
  function Pending(m: Machine): Option<TimerEvent> {
    if m.timer.Some? then m.timer else m.timer2
  }

  /** The timeout each state is waiting for. */
  function Awaited(s: TrashState): Option<TimerEvent> {
    match s
    case Emptying => Some(ShowDeleteConfirm)
    case DeletedTemp => Some(BeginRestore)
    case Restoring => Some(FinishRestore)
    case _ => None
  }

  /**
   * The invariant the hook keeps: at most one timeout is live, and the live
   * timeout is exactly the one the state is waiting for.
   */
  predicate Valid(m: Machine) {
    && !(m.timer.Some? && m.timer2.Some?)
    && Pending(m) == Awaited(m.state)
  }

  lemma InitialValid()
    ensures Valid(Initial) && DesktopVisible(Initial.state) && Pending(Initial) == None
  {
  }

  /** A timeout is pending iff the state is emptying, restoring or deletedTemp. */
  lemma PendingIffTimedState(m: Machine)
    requires Valid(m)
    ensures Pending(m).Some? <==> m.state in {Emptying, Restoring, DeletedTemp}
    ensures m.timer == None || m.timer2 == None
  {
  }

  lemma StepPreservesValid(m: Machine, a: Action)
    requires Valid(m)
    ensures Valid(Step(m, a))
  {
  }

  lemma {:induction false} RunPreservesValid(m: Machine, actions: seq<Action>)
    requires Valid(m)
    ensures Valid(Run(m, actions))
    decreases |actions|
  {
    if actions != [] {
      StepPreservesValid(m, actions[0]);
      RunPreservesValid(Step(m, actions[0]), actions[1..]);
    }
  }

  /** Every state reached from mount satisfies the invariant. */
  lemma ReachableValid(actions: seq<Action>)
    ensures Valid(Run(Initial, actions))
  {
    RunPreservesValid(Initial, actions);
  }

  /** triggerTrash moves idle to confirmEmpty and changes nothing in any other state. */
  lemma TriggerTrashSpec(m: Machine)
    ensures m.state == Idle ==> Step(m, TriggerTrash) == m.(state := ConfirmEmpty)
    ensures m.state != Idle ==> Step(m, TriggerTrash) == m
  {
  }

  /** cancelEmpty moves confirmEmpty to idle with nothing scheduled; elsewhere it is a no-op. */
  lemma CancelEmptySpec(m: Machine)
    requires Valid(m)
    ensures m.state == ConfirmEmpty ==> Step(m, CancelEmpty) == Machine(Idle, None, None)
    ensures m.state != ConfirmEmpty ==> Step(m, CancelEmpty) == m
  {
  }

  /** confirmEmpty leaves exactly one 1450 ms timeout, whose firing shows the delete confirmation. */
  lemma ConfirmEmptySpec(m: Machine)
    requires m.state == ConfirmEmpty
    ensures Step(m, ConfirmEmptyAction) == Machine(Emptying, Some(ShowDeleteConfirm), None)
    ensures DelayMs(ShowDeleteConfirm) == 1450
    ensures Step(Step(m, ConfirmEmptyAction), Fire) == Machine(ConfirmDelete, None, None)
  {
  }

  /** restoreFromConfirm starts a 1200 ms restore that ends in idle. */
  lemma RestoreFromConfirmSpec(m: Machine)
    requires m.state == ConfirmDelete
    ensures Step(m, RestoreFromConfirm) == Machine(Restoring, Some(FinishRestore), None)
    ensures DelayMs(FinishRestore) == 1200
    ensures Step(Step(m, RestoreFromConfirm), Fire) == Initial
  {
  }

  /** confirmDelete: 5000 ms in deletedTemp, then restoring with a second 1200 ms timeout, then idle. */
  lemma ConfirmDeleteSpec(m: Machine)
    requires m.state == ConfirmDelete
    ensures Step(m, ConfirmDeleteAction) == Machine(DeletedTemp, Some(BeginRestore), None)
    ensures DelayMs(BeginRestore) == 5000
    ensures Run(m, [ConfirmDeleteAction, Fire]) == Machine(Restoring, None, Some(FinishRestore))
    ensures Run(m, [ConfirmDeleteAction, Fire, Fire]) == Initial
  {
  }

  /** The desktop is hidden in exactly the states where the trash is busy or gone. */
  lemma DerivedFlags(s: TrashState)
    ensures DesktopVisible(s) <==> Awaited(s) == None && s != ConfirmDelete
    ensures TrashDisabled(s) ==> !DesktopVisible(s)
    ensures TrashDisabled(s) <==> Awaited(s) in {Some(ShowDeleteConfirm), Some(FinishRestore)}
  {
  }

  /** While a timeout is pending, every user action is ignored: only the clock moves the machine. */
  lemma TimedStatesIgnoreUsers(m: Machine, a: Action)
    requires Valid(m) && Pending(m).Some? && IsUserAction(a)
    ensures Step(m, a) == m
  {
  }

  /**
   * From any reachable state, user actions alone never move a timed state;
   * the full easter egg click, confirm, wait, confirm delete, wait, wait
   * returns to the initial state.
   */
  lemma {:induction false} UserActionsFreezeTimedState(m: Machine, actions: seq<Action>)
    requires Valid(m) && Pending(m).Some?
    requires forall i :: 0 <= i < |actions| ==> IsUserAction(actions[i])
    ensures Run(m, actions) == m
    decreases |actions|
  {
    if actions != [] {
      TimedStatesIgnoreUsers(m, actions[0]);
      UserActionsFreezeTimedState(m, actions[1..]);
    }
  }

  /** The scenario of the easter egg: trash, confirm, wait, confirm delete, wait, wait. */
  lemma FullSequence()
    ensures Run(Initial, [TriggerTrash, ConfirmEmptyAction]).state == Emptying
    ensures Run(Initial, [TriggerTrash, ConfirmEmptyAction, Fire]).state == ConfirmDelete
    ensures Run(Initial, [TriggerTrash, ConfirmEmptyAction, Fire, ConfirmDeleteAction]).state == DeletedTemp
    ensures Run(Initial, [TriggerTrash, ConfirmEmptyAction, Fire, ConfirmDeleteAction, Fire]).state == Restoring
    ensures Run(Initial, [TriggerTrash, ConfirmEmptyAction, Fire, ConfirmDeleteAction, Fire, Fire]) == Initial
  {
  }

  /** Cancelling at confirmEmpty leaves nothing for the clock: further firing changes nothing. */
  lemma CancelThenWait(n: nat)
    ensures Run(Initial, [TriggerTrash, CancelEmpty]) == Initial
    ensures Run(Initial, seq(n, _ => Fire)) == Initial
  {
    FiresFromQuiet(Initial, n);
  }

  lemma {:induction false} FiresFromQuiet(m: Machine, n: nat)
    requires m.timer == None && m.timer2 == None
    ensures Run(m, seq(n, _ => Fire)) == m
    decreases n
  {
    if n > 0 {
      assert seq(n, _ => Fire)[1..] == seq(n - 1, _ => Fire);
      FiresFromQuiet(m, n - 1);
    }
  }

  /**
   * The hook itself: `trashState` and the two timeout refs, updated in place
   * by the handlers. Each method performs the corresponding `Step`.
   */
  class TrashHook {
    var trashState: TrashState
    var timerRef: Option<TimerEvent>
    var timer2Ref: Option<TimerEvent>

    function Snapshot(): Machine
      reads this
    {
      Machine(trashState, timerRef, timer2Ref)
    }

    constructor ()
      ensures Snapshot() == Initial
    {
      trashState := Idle;
      timerRef := None;
      timer2Ref := None;
    }

    method ClearTimers()
      modifies this
      ensures Snapshot() == Cleared(old(Snapshot()))
    {
      if timerRef.Some? {
        timerRef := None;
      }
      if timer2Ref.Some? {
        timer2Ref := None;
      }
    }

    method TriggerTrash()
      modifies this
      ensures Snapshot() == Step(old(Snapshot()), Action.TriggerTrash)
    {
      if trashState != Idle {
        return;
      }
      trashState := TrashState.ConfirmEmpty;
    }

    method CancelEmpty()
      modifies this
      ensures Snapshot() == Step(old(Snapshot()), Action.CancelEmpty)
    {
      if trashState != TrashState.ConfirmEmpty {
        return;
      }
      trashState := Idle;
    }

    method ConfirmEmpty()
      modifies this
      ensures Snapshot() == Step(old(Snapshot()), ConfirmEmptyAction)
    {
      if trashState != TrashState.ConfirmEmpty {
        return;
      }
      ClearTimers();
      trashState := Emptying;
      timerRef := Some(ShowDeleteConfirm);
    }

    method RestoreFromConfirm()
      modifies this
      ensures Snapshot() == Step(old(Snapshot()), Action.RestoreFromConfirm)
    {
      if trashState != TrashState.ConfirmDelete {
        return;
      }
      ClearTimers();
      trashState := Restoring;
      timerRef := Some(FinishRestore);
    }

    method ConfirmDelete()
      modifies this
      ensures Snapshot() == Step(old(Snapshot()), ConfirmDeleteAction)
    {
      if trashState != TrashState.ConfirmDelete {
        return;
      }
      ClearTimers();
      trashState := DeletedTemp;
      timerRef := Some(BeginRestore);
    }

    /** The live timeout elapses and its callback runs. */
    method Fire()
      modifies this
      ensures Snapshot() == Step(old(Snapshot()), Action.Fire)
    {
      var event: Option<TimerEvent> := None;
      if timerRef.Some? {
        event := timerRef;
        timerRef := None;
      } else if timer2Ref.Some? {
        event := timer2Ref;
        timer2Ref := None;
      }
      if event.Some? {
        match event.value
        case ShowDeleteConfirm =>
          trashState := TrashState.ConfirmDelete;
        case FinishRestore =>
          trashState := Idle;
        case BeginRestore =>
          trashState := Restoring;
          timer2Ref := Some(FinishRestore);
      }
    }

    /** The unmount cleanup of the hook's effect: no timeout survives the component. */
    method Unmount()
      modifies this
      ensures Snapshot() == Cleared(old(Snapshot()))
      ensures Pending(Snapshot()) == None && trashState == old(trashState)
    {
      ClearTimers();
    }
  }
}
