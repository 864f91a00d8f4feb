/** The scheduler state of tasks.c and its critical sections, as functions on values. */
module Kernel {
  import opened Words
  import opened Lists

  const MAX_PRIORITIES: nat := 15

  /** taskEVENT_LIST_ITEM_VALUE_IN_USE: set while an event group borrows the item value. */
  const VALUE_IN_USE: nat := 0x8000_0000

  type Task = nat
  type TaskList = r: Ring<Task> | IndexOk(r) witness Ring([], 0)

  /** The lists a state list item can be on, and those an event list item can be on. */
  datatype StateList = Ready(priority: nat) | DelayA | DelayB | Suspended | Terminated
  datatype EventList = NoEvent | Pending | Waiters(id: nat)

  datatype Tcb = Tcb(
    priority: nat, base: nat, mutexesHeld: nat,
    stateValue: nat, eventValue: nat,
    stateIn: StateList, eventIn: EventList,
    delayAborted: bool)

  /** `tick` is the unbounded tick count kept beside the wrapped `tickCount`. */
  datatype State = State(
    tick: nat, tickCount: nat, overflows: nat, pended: nat, nextUnblock: nat,
    delayedIsB: bool, suspended: nat, top: nat, current: Task,
    yieldPending: bool, yieldAsked: bool,
    number: nat, cleanup: nat,
    tcb: map<Task, Tcb>, lists: map<StateList, TaskList>, events: map<EventList, TaskList>)

  function At<L(==)>(m: map<L, TaskList>, l: L): TaskList {
    if l in m then m[l] else Ring([], 0)
  }

  function ListOf(k: State, l: StateList): TaskList {
    At(k.lists, l)
  }

  function EventsOf(k: State, e: EventList): TaskList {
    At(k.events, e)
  }

  const BLANK: Tcb := Tcb(0, 0, 0, 0, 0, Terminated, NoEvent, false)

  function TcbIn(tcb: map<Task, Tcb>, t: Task): Tcb {
    if t in tcb then tcb[t] else BLANK
  }

  function TcbOf(k: State, t: Task): Tcb {
    TcbIn(k.tcb, t)
  }

  function SetTcb(k: State, t: Task, b: Tcb): State {
    k.(tcb := k.tcb[t := b])
  }

  /** pxDelayedTaskList and pxOverflowDelayedTaskList. */
  function DelayedId(k: State): StateList {
    if k.delayedIsB then DelayB else DelayA
  }

  function OverflowId(k: State): StateList {
    if k.delayedIsB then DelayA else DelayB
  }

  function Delayed(k: State): seq<Task> {
    ListOf(k, DelayedId(k)).items
  }

  function Overflow(k: State): seq<Task> {
    ListOf(k, OverflowId(k)).items
  }

  function Drop(r: TaskList, t: Task): TaskList {
    if t in r.items then Remove(r, t) else r
  }

  function StateValuesIn(tcb: map<Task, Tcb>, items: seq<Task>): (vs: seq<nat>)
    ensures |vs| == |items| && forall i :: 0 <= i < |vs| ==> vs[i] == TcbIn(tcb, items[i]).stateValue
  {
    seq(|items|, i requires 0 <= i < |items| => TcbIn(tcb, items[i]).stateValue)
  }

  function EventValuesIn(tcb: map<Task, Tcb>, items: seq<Task>): (vs: seq<nat>)
    ensures |vs| == |items| && forall i :: 0 <= i < |vs| ==> vs[i] == TcbIn(tcb, items[i]).eventValue
  {
    seq(|items|, i requires 0 <= i < |items| => TcbIn(tcb, items[i]).eventValue)
  }

  function StateValues(k: State, items: seq<Task>): (vs: seq<nat>)
    ensures |vs| == |items| && forall i :: 0 <= i < |vs| ==> vs[i] == TcbOf(k, items[i]).stateValue
  {
    StateValuesIn(k.tcb, items)
  }

  function EventValues(k: State, items: seq<Task>): (vs: seq<nat>)
    ensures |vs| == |items| && forall i :: 0 <= i < |vs| ==> vs[i] == TcbOf(k, items[i]).eventValue
  {
    EventValuesIn(k.tcb, items)
  }

  // ----- moving list items

  /** Unlinks the state item of `t`; its `stateIn` is stale until it is put somewhere. */
  function TakeOut(k: State, t: Task): State {
    var l := TcbOf(k, t).stateIn;
    k.(lists := k.lists[l := Drop(ListOf(k, l), t)])
  }

  function PutEnd(k: State, t: Task, l: StateList): State {
    k.(lists := k.lists[l := InsertEnd(ListOf(k, l), t)], tcb := k.tcb[t := TcbOf(k, t).(stateIn := l)])
  }

  function DropEvent(k: State, t: Task): State {
    var e := TcbOf(k, t).eventIn;
    if e == NoEvent then k else
      k.(events := k.events[e := Drop(EventsOf(k, e), t)], tcb := k.tcb[t := TcbOf(k, t).(eventIn := NoEvent)])
  }

  function PutEventEnd(k: State, t: Task, e: EventList): State {
    k.(events := k.events[e := InsertEnd(EventsOf(k, e), t)], tcb := k.tcb[t := TcbOf(k, t).(eventIn := e)])
  }

  function PutEventSorted(k: State, t: Task, e: EventList): State {
    var r := EventsOf(k, e);
    k.(events := k.events[e := InsertAt(r, t, SortedPos(EventValues(k, r.items), TcbOf(k, t).eventValue))],
       tcb := k.tcb[t := TcbOf(k, t).(eventIn := e)])
  }

  // ----- ready tasks

  predicate IsReady(k: State, t: Task) {
    t in k.tcb && k.tcb[t].stateIn == Ready(k.tcb[t].priority)
  }

  function Priority(k: State, t: Task): nat {
    TcbOf(k, t).priority
  }

  /** prvAddTaskToReadyList */
  function AddToReady(k: State, t: Task): State {
    PutEnd(RaiseTop(k, Priority(k, t)), t, Ready(Priority(k, t)))
  }

  /** Moves the state item of `t` to the end of list `l`, and takes `t` off any event list. */
  function Requeue(k: State, t: Task, l: StateList): State {
    PutEnd(DropEvent(TakeOut(k, t), t), t, l)
  }

  function RaiseTop(k: State, p: nat): State {
    k.(top := Max(k.top, p))
  }

  function MakeReady(k: State, t: Task): State {
    Requeue(RaiseTop(k, Priority(k, t)), t, Ready(Priority(k, t)))
  }

  /** Sets xYieldPending when `ask`. */
  function Pend(k: State, ask: bool): State {
    k.(yieldPending := k.yieldPending || ask)
  }

  /** portYIELD when `ask`. */
  function Ask(k: State, ask: bool): State {
    k.(yieldAsked := k.yieldAsked || ask)
  }

  // ----- time

  /** prvResetNextTaskUnblockTime */
  function ResetNextUnblock(k: State): State {
    k.(nextUnblock := if Delayed(k) == [] then MAX_DELAY else TcbOf(k, Delayed(k)[0]).stateValue)
  }

  /** taskSWITCH_DELAYED_LISTS */
  function SwitchDelayedLists(k: State): State {
    ResetNextUnblock(k.(delayedIsB := !k.delayedIsB, overflows := k.overflows + 1))
  }

  function Advanced(k: State): State {
    var k1 := k.(tick := k.tick + 1, tickCount := Wrap(k.tickCount + 1));
    if k1.tickCount == 0 then SwitchDelayedLists(k1) else k1
  }

  /** The tasks at the front of the delayed list whose time has come. */
  function Expired(k: State): seq<Task> {
    Delayed(k)[..SortedPos(StateValues(k, Delayed(k)), k.tickCount)]
  }

  function MakeAllReady(k: State, ts: seq<Task>): State
    decreases ts
  {
    if ts == [] then k else MakeAllReady(MakeReady(k, ts[0]), ts[1..])
  }

  predicate AnyReaches(k: State, ts: seq<Task>, priority: nat) {
    exists t :: t in ts && Priority(k, t) >= priority
  }

  /** Another task shares the running task's priority. */
  predicate TimeSlice(k: State) {
    |ListOf(k, Ready(Priority(k, k.current))).items| > 1
  }

  function WakeExpired(k: State): State {
    if k.tickCount < k.nextUnblock then k else ResetNextUnblock(MakeAllReady(k, Expired(k)))
  }

  /** xTaskIncrementTick while the scheduler runs, and the switch request it returns. */
  function Increment(k: State): State {
    WakeExpired(Advanced(k))
  }

  predicate IncrementSwitches(k: State) {
    var k1 := Advanced(k);
    || (k1.tickCount >= k1.nextUnblock && AnyReaches(k1, Expired(k1), Priority(k1, k1.current)))
    || TimeSlice(Increment(k))
    || k.yieldPending
  }

  /** SysTick_Handler */
  function SysTick(k: State): State {
    if k.suspended == 0 then Ask(Increment(k), IncrementSwitches(k)) else k.(pended := k.pended + 1)
  }

  // ----- suspending the scheduler

  function SuspendAll(k: State): State {
    k.(suspended := k.suspended + 1)
  }

  function DrainPending(k: State): State {
    var ts := EventsOf(k, Pending).items;
    if ts == [] then k else
      ResetNextUnblock(Pend(MakeAllReady(k, ts), AnyReaches(k, ts, Priority(k, k.current))))
  }

  function CatchUp(k: State, n: nat): State
    decreases n
  {
    if n == 0 then k else CatchUp(Pend(Increment(k), IncrementSwitches(k)), n - 1)
  }

  /** xTaskResumeAll */
  function ResumeAll(k: State): State
    requires k.suspended > 0
  {
    var k0 := k.(suspended := k.suspended - 1);
    if k0.suspended > 0 || k0.number == 0 then k0 else
      var k1 := CatchUp(DrainPending(k0), k0.pended).(pended := 0);
      Ask(k1, k1.yieldPending)
  }

  // ----- blocking

  /** The list that prvAddCurrentTaskToDelayedList chooses. */
  function SleepList(k: State, ticks: nat, canBlockIndefinitely: bool): StateList {
    if ticks == MAX_DELAY && canBlockIndefinitely then Suspended
    else if Wrap(k.tickCount + ticks) < k.tickCount then OverflowId(k)
    else DelayedId(k)
  }

  /** The TCB of the running task once it is blocked. */
  function Slept(k: State, ticks: nat, canBlockIndefinitely: bool): Tcb {
    var b := TcbOf(k, k.current);
    var l := SleepList(k, ticks, canBlockIndefinitely);
    b.(delayAborted := false, stateIn := l,
       stateValue := if l == Suspended then b.stateValue else Wrap(k.tickCount + ticks))
  }

  function SleepPos(k: State, r: TaskList, l: StateList, wake: nat): (pos: nat)
    ensures pos <= |r.items|
  {
    if l == Suspended then EndPos(r) else SortedPos(StateValues(k, r.items), wake)
  }

  /** prvAddCurrentTaskToDelayedList */
  function DelayCurrent(k: State, ticks: nat, canBlockIndefinitely: bool): State {
    var t := k.current;
    var l := SleepList(k, ticks, canBlockIndefinitely);
    var wake := Wrap(k.tickCount + ticks);
    var k1 := TakeOut(k, t);
    var r := ListOf(k1, l);
    k1.(lists := k1.lists[l := InsertAt(r, t, SleepPos(k1, r, l, wake))],
        tcb := k.tcb[t := Slept(k, ticks, canBlockIndefinitely)],
        nextUnblock := if l == DelayedId(k) then Min(k.nextUnblock, wake) else k.nextUnblock)
  }

  /** vTaskPlaceOnEventList */
  function PlaceOnEventList(k: State, id: nat, ticks: nat): State {
    DelayCurrent(PutEventSorted(k, k.current, Waiters(id)), ticks, true)
  }

  /** vTaskPlaceOnEventListRestricted: the timer daemon waits at the end of its queue's list. */
  function PlaceRestricted(k: State, id: nat, ticks: nat, indefinitely: bool): State {
    DelayCurrent(PutEventEnd(k, k.current, Waiters(id)), if indefinitely then MAX_DELAY else ticks, indefinitely)
  }

  function InUse(v: nat): bool {
    v / VALUE_IN_USE % 2 == 1
  }

  function MarkInUse(v: nat): nat {
    if InUse(v) then v else v + VALUE_IN_USE
  }

  function SetEventValue(k: State, t: Task, v: nat): State {
    SetTcb(k, t, TcbOf(k, t).(eventValue := v))
  }

  /** uxTaskResetEventItemValue: the running task reads its item value back. */
  function ResetItem(k: State): State {
    SetEventValue(k, k.current, MAX_PRIORITIES - Min(Priority(k, k.current), MAX_PRIORITIES))
  }

  /** vTaskPlaceOnUnorderedEventList */
  function PlaceOnUnorderedEventList(k: State, id: nat, value: nat, ticks: nat): State {
    DelayCurrent(PutEventEnd(SetEventValue(k, k.current, MarkInUse(value)), k.current, Waiters(id)), ticks, true)
  }

  /** xTaskRemoveFromEventList: the head waiter becomes ready, or pending ready. */
  function RemoveFromEventList(k: State, id: nat): State
    requires EventsOf(k, Waiters(id)).items != []
  {
    var t := EventsOf(k, Waiters(id)).items[0];
    Pend(if k.suspended == 0 then MakeReady(k, t) else PutEventEnd(DropEvent(k, t), t, Pending),
         Priority(k, t) > Priority(k, k.current))
  }

  /** vTaskRemoveFromUnorderedEventList */
  function RemoveFromUnordered(k: State, t: Task, value: nat): State {
    Pend(MakeReady(SetEventValue(k, t, MarkInUse(value)), t), Priority(k, t) > Priority(k, k.current))
  }

  // ----- creating, deleting, suspending

  function Create(k: State, t: Task, priority: nat): State {
    var b := Tcb(priority, priority, 0, 0, MAX_PRIORITIES - Min(priority, MAX_PRIORITIES), Ready(priority), NoEvent,
        false);
    Ask(AddToReady(SetTcb(k, t, b).(number := k.number + 1), t), priority > Priority(k, k.current))
  }

  function Forget(k: State, t: Task): State {
    k.(tcb := k.tcb - {t}, number := if k.number > 0 then k.number - 1 else 0)
  }

  /** vTaskDelete: a task that deletes itself waits for the idle task. */
  function Delete(k: State, t: Task): State {
    if t == k.current then Ask(Requeue(k, t, Terminated).(cleanup := k.cleanup + 1), true)
    else ResetNextUnblock(Forget(DropEvent(TakeOut(k, t), t), t))
  }

  /** One round of prvCheckTasksWaitingTermination. */
  function CleanUp(k: State): State
    requires ListOf(k, Terminated).items != [] && k.cleanup > 0
  {
    var t := ListOf(k, Terminated).items[0];
    Forget(TakeOut(k, t), t).(cleanup := k.cleanup - 1)
  }

  /** vTaskSuspend */
  function Suspend(k: State, t: Task): State {
    Ask(ResetNextUnblock(Requeue(k, t, Suspended)), t == k.current)
  }

  /** vTaskResume */
  function Resume(k: State, t: Task): State {
    if t != k.current && TcbOf(k, t).stateIn == Suspended && TcbOf(k, t).eventIn == NoEvent then
      Ask(MakeReady(k, t), Priority(k, t) >= Priority(k, k.current))
    else k
  }

  predicate IsBlocked(k: State, t: Task) {
    && t != k.current
    && (|| TcbOf(k, t).stateIn in {DelayA, DelayB}
        || (TcbOf(k, t).stateIn == Suspended && TcbOf(k, t).eventIn != NoEvent))
  }

  /** The suspended region of xTaskAbortDelay. */
  function AbortDelay(k: State, t: Task): State {
    if IsBlocked(k, t) then
      var b := TcbOf(k, t);
      Pend(MakeReady(SetTcb(k, t, b.(delayAborted := b.delayAborted || b.eventIn != NoEvent)), t),
           b.priority > Priority(k, k.current))
    else k
  }

  // ----- choosing the running task

  /** The highest ready list with a member, searching down from `p`. */
  function HighestReady(k: State, p: nat): (q: nat)
    ensures q <= p
    ensures forall r :: q < r <= p ==> ListOf(k, Ready(r)).items == []
    ensures ListOf(k, Ready(q)).items == [] ==> q == 0
  {
    if p == 0 || ListOf(k, Ready(p)).items != [] then p else HighestReady(k, p - 1)
  }

  /** vTaskSwitchContext */
  function SwitchContext(k: State): State
    requires k.suspended == 0 ==> ListOf(k, Ready(HighestReady(k, k.top))).items != []
  {
    if k.suspended > 0 then k.(yieldPending := true, yieldAsked := false) else
      var p := HighestReady(k, k.top);
      var r := Advance(ListOf(k, Ready(p)));
      k.(yieldPending := false, yieldAsked := false, top := p,
         lists := k.lists[Ready(p) := r], current := Selected(r))
  }

  // ----- priorities

  /** Changes the priority in use, moving the task to its new ready list if it is ready. */
  function Reprioritise(k: State, t: Task, p: nat): State {
    var k1 := SetTcb(k, t, TcbOf(k, t).(priority := p));
    if TcbOf(k, t).stateIn == Ready(Priority(k, t)) then AddToReady(TakeOut(k1, t), t) else k1
  }

  function ResetEventValue(k: State, t: Task, p: nat): State {
    if InUse(TcbOf(k, t).eventValue) then k else SetEventValue(k, t, MAX_PRIORITIES - Min(p, MAX_PRIORITIES))
  }

  /** xTaskPriorityInherit for the running task blocking on a mutex held by `h`. */
  function Inherit(k: State, h: Task): State {
    var p := Priority(k, k.current);
    if Priority(k, h) < p then Reprioritise(ResetEventValue(k, h, p), h, p) else k
  }

  /** Whether giving a mutex back takes an inherited priority away. */
  predicate Lowers(k: State) {
    var b := TcbOf(k, k.current);
    b.priority != b.base && b.mutexesHeld == 1
  }

  /** xTaskPriorityDisinherit for the running task giving a mutex back. */
  function Disinherit(k: State): State
    requires TcbOf(k, k.current).mutexesHeld > 0
  {
    var t := k.current;
    var b := TcbOf(k, t);
    if b.priority != b.base && b.mutexesHeld == 1 then
      var b' := b.(mutexesHeld := 0, eventValue := MAX_PRIORITIES - Min(b.base, MAX_PRIORITIES));
      Reprioritise(SetTcb(k, t, b'), t, b.base)
    else SetTcb(k, t, b.(mutexesHeld := b.mutexesHeld - 1))
  }

  /** vTaskPriorityDisinheritAfterTimeout */
  function DisinheritAfterTimeout(k: State, h: Task, waiting: nat): State {
    var b := TcbOf(k, h);
    var p := Max(b.base, waiting);
    if b.priority != p && b.mutexesHeld == 1 then Reprioritise(ResetEventValue(k, h, p), h, p) else k
  }

  /** vTaskPrioritySet, `p` already limited to the highest priority. */
  function PrioritySet(k: State, t: Task, p: nat): State {
    var b := TcbOf(k, t);
    if b.base == p then k else
      var k1 := ResetEventValue(SetTcb(k, t, b.(base := p)), t, p);
      var ask := if p > b.base then t != k.current && p >= Priority(k, k.current) else t == k.current;
      Ask(if b.base == b.priority then Reprioritise(k1, t, p) else RequeueReady(k1, t), ask)
  }

  /** A ready task is moved to the end of its list even when its priority stays. */
  function RequeueReady(k: State, t: Task): State {
    if IsReady(k, t) then AddToReady(TakeOut(k, t), t) else k
  }
}
