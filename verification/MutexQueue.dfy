/** The calls on mutexes of queue.c, in place, on the scheduler object. */
module MutexQueues {
  import opened Kernel
  import opened KernelInvariants
  import opened KernelOps
  import opened Scheduling
  import M = Mutexes

  class MutexQueue {
    const scheduler: Scheduler
    var mutexes: map<nat, M.Mutex>
    ghost var retry: map<Task, nat>

    ghost function Value(): M.System
      reads this, scheduler
    {
      M.System(scheduler.St(), mutexes, retry)
    }

    constructor (s: Scheduler)
      ensures scheduler == s && Value() == M.System(s.St(), map[], map[])
    {
      scheduler := s;
      mutexes, retry := map[], map[];
    }

    /** The first critical section of xQueueSemaphoreTake, and xQueueTakeMutexRecursive by the
        holder */
    method TryTake(id: nat) returns (taken: bool)
      requires id in mutexes && scheduler.current in scheduler.tcb
      modifies this, scheduler`tcb
      ensures Value() == M.Take(old(Value()), id)
      ensures taken == M.Succeeds(old(Value()), id)
      ensures taken ==> id in mutexes && mutexes[id].holder == M.Held(scheduler.current)
    {
      var m := mutexes[id];
      var t := scheduler.current;
      retry := retry - {t};
      if m.recursive && m.holder == M.Held(t) {
        mutexes := mutexes[id := m.(depth := m.depth + 1)];
        taken := true;
      } else if m.count > 0 {
        // pvTaskIncrementMutexHeldCount
        var b := scheduler.tcb[t];
        scheduler.tcb := scheduler.tcb[t := b.(mutexesHeld := b.mutexesHeld + 1)];
        mutexes := mutexes[id := m.(count := 0, holder := M.Held(t), depth := if m.recursive then 1 else 0)];
        taken := true;
      } else {
        taken := false;
      }
    }

    /** The suspended region in which xQueueSemaphoreTake blocks */
    method BlockOnMutex(id: nat, ticks: nat) returns (inherited: bool)
      requires id in mutexes && mutexes[id].holder.Held? && mutexes[id].holder.task in scheduler.tcb
      requires scheduler.current in scheduler.tcb
      modifies scheduler
      ensures Value() == M.BlockOn(old(Value()), id, ticks)
      ensures var b := TcbOf(old(scheduler.St()), mutexes[id].holder.task);
              inherited == (b.priority < Priority(old(scheduler.St()), old(scheduler.current))
                            || b.base < Priority(old(scheduler.St()), old(scheduler.current)))
    {
      hide Inherit, PlaceOnEventList;
      InheritKeepsCurrent(scheduler.St(), mutexes[id].holder.task);
      inherited := scheduler.PriorityInherit(mutexes[id].holder.task);
      scheduler.PlaceOnEvents(id, ticks);
      scheduler.yieldAsked := true;
    }

    /** xQueueGenericSend on a mutex the running task holds, and xQueueGiveMutexRecursive */
    method GiveMutex(id: nat)
      requires M.CallsInv(Value()) && id in mutexes && mutexes[id].holder == M.Held(scheduler.current)
      modifies this, scheduler
      ensures (M.GiveKeeps(old(Value()), id); Value() == M.Give(old(Value()), id) && M.CallsInv(Value()))
    {
      hide Inv, Disinherit, RemoveFromEventList, M.Accounted;
      M.GiveKeeps(Value(), id);
      var m := mutexes[id];
      if m.recursive && m.depth > 1 {
        mutexes := mutexes[id := m.(depth := m.depth - 1)];
      } else {
        CurrentLive(scheduler.St());
        M.HolderIs(Value(), id);
        DisinheritedInv(Value(), id);
        var yieldRequired := scheduler.PriorityDisinherit();
        mutexes := mutexes[id := m.(count := 1, holder := M.Nobody, depth := 0)];
        var waiters := At(scheduler.events, Waiters(id)).items;
        if waiters != [] {
          retry := retry[waiters[0] := id];
          var higher := scheduler.RemoveFromEvents(id);
          if higher {
            scheduler.yieldAsked := true;
          }
        } else if yieldRequired {
          scheduler.yieldAsked := true;
        }
      }
    }

    /** What xQueueSemaphoreTake does when it has inherited, timed out and still finds nothing */
    method GiveUp(id: nat)
      requires id in mutexes && mutexes[id].holder.Held? && mutexes[id].holder.task in scheduler.tcb
      modifies scheduler`top, scheduler`lists, scheduler`tcb
      ensures Value() == M.TimedOut(old(Value()), id)
    {
      hide DisinheritAfterTimeout;
      var waiters := At(scheduler.events, Waiters(id)).items;
      var highest := 0;
      if waiters != [] {
        var v := TcbIn(scheduler.tcb, waiters[0]).eventValue;
        if v <= MAX_PRIORITIES {
          highest := MAX_PRIORITIES - v;
        }
      }
      scheduler.PriorityDisinheritAfterTimeout(mutexes[id].holder.task, highest);
    }
  }

  lemma InheritKeepsCurrent(k: State, h: Task)
    requires h in k.tcb && k.current in k.tcb
    ensures Inherit(k, h).current == k.current && k.current in Inherit(k, h).tcb
  {
    hide Reprioritise, ResetEventValue;
    ReprioritisedKeys(k, h, Priority(k, k.current));
    ReprioritisedKeys(ResetEventValue(k, h, Priority(k, k.current)), h, Priority(k, k.current));
  }

  lemma ReprioritisedKeys(k: State, t: Task, p: nat)
    requires t in k.tcb
    ensures Reprioritise(k, t, p).tcb.Keys == k.tcb.Keys && ResetEventValue(k, t, p).tcb.Keys == k.tcb.Keys
    ensures Reprioritise(k, t, p).current == ResetEventValue(k, t, p).current == k.current
  {
    hide Drop, AddToReady, InUse;
    MovedKeys(SetTcb(k, t, TcbOf(k, t).(priority := p)), t);
  }

  lemma MovedKeys(k: State, t: Task)
    requires t in k.tcb
    ensures AddToReady(TakeOut(k, t), t).tcb.Keys == k.tcb.Keys && AddToReady(TakeOut(k, t), t).current == k.current
  {
    hide Drop;
  }

  lemma DisinheritedInv(s: M.System, id: nat)
    requires M.CallsInv(s) && id in s.mutexes && s.mutexes[id].holder == M.Held(s.k.current)
    requires TcbOf(s.k, s.k.current).mutexesHeld > 0
    ensures Inv(Disinherit(s.k)) && Disinherit(s.k).current == s.k.current
  {
    hide Inv, Disinherit, M.Accounted;
    M.HolderIs(s, id);
    M.DisinheritEffect(s.k);
  }
}
