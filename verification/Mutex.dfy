/** The mutex code of queue.c and tasks.c on the kernel's own variables. Each method is one
    critical section: it computes the function of module MutexModel, keeps the accounts, and
    leaves no holder below a task on its wait list. */
module Mutexes {
  import opened Common
  import opened Rings
  import opened MutexModel
  import opened MutexAccounting
  import opened MutexSafety

  class MutexKernel {
    var tcbs: map<Task, Tcb>
    var queues: map<MutexId, Mutex>
    var pxCurrentTCB: Task

    ghost function Abs(): State
      reads this
    {
      State(tcbs, queues, pxCurrentTCB)
    }

    function Get(t: Task): Tcb
      reads this
    {
      if t in tcbs then tcbs[t] else Tcb(0, 0, 0, MAX_PRIORITIES, Outside, false)
    }

    function Queue(m: MutexId): Mutex
      reads this
    {
      if m in queues then queues[m] else Mutex(false, None, [])
    }

    /** No holder is below a task on its wait list. */
    ghost predicate AllOnTop()
      reads this
    {
      forall m :: m in queues ==> HolderOnTop(Abs(), m)
    }

    /** No task waiting for m is above t. */
    ghost predicate Outranks(s: State, t: Task, m: MutexId) {
      forall u :: u in MutexOf(s, m).waiters ==> TcbOf(s, u).priority <= TcbOf(s, t).priority
    }

    /** xTaskPriorityInherit: the holder is not below the running task any more, nobody is
        lowered, and the answer is whether the holder now owes its priority to a waiter. */
    method PriorityInherit(pxMutexHolder: Option<Task>) returns (occurred: bool)
      modifies this`tcbs
      ensures Abs() == Inherit(old(Abs()), pxMutexHolder)
      ensures occurred == InheritanceOccurred(old(Abs()), pxMutexHolder)
      ensures pxMutexHolder.Some? ==> Get(pxCurrentTCB).priority <= Get(pxMutexHolder.value).priority
      ensures forall t :: old(Get(t)).priority <= Get(t).priority
      ensures old(ValuesOk(Abs()) && pxCurrentTCB in tcbs && (pxMutexHolder.Some? ==> pxMutexHolder.value in tcbs)) ==>
        && ValuesOk(Abs())
        && occurred == (pxMutexHolder.Some? && Get(pxMutexHolder.value).base < Get(pxCurrentTCB).priority)
    {
      occurred := false;
      if pxMutexHolder.Some? {
        var t := pxMutexHolder.value;
        var uxPriority := Get(pxCurrentTCB).priority;
        if Get(t).priority < uxPriority {
          tcbs := tcbs[t := Get(t).(priority := uxPriority, value := MAX_PRIORITIES - uxPriority)];
          occurred := true;
        } else if Get(t).base < uxPriority {
          occurred := true;
        }
      }
    }

    /** xTaskPriorityDisinherit: a task without mutexes runs at its base priority, and a
        yield is asked for exactly if that changed its priority. */
    method PriorityDisinherit(pxMutexHolder: Option<Task>) returns (yieldRequired: bool)
      modifies this`tcbs
      ensures Abs() == Disinherit(old(Abs()), pxMutexHolder)
      ensures yieldRequired == DisinheritYields(old(Abs()), pxMutexHolder)
      ensures yieldRequired <==> exists t :: Get(t).priority != old(Get(t)).priority
      ensures pxMutexHolder.Some? && Get(pxMutexHolder.value).held == 0 ==>
        Get(pxMutexHolder.value).priority == Get(pxMutexHolder.value).base
    {
      yieldRequired := false;
      if pxMutexHolder.Some? {
        var t := pxMutexHolder.value;
        var tcb := Get(t).(held := if Get(t).held == 0 then 0 else Get(t).held - 1);
        if tcb.priority != tcb.base && tcb.held == 0 {
          tcb := tcb.(priority := tcb.base, value := MAX_PRIORITIES - tcb.base);
          yieldRequired := true;
        }
        tcbs := tcbs[t := tcb];
        assert yieldRequired ==> Get(t).priority != old(Get(t)).priority;
      }
    }

    /** vTaskPriorityDisinheritAfterTimeout: called for the holder of m with the highest
        priority waiting for m, it leaves every holder above the tasks that wait. */
    method PriorityDisinheritAfterTimeout(pxMutexHolder: Option<Task>, uxHighestPriorityWaitingTask: int,
        ghost m: MutexId)
      modifies this`tcbs
      ensures Abs() == DisinheritAfterTimeout(old(Abs()), pxMutexHolder, uxHighestPriorityWaitingTask)
      ensures old(Safe(Abs())) && m in queues && pxMutexHolder == Queue(m).holder ==>
        uxHighestPriorityWaitingTask == HighestWaiting(old(Abs()), m) ==> AllOnTop()
    {
      ghost var s := Abs();
      if Safe(s) && m in queues && pxMutexHolder == Queue(m).holder {
        LoweredAllOnTop(s, m);
      }
      if pxMutexHolder.Some? {
        var t := pxMutexHolder.value;
        var uxPriorityToUse :=
          if Get(t).base < uxHighestPriorityWaitingTask then uxHighestPriorityWaitingTask else Get(t).base;
        if Get(t).priority != uxPriorityToUse && Get(t).held == 1 {
          tcbs := tcbs[t := Get(t).(priority := uxPriorityToUse, value := MAX_PRIORITIES - uxPriorityToUse)];
        }
      }
    }

    lemma LoweredAllOnTop(s: State, m: MutexId)
      requires Safe(s) && m in s.mutexes
      ensures forall n :: n in s.mutexes ==> HolderOnTop(Lowered(s, m), n)
    {
      hide Accounts, ValuesOk, Ordered, HolderOnTop, Guarded, Lowered;
      assert SafeFor(s, m);
      forall n | n in s.mutexes ensures HolderOnTop(Lowered(s, m), n) {
        assert SafeFor(s, n);
        LoweredOnTop(s, m, n);
      }
    }

    /** The critical section at the top of xQueueSemaphoreTake: whoever takes the mutex
        outranks all who still wait for it. */
    method TakeSection() returns (taken: bool)
      requires Ready(Abs(), pxCurrentTCB) && tcbs[pxCurrentTCB].pc.Top?
      modifies this
      ensures Abs() == TryTake(old(Abs()))
      ensures taken == old(Queue(Get(pxCurrentTCB).pc.m).available)
      ensures taken ==>
        var m := old(Get(pxCurrentTCB).pc.m);
        && Queue(m) == Mutex(false, Some(pxCurrentTCB), old(Queue(m).waiters))
        && Get(pxCurrentTCB).held == old(Get(pxCurrentTCB).held) + 1 && Get(pxCurrentTCB).pc == Outside
      ensures !taken ==>
        var pc := old(Get(pxCurrentTCB).pc);
        queues == old(queues) && Get(pxCurrentTCB).pc == if pc.wait then Checked(pc.m, pc.inherited, true) else Outside
      ensures old(Accounts(Abs())) ==> Accounts(Abs())
      ensures old(Safe(Abs())) ==> Safe(Abs())
      ensures old(Safe(Abs())) && taken ==>
        Outranks(Abs(), pxCurrentTCB, old(Get(pxCurrentTCB)).pc.m)
    {
      hide Accounts, Safe, ValuesOk, Ordered, HolderOnTop, Guarded, Outranks;
      ghost var s := Abs();
      if Accounts(s) { TryKeeps(s); }
      if Safe(s) {
        TrySafe(s);
        if Queue(Get(pxCurrentTCB).pc.m).available { TakerOutranks(s); }
      }
      var pc := Get(pxCurrentTCB).pc;
      taken := Queue(pc.m).available;
      if taken {
        queues := queues[pc.m := Queue(pc.m).(available := false, holder := Some(pxCurrentTCB))];
        tcbs := tcbs[pxCurrentTCB := Get(pxCurrentTCB).(pc := Outside, held := Get(pxCurrentTCB).held + 1)];
      } else {
        var next := if pc.wait then Checked(pc.m, pc.inherited, true) else Outside;
        tcbs := tcbs[pxCurrentTCB := Get(pxCurrentTCB).(pc := next)];
      }
    }

    lemma TakerOutranks(s: State)
      requires Safe(s) && Enabled(s, Try) && MutexOf(s, s.tcbs[s.current].pc.m).available
      ensures TryTake(s).current == s.current && Outranks(TryTake(s), s.current, s.tcbs[s.current].pc.m)
    {
      hide CountsOk, HoldersOk, WaitersOk, ValuesOk, Ordered, Guarded, TryTake;
      TrySafe(s);
      CallFacts(s, s.current);
      TryShape(s);
      assert SafeFor(TryTake(s), s.tcbs[s.current].pc.m);
    }

    /** The scan of vListInsert over the item values of a wait list. */
    method PlaceOnEventList(m: MutexId, t: Task)
      modifies this`queues
      ensures Abs() == Enqueue(old(Abs()), m, t)
    {
      hide InsertPos;
      var waiters := Queue(m).waiters;
      var value := if Get(t).value < 0 then 0 else Get(t).value;
      var pos := 0;
      while pos < |waiters| && (if Get(waiters[pos]).value < 0 then 0 else Get(waiters[pos]).value) <= value
        invariant pos <= |waiters|
        invariant forall i :: 0 <= i < pos ==> WaiterValues(Abs(), m)[i] <= value
      {
        pos := pos + 1;
      }
      InsertPosUnique(WaiterValues(Abs(), m), value, pos);
      queues := queues[m := Queue(m).(waiters := waiters[..pos] + [t] + waiters[pos..])];
    }

    /** Inheriting and waiting, with the scheduler suspended and the queue locked. */
    method WaitSection()
      requires pxCurrentTCB in tcbs && tcbs[pxCurrentTCB].pc.Checked? && tcbs[pxCurrentTCB].pc.m in queues
      modifies this
      ensures Abs() == BeginWait(old(Abs()))
      ensures old(Accounts(Abs())) ==> Accounts(Abs())
    {
      hide Enqueue, Accounts;
      if Accounts(Abs()) { BeginWaitKeeps(Abs()); }
      var pc := Get(pxCurrentTCB).pc;
      var occurred := PriorityInherit(Queue(pc.m).holder);
      tcbs := tcbs[pxCurrentTCB := Get(pxCurrentTCB).(pc := Waiting(pc.m, occurred, pc.wait))];
      PlaceOnEventList(pc.m, pxCurrentTCB);
    }

    /** The end of a take that timed out: the holder gives back what nobody still waiting
        justifies, and is still above all who wait. */
    method UndoSection()
      requires Ready(Abs(), pxCurrentTCB) && tcbs[pxCurrentTCB].pc.Undoing?
      modifies this
      ensures Abs() == UndoInheritance(old(Abs()))
      ensures old(Accounts(Abs())) ==> Accounts(Abs())
      ensures old(Safe(Abs())) ==> AllOnTop()
    {
      hide Accounts, Safe, ValuesOk, HolderOnTop;
      if Accounts(Abs()) { UndoKeeps(Abs()); }
      if Safe(Abs()) { UndoOnTop(Abs()); }
      var pc := Get(pxCurrentTCB).pc;
      var waiters := Queue(pc.m).waiters;
      var uxHighest := if waiters == [] then 0 else MAX_PRIORITIES - Get(waiters[0]).value;
      PriorityDisinheritAfterTimeout(Queue(pc.m).holder, uxHighest, pc.m);
      tcbs := tcbs[pxCurrentTCB := Get(pxCurrentTCB).(pc := Outside)];
    }

    /** The critical section of xQueueGenericSend on a mutex that the running task holds:
        every holder stays above those who wait, and the task woken outranks them too. */
    method GiveSection(m: MutexId) returns (yieldRequired: bool)
      requires pxCurrentTCB in tcbs && tcbs[pxCurrentTCB].pc == Outside && m in queues
        && queues[m].holder == Some(pxCurrentTCB)
      modifies this
      ensures Abs() == GiveMutex(old(Abs()), m) && yieldRequired == GiveYields(old(Abs()), m)
      ensures old(queues[m].waiters) == [] ==>
        (yieldRequired <==> exists t :: Get(t).priority != old(Get(t)).priority)
      ensures old(queues[m].waiters) != [] ==>
        (yieldRequired <==> Get(old(queues[m].waiters[0])).priority > Get(pxCurrentTCB).priority)
      ensures Queue(m).available && Queue(m).holder == None
      ensures old(Accounts(Abs())) ==> Accounts(Abs())
      ensures old(Safe(Abs())) ==> AllOnTop()
      ensures old(Safe(Abs())) && old(queues[m].waiters) != [] ==>
        Outranks(Abs(), old(queues[m].waiters[0]), m)
    {
      hide Accounts, Safe, ValuesOk, HolderOnTop, GiveMutex, GiveYields;
      ghost var s := Abs();
      if Accounts(s) { GiveKeeps(s, m); }
      if Safe(s) { GivenOnTop(s, m); }
      yieldRequired := GiveBody(m);
    }

    /** The body of the critical section. */
    method GiveBody(m: MutexId) returns (yieldRequired: bool)
      requires m in queues
      modifies this
      ensures Abs() == GiveMutex(old(Abs()), m) && yieldRequired == GiveYields(old(Abs()), m)
      ensures old(queues[m].waiters) == [] ==>
        (yieldRequired <==> exists t :: Get(t).priority != old(Get(t)).priority)
      ensures old(queues[m].waiters) != [] ==>
        (yieldRequired <==> Get(old(queues[m].waiters[0])).priority > Get(pxCurrentTCB).priority)
      ensures Queue(m).available && Queue(m).holder == None
    {
      var disinherited := PriorityDisinherit(Queue(m).holder);
      queues := queues[m := Queue(m).(available := true, holder := None)];
      var waiters := Queue(m).waiters;
      if waiters == [] {
        yieldRequired := disinherited;
      } else {
        var t := waiters[0];
        var pc := Get(t).pc;
        queues := queues[m := Queue(m).(waiters := Without(waiters, t))];
        if pc.Waiting? {
          tcbs := tcbs[t := Get(t).(pc := Top(m, pc.inherited, pc.wait))];
        }
        yieldRequired := Get(t).priority > Get(pxCurrentTCB).priority;
      }
    }

    lemma GivenOnTop(s: State, m: MutexId)
      requires Safe(s) && s.current in s.tcbs && s.tcbs[s.current].pc == Outside && m in s.mutexes
        && s.mutexes[m].holder == Some(s.current)
      ensures var r := GiveMutex(s, m);
        && r.mutexes.Keys == s.mutexes.Keys && (forall n :: n in s.mutexes ==> HolderOnTop(r, n))
        && (s.mutexes[m].waiters != [] ==>
             Outranks(r, s.mutexes[m].waiters[0], m))
    {
      hide Accounts, ValuesOk, Ordered, HolderOnTop, Guarded, GiveMutex;
      assert SafeFor(s, m);
      GivenFor(s, m, m);
      forall n | n in s.mutexes ensures HolderOnTop(GiveMutex(s, m), n) {
        assert SafeFor(s, n);
        GivenFor(s, m, n);
      }
      if s.mutexes[m].waiters != [] { HeadAbove(s, m); }
    }
  }
}
