/**
  The class Coroutine and the per-thread state as heap objects that the
  methods update in place. Each method is proved to do to the objects what
  the operation of the same name does to the machine of module Coroutines,
  with the objects themselves as identities. The preconditions are the
  assertions of the source and the stack pointers it dereferences.
  */
module CoroutineRuntime {
  import opened Basics
  import M = Coroutines
  import opened Coroutines
  import opened CoroutineInvariants

  class Coroutine<!L> {
    var stackData: Option<nat>
    var stackPointer: Option<Frame<Coroutine<L>, L>>
    var caller: Coroutine?<L>
    var status: Status

    constructor ()
      ensures View() == M.Fresh()
    {
      stackData, stackPointer, caller, status := None, None, null, NotStarted;
    }

    /** The constructor, run on memory that is already there. */
    method Initialise(t: Thread<L>)
      requires this !in t.objects
      modifies this, t`objects
      ensures t.View() == M.Construct(old(t.View()), this)
    {
      ghost var before := t.View();
      stackData, stackPointer, caller, status := None, None, null, NotStarted;
      t.objects := t.objects + {this};
      assert t.View().coros == M.Construct(before, this).coros;
    }

    ghost function View(): Coro<Coroutine<L>, L>
      reads this
    {
      Coro(stackData, stackPointer, if caller == null then None else Some(caller), status)
    }

    /** free(_stackData), if there is any. */
    method ReleaseStack(t: Thread<L>)
      requires this in t.objects
      modifies t`heap, t`freed, this`stackData
      ensures t.View() == FreeStack(old(t.View()), this)
    {
      ghost var before := t.View();
      if stackData.Some? {
        t.Free(stackData.value);
        stackData := None;
      }
      t.Changed(before, this);
    }

    method CreateStack(t: Thread<L>)
      requires this in t.objects && status == NotStarted
      modifies t`heap, t`freed, t`brk, this`stackData, this`stackPointer
      ensures t.View() == M.CreateStack(old(t.View()), this)
    {
      ReleaseStack(t);
      ghost var before := t.View();
      var a := t.Malloc();
      stackData := Some(a);
      stackPointer := Some(Frame(Malloced(a), EntryPoint));
      t.Changed(before, this);
    }

    method SetStack(t: Thread<L>, memory: nat)
      requires this in t.objects && status == NotStarted
      modifies t`heap, t`freed, this`stackData, this`stackPointer
      ensures t.View() == M.SetStack(old(t.View()), this, memory)
    {
      ReleaseStack(t);
      ghost var before := t.View();
      stackPointer := Some(Frame(Borrowed(memory), EntryPoint));
      t.Changed(before, this);
    }

    method Restart(t: Thread<L>)
      requires this in t.objects
      modifies t`heap, t`freed, this
      ensures t.View() == M.Restart(old(t.View()), this)
    {
      ReleaseStack(t);
      ghost var before := t.View();
      stackPointer := None;
      caller := null;
      status := NotStarted;
      t.Changed(before, this);
    }

    /** The destructor. */
    method Delete(t: Thread<L>)
      requires this in t.objects && status != Running
      modifies t`heap, t`freed, t`objects, this`stackData
      ensures t.View() == M.Delete(old(t.View()), this)
    {
      ReleaseStack(t);
      ghost var before := t.View();
      t.objects := t.objects - {this};
      assert t.View().coros == before.coros - {this};
    }

    /** cont(), up to the switch into the callee; the caller's return point is left on its stack. */
    method Cont(t: Thread<L>, ifMore: L, ifDone: L)
      requires this in t.objects && t.current in t.objects && this != t.current
      requires status in {NotStarted, Stopped} && caller == null
      requires stackPointer.None? ==> status == NotStarted
      modifies t`heap, t`freed, t`brk, t`current, t`live, this, t.current`stackPointer
      ensures t.View() == EnterCallee(old(t.View()), this, ifMore, ifDone)
    {
      if stackPointer.None? {
        CreateStack(t);
      }
      assert t.View() == PrepareStack(old(t.View()), this);
      assert View() == t.View().coros[this];
      Enter(t, ifMore, ifDone);
    }

    method Enter(t: Thread<L>, ifMore: L, ifDone: L)
      requires this in t.objects && t.current in t.objects && this != t.current && stackPointer.Some?
      modifies t`current, t`live, this`status, this`caller, t.current`stackPointer
      ensures t.View() == EnterCallee(old(t.View()), this, ifMore, ifDone)
    {
      ghost var before := t.View();
      status := Running;
      caller := t.current;
      t.current := this;
      t.Changed(before, this);
      ghost var entered := t.View();
      t.SwitchStack(stackPointer.value, caller, InCont(this, ifMore, ifDone));
      t.Changed(entered, caller);
    }
  }

  /** The thread's root and current coroutine, its processor and its malloc'd memory. */
  class Thread<!L> {
    const root: Coroutine<L>
    var current: Coroutine<L>
    var live: Frame<Coroutine<L>, L>
    var heap: set<nat>
    var brk: nat
    ghost var freed: seq<nat>
    ghost var log: seq<Event<Coroutine<L>>>
    ghost var objects: set<Coroutine<L>>

    ghost function View(): Machine<Coroutine<L>, L>
      reads this, objects
    {
      Machine(map c | c in objects :: c.View(), root, current, live, heap, brk, freed, log)
    }

    /** The coroutines after a change to one of them. */
    lemma Changed(before: Machine<Coroutine<L>, L>, c: Coroutine<L>)
      requires c in objects && before.coros.Keys == objects
      requires forall d | d in objects && d != c :: d.View() == before.coros[d]
      ensures View().coros == before.coros[c := c.View()]
    {
    }

    /** currentCoroutine() on a thread that has none yet. */
    constructor (w: World<Coroutine<L>, L>)
      ensures fresh(root) && objects == {root}
      ensures View() == Boot(w, root) && Good(View(), [root])
    {
      var r := new Coroutine<L>();
      r.status := Running;
      root, current, objects := r, r, {r};
      live := Frame(ThreadStack, Body(w.entry(r)));
      heap, brk, freed, log := {}, 0, [], [];
      new;
      assert View().coros == Boot(w, root).coros;
      BootIsGood(w, root);
    }

    method Malloc() returns (a: nat)
      modifies this`heap, this`brk
      ensures a == old(brk) && brk == old(brk) + 1 && heap == old(heap) + {a}
    {
      a := brk;
      brk := brk + 1;
      heap := heap + {a};
    }

    method Free(a: nat)
      modifies this`heap, this`freed
      ensures heap == old(heap) - {a} && freed == old(freed) + [a]
    {
      heap := heap - {a};
      freed := freed + [a];
    }

    /** switchStack(to, &from->_stackPointer): leave k on the stack of `from` and go on at `to`. */
    method SwitchStack(to: Frame<Coroutine<L>, L>, from: Coroutine<L>, k: Kont<Coroutine<L>, L>)
      modifies this`live, from`stackPointer
      ensures live == to && from.stackPointer == Some(Frame(old(live.block), k))
    {
      from.stackPointer := Some(Frame(live.block, k));
      live := to;
    }

    /** The constructor of Coroutine, as the thread sees it. */
    method Construct() returns (c: Coroutine<L>)
      modifies this`objects
      ensures fresh(c) && View() == M.Construct(old(View()), c)
    {
      ghost var before := View();
      c := new Coroutine<L>();
      objects := objects + {c};
      assert View().coros == M.Construct(before, c).coros;
    }

    method YieldHelper(stop: Status, k: Kont<Coroutine<L>, L>)
      requires current in objects && current.status == Running
      requires current.caller != null && current.caller in objects && current.caller != current
      requires current.caller.stackPointer.Some?
      modifies this`current, this`live, current
      ensures View() == LeaveToCaller(old(View()), stop, k)
    {
      ghost var before := View();
      var stopping := current;
      stopping.status := stop;
      var continuing := stopping.caller;
      stopping.caller := null;
      current := continuing;
      SwitchStack(continuing.stackPointer.value, stopping, k);
      Changed(before, stopping);
    }

    // -------------------------------------------------------------------
    // One step of the thread
    // -------------------------------------------------------------------

    /** Go on with the body at l, after the event e. */
    method GoOn(ghost e: Event<Coroutine<L>>, l: L)
      modifies this`live, this`log
      ensures View() == At(Note(old(View()), e), l)
    {
      log := log + [e];
      live := Frame(live.block, Body(l));
    }

    /** The last line of cont(), back in the caller: whether the callee can be continued again. */
    method ReturnFromCont() returns (more: bool)
      requires live.k.InCont? && live.k.callee in objects
      modifies this`live, this`log
      ensures more <==> old(live.k.callee).status != Terminated
      ensures var InCont(d, ifMore, ifDone) := old(live.k);
        View() == At(Note(old(View()), Returned(current, d, more)), if more then ifMore else ifDone)
    {
      var InCont(d, ifMore, ifDone) := live.k;
      more := d.status != Terminated;
      GoOn(Returned(current, d, more), if more then ifMore else ifDone);
    }

    /** A call of a member function other than cont() on d, or its construction. */
    method CallMember(d: Coroutine<L>, act: Act, next: L) returns (fault: Option<Fault>)
      requires act.DoConstruct? <==> d !in objects
      modifies this, d
      ensures StepManage(old(View()), d, act, next) ==
              if fault.Some? then Broken(fault.value) else Ok(View())
      ensures fault.Some? ==> View() == old(View())
    {
      hide At, Note, M.Construct, M.CreateStack, M.SetStack, M.Restart, M.Delete;
      assert d in objects ==> View().coros[d] == d.View();
      match act {
        case DoConstruct => d.Initialise(this);
        case DoCreateStack =>
          if d.status != NotStarted { return Some(StackAfterStart); }
          d.CreateStack(this);
        case DoSetStack(memory) =>
          if d.status != NotStarted { return Some(StackAfterStart); }
          d.SetStack(this, memory);
        case DoRestart =>
          if d.status == Running { return Some(RestartWhileRunning); }
          d.Restart(this);
        case DoDelete =>
          if d.status == Running { return Some(DeleteWhileRunning); }
          d.Delete(this);
      }
      GoOn(Managed(current, d, act), next);
      fault := None;
    }

    /** yield(), or the end of a body, from a coroutine that has a caller. */
    method Leave(ghost e: Event<Coroutine<L>>, stop: Status, k: Kont<Coroutine<L>, L>)
      requires current in objects && current.status == Running
      requires current.caller != null && current.caller in objects && current.caller != current
      requires current.caller.stackPointer.Some?
      modifies this, current
      ensures StepYield(Note(old(View()), e), stop, k) == Ok(View())
    {
      assert current.View() == View().coros[current] && current.caller.View() == View().coros[current.caller];
      log := log + [e];
      assert current.View() == View().coros[current] && current.caller.View() == View().coros[current.caller];
      hide LeaveToCaller;
      YieldHelper(stop, k);
    }

    /** The coroutines the next operation names are there, and one it constructs is not. */
    ghost predicate NamesLive(w: World<Coroutine<L>, L>)
      reads this
    {
      live.k.Body? ==>
        match w.code(live.k.l)
        case Cont(d, _, _) => d in objects
        case Manage(d, act, _) => act.DoConstruct? <==> d !in objects
        case _ => true
    }

    ghost function Touched(w: World<Coroutine<L>, L>): set<Coroutine<L>>
      reads this
    {
      objects + if live.k.Body? && w.code(live.k.l).Manage? then {w.code(live.k.l).target} else {}
    }

    /** The objects make the step of the machine, and stay good. */
    method Step(w: World<Coroutine<L>, L>, ghost ch: seq<Coroutine<L>>) returns (r: Progress)
      requires Good(View(), ch) && NamesLive(w)
      modifies this, Touched(w)
      ensures match M.Step(w, old(View()))
        case Ok(m) => r == Went && View() == m && Good(m, ChainAfter(w, old(View()), ch))
        case Broken(fault) => r == Failed(fault) && View() == old(View())
        case Halted => r == Ended && View() == old(View())
    {
      ReadyForCalls(this, ch);
      ghost var before := View();
      if M.Step(w, before).Ok? {
        StepKeeps(w, before, ch);
      }
      hide Good;
      r := MakeStep(w);
    }

    method MakeStep(w: World<Coroutine<L>, L>) returns (r: Progress)
      requires NamesLive(w) && Ready()
      modifies this, Touched(w)
      ensures match M.Step(w, old(View()))
        case Ok(m) => r == Went && View() == m
        case Broken(fault) => r == Failed(fault) && View() == old(View())
        case Halted => r == Ended && View() == old(View())
    {
      hide EnterCallee, LeaveToCaller, StepManage, StepYield;
      r := Went;
      match live.k {
        case EntryPoint => live := Frame(live.block, Body(w.entry(current)));
        case AfterTerminate => return Failed(PastTheEnd);
        case InCont(d, ifMore, ifDone) => var more := ReturnFromCont();
        case Body(l) => r := MakeOp(w, l);
      }
    }

    method MakeOp(w: World<Coroutine<L>, L>, l: L) returns (r: Progress)
      requires NamesLive(w) && Ready() && live.k == Body(l)
      modifies this, Touched(w)
      ensures match M.Step(w, old(View()))
        case Ok(m) => r == Went && View() == m
        case Broken(fault) => r == Failed(fault) && View() == old(View())
        case Halted => r == Ended && View() == old(View())
    {
      hide EnterCallee, LeaveToCaller, StepManage;
      r := Went;
      match w.code(l) {
        case Emit(v, next) => GoOn(Emitted(current, v), next);
        case Yield(next) =>
          if current.caller == null { return Failed(YieldWithoutCaller); }
          Leave(Yielded(current), Stopped, Body(next));
        case Return =>
          if current == root { return Ended; }
          Leave(Finished(current), Terminated, AfterTerminate);
        case Cont(d, ifMore, ifDone) =>
          if d.status !in {NotStarted, Stopped} { return Failed(ContBadStatus); }
          d.Cont(this, ifMore, ifDone);
        case Manage(d, act, next) =>
          var fault := CallMember(d, act, next);
          if fault.Some? { return Failed(fault.value); }
      }
    }

    /** What ReadyForCalls gives. */
    ghost predicate Ready()
      reads this, objects
    {
      && current in objects && current.status == Running
      && (live.k.InCont? ==> live.k.callee in objects)
      && (forall c | c in objects && c.status in {NotStarted, Stopped} ::
            c != current && c.caller == null && (c.stackPointer.None? ==> c.status == NotStarted))
      && (current == root <==> current.caller == null)
      && (current.caller != null ==>
            current.caller in objects && current.caller != current && current.caller.stackPointer.Some?)
    }
  }

  datatype Progress = Went | Failed(fault: Fault) | Ended

  /** In a good state cont() and yieldHelper() may be called whenever their status assertion holds. */
  lemma ReadyForCalls<L>(t: Thread<L>, ch: seq<Coroutine<L>>)
    requires Good(t.View(), ch)
    ensures t.Ready()
  {
    var m := t.View();
    RootEndsChain(m, ch);
    assert m.current in m.coros && m.coros[m.current].status == Running by { assert ch[0] in ch; }
    forall c | c in t.objects ensures c.View() == m.coros[c] && SavedByStatus(m.coros[c]) { }
    if |ch| >= 2 {
      assert WaitsFor(m.coros[ch[0 + 1]], ch[0]);
    }
  }
}
