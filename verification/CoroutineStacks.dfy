/**
  Which memory a coroutine runs on: the memory last given to it by
  setStack(), or a stack of its own, told from the log of calls alone.
  */
module CoroutineStacks {
  import opened Basics
  import opened Coroutines
  import opened CoroutineInvariants

  /** What the calls on a coroutine ask for: the memory lent to it, or a stack of its own. */
  datatype Stack = Lent(memory: nat) | Own

  /** The last setStack on c counts until c is constructed, restarted or given a stack of its own. */
  function StackOf<Id(==)>(log: seq<Event<Id>>, c: Id): Stack
    decreases |log|
  {
    if log == [] then Own
    else
      var e := log[|log| - 1];
      var before := StackOf(log[..|log| - 1], c);
      if !e.Managed? || e.target != c then before
      else match e.act
        case DoSetStack(memory) => Lent(memory)
        case DoDelete => before
        case _ => Own
  }

  lemma StackSnoc<Id>(log: seq<Event<Id>>, e: Event<Id>, c: Id)
    ensures StackOf(log + [e], c) ==
            if e.Managed? && e.target == c && e.act.DoSetStack? then Lent(e.act.memory)
            else if e.Managed? && e.target == c && !e.act.DoDelete? then Own
            else StackOf(log, c)
  {
    assert (log + [e])[..|log|] == log;
  }

  predicate Fits<Id, L>(stack: Stack, c: Coro<Id, L>) {
    match stack
    case Lent(memory) => c.stackPointer.Some? && c.stackPointer.value.block == Borrowed(memory)
    case Own => c.stackPointer.Some? ==> c.stackPointer.value.block.Malloced?
  }

  /** Every coroutine but the root has its frames where the calls on it say. */
  ghost predicate AsGiven<Id, L>(m: Machine<Id, L>) {
    forall c | c in m.coros && c != m.root :: Fits(StackOf(m.log, c), m.coros[c])
  }

  /** The chain and memory facts a step needs. */
  lemma StackFacts<Id, L>(m: Machine<Id, L>, ch: seq<Id>)
    requires Good(m, ch)
    ensures m.current in m.coros && m.root in m.coros && m.coros[m.root].status == Running
    ensures m.current != m.root ==>
              m.coros[m.current].stackPointer.Some? && m.live.block == m.coros[m.current].stackPointer.value.block
  {
    assert ch[|ch| - 1] in ch;
  }

  /** A step that adds no call on c, and leaves the block of its stack pointer as it was. */
  lemma SameStack<Id, L>(m: Machine<Id, L>, e: Event<Id>, c: Id, before: Coro<Id, L>, after: Coro<Id, L>)
    requires Fits(StackOf(m.log, c), before) && !(e.Managed? && e.target == c)
    requires before.stackPointer.Some? <==> after.stackPointer.Some?
    requires before.stackPointer.Some? ==> before.stackPointer.value.block == after.stackPointer.value.block
    ensures Fits(StackOf(m.log, c), after) && Fits(StackOf(m.log + [e], c), after)
  {
    StackSnoc(m.log, e, c);
    hide StackOf;
  }

  lemma EnterKeepsStacks<Id, L>(m: Machine<Id, L>, ch: seq<Id>, d: Id, ifMore: L, ifDone: L)
    requires Good(m, ch) && AsGiven(m) && d in m.coros && m.coros[d].status in {NotStarted, Stopped}
    ensures AsGiven(EnterCallee(m, d, ifMore, ifDone))
  {
    StackFacts(m, ch);
    hide Good, StackOf;
    var r := EnterCallee(m, d, ifMore, ifDone);
    forall c | c in r.coros && c != r.root ensures Fits(StackOf(r.log, c), r.coros[c]) {
      assert c in m.coros && Fits(StackOf(m.log, c), m.coros[c]);
    }
  }

  lemma LeaveKeepsStacks<Id, L>(m: Machine<Id, L>, ch: seq<Id>, e: Event<Id>, stop: Status, k: Kont<Id, L>)
    requires Good(m, ch) && AsGiven(m) && !e.Managed? && m.current != m.root && StepYield(Note(m, e), stop, k).Ok?
    ensures AsGiven(StepYield(Note(m, e), stop, k).m)
  {
    StackFacts(m, ch);
    hide Good, StackOf, Fits;
    var r := StepYield(Note(m, e), stop, k).m;
    forall c | c in r.coros && c != r.root ensures Fits(StackOf(r.log, c), r.coros[c]) {
      assert c in m.coros && Fits(StackOf(m.log, c), m.coros[c]);
      SameStack(m, e, c, m.coros[c], r.coros[c]);
    }
  }

  /** The stack of the target of a call, and that the others are left alone. */
  lemma ManageStacks<Id, L>(m: Machine<Id, L>, d: Id, act: Act, next: L)
    requires StepManage(m, d, act, next).Ok?
    ensures var r := StepManage(m, d, act, next).m;
      && r.root == m.root && r.log == m.log + [Managed(m.current, d, act)]
      && (forall c | c in r.coros && c != d :: c in m.coros && r.coros[c] == m.coros[c])
      && (act.DoDelete? ==> d !in r.coros)
      && (d in r.coros ==>
            match act
            case DoSetStack(memory) => r.coros[d].stackPointer == Some(Frame(Borrowed(memory), EntryPoint))
            case DoCreateStack => r.coros[d].stackPointer.Some? && r.coros[d].stackPointer.value.block.Malloced?
            case _ => r.coros[d].stackPointer == None)
  {
  }

  lemma ManageKeepsStacks<Id, L>(m: Machine<Id, L>, d: Id, act: Act, next: L)
    requires AsGiven(m) && StepManage(m, d, act, next).Ok?
    ensures AsGiven(StepManage(m, d, act, next).m)
  {
    hide StackOf, StepManage;
    ManageStacks(m, d, act, next);
    var r := StepManage(m, d, act, next).m;
    var e := Managed(m.current, d, act);
    forall c | c in r.coros && c != r.root ensures Fits(StackOf(r.log, c), r.coros[c]) {
      StackSnoc(m.log, e, c);
      if c != d {
        assert Fits(StackOf(m.log, c), m.coros[c]);
      }
    }
  }

  lemma NoteKeepsStacks<Id, L>(m: Machine<Id, L>, e: Event<Id>, l: L)
    requires AsGiven(m) && !e.Managed?
    ensures AsGiven(At(Note(m, e), l)) && AsGiven(At(m, l))
  {
    hide StackOf, Fits;
    forall c | c in m.coros && c != m.root ensures Fits(StackOf(m.log + [e], c), m.coros[c]) {
      SameStack(m, e, c, m.coros[c], m.coros[c]);
    }
  }

  lemma StepKeepsStacks<Id, L>(w: World<Id, L>, m: Machine<Id, L>, ch: seq<Id>)
    requires Good(m, ch) && AsGiven(m) && Step(w, m).Ok?
    ensures AsGiven(Step(w, m).m)
  {
    assert m.current == m.root ==> m.coros[m.current].caller == None;
    hide Good, AsGiven, StepManage;
    match m.live.k {
      case EntryPoint => NoteKeepsStacks(m, Yielded(m.current), w.entry(m.current));
      case InCont(d, ifMore, ifDone) =>
        var more := m.coros[d].status != Terminated;
        NoteKeepsStacks(m, Returned(m.current, d, more), if more then ifMore else ifDone);
      case Body(l) =>
        match w.code(l) {
          case Emit(v, next) => NoteKeepsStacks(m, Emitted(m.current, v), next);
          case Yield(next) => LeaveKeepsStacks(m, ch, Yielded(m.current), Stopped, Body(next));
          case Return => LeaveKeepsStacks(m, ch, Finished(m.current), Terminated, AfterTerminate);
          case Cont(d, ifMore, ifDone) => EnterKeepsStacks(m, ch, d, ifMore, ifDone);
          case Manage(d, act, next) => ManageKeepsStacks(m, d, act, next);
        }
    }
  }

  lemma {:induction false} EveryRunAsGiven<Id, L>(w: World<Id, L>, m: Machine<Id, L>, ch: seq<Id>, n: nat)
    requires Good(m, ch) && AsGiven(m) && Run(w, m, n).Ok?
    ensures AsGiven(Run(w, m, n).m)
    decreases n
  {
    hide Good, AsGiven, Step, ChainAfter;
    if n == 0 {
    } else {
      StepKeepsStacks(w, m, ch);
      StepKeeps(w, m, ch);
      EveryRunAsGiven(w, Step(w, m).m, ChainAfter(w, m, ch), n - 1);
    }
  }

  /**
    Over every run of a thread: a coroutine that was lent memory has its
    frames there, saved or live; one that was not has a malloc'd stack or
    none yet; the root stays on the thread's.
    */
  lemma StacksAsGiven<Id, L>(w: World<Id, L>, root: Id, n: nat, c: Id)
    requires Run(w, Boot(w, root), n).Ok? && c in Run(w, Boot(w, root), n).m.coros
    ensures var m := Run(w, Boot(w, root), n).m;
      var frame := if c == m.current then Some(m.live) else m.coros[c].stackPointer;
      if c == root then frame.Some? && frame.value.block == ThreadStack
      else match StackOf(m.log, c)
        case Lent(memory) => frame.Some? && frame.value.block == Borrowed(memory)
        case Own => frame.Some? ==> frame.value.block.Malloced?
  {
    var boot := Boot(w, root);
    BootIsGood(w, root);
    assert AsGiven(boot);
    EveryRunAsGiven(w, boot, [root], n);
    EveryRunKeeps(w, boot, [root], n);
    RootStays(w, boot, n);
    var m := Run(w, boot, n).m;
    var ch := ChainAfterRun(w, boot, [root], n);
    StackFacts(m, ch);
    RootFrame(m, ch);
    hide Run, Good, StackOf;
    assert c != root ==> Fits(StackOf(m.log, c), m.coros[c]);
  }

  lemma RootFrame<Id, L>(m: Machine<Id, L>, ch: seq<Id>)
    requires Good(m, ch)
    ensures m.current == m.root ==> m.live.block == ThreadStack
    ensures m.current != m.root ==>
              m.coros[m.root].stackPointer.Some? && m.coros[m.root].stackPointer.value.block == ThreadStack
  {
    RootEndsChain(m, ch);
    if |ch| >= 2 {
      var i := |ch| - 2;
      assert WaitsFor(m.coros[ch[i + 1]], ch[i]);
    }
  }

  lemma {:induction false} RootStays<Id, L>(w: World<Id, L>, m: Machine<Id, L>, n: nat)
    requires Run(w, m, n).Ok?
    ensures Run(w, m, n).m.root == m.root
    decreases n
  {
    if n == 0 {
    } else {
      RootStep(w, m);
      hide Step;
      RootStays(w, Step(w, m).m, n - 1);
    }
  }

  lemma RootStep<Id, L>(w: World<Id, L>, m: Machine<Id, L>)
    requires Step(w, m).Ok?
    ensures Step(w, m).m.root == m.root
  {
  }

  /** A coroutine continued right after setStack() starts at its entry point, on that memory. */
  lemma StartsOnLentMemory<Id, L>(m: Machine<Id, L>, c: Id, memory: nat, ifMore: L, ifDone: L)
    requires c in m.coros && m.current in m.coros
    ensures EnterCallee(SetStack(m, c, memory), c, ifMore, ifDone).live == Frame(Borrowed(memory), EntryPoint)
  {
  }
}
