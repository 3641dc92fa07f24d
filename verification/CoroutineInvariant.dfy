/**
  What every reachable state of the coroutine machine satisfies: the caller
  links form one chain of exactly the Running coroutines, the saved stack
  pointers hold the continuations their status promises, and every malloc'd
  stack has one owner and is freed at most once.
  */
module CoroutineInvariants {
  import opened Basics
  import opened Coroutines

  /** `ch` is the chain of caller links from the current coroutine to the root. */
  ghost predicate Linked<Id, L>(m: Machine<Id, L>, ch: seq<Id>) {
    && |ch| > 0 && ch[0] == m.current && ch[|ch| - 1] == m.root
    && (forall i | 0 <= i < |ch| :: ch[i] in m.coros)
    && (forall i, j | 0 <= i < j < |ch| :: ch[i] != ch[j])
    && (forall i | 0 <= i < |ch| - 1 :: m.coros[ch[i]].caller == Some(ch[i + 1]))
    && m.coros[m.root].caller == None
    && (forall c | c in ch :: m.coros[c].status == Running)
    && (forall c | c in m.coros && c !in ch :: m.coros[c].status != Running && m.coros[c].caller == None)
  }

  predicate SavedByStatus<Id, L>(c: Coro<Id, L>) {
    match c.status
    case NotStarted => c.stackPointer.Some? ==> c.stackPointer.value.k.EntryPoint?
    case Running => true
    case Stopped => c.stackPointer.Some? && c.stackPointer.value.k.Body?
    case Terminated => c.stackPointer.Some? && c.stackPointer.value.k.AfterTerminate?
  }

  predicate WaitsFor<Id(==), L>(c: Coro<Id, L>, callee: Id) {
    c.stackPointer.Some? && c.stackPointer.value.k.InCont? && c.stackPointer.value.k.callee == callee
  }

  ghost predicate LiveOk<Id, L>(m: Machine<Id, L>) {
    && !m.live.k.AfterTerminate?
    && (m.live.k.InCont? ==>
          m.live.k.callee in m.coros && m.coros[m.live.k.callee].status in {Stopped, Terminated})
  }

  ghost predicate Saved<Id, L>(m: Machine<Id, L>, ch: seq<Id>)
    requires Linked(m, ch)
  {
    && (forall i | 0 <= i < |ch| - 1 :: WaitsFor(m.coros[ch[i + 1]], ch[i]))
    && (forall c | c in m.coros :: SavedByStatus(m.coros[c]))
    && LiveOk(m)
  }

  predicate OwnStack<Id, L>(c: Coro<Id, L>) {
    match c.stackData
    case Some(a) => c.stackPointer.Some? && c.stackPointer.value.block == Malloced(a)
    case None => c.stackPointer.Some? ==> !c.stackPointer.value.block.Malloced?
  }

  ghost predicate OwnStacks<Id, L>(m: Machine<Id, L>) {
    forall c | c in m.coros :: OwnStack(m.coros[c])
  }

  /** Every allocated stack has exactly one owner, and no stack is leaked. */
  ghost predicate Owned<Id, L>(m: Machine<Id, L>) {
    && (forall c | c in m.coros && m.coros[c].stackData.Some? :: m.coros[c].stackData.value in m.heap)
    && (forall c, d | c in m.coros && d in m.coros && c != d && m.coros[c].stackData.Some? ::
          m.coros[c].stackData != m.coros[d].stackData)
    && (forall a | a in m.heap :: HasOwner(m, a))
  }

  ghost predicate HasOwner<Id, L>(m: Machine<Id, L>, a: nat) {
    exists c :: c in m.coros && m.coros[c].stackData == Some(a)
  }

  /** Every address malloc gave out is either live or was freed exactly once. */
  ghost predicate Allocations<Id, L>(m: Machine<Id, L>) {
    && (forall a: nat :: a in m.heap || a in m.freed <==> a < m.brk)
    && (forall a | a in m.freed :: a !in m.heap)
    && (forall i, j | 0 <= i < j < |m.freed| :: m.freed[i] != m.freed[j])
  }

  /** The running coroutine executes on its own stack, the root on the thread's. */
  ghost predicate OnOwnStack<Id, L>(m: Machine<Id, L>) {
    && m.root in m.coros && m.current in m.coros
    && m.coros[m.root].stackData == None
    && (m.coros[m.root].stackPointer.Some? ==> m.coros[m.root].stackPointer.value.block == ThreadStack)
    && (if m.current == m.root then m.live.block == ThreadStack
        else m.coros[m.current].stackPointer.Some? &&
             m.live.block == m.coros[m.current].stackPointer.value.block)
  }

  ghost predicate MemoryOk<Id, L>(m: Machine<Id, L>) {
    OwnStacks(m) && Owned(m) && Allocations(m) && OnOwnStack(m)
  }

  ghost predicate Good<Id, L>(m: Machine<Id, L>, ch: seq<Id>) {
    Linked(m, ch) && Saved(m, ch) && MemoryOk(m)
  }

  // ---------------------------------------------------------------------
  // Frames
  // ---------------------------------------------------------------------

  /** A change that leaves the Running coroutines alone keeps the chain. */
  lemma ChainFrame<Id, L>(m: Machine<Id, L>, r: Machine<Id, L>, ch: seq<Id>)
    requires Linked(m, ch) && Saved(m, ch)
    requires r.current == m.current && r.root == m.root && LiveOk(r)
    requires forall c | c in ch :: c in r.coros && r.coros[c] == m.coros[c]
    requires forall c | c in r.coros && c !in ch ::
               r.coros[c].status != Running && r.coros[c].caller == None && SavedByStatus(r.coros[c])
    ensures Linked(r, ch) && Saved(r, ch)
  {
  }

  lemma OwnedFrame<Id, L>(m: Machine<Id, L>, r: Machine<Id, L>)
    requires Owned(m) && r.heap == m.heap
    requires forall c | c in m.coros && m.coros[c].stackData.Some? ::
               c in r.coros && r.coros[c].stackData == m.coros[c].stackData
    requires forall c | c in r.coros && r.coros[c].stackData.Some? ::
               c in m.coros && r.coros[c].stackData == m.coros[c].stackData
    ensures Owned(r)
  {
    forall a | a in r.heap ensures HasOwner(r, a) {
      assert HasOwner(m, a);
      var c :| c in m.coros && m.coros[c].stackData == Some(a);
      assert r.coros[c].stackData == Some(a);
    }
  }

  lemma SameOwners<Id, L>(m: Machine<Id, L>, r: Machine<Id, L>)
    requires Owned(m) && Allocations(m) && r.heap == m.heap && r.freed == m.freed && r.brk == m.brk
    requires forall c | c in m.coros && m.coros[c].stackData.Some? ::
               c in r.coros && r.coros[c].stackData == m.coros[c].stackData
    requires forall c | c in r.coros && r.coros[c].stackData.Some? ::
               c in m.coros && r.coros[c].stackData == m.coros[c].stackData
    ensures Owned(r) && Allocations(r)
  {
    OwnedFrame(m, r);
  }

  lemma FreeKeeps<Id, L>(m: Machine<Id, L>, c: Id)
    requires c in m.coros && Owned(m) && Allocations(m)
    ensures Owned(FreeStack(m, c)) && Allocations(FreeStack(m, c))
    ensures FreeStack(m, c).coros[c].stackData == None
    ensures FreeStack(m, c).coros.Keys == m.coros.Keys
  {
    var r := FreeStack(m, c);
    assert Owned(r) by {
      hide Allocations;
      forall a | a in r.heap ensures HasOwner(r, a) {
        assert HasOwner(m, a);
        var d :| d in m.coros && m.coros[d].stackData == Some(a);
        assert r.coros[d].stackData == Some(a);
      }
    }
    assert Allocations(r) by {
      assert forall a :: a in r.freed <==> a in m.freed || Some(a) == m.coros[c].stackData;
    }
  }

  // ---------------------------------------------------------------------
  // Each operation keeps the invariant
  // ---------------------------------------------------------------------

  lemma NotRunning<Id, L>(m: Machine<Id, L>, ch: seq<Id>, c: Id)
    requires Good(m, ch) && (c in m.coros ==> m.coros[c].status != Running)
    ensures c !in ch && c != m.current && c != m.root
    ensures c in m.coros ==> m.coros[c].caller == None && SavedByStatus(m.coros[c])
    ensures m.current in m.coros && Owned(m) && Allocations(m) && LiveOk(m)
  {
    hide Owned, Allocations;
  }

  /** Only c differs, and c is not Running before or after. */
  ghost predicate OnlyDiffersAt<Id, L>(m: Machine<Id, L>, r: Machine<Id, L>, c: Id) {
    && r.current == m.current && r.root == m.root && r.live == m.live
    && (forall d | d in r.coros && d != c :: d in m.coros)
    && (forall d | d in m.coros && d != c :: d in r.coros && r.coros[d] == m.coros[d])
    && (c in r.coros ==>
          && r.coros[c].status != Running && r.coros[c].caller == None
          && SavedByStatus(r.coros[c]) && OwnStack(r.coros[c]))
  }

  lemma ReplaceKeeps<Id, L>(m: Machine<Id, L>, r: Machine<Id, L>, ch: seq<Id>, c: Id)
    requires Good(m, ch) && c !in ch && OnlyDiffersAt(m, r, c) && LiveOk(r)
    requires Owned(r) && Allocations(r)
    ensures Good(r, ch)
  {
    hide Owned, Allocations;
    assert m.current == ch[0] && m.root == ch[|ch| - 1];
    assert Linked(r, ch) && Saved(r, ch) by { ChainFrame(m, r, ch); }
    hide Linked, Saved;
  }

  lemma CreateStackKeeps<Id, L>(m: Machine<Id, L>, ch: seq<Id>, c: Id)
    requires Good(m, ch) && c in m.coros && m.coros[c].status == NotStarted
    ensures Good(CreateStack(m, c), ch)
  {
    hide Good, Owned, Allocations, OwnStacks, OnOwnStack;
    NotRunning(m, ch, c);
    FreeKeeps(m, c);
    var r := CreateStack(m, c);
    NewOwner(FreeStack(m, c), r, c, r.coros[c]);
    ReplaceKeeps(m, r, ch, c);
  }

  /** Handing a new allocation to a coroutine that owns none. */
  lemma NewOwner<Id, L>(f: Machine<Id, L>, r: Machine<Id, L>, c: Id, owner: Coro<Id, L>)
    requires Owned(f) && Allocations(f) && c in f.coros && f.coros[c].stackData == None
    requires r.heap == f.heap + {f.brk} && r.brk == f.brk + 1 && r.freed == f.freed
    requires r.coros == f.coros[c := owner] && owner.stackData == Some(f.brk)
    ensures Owned(r) && Allocations(r)
  {
    forall a | a in r.heap ensures HasOwner(r, a) {
      if a == f.brk {
        assert r.coros[c].stackData == Some(a);
      } else {
        assert HasOwner(f, a);
        var d :| d in f.coros && f.coros[d].stackData == Some(a);
        assert r.coros[d].stackData == Some(a);
      }
    }
  }

  lemma SetStackKeeps<Id, L>(m: Machine<Id, L>, ch: seq<Id>, c: Id, memory: nat)
    requires Good(m, ch) && c in m.coros && m.coros[c].status == NotStarted
    ensures Good(SetStack(m, c, memory), ch)
  {
    hide Good, Owned, Allocations, OwnStacks, OnOwnStack;
    NotRunning(m, ch, c);
    FreeKeeps(m, c);
    var r := SetStack(m, c, memory);
    SameOwners(FreeStack(m, c), r);
    ReplaceKeeps(m, r, ch, c);
  }

  lemma RestartKeeps<Id, L>(m: Machine<Id, L>, ch: seq<Id>, c: Id)
    requires Good(m, ch) && c in m.coros && m.coros[c].status != Running && m.live.k.Body?
    ensures Good(Restart(m, c), ch)
  {
    hide Good, Owned, Allocations, OwnStacks, OnOwnStack;
    NotRunning(m, ch, c);
    FreeKeeps(m, c);
    var r := Restart(m, c);
    SameOwners(FreeStack(m, c), r);
    ReplaceKeeps(m, r, ch, c);
  }

  /** What restart() and construction leave, even of a Running coroutine: nothing, and a freed stack. */
  lemma RestartForgets<Id, L>(m: Machine<Id, L>, c: Id)
    requires c in m.coros
    ensures var r := Restart(m, c);
      && r.coros.Keys == m.coros.Keys && (forall d | d in m.coros && d != c :: r.coros[d] == m.coros[d])
      && r.coros[c].stackData == None && r.coros[c].stackPointer == None
      && r.coros[c].caller == None && r.coros[c].status == NotStarted
      && (m.coros[c].stackData.Some? ==> r.freed == m.freed + [m.coros[c].stackData.value])
      && (m.coros[c].stackData.None? ==> r.freed == m.freed)
    ensures Construct(m, c).coros[c] == Restart(m, c).coros[c]
  {
  }

  /** restart() keeps the invariant exactly when it is not called on a Running coroutine. */
  lemma RestartKeepsIff<Id(!new), L>(m: Machine<Id, L>, ch: seq<Id>, c: Id)
    requires Good(m, ch) && c in m.coros && m.live.k.Body?
    ensures m.coros[c].status != Running <==> exists after: seq<Id> :: Good(Restart(m, c), after)
  {
    var r := Restart(m, c);
    if m.coros[c].status != Running {
      RestartKeeps(m, ch, c);
    } else {
      forall after: seq<Id> | Linked(r, after) ensures false {
        var i :| 0 <= i < |ch| && ch[i] == c;
        CutChain(m, ch, i, r, after, 0);
      }
    }
  }

  /** Once ch[i] is no longer Running, no chain leads from the current coroutine to the root. */
  lemma CutChain<Id, L>(m: Machine<Id, L>, ch: seq<Id>, i: nat, r: Machine<Id, L>, after: seq<Id>, j: nat)
    requires Linked(m, ch) && i < |ch| && Linked(r, after)
    requires r.current == m.current && r.root == m.root
    requires ch[i] in r.coros && r.coros[ch[i]].status != Running
    requires forall k | 0 <= k < i :: ch[k] in r.coros && r.coros[ch[k]].caller == m.coros[ch[k]].caller
    requires j <= i && j < |after| && after[j] == ch[j]
    ensures false
    decreases i - j
  {
    if j < i {
      assert r.coros[ch[j]].caller == Some(ch[j + 1]);
      assert j + 1 < |after| && r.coros[after[j]].caller == Some(after[j + 1]);
      CutChain(m, ch, i, r, after, j + 1);
    }
  }

  lemma DeleteKeeps<Id, L>(m: Machine<Id, L>, ch: seq<Id>, c: Id)
    requires Good(m, ch) && c in m.coros && m.coros[c].status != Running && m.live.k.Body?
    ensures Good(Delete(m, c), ch)
  {
    hide Good, Owned, Allocations, OwnStacks, OnOwnStack;
    NotRunning(m, ch, c);
    FreeKeeps(m, c);
    var r := Delete(m, c);
    SameOwners(FreeStack(m, c), r);
    ReplaceKeeps(m, r, ch, c);
  }

  lemma ConstructKeeps<Id, L>(m: Machine<Id, L>, ch: seq<Id>, c: Id)
    requires Good(m, ch) && c !in m.coros
    ensures Good(Construct(m, c), ch)
  {
    hide Good, Owned, Allocations;
    NotRunning(m, ch, c);
    var r := Construct(m, c);
    SameOwners(m, r);
    ReplaceKeeps(m, r, ch, c);
  }

  lemma EnterKeeps<Id, L>(m: Machine<Id, L>, ch: seq<Id>, c: Id, ifMore: L, ifDone: L)
    requires Good(m, ch) && c in m.coros && m.coros[c].status in {NotStarted, Stopped}
    ensures EnterCallee(m, c, ifMore, ifDone) == EnterCallee(PrepareStack(m, c), c, ifMore, ifDone)
    ensures Good(EnterCallee(m, c, ifMore, ifDone), [c] + ch)
  {
    if m.coros[c].stackPointer.None? {
      CreateStackKeeps(m, ch, c);
    }
    EnterPreparedKeeps(PrepareStack(m, c), ch, c, ifMore, ifDone);
  }

  lemma EnterPreparedKeeps<Id, L>(m: Machine<Id, L>, ch: seq<Id>, c: Id, ifMore: L, ifDone: L)
    requires Good(m, ch) && c in m.coros && m.coros[c].status in {NotStarted, Stopped}
    requires m.coros[c].stackPointer.Some?
    ensures Good(EnterCallee(m, c, ifMore, ifDone), [c] + ch)
  {
    hide Linked, Saved, MemoryOk, OwnStack;
    NotRunning(m, ch, c);
    var r := EnterCallee(m, c, ifMore, ifDone);
    EnterMemory(m, c, ifMore, ifDone);
    EnterShape(m, ch, c, r, [c] + ch);
  }

  lemma EnterMemory<Id, L>(m: Machine<Id, L>, c: Id, ifMore: L, ifDone: L)
    requires MemoryOk(m) && c in m.coros && c != m.current && c != m.root && m.coros[c].stackPointer.Some?
    ensures MemoryOk(EnterCallee(m, c, ifMore, ifDone))
  {
    hide Owned, Allocations;
    SameOwners(m, EnterCallee(m, c, ifMore, ifDone));
  }

  lemma EnterShape<Id, L>(m: Machine<Id, L>, ch: seq<Id>, c: Id, r: Machine<Id, L>, up: seq<Id>)
    requires Linked(m, ch) && Saved(m, ch) && c in m.coros && c !in ch && up == [c] + ch
    requires r.coros.Keys == m.coros.Keys && r.root == m.root && r.current == c && LiveOk(r)
    requires r.coros[c].caller == Some(m.current) && r.coros[c].status == Running
    requires WaitsFor(r.coros[m.current], c)
    requires r.coros[m.current] == m.coros[m.current].(stackPointer := r.coros[m.current].stackPointer)
    requires forall d | d in m.coros && d != c && d != m.current :: r.coros[d] == m.coros[d]
    ensures Linked(r, up) && Saved(r, up)
  {
    assert forall d :: d in up <==> d == c || d in ch;
    forall i | 0 <= i < |up| - 1
      ensures r.coros[up[i]].caller == Some(up[i + 1]) && WaitsFor(r.coros[up[i + 1]], up[i])
    {
      if i > 0 {
        var h := i - 1;
        assert m.coros[ch[h]].caller == Some(ch[h + 1]) && WaitsFor(m.coros[ch[h + 1]], ch[h]);
      }
    }
  }

  lemma LeaveKeeps<Id, L>(m: Machine<Id, L>, ch: seq<Id>, stop: Status, k: Kont<Id, L>)
    requires Good(m, ch) && |ch| >= 2
    requires (stop == Stopped && k.Body?) || (stop == Terminated && k.AfterTerminate?)
    ensures m.coros[m.current].caller == Some(ch[1]) && WaitsFor(m.coros[ch[1]], m.current)
    ensures Good(LeaveToCaller(m, stop, k), ch[1..])
  {
    TopFacts(m, ch);
    hide Linked, Saved, MemoryOk, OwnStack;
    LeaveMemory(m, ch[1], stop, k);
    LeaveShape(m, ch, LeaveToCaller(m, stop, k), ch[1..]);
  }

  lemma TopFacts<Id, L>(m: Machine<Id, L>, ch: seq<Id>)
    requires Linked(m, ch) && Saved(m, ch) && |ch| >= 2
    ensures ch[0] == m.current != m.root && m.current in m.coros && ch[1] in m.coros && ch[1] != m.current
    ensures m.coros[m.current].caller == Some(ch[1]) && WaitsFor(m.coros[ch[1]], m.current)
  {
    assert m.coros[ch[0]].caller == Some(ch[0 + 1]);
    assert WaitsFor(m.coros[ch[0 + 1]], ch[0]);
  }

  lemma LeaveMemory<Id, L>(m: Machine<Id, L>, d: Id, stop: Status, k: Kont<Id, L>)
    requires MemoryOk(m) && m.current != m.root && d != m.current && d in m.coros
    requires m.coros[m.current].caller == Some(d) && m.coros[d].stackPointer.Some?
    ensures MemoryOk(LeaveToCaller(m, stop, k))
  {
    hide Owned, Allocations;
    SameOwners(m, LeaveToCaller(m, stop, k));
  }

  lemma LeaveShape<Id, L>(m: Machine<Id, L>, ch: seq<Id>, r: Machine<Id, L>, down: seq<Id>)
    requires Linked(m, ch) && Saved(m, ch) && |ch| >= 2 && down == ch[1..]
    requires r.coros.Keys == m.coros.Keys && r.root == m.root && r.current == ch[1] && LiveOk(r)
    requires r.coros[ch[0]].status != Running && r.coros[ch[0]].caller == None && SavedByStatus(r.coros[ch[0]])
    requires forall d | d in m.coros && d != ch[0] :: r.coros[d] == m.coros[d]
    ensures Linked(r, down) && Saved(r, down)
  {
    assert forall i | 0 <= i < |down| :: down[i] == ch[i + 1];
    assert forall d :: d in ch <==> d == ch[0] || d in down;
    forall i | 0 <= i < |down| - 1
      ensures r.coros[down[i]].caller == Some(down[i + 1]) && WaitsFor(r.coros[down[i + 1]], down[i])
    {
      var h := i + 1;
      assert m.coros[ch[h]].caller == Some(ch[h + 1]) && WaitsFor(m.coros[ch[h + 1]], ch[h]);
    }
  }

  // ---------------------------------------------------------------------
  // Every step, every run
  // ---------------------------------------------------------------------

  lemma AtKeeps<Id, L>(m: Machine<Id, L>, ch: seq<Id>, log: seq<Event<Id>>, l: L)
    requires Good(m, ch)
    ensures Good(At(m.(log := log), l), ch)
  {
    var r := At(m.(log := log), l);
    ChainFrame(m, r, ch);
    OwnedFrame(m, r);
  }

  lemma NoteKeeps<Id, L>(m: Machine<Id, L>, ch: seq<Id>, e: Event<Id>)
    requires Good(m, ch)
    ensures Good(Note(m, e), ch)
  {
    var r := Note(m, e);
    ChainFrame(m, r, ch);
    OwnedFrame(m, r);
  }

  /** The chain after one step: only Cont pushes and only Yield and Return pop. */
  ghost function ChainAfter<Id, L>(w: World<Id, L>, m: Machine<Id, L>, ch: seq<Id>): seq<Id> {
    if !m.live.k.Body? || |ch| == 0 then ch
    else match w.code(m.live.k.l)
      case Cont(d, _, _) => [d] + ch
      case Yield(_) => ch[1..]
      case Return => ch[1..]
      case _ => ch
  }

  lemma RootEndsChain<Id, L>(m: Machine<Id, L>, ch: seq<Id>)
    requires Linked(m, ch)
    ensures |ch| > 0 && (m.current == m.root <==> |ch| == 1)
    ensures |ch| == 1 ==> m.current in m.coros && m.coros[m.current].caller == None
    ensures |ch| >= 2 ==> m.coros[m.current].caller == Some(ch[1])
  {
    if |ch| >= 2 {
      assert m.coros[ch[0]].caller == Some(ch[0 + 1]);
    }
  }

  lemma YieldKeeps<Id, L>(m: Machine<Id, L>, ch: seq<Id>, e: Event<Id>, stop: Status, k: Kont<Id, L>)
    requires Good(m, ch) && StepYield(Note(m, e), stop, k).Ok?
    requires (stop == Stopped && k.Body?) || (stop == Terminated && k.AfterTerminate?)
    ensures Good(StepYield(Note(m, e), stop, k).m, ch[1..])
  {
    RootEndsChain(m, ch);
    hide Linked, Saved, MemoryOk;
    NoteKeeps(m, ch, e);
    LeaveKeeps(Note(m, e), ch, stop, k);
  }

  lemma ContKeeps<Id, L>(m: Machine<Id, L>, ch: seq<Id>, d: Id, ifMore: L, ifDone: L)
    requires Good(m, ch) && StepCont(m, d, ifMore, ifDone).Ok?
    ensures Good(StepCont(m, d, ifMore, ifDone).m, [d] + ch)
  {
    hide Good, EnterCallee;
    EnterKeeps(m, ch, d, ifMore, ifDone);
  }

  lemma StepKeeps<Id, L>(w: World<Id, L>, m: Machine<Id, L>, ch: seq<Id>)
    requires Good(m, ch) && Step(w, m).Ok?
    ensures Good(Step(w, m).m, ChainAfter(w, m, ch))
  {
    assert |ch| > 0 by { RootEndsChain(m, ch); }
    hide Good, StepYield, StepCont, StepManage;
    match m.live.k {
      case EntryPoint => AtKeeps(m, ch, m.log, w.entry(m.current));
      case InCont(d, ifMore, ifDone) =>
        var more := m.coros[d].status != Terminated;
        AtKeeps(m, ch, m.log + [Returned(m.current, d, more)], if more then ifMore else ifDone);
      case Body(l) =>
        match w.code(l) {
          case Emit(v, next) => AtKeeps(m, ch, m.log + [Emitted(m.current, v)], next);
          case Yield(next) =>
            YieldKeeps(m, ch, Yielded(m.current), Stopped, Body(next));
          case Return =>
            YieldKeeps(m, ch, Finished(m.current), Terminated, AfterTerminate);
          case Cont(d, ifMore, ifDone) => ContKeeps(m, ch, d, ifMore, ifDone);
          case Manage(d, act, next) => ManageKeeps(m, ch, d, act, next);
        }
    }
  }

  lemma ManageKeeps<Id, L>(m: Machine<Id, L>, ch: seq<Id>, d: Id, act: Act, next: L)
    requires Good(m, ch) && m.live.k.Body? && StepManage(m, d, act, next).Ok?
    ensures Good(StepManage(m, d, act, next).m, ch)
  {
    hide Linked, Saved, MemoryOk;
    var r := if act.DoConstruct? then Construct(m, d) else Apply(m, d, act);
    match act {
      case DoConstruct => ConstructKeeps(m, ch, d);
      case DoCreateStack => CreateStackKeeps(m, ch, d);
      case DoSetStack(memory) => SetStackKeeps(m, ch, d, memory);
      case DoRestart => RestartKeeps(m, ch, d);
      case DoDelete => DeleteKeeps(m, ch, d);
    }
    AtKeeps(r, ch, r.log + [Managed(r.current, d, act)], next);
  }

  /**
    Which assertions can fail: the ones about the caller's choice of callee
    or moment, never the ones about the library's own links and pointers.
    */
  lemma FaultsAreTheCallers<Id, L>(w: World<Id, L>, m: Machine<Id, L>, ch: seq<Id>)
    requires Good(m, ch)
    ensures Step(w, m) != Broken(ContHasCaller)
    ensures Step(w, m) != Broken(NotRunningAtYield)
    ensures Step(w, m) != Broken(NullStackPointer)
    ensures Step(w, m) != Broken(PastTheEnd)
    ensures Step(w, m) == Broken(YieldWithoutCaller)
            <==> m.live.k.Body? && w.code(m.live.k.l).Yield? && m.current == m.root
    ensures Step(w, m) == Broken(ContBadStatus)
            <==> m.live.k.Body? && w.code(m.live.k.l).Cont? &&
                 var d := w.code(m.live.k.l).callee;
                 d in m.coros && (d in ch || m.coros[d].status == Terminated)
    ensures Step(w, m) == Broken(NoSuchCoroutine)
            ==> m.live.k.Body? && match w.code(m.live.k.l) {
                case Cont(d, _, _) => d !in m.coros
                case Manage(d, _, _) => d !in m.coros
                case _ => false }
  {
    hide EnterCallee, LeaveToCaller, Apply, Construct, MemoryOk;
    RootEndsChain(m, ch);
    if |ch| >= 2 {
      TopFacts(m, ch);
    }
  }

  /** The chain after n steps. */
  ghost function ChainAfterRun<Id, L>(w: World<Id, L>, m: Machine<Id, L>, ch: seq<Id>, n: nat): seq<Id>
    decreases n
  {
    if n == 0 || !Step(w, m).Ok? then ch
    else ChainAfterRun(w, Step(w, m).m, ChainAfter(w, m, ch), n - 1)
  }

  lemma {:induction false} EveryRunKeeps<Id, L>(w: World<Id, L>, m: Machine<Id, L>, ch: seq<Id>, n: nat)
    requires Good(m, ch) && Run(w, m, n).Ok?
    ensures Good(Run(w, m, n).m, ChainAfterRun(w, m, ch, n))
    decreases n
  {
    hide Step, ChainAfter, Linked, Saved, MemoryOk;
    if n == 0 {
    } else {
      StepKeeps(w, m, ch);
      EveryRunKeeps(w, Step(w, m).m, ChainAfter(w, m, ch), n - 1);
    }
  }

  lemma BootIsGood<Id, L>(w: World<Id, L>, root: Id)
    ensures Good(Boot(w, root), [root])
  {
    assert Linked(Boot(w, root), [root]);
  }

  /** There is only one chain of caller links. */
  lemma {:induction false} ChainIsUnique<Id, L>(m: Machine<Id, L>, a: seq<Id>, b: seq<Id>)
    requires Linked(m, a) && Linked(m, b)
    ensures a == b
  {
    var i := 0;
    while i + 1 < |a| && i + 1 < |b|
      invariant i < |a| && i < |b| && forall j | 0 <= j <= i :: a[j] == b[j]
    {
      assert Some(a[i + 1]) == m.coros[a[i]].caller == Some(b[i + 1]);
      i := i + 1;
    }
  }

  /**
    Stack memory over every run of a thread: no stack is freed twice, two
    coroutines never share a malloc'd stack, none is leaked, and nothing that
    a Running coroutine stands on has been freed.
    */
  lemma StackMemorySafety<Id, L>(w: World<Id, L>, root: Id, n: nat)
    requires Run(w, Boot(w, root), n).Ok?
    ensures var m := Run(w, Boot(w, root), n).m;
      && (forall i, j | 0 <= i < j < |m.freed| :: m.freed[i] != m.freed[j])
      && (forall c, d | c in m.coros && d in m.coros && c != d && m.coros[c].stackData.Some? ::
            m.coros[c].stackData != m.coros[d].stackData)
      && (forall a | a in m.heap :: HasOwner(m, a))
      && (forall c | c in m.coros && m.coros[c].stackPointer.Some? ::
            match m.coros[c].stackPointer.value.block
            case Malloced(a) => m.coros[c].stackData == Some(a) && a in m.heap && a !in m.freed
            case _ => m.coros[c].stackData == None)
      && (m.live.block.Malloced? ==> m.live.block.address in m.heap && m.live.block.address !in m.freed)
  {
    BootIsGood(w, root);
    EveryRunKeeps(w, Boot(w, root), [root], n);
  }
}
