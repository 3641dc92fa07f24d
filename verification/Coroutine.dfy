/**
  The per-thread coroutine machine of coroutine/src: every coroutine keeps a
  saved stack pointer and a link to its caller, one pointer per thread names
  the coroutine that is running, and control moves by swapping stack pointers.

  A coroutine body is an arbitrary deterministic program: `World.code` gives
  the next operation of a local state and the local states that follow it.
  The body may run for ever and may branch on what cont() returned.
  Identities (`Id`) are left open, so that the heap objects of the class
  `Coroutine` in module CoroutineRuntime can serve as identities.
  */
module Coroutines {
  import opened Basics

  datatype Status = NotStarted | Running | Stopped | Terminated

  /** The memory a stack lives in. */
  datatype Block = ThreadStack | Malloced(address: nat) | Borrowed(memory: nat)

  /** Where execution goes on once the stack pointer holding it is restored. */
  datatype Kont<Id, L> =
    | EntryPoint                                // a stack prepared by initializeStack
    | Body(l: L)                                // inside run()
    | InCont(callee: Id, ifMore: L, ifDone: L)  // inside cont(), just after its switchStack
    | AfterTerminate                            // inside entryPoint(), past yieldHelper(Terminated)

  datatype Frame<Id, L> = Frame(block: Block, k: Kont<Id, L>)

  datatype Coro<Id, L> = Coro(
    stackData: Option<nat>,
    stackPointer: Option<Frame<Id, L>>,
    caller: Option<Id>,
    status: Status)

  datatype Op<Id, L> =
    | Return
    | Emit(v: int, next: L)
    | Yield(next: L)
    | Cont(callee: Id, ifMore: L, ifDone: L)
    | Manage(target: Id, act: Act, next: L)

  /** Calls that administer a coroutine without passing control to it. */
  datatype Act = DoConstruct | DoCreateStack | DoSetStack(memory: nat) | DoRestart | DoDelete

  datatype World<!Id, !L> = World(code: L -> Op<Id, L>, entry: Id -> L)

  datatype Event<Id> =
    | Emitted(who: Id, v: int)
    | Yielded(who: Id)
    | Finished(who: Id)
    | Returned(who: Id, callee: Id, more: bool)
    | Managed(who: Id, target: Id, act: Act)

  datatype Machine<Id(==), L> = Machine(
    coros: map<Id, Coro<Id, L>>,
    root: Id,
    current: Id,
    live: Frame<Id, L>,
    heap: set<nat>,
    brk: nat,
    freed: seq<nat>,
    log: seq<Event<Id>>)

  datatype Fault =
    | NoSuchCoroutine      // a call on a deleted object
    | AlreadyConstructed
    | ContBadStatus        // first assertion of cont()
    | ContHasCaller        // second assertion of cont()
    | StackAfterStart      // assertion of createStack() and setStack()
    | NotRunningAtYield    // second assertion of yieldHelper()
    | YieldWithoutCaller   // third assertion of yieldHelper()
    | RestartWhileRunning
    | DeleteWhileRunning   // qFatal in the destructor
    | NullStackPointer
    | PastTheEnd           // Q_ASSERT(0) in entryPoint()

  datatype Outcome<Id(==), L> = Ok(m: Machine<Id, L>) | Broken(fault: Fault) | Halted

  // ---------------------------------------------------------------------
  // The operations of the class
  // ---------------------------------------------------------------------

  function Fresh<Id, L>(): Coro<Id, L> {
    Coro(None, None, None, NotStarted)
  }

  function Construct<Id(==), L>(m: Machine<Id, L>, c: Id): Machine<Id, L> {
    m.(coros := m.coros[c := Fresh()])
  }

  /** free(_stackData), if there is any. */
  function FreeStack<Id(==), L>(m: Machine<Id, L>, c: Id): Machine<Id, L>
    requires c in m.coros
  {
    match m.coros[c].stackData
    case None => m
    case Some(a) =>
      m.(heap := m.heap - {a}, freed := m.freed + [a],
         coros := m.coros[c := m.coros[c].(stackData := None)])
  }

  function CreateStack<Id(==), L>(m: Machine<Id, L>, c: Id): Machine<Id, L>
    requires c in m.coros
  {
    var f := FreeStack(m, c);
    var owned := f.coros[c].(stackData := Some(m.brk),
                             stackPointer := Some(Frame(Malloced(m.brk), EntryPoint)));
    f.(heap := f.heap + {m.brk}, brk := m.brk + 1, coros := f.coros[c := owned])
  }

  function SetStack<Id(==), L>(m: Machine<Id, L>, c: Id, memory: nat): Machine<Id, L>
    requires c in m.coros
  {
    var f := FreeStack(m, c);
    f.(coros := f.coros[c := f.coros[c].(stackPointer := Some(Frame(Borrowed(memory), EntryPoint)))])
  }

  function Restart<Id(==), L>(m: Machine<Id, L>, c: Id): Machine<Id, L>
    requires c in m.coros
  {
    var f := FreeStack(m, c);
    f.(coros := f.coros[c := Fresh()])
  }

  function Delete<Id(==), L>(m: Machine<Id, L>, c: Id): Machine<Id, L>
    requires c in m.coros
  {
    var f := FreeStack(m, c);
    f.(coros := f.coros - {c})
  }

  function PrepareStack<Id(==), L>(m: Machine<Id, L>, c: Id): Machine<Id, L>
    requires c in m.coros
  {
    if m.coros[c].stackPointer.None? then CreateStack(m, c) else m
  }

  /** cont() up to the moment the callee has control. */
  function EnterCallee<Id(==), L>(m: Machine<Id, L>, c: Id, ifMore: L, ifDone: L): Machine<Id, L>
    requires c in m.coros && m.current in m.coros
  {
    var p := PrepareStack(m, c);
    var target := p.coros[c].stackPointer.value;
    var entered := p.coros[c := p.coros[c].(status := Running, caller := Some(m.current))];
    var saved := Some(Frame(m.live.block, InCont(c, ifMore, ifDone)));
    p.(coros := entered[m.current := entered[m.current].(stackPointer := saved)],
       current := c, live := target)
  }

  /** yieldHelper(stop): back to the caller, with `k` left on the stopping stack. */
  function LeaveToCaller<Id(==), L>(m: Machine<Id, L>, stop: Status, k: Kont<Id, L>): Machine<Id, L>
    requires m.current in m.coros && m.coros[m.current].caller.Some?
    requires m.coros[m.current].caller.value in m.coros
    requires m.coros[m.coros[m.current].caller.value].stackPointer.Some?
  {
    var c := m.current;
    var d := m.coros[c].caller.value;
    var target := m.coros[d].stackPointer.value;
    var stopped := m.coros[c].(status := stop, caller := None, stackPointer := Some(Frame(m.live.block, k)));
    m.(coros := m.coros[c := stopped], current := d, live := target)
  }

  // ---------------------------------------------------------------------
  // One step of the machine
  // ---------------------------------------------------------------------

  function At<Id(==), L>(m: Machine<Id, L>, l: L): Machine<Id, L> {
    m.(live := Frame(m.live.block, Body(l)))
  }

  function Note<Id(==), L>(m: Machine<Id, L>, e: Event<Id>): Machine<Id, L> {
    m.(log := m.log + [e])
  }

  function Step<Id(==), L>(w: World<Id, L>, m: Machine<Id, L>): Outcome<Id, L> {
    match m.live.k
    case EntryPoint => Ok(At(m, w.entry(m.current)))
    case AfterTerminate => Broken(PastTheEnd)
    case InCont(d, ifMore, ifDone) =>
      if d !in m.coros then Broken(NoSuchCoroutine) else
      var more := m.coros[d].status != Terminated;
      Ok(At(Note(m, Returned(m.current, d, more)), if more then ifMore else ifDone))
    case Body(l) =>
      match w.code(l)
      case Emit(v, next) => Ok(At(Note(m, Emitted(m.current, v)), next))
      case Yield(next) => StepYield(Note(m, Yielded(m.current)), Stopped, Body(next))
      case Return =>
        if m.current == m.root then Halted
        else StepYield(Note(m, Finished(m.current)), Terminated, AfterTerminate)
      case Cont(d, ifMore, ifDone) => StepCont(m, d, ifMore, ifDone)
      case Manage(d, act, next) => StepManage(m, d, act, next)
  }

  function StepCont<Id(==), L>(m: Machine<Id, L>, d: Id, ifMore: L, ifDone: L): Outcome<Id, L> {
    if d !in m.coros || m.current !in m.coros then Broken(NoSuchCoroutine)
    else if m.coros[d].status !in {NotStarted, Stopped} then Broken(ContBadStatus)
    else if m.coros[d].caller.Some? then Broken(ContHasCaller)
    else Ok(EnterCallee(m, d, ifMore, ifDone))
  }

  function StepYield<Id(==), L>(m: Machine<Id, L>, stop: Status, k: Kont<Id, L>): Outcome<Id, L> {
    if m.current !in m.coros then Broken(NoSuchCoroutine)
    else if m.coros[m.current].status != Running then Broken(NotRunningAtYield)
    else match m.coros[m.current].caller
      case None => Broken(YieldWithoutCaller)
      case Some(d) =>
        if d !in m.coros then Broken(NoSuchCoroutine)
        else if m.coros[d].stackPointer.None? then Broken(NullStackPointer)
        else Ok(LeaveToCaller(m, stop, k))
  }

  function StepManage<Id(==), L>(m: Machine<Id, L>, d: Id, act: Act, next: L): Outcome<Id, L> {
    if act.DoConstruct? then
      if d in m.coros then Broken(AlreadyConstructed)
      else Ok(At(Note(Construct(m, d), Managed(m.current, d, act)), next))
    else if d !in m.coros then Broken(NoSuchCoroutine)
    else match Guard(m.coros[d].status, act)
      case Some(fault) => Broken(fault)
      case None => Ok(At(Note(Apply(m, d, act), Managed(m.current, d, act)), next))
  }

  /** What each call demands of the status of the coroutine it is made on. */
  function Guard(status: Status, act: Act): Option<Fault> {
    match act
    case DoConstruct => None
    case DoCreateStack => if status == NotStarted then None else Some(StackAfterStart)
    case DoSetStack(_) => if status == NotStarted then None else Some(StackAfterStart)
    case DoRestart => if status == Running then Some(RestartWhileRunning) else None
    case DoDelete => if status == Running then Some(DeleteWhileRunning) else None
  }

  function Apply<Id(==), L>(m: Machine<Id, L>, d: Id, act: Act): Machine<Id, L>
    requires d in m.coros
  {
    match act
    case DoConstruct => m
    case DoCreateStack => CreateStack(m, d)
    case DoSetStack(memory) => SetStack(m, d, memory)
    case DoRestart => Restart(m, d)
    case DoDelete => Delete(m, d)
  }

  function Run<Id(==), L>(w: World<Id, L>, m: Machine<Id, L>, n: nat): Outcome<Id, L>
    decreases n
  {
    if n == 0 then Ok(m)
    else match Step(w, m)
      case Ok(m1) => Run(w, m1, n - 1)
      case stop => stop
  }

  /** A thread that has constructed nothing but its root coroutine. */
  function Boot<Id(==), L>(w: World<Id, L>, root: Id): Machine<Id, L> {
    Machine(map[root := Coro(None, None, None, Running)], root, root,
            Frame(ThreadStack, Body(w.entry(root))), {}, 0, [], [])
  }
}
