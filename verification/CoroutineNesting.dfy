/**
  The meaning of the machine without links or stack pointers: cont() as an
  ordinary nested call. `Call` runs a coroutine until it yields or finishes
  and evaluates a cont() inside it by calling itself. The main theorem is
  that the machine and the nested calls agree on every program, including
  the ones that fail and the ones that never come back.
  */
module CoroutineNesting {
  import opened Basics
  import opened Coroutines
  import opened CoroutineInvariants

  datatype Phase<L> = Unstarted | Active | Suspended(l: L) | Done

  datatype Answer<!Id, L> =
    | Back(store: map<Id, Phase<L>>, log: seq<Event<Id>>)
    | Failed(fault: Fault)
    | OutOfFuel

  function ManageStore<Id(==), L>(st: map<Id, Phase<L>>, d: Id, act: Act): map<Id, Phase<L>> {
    match act
    case DoConstruct => st[d := Unstarted]
    case DoCreateStack => st
    case DoSetStack(_) => st
    case DoRestart => st[d := Unstarted]
    case DoDelete => st - {d}
  }

  function ManageError<Id(==), L>(st: map<Id, Phase<L>>, d: Id, act: Act): Option<Fault> {
    if act.DoConstruct? then if d in st then Some(AlreadyConstructed) else None
    else if d !in st then Some(NoSuchCoroutine)
    else match act
      case DoRestart => if st[d].Active? then Some(RestartWhileRunning) else None
      case DoDelete => if st[d].Active? then Some(DeleteWhileRunning) else None
      case _ => if st[d].Unstarted? then None else Some(StackAfterStart)
  }

  /** Coroutine c goes on from l until it yields or finishes. */
  function Call<Id(==), L>(w: World<Id, L>, c: Id, l: L, st: map<Id, Phase<L>>, log: seq<Event<Id>>, fuel: nat)
    : Answer<Id, L>
    decreases fuel
  {
    if fuel == 0 then OutOfFuel
    else match w.code(l)
      case Return => Back(st[c := Done], log + [Finished(c)])
      case Yield(next) => Back(st[c := Suspended(next)], log + [Yielded(c)])
      case Emit(v, next) => Call(w, c, next, st, log + [Emitted(c, v)], fuel - 1)
      case Manage(d, act, next) =>
        (match ManageError(st, d, act)
         case Some(fault) => Failed(fault)
         case None => Call(w, c, next, ManageStore(st, d, act), log + [Managed(c, d, act)], fuel - 1))
      case Cont(d, ifMore, ifDone) =>
        if d !in st then Failed(NoSuchCoroutine)
        else if st[d].Active? || st[d].Done? then Failed(ContBadStatus)
        else match Call(w, d, ResumeAt(w, d, st[d]), st[d := Active], log, fuel - 1)
          case Back(st1, log1) =>
            var more := d in st1 && !st1[d].Done?;
            Call(w, c, if more then ifMore else ifDone, st1, log1 + [Returned(c, d, more)], fuel - 1)
          case stop => stop
  }

  function ResumeAt<Id, L>(w: World<Id, L>, d: Id, p: Phase<L>): L {
    if p.Suspended? then p.l else w.entry(d)
  }

  // ---------------------------------------------------------------------
  // The machine seen through the phases
  // ---------------------------------------------------------------------

  ghost predicate Readable<Id, L>(m: Machine<Id, L>) {
    forall c | c in m.coros :: SavedByStatus(m.coros[c])
  }

  function PhaseOf<Id, L>(c: Coro<Id, L>): Phase<L>
    requires SavedByStatus(c)
  {
    match c.status
    case NotStarted => Unstarted
    case Running => Active
    case Stopped => Suspended(c.stackPointer.value.k.l)
    case Terminated => Done
  }

  ghost function Phases<Id, L>(m: Machine<Id, L>): map<Id, Phase<L>>
    requires Readable(m)
  {
    map c | c in m.coros :: PhaseOf(m.coros[c])
  }

  lemma PhasesManage<Id, L>(m: Machine<Id, L>, d: Id, act: Act)
    requires Readable(m) && ManageError(Phases(m), d, act) == None
    ensures act.DoConstruct? <==> d !in m.coros
    ensures var r := if act.DoConstruct? then Construct(m, d) else Apply(m, d, act);
      && Readable(r) && Phases(r) == ManageStore(Phases(m), d, act)
      && (forall c | c in m.coros && c != d :: c in r.coros && r.coros[c] == m.coros[c])
      && r.current == m.current && r.live == m.live && r.log == m.log && r.root == m.root
  {
    var r := if act.DoConstruct? then Construct(m, d) else Apply(m, d, act);
    assert Readable(r);
    assert Phases(r) == ManageStore(Phases(m), d, act);
  }

  lemma PhasesEnter<Id, L>(m: Machine<Id, L>, d: Id, ifMore: L, ifDone: L)
    requires Readable(m) && m.current in m.coros && m.coros[m.current].status == Running
    requires d in m.coros && m.coros[d].status in {NotStarted, Stopped}
    ensures var r := EnterCallee(m, d, ifMore, ifDone);
      && Readable(r) && Phases(r) == Phases(m)[d := Active]
      && r.live.k == (if Phases(m)[d].Suspended? then Body(Phases(m)[d].l) else EntryPoint)
      && r.log == m.log && r.current == d
      && r.coros.Keys == m.coros.Keys
      && r.coros[m.current].stackPointer == Some(Frame(m.live.block, InCont(d, ifMore, ifDone)))
      && (forall c | c in m.coros && c != d && c != m.current :: r.coros[c] == m.coros[c])
  {
    var r := EnterCallee(m, d, ifMore, ifDone);
    assert Readable(r);
    assert Phases(r) == Phases(m)[d := Active];
  }

  lemma PhasesLeave<Id, L>(m: Machine<Id, L>, stop: Status, k: Kont<Id, L>)
    requires Readable(m) && m.current in m.coros && StepYield(m, stop, k).Ok?
    requires (stop == Stopped && k.Body?) || (stop == Terminated && k.AfterTerminate?)
    ensures var r := StepYield(m, stop, k).m;
      && Readable(r)
      && Phases(r) == Phases(m)[m.current := if stop == Stopped then Suspended(k.l) else Done]
      && r.log == m.log
      && r.coros.Keys == m.coros.Keys
      && (forall c | c in m.coros && c != m.current :: r.coros[c] == m.coros[c])
  {
    var r := StepYield(m, stop, k).m;
    assert Readable(r);
    assert Phases(r) == Phases(m)[m.current := if stop == Stopped then Suspended(k.l) else Done];
  }

  ghost predicate KeepsChain<Id, L>(m: Machine<Id, L>, r: Machine<Id, L>, ch: seq<Id>) {
    forall c | c in ch :: c in m.coros && c in r.coros && r.coros[c] == m.coros[c]
  }

  lemma SamePhases<Id, L>(m: Machine<Id, L>, r: Machine<Id, L>)
    requires Readable(m) && r.coros == m.coros
    ensures Readable(r) && Phases(r) == Phases(m)
  {
  }

  /** The guards of the machine and of the store agree. */
  lemma ManageGuard<Id, L>(m: Machine<Id, L>, d: Id, act: Act, next: L)
    requires Readable(m)
    ensures match ManageError(Phases(m), d, act)
      case Some(fault) => StepManage(m, d, act, next) == Broken(fault)
      case None =>
        && (act.DoConstruct? <==> d !in m.coros) && (d in m.coros ==> m.coros[d].status != Running)
        && var r := if act.DoConstruct? then Construct(m, d) else Apply(m, d, act);
           StepManage(m, d, act, next) == Ok(At(Note(r, Managed(r.current, d, act)), next))
  {
  }

  /** A management call as the machine and as the store see it. */
  lemma ManageStep<Id, L>(w: World<Id, L>, m: Machine<Id, L>, ch: seq<Id>)
    requires Good(m, ch) && m.live.k.Body? && w.code(m.live.k.l).Manage?
    ensures var Manage(d, act, next) := w.code(m.live.k.l);
      match ManageError(Phases(m), d, act)
      case Some(fault) => Step(w, m) == Broken(fault)
      case None =>
        && Step(w, m).Ok?
        && var r := Step(w, m).m;
           && Readable(r) && Phases(r) == ManageStore(Phases(m), d, act)
           && r.live.k == Body(next) && r.current == m.current
           && r.log == m.log + [Managed(m.current, d, act)]
           && KeepsChain(m, r, ch[1..])
  {
    hide Good, Phases, Readable, ManageStore, ManageError, Apply, Construct, StepManage;
    GoodFacts(m, ch);
    var Manage(d, act, next) := w.code(m.live.k.l);
    ManageGuard(m, d, act, next);
    if ManageError(Phases(m), d, act) == None {
      var r := if act.DoConstruct? then Construct(m, d) else Apply(m, d, act);
      PhasesManage(m, d, act);
      SamePhases(r, At(Note(r, Managed(m.current, d, act)), next));
    }
  }

  lemma CallStep<Id, L>(w: World<Id, L>, m: Machine<Id, L>, ch: seq<Id>, d: Id, ifMore: L, ifDone: L)
    requires Good(m, ch) && m.live.k.Body? && w.code(m.live.k.l) == Cont(d, ifMore, ifDone)
    ensures d !in m.coros ==> Step(w, m) == Broken(NoSuchCoroutine)
    ensures d in m.coros && m.coros[d].status in {Running, Terminated} ==> Step(w, m) == Broken(ContBadStatus)
    ensures d in m.coros && m.coros[d].status in {NotStarted, Stopped} ==>
              Step(w, m) == Ok(EnterCallee(m, d, ifMore, ifDone)) &&
              KeepsChain(m, EnterCallee(m, d, ifMore, ifDone), ch[1..])
  {
    if d in m.coros && m.coros[d].status in {NotStarted, Stopped} {
      assert d !in ch && m.coros[d].caller == None;
      PhasesEnter(m, d, ifMore, ifDone);
      assert forall c | c in ch[1..] :: c in ch && c != m.current;
    }
  }

  lemma LeaveStep<Id, L>(w: World<Id, L>, m: Machine<Id, L>, ch: seq<Id>)
    requires Good(m, ch) && |ch| >= 2 && m.live.k.Body?
    requires w.code(m.live.k.l).Yield? || w.code(m.live.k.l).Return?
    ensures Step(w, m).Ok? && Readable(Step(w, m).m)
    ensures m.coros[ch[1]].stackPointer == Some(Step(w, m).m.live)
    ensures KeepsChain(m, Step(w, m).m, ch[1..])
    ensures forall next :: w.code(m.live.k.l) == Yield(next) ==>
              Step(w, m).m.log == m.log + [Yielded(m.current)] &&
              Phases(Step(w, m).m) == Phases(m)[m.current := Suspended(next)]
    ensures w.code(m.live.k.l) == Return ==>
              Step(w, m).m.log == m.log + [Finished(m.current)] &&
              Phases(Step(w, m).m) == Phases(m)[m.current := Done]
  {
    GoodFacts(m, ch);
    RootEndsChain(m, ch);
    assert WaitsFor(m.coros[ch[0 + 1]], ch[0]);
    hide Good, Linked, Saved, MemoryOk, Phases, Readable;
    match w.code(m.live.k.l) {
      case Yield(next) =>
        var p := Note(m, Yielded(m.current));
        SamePhases(m, p);
        PhasesLeave(p, Stopped, Body(next));
      case Return =>
        var p := Note(m, Finished(m.current));
        SamePhases(m, p);
        PhasesLeave(p, Terminated, AfterTerminate);
    }
  }

  // ---------------------------------------------------------------------
  // Runs that stay above a point of the chain
  // ---------------------------------------------------------------------

  predicate Ends<Id(==)>(full: seq<Id>, ch: seq<Id>) {
    |full| >= |ch| && full[|full| - |ch|..] == ch
  }

  /** For n steps, the part ch of the chain stays where it is. */
  ghost predicate Stays<Id, L>(w: World<Id, L>, m: Machine<Id, L>, ch: seq<Id>, n: nat) {
    forall k: nat | k <= n :: Run(w, m, k).Ok? && Ends(ChainAfterRun(w, m, ch, k), ch)
  }

  lemma {:induction false} RunAdd<Id, L>(w: World<Id, L>, m: Machine<Id, L>, ch: seq<Id>, a: nat, b: nat)
    requires Run(w, m, a).Ok?
    ensures Run(w, m, a + b) == Run(w, Run(w, m, a).m, b)
    ensures ChainAfterRun(w, m, ch, a + b) == ChainAfterRun(w, Run(w, m, a).m, ChainAfterRun(w, m, ch, a), b)
    decreases a
  {
    hide Step, ChainAfter;
    if a == 0 {
    } else {
      RunAdd(w, Step(w, m).m, ChainAfter(w, m, ch), a - 1, b);
      assert a - 1 + b == a + b - 1;
    }
  }

  lemma StaysAdd<Id, L>(w: World<Id, L>, m: Machine<Id, L>, ch: seq<Id>, a: nat, b: nat)
    requires Stays(w, m, ch, a)
    requires Stays(w, Run(w, m, a).m, ChainAfterRun(w, m, ch, a), b)
    ensures Stays(w, m, ch, a + b)
  {
    var mid, up := Run(w, m, a).m, ChainAfterRun(w, m, ch, a);
    forall k: nat | k <= a + b ensures Run(w, m, k).Ok? && Ends(ChainAfterRun(w, m, ch, k), ch) {
      if k > a {
        RunAdd(w, m, ch, a, k - a);
        var full := ChainAfterRun(w, mid, up, k - a);
        assert Ends(full, up) && Ends(up, ch);
        EndsTrans(full, up, ch);
      }
    }
  }

  lemma EndsTrans<Id>(full: seq<Id>, up: seq<Id>, ch: seq<Id>)
    requires Ends(full, up) && Ends(up, ch)
    ensures Ends(full, ch)
  {
    assert full[|full| - |ch|..] == full[|full| - |up|..][|up| - |ch|..];
  }

  lemma OneStep<Id, L>(w: World<Id, L>, m: Machine<Id, L>, ch: seq<Id>)
    requires Step(w, m).Ok? && Ends(ChainAfter(w, m, ch), ch)
    ensures Run(w, m, 1) == Step(w, m) && ChainAfterRun(w, m, ch, 1) == ChainAfter(w, m, ch)
    ensures Stays(w, m, ch, 1)
  {
    assert Run(w, m, 1) == Run(w, Step(w, m).m, 0);
    forall k: nat | k <= 1 ensures Run(w, m, k).Ok? && Ends(ChainAfterRun(w, m, ch, k), ch) {
      if k == 0 {
        assert Run(w, m, 0) == Ok(m) && ChainAfterRun(w, m, ch, 0) == ch;
      }
    }
  }

  // ---------------------------------------------------------------------
  // The simulation
  // ---------------------------------------------------------------------

  /** After n steps the current coroutine has given control back to its caller. */
  ghost predicate ReturnsAfter<Id, L>(w: World<Id, L>, m: Machine<Id, L>, ch: seq<Id>, n: nat)
    requires |ch| >= 2 && ch[1] in m.coros
  {
    && n > 0 && Stays(w, m, ch, n - 1) && Run(w, m, n).Ok?
    && ChainAfterRun(w, m, ch, n) == ch[1..]
    && m.coros[ch[1]].stackPointer == Some(Run(w, m, n).m.live)
    && KeepsChain(m, Run(w, m, n).m, ch[1..])
  }

  /** The machine does in n steps what the nested call answered. */
  ghost predicate Agrees<Id, L>(w: World<Id, L>, m: Machine<Id, L>, ch: seq<Id>, n: nat, answer: Answer<Id, L>)
    requires |ch| >= 2 && ch[1] in m.coros
  {
    match answer
    case Back(store, log) =>
      && ReturnsAfter(w, m, ch, n)
      && Readable(Run(w, m, n).m) && Phases(Run(w, m, n).m) == store && Run(w, m, n).m.log == log
    case Failed(fault) => n > 0 && Stays(w, m, ch, n - 1) && Run(w, m, n) == Broken(fault)
    case OutOfFuel => Stays(w, m, ch, n)
  }

  /** Agreement carries over steps that come back to the same chain. */
  lemma Prefixed<Id, L>(w: World<Id, L>, m: Machine<Id, L>, ch: seq<Id>, a: nat, b: nat, answer: Answer<Id, L>)
    requires |ch| >= 2 && Stays(w, m, ch, a) && ch[1] in m.coros
    requires ChainAfterRun(w, m, ch, a) == ch && ch[1] in Run(w, m, a).m.coros
    requires KeepsChain(m, Run(w, m, a).m, ch[1..])
    requires Agrees(w, Run(w, m, a).m, ch, b, answer)
    ensures Agrees(w, m, ch, a + b, answer)
  {
    RunAdd(w, m, ch, a, b);
    if answer.OutOfFuel? {
      StaysAdd(w, m, ch, a, b);
    } else {
      StaysAdd(w, m, ch, a, b - 1);
      assert a + (b - 1) == a + b - 1;
    }
    assert ch[1] in ch[1..];
  }

  /** A callee that fails or runs for ever does so for its caller too. */
  lemma Escalates<Id, L>(w: World<Id, L>, m: Machine<Id, L>, ch: seq<Id>, a: nat, up: seq<Id>, b: nat, answer: Answer<Id, L>)
    requires |ch| >= 2 && Stays(w, m, ch, a) && ch[1] in m.coros
    requires ChainAfterRun(w, m, ch, a) == up && |up| >= 2 && up[1] in Run(w, m, a).m.coros
    requires !answer.Back? && Agrees(w, Run(w, m, a).m, up, b, answer)
    ensures Agrees(w, m, ch, a + b, answer)
  {
    RunAdd(w, m, ch, a, b);
    if answer.OutOfFuel? {
      StaysAdd(w, m, ch, a, b);
    } else {
      StaysAdd(w, m, ch, a, b - 1);
      assert a + (b - 1) == a + b - 1;
    }
  }

  /** What the proofs below use of a good state. */
  lemma GoodFacts<Id, L>(m: Machine<Id, L>, ch: seq<Id>)
    requires Good(m, ch)
    ensures Readable(m) && |ch| > 0 && ch[0] == m.current
    ensures m.current in m.coros && m.coros[m.current].status == Running
    ensures forall c | c in ch :: c in m.coros && m.coros[c].status == Running
    ensures forall c | c in ch[1..] :: c in ch && c != m.current
    ensures KeepsChain(m, m, ch[1..])
  {
    forall c | c in ch[1..] ensures c in ch && c != m.current {
      var i :| 0 <= i < |ch| - 1 && ch[1..][i] == c;
      assert c == ch[i + 1];
    }
  }

  /** One step, as an ordinary run of length one. */
  lemma FirstStep<Id, L>(w: World<Id, L>, m: Machine<Id, L>, ch: seq<Id>)
    requires Good(m, ch) && Step(w, m).Ok?
    ensures Good(Step(w, m).m, ChainAfter(w, m, ch))
    ensures Run(w, m, 1) == Step(w, m) && ChainAfterRun(w, m, ch, 1) == ChainAfter(w, m, ch)
    ensures Ends(ChainAfter(w, m, ch), ch) ==> Stays(w, m, ch, 1)
    ensures Stays(w, m, ch, 0)
  {
    hide Good;
    GoodFacts(m, ch);
    StepKeeps(w, m, ch);
    assert Run(w, m, 1) == Run(w, Step(w, m).m, 0);
    if Ends(ChainAfter(w, m, ch), ch) {
      OneStep(w, m, ch);
    }
  }

  /**
    The simulation: from any good state the machine does what the nested call
    says. The step count that witnesses it is returned; when the fuel ran out
    the machine has gone at least that many steps without coming back.
    */
  lemma {:induction false} Simulates<Id, L>(w: World<Id, L>, m: Machine<Id, L>, ch: seq<Id>, fuel: nat)
    returns (n: nat)
    requires Good(m, ch) && |ch| >= 2 && m.live.k.Body?
    ensures var answer := Call(w, m.current, m.live.k.l, Phases(m), m.log, fuel);
      Agrees(w, m, ch, n, answer) && (answer.OutOfFuel? ==> n >= fuel)
    decreases fuel
  {
    hide Good;
    GoodFacts(m, ch);
    n := 0;
    if fuel == 0 { return; }
    match w.code(m.live.k.l) {
      case Emit(v, next) => n := SimulatesLocal(w, m, ch, fuel);
      case Manage(d, act, next) =>
        ManageStep(w, m, ch);
        if ManageError(Phases(m), d, act) == None {
          n := SimulatesLocal(w, m, ch, fuel);
        } else {
          n := 1;
        }
      case Cont(d, ifMore, ifDone) => n := SimulatesCont(w, m, ch, fuel, d, ifMore, ifDone);
      case _ =>
        LeaveStep(w, m, ch);
        FirstStep(w, m, ch);
        n := 1;
    }
  }

  /** An operation that neither enters nor leaves a coroutine. */
  lemma {:induction false} SimulatesLocal<Id, L>(w: World<Id, L>, m: Machine<Id, L>, ch: seq<Id>, fuel: nat)
    returns (n: nat)
    requires Good(m, ch) && |ch| >= 2 && m.live.k.Body? && fuel > 0
    requires w.code(m.live.k.l).Emit? || (w.code(m.live.k.l).Manage? &&
               ManageError(Phases(m), w.code(m.live.k.l).target, w.code(m.live.k.l).act) == None)
    ensures var answer := Call(w, m.current, m.live.k.l, Phases(m), m.log, fuel);
      Agrees(w, m, ch, n, answer) && (answer.OutOfFuel? ==> n >= fuel)
    decreases fuel, 0
  {
    hide Good;
    GoodFacts(m, ch);
    if w.code(m.live.k.l).Manage? {
      ManageStep(w, m, ch);
    } else {
      assert Phases(Step(w, m).m) == Phases(m);
    }
    FirstStep(w, m, ch);
    var r := Simulates(w, Step(w, m).m, ch, fuel - 1);
    var answer := Call(w, m.current, m.live.k.l, Phases(m), m.log, fuel);
    Prefixed(w, m, ch, 1, r, answer);
    n := 1 + r;
  }

  /** One unfolding of Call at a cont(). */
  lemma CallOfCont<Id, L>(w: World<Id, L>, c: Id, l: L, st: map<Id, Phase<L>>, log: seq<Event<Id>>, fuel: nat,
                          d: Id, ifMore: L, ifDone: L, sub: Answer<Id, L>)
    requires fuel > 0 && w.code(l) == Cont(d, ifMore, ifDone)
    requires d in st && (st[d].Unstarted? || st[d].Suspended?)
    requires sub == Call(w, d, ResumeAt(w, d, st[d]), st[d := Active], log, fuel - 1)
    ensures !sub.Back? ==> Call(w, c, l, st, log, fuel) == sub
    ensures sub.Back? && d in sub.store ==>
              var more := !sub.store[d].Done?;
              Call(w, c, l, st, log, fuel) ==
              Call(w, c, if more then ifMore else ifDone, sub.store, sub.log + [Returned(c, d, more)], fuel - 1)
  {
  }

  lemma ContFails<Id, L>(w: World<Id, L>, m: Machine<Id, L>, ch: seq<Id>, fuel: nat, d: Id, ifMore: L, ifDone: L)
    requires Readable(m) && m.live.k.Body? && fuel > 0 && |ch| >= 2 && ch[1] in m.coros
    requires w.code(m.live.k.l) == Cont(d, ifMore, ifDone)
    requires if d !in m.coros then Step(w, m) == Broken(NoSuchCoroutine)
             else m.coros[d].status in {Running, Terminated} && Step(w, m) == Broken(ContBadStatus)
    ensures Agrees(w, m, ch, 1, Call(w, m.current, m.live.k.l, Phases(m), m.log, fuel))
    ensures !Call(w, m.current, m.live.k.l, Phases(m), m.log, fuel).OutOfFuel?
  {
    assert Stays(w, m, ch, 0);
  }

  lemma {:induction false} SimulatesCont<Id, L>(w: World<Id, L>, m: Machine<Id, L>, ch: seq<Id>, fuel: nat,
                                                d: Id, ifMore: L, ifDone: L)
    returns (n: nat)
    requires Good(m, ch) && |ch| >= 2 && m.live.k.Body? && fuel > 0
    requires w.code(m.live.k.l) == Cont(d, ifMore, ifDone)
    ensures var answer := Call(w, m.current, m.live.k.l, Phases(m), m.log, fuel);
      Agrees(w, m, ch, n, answer) && (answer.OutOfFuel? ==> n >= fuel)
    decreases fuel, 0
  {
    hide Good, Stays, Run, ChainAfterRun, Call, Step, Phases, ReturnsAfter, ResumeAt, KeepsChain;
    GoodFacts(m, ch);
    CallStep(w, m, ch, d, ifMore, ifDone);
    var answer := Call(w, m.current, m.live.k.l, Phases(m), m.log, fuel);
    assert ch[1] in m.coros by { assert ch[1] in ch; }
    if d !in m.coros || m.coros[d].status in {Running, Terminated} {
      ContFails(w, m, ch, fuel, d, ifMore, ifDone);
      n := 1;
      return;
    }
    var a, inner := EnterBody(w, m, ch, d, ifMore, ifDone);
    var up := [d] + ch;
    GoodFacts(inner, up);
    assert up[1] == m.current && up[1..] == ch;
    var b := Simulates(w, inner, up, fuel - 1);
    var sub := Call(w, d, inner.live.k.l, Phases(inner), inner.log, fuel - 1);
    CallOfCont(w, m.current, m.live.k.l, Phases(m), m.log, fuel, d, ifMore, ifDone, sub);
    if !sub.Back? {
      Escalates(w, m, ch, a, up, b, sub);
      n := a + b;
    } else {
      var e, back := ComeBack(w, m, ch, d, ifMore, ifDone, up, a, inner, b);
      var rest := Simulates(w, back, ch, fuel - 1);
      GoodFacts(back, ch);
      Prefixed(w, m, ch, e, rest, answer);
      n := e + rest;
    }
  }

  /** From the cont() to the first operation of the callee's body. */
  lemma EnterBody<Id, L>(w: World<Id, L>, m: Machine<Id, L>, ch: seq<Id>, d: Id, ifMore: L, ifDone: L)
    returns (a: nat, inner: Machine<Id, L>)
    requires Good(m, ch) && m.live.k.Body? && w.code(m.live.k.l) == Cont(d, ifMore, ifDone)
    requires d in m.coros && m.coros[d].status in {NotStarted, Stopped}
    ensures a > 0 && Run(w, m, a) == Ok(inner) && ChainAfterRun(w, m, ch, a) == [d] + ch
    ensures Stays(w, m, ch, a) && Good(inner, [d] + ch)
    ensures d in Phases(m) && (Phases(m)[d].Unstarted? || Phases(m)[d].Suspended?)
    ensures inner.live.k == Body(ResumeAt(w, d, Phases(m)[d]))
    ensures inner.log == m.log && inner.current == d && Phases(inner) == Phases(m)[d := Active]
    ensures KeepsChain(m, inner, ch[1..]) && m.current in inner.coros
    ensures inner.coros[m.current].stackPointer == Some(Frame(m.live.block, InCont(d, ifMore, ifDone)))
  {
    hide Good;
    GoodFacts(m, ch);
    CallStep(w, m, ch, d, ifMore, ifDone);
    PhasesEnter(m, d, ifMore, ifDone);
    FirstStep(w, m, ch);
    inner := EnterCallee(m, d, ifMore, ifDone);
    a := 1;
    if inner.live.k.EntryPoint? {
      var started := At(inner, w.entry(d));
      assert Phases(started) == Phases(inner);
      FirstStep(w, inner, [d] + ch);
      StaysAdd(w, m, ch, 1, 1);
      RunAdd(w, m, ch, 1, 1);
      a, inner := 2, started;
    }
  }

  /** From the callee's yield or end back into the caller's cont(). */
  lemma BackInCont<Id, L>(w: World<Id, L>, m: Machine<Id, L>, ch: seq<Id>, up: seq<Id>,
                          a: nat, inner: Machine<Id, L>, b: nat)
    requires Good(m, ch) && Stays(w, m, ch, a) && Run(w, m, a) == Ok(inner)
    requires |up| >= 2 && up[1..] == ch && ChainAfterRun(w, m, ch, a) == up && up[1] in inner.coros
    requires ReturnsAfter(w, inner, up, b)
    ensures Run(w, m, a + b) == Run(w, inner, b)
    ensures ChainAfterRun(w, m, ch, a + b) == ch && Stays(w, m, ch, a + b)
    ensures Run(w, inner, b).Ok? && Good(Run(w, inner, b).m, ch)
    ensures inner.coros[up[1]].stackPointer == Some(Run(w, inner, b).m.live)
    ensures KeepsChain(inner, Run(w, inner, b).m, ch)
  {
    hide Good;
    RunAdd(w, m, ch, a, b);
    EveryRunKeeps(w, m, ch, a + b);
    StaysAdd(w, m, ch, a, b - 1);
    forall k: nat | k <= a + b ensures Run(w, m, k).Ok? && Ends(ChainAfterRun(w, m, ch, k), ch) {
      assert k <= a + (b - 1) || k == a + b;
    }
  }

  /** cont() reads the callee's status and returns. */
  lemma ContReturns<Id, L>(w: World<Id, L>, out: Machine<Id, L>, ch: seq<Id>, d: Id, ifMore: L, ifDone: L)
    requires Good(out, ch) && out.live.k == InCont(d, ifMore, ifDone)
    ensures d in Phases(out) && Step(w, out).Ok?
    ensures var back := Step(w, out).m;
      && back == At(Note(out, Returned(out.current, d, !Phases(out)[d].Done?)),
                    if !Phases(out)[d].Done? then ifMore else ifDone)
      && back.live.block == out.live.block
      && Readable(back) && Phases(back) == Phases(out) && back.coros == out.coros
      && ChainAfter(w, out, ch) == ch && Ends(ch, ch)
  {
    assert Phases(Step(w, out).m) == Phases(out);
  }

  lemma KeepsTrans<Id, L>(m: Machine<Id, L>, inner: Machine<Id, L>, out: Machine<Id, L>, back: Machine<Id, L>, ch: seq<Id>)
    requires |ch| > 0 && KeepsChain(m, inner, ch[1..]) && KeepsChain(inner, out, ch) && back.coros == out.coros
    ensures KeepsChain(m, back, ch[1..])
  {
    assert forall c | c in ch[1..] :: c in ch;
  }

  lemma ComeBack<Id, L>(w: World<Id, L>, m: Machine<Id, L>, ch: seq<Id>, d: Id, ifMore: L, ifDone: L, up: seq<Id>,
                        a: nat, inner: Machine<Id, L>, b: nat)
    returns (e: nat, back: Machine<Id, L>)
    requires Good(m, ch) && |up| >= 2 && up[1..] == ch && up[1] == m.current
    requires Stays(w, m, ch, a) && Run(w, m, a) == Ok(inner) && ChainAfterRun(w, m, ch, a) == up
    requires KeepsChain(m, inner, ch[1..]) && m.current in inner.coros
    requires inner.coros[m.current].stackPointer == Some(Frame(m.live.block, InCont(d, ifMore, ifDone)))
    requires ReturnsAfter(w, inner, up, b)
    ensures Run(w, m, e) == Ok(back) && ChainAfterRun(w, m, ch, e) == ch && Stays(w, m, ch, e) && e > 0
    ensures Good(back, ch) && KeepsChain(m, back, ch[1..]) && back.live.block == m.live.block
    ensures Run(w, inner, b).Ok?
    ensures var out := Run(w, inner, b).m;
      Readable(out) && Readable(back) && Phases(back) == Phases(out) && d in Phases(out) &&
      back == At(Note(out, Returned(m.current, d, !Phases(out)[d].Done?)),
                 if !Phases(out)[d].Done? then ifMore else ifDone)
  {
    hide *;
    GoodFacts(m, ch);
    BackInCont(w, m, ch, up, a, inner, b);
    var out := Run(w, inner, b).m;
    GoodFacts(out, ch);
    ContReturns(w, out, ch, d, ifMore, ifDone);
    back := Step(w, out).m;
    e := a + b + 1;
    FirstStep(w, out, ch);
    KeepsTrans(m, inner, out, back, ch);
    StaysAdd(w, m, ch, a + b, 1);
    RunAdd(w, m, ch, a + b, 1);
  }

  // ---------------------------------------------------------------------
  // The two theorems
  // ---------------------------------------------------------------------

  /**
    cont(d) is a procedure call. If the nested call of d comes back, then so
    does the machine: to the coroutine that called, on its own stack, at the
    operation after the cont(), with everything below it on the chain as it
    was, and with the result telling whether d can be continued. If the
    nested call fails, the machine fails in the same way; while the nested
    call is still running, so is the machine.
    */
  lemma ContIsANestedCall<Id, L>(w: World<Id, L>, m: Machine<Id, L>, ch: seq<Id>, d: Id, ifMore: L, ifDone: L, fuel: nat)
    returns (n: nat)
    requires Good(m, ch) && Readable(m) && m.live.k.Body? && w.code(m.live.k.l) == Cont(d, ifMore, ifDone)
    requires d in m.coros && m.coros[d].status in {NotStarted, Stopped}
    ensures match Call(w, d, ResumeAt(w, d, Phases(m)[d]), Phases(m)[d := Active], m.log, fuel)
      case Back(store, log) =>
        && Run(w, m, n).Ok? && ChainAfterRun(w, m, ch, n) == ch && Stays(w, m, ch, n)
        && var back := Run(w, m, n).m;
           && Good(back, ch) && back.current == m.current && d in back.coros
           && Readable(back) && Phases(back) == store
           && KeepsChain(m, back, ch[1..])
           && var more := back.coros[d].status != Terminated;
              && back.live == Frame(m.live.block, Body(if more then ifMore else ifDone))
              && back.log == log + [Returned(m.current, d, more)]
      case Failed(fault) => Run(w, m, n) == Broken(fault)
      case OutOfFuel => n > fuel && Stays(w, m, ch, n)
  {
    hide Good, Stays, Run, ChainAfterRun, Call, Step, ReturnsAfter, ResumeAt, KeepsChain;
    GoodFacts(m, ch);
    var a, inner := EnterBody(w, m, ch, d, ifMore, ifDone);
    var up := [d] + ch;
    GoodFacts(inner, up);
    assert up[1] == m.current && up[1..] == ch;
    var b := Simulates(w, inner, up, fuel);
    var sub := Call(w, d, inner.live.k.l, Phases(inner), inner.log, fuel);
    n := a + b;
    if sub.Back? {
      var back;
      n, back := ComeBack(w, m, ch, d, ifMore, ifDone, up, a, inner, b);
      GoodFacts(back, ch);
    } else {
      RunAdd(w, m, ch, a, b);
      if sub.OutOfFuel? {
        StaysAdd(w, m, ch, a, b);
      }
    }
  }

  /** The machine returns from the current coroutine exactly when the nested call does. */
  lemma ReturnsIffTheCallDoes<Id, L>(w: World<Id, L>, m: Machine<Id, L>, ch: seq<Id>)
    requires Good(m, ch) && Readable(m) && |ch| >= 2 && ch[1] in m.coros && m.live.k.Body?
    ensures (exists n: nat :: ReturnsAfter(w, m, ch, n)) <==>
            (exists fuel: nat :: Call(w, m.current, m.live.k.l, Phases(m), m.log, fuel).Back?)
  {
    hide Good, Call;
    if n: nat :| ReturnsAfter(w, m, ch, n) {
      var k := Simulates(w, m, ch, n + 1);
      var answer := Call(w, m.current, m.live.k.l, Phases(m), m.log, n + 1);
      assert |ChainAfterRun(w, m, ch, n)| < |ch|;
      if answer.Failed? {
        assert n > k - 1;
        RunAdd(w, m, ch, n, 0);
        StopsForGood(w, m, k, n);
      }
      assert answer.Back?;
    }
    if fuel: nat :| Call(w, m.current, m.live.k.l, Phases(m), m.log, fuel).Back? {
      var n := Simulates(w, m, ch, fuel);
      assert ReturnsAfter(w, m, ch, n);
    }
  }

  lemma {:induction false} StopsForGood<Id, L>(w: World<Id, L>, m: Machine<Id, L>, k: nat, n: nat)
    requires !Run(w, m, k).Ok? && k <= n
    ensures Run(w, m, n) == Run(w, m, k)
    decreases k
  {
    if k == 0 || !Step(w, m).Ok? {
    } else {
      StopsForGood(w, Step(w, m).m, k - 1, n - 1);
    }
  }
}
