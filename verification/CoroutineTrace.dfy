/**
  What a coroutine itself experiences: whatever the others do in between,
  the events it took part in since it was constructed or restarted are a
  prefix of a run of its own body, in order and without repetition.
  */
module CoroutineTraces {
  import opened Basics
  import opened Coroutines
  import opened CoroutineInvariants

  /** The events of c since its last construction or restart. */
  function History<Id(==)>(log: seq<Event<Id>>, c: Id): seq<Event<Id>>
    decreases |log|
  {
    if log == [] then []
    else
      var before := History(log[..|log| - 1], c);
      var e := log[|log| - 1];
      if e.Managed? && e.target == c && (e.act.DoConstruct? || e.act.DoRestart?) then []
      else if e.who == c then before + [e]
      else before
  }

  datatype Spot<L> = Here(l: L) | Over | Lost

  /** Where a body started at l stands after the events h, or Lost if it cannot produce them. */
  function Follow<Id(==), L>(w: World<Id, L>, l: L, h: seq<Event<Id>>): Spot<L>
    decreases |h|
  {
    if h == [] then Here(l)
    else
      var before := Follow(w, l, h[..|h| - 1]);
      if before.Here? then FollowOne(w.code(before.l), h[|h| - 1]) else Lost
  }

  function FollowOne<Id(==), L>(op: Op<Id, L>, e: Event<Id>): Spot<L> {
    match op
    case Return => if e.Finished? then Over else Lost
    case Emit(v, next) => if e.Emitted? && e.v == v then Here(next) else Lost
    case Yield(next) => if e.Yielded? then Here(next) else Lost
    case Cont(d, ifMore, ifDone) =>
      if e.Returned? && e.callee == d then Here(if e.more then ifMore else ifDone) else Lost
    case Manage(d, act, next) => if e.Managed? && e.target == d && e.act == act then Here(next) else Lost
  }

  ghost predicate AwaitsReturn<Id, L>(w: World<Id, L>, spot: Spot<L>, k: Kont<Id, L>) {
    match k
    case EntryPoint => false
    case Body(l) => spot == Here(l)
    case InCont(d, ifMore, ifDone) => spot.Here? && w.code(spot.l) == Cont(d, ifMore, ifDone)
    case AfterTerminate => spot == Over
  }

  /** The continuation of c is the one its own history leads to. */
  ghost predicate OnTrack<Id, L>(w: World<Id, L>, m: Machine<Id, L>, c: Id)
    requires c in m.coros
  {
    var spot := Follow(w, w.entry(c), History(m.log, c));
    if c == m.current then
      if m.live.k.EntryPoint? then spot == Here(w.entry(c)) else AwaitsReturn(w, spot, m.live.k)
    else if m.coros[c].status == NotStarted then spot == Here(w.entry(c))
    else m.coros[c].stackPointer.Some? && AwaitsReturn(w, spot, m.coros[c].stackPointer.value.k)
  }

  ghost predicate AllOnTrack<Id, L>(w: World<Id, L>, m: Machine<Id, L>) {
    forall c | c in m.coros :: OnTrack(w, m, c)
  }

  lemma HistorySnoc<Id>(log: seq<Event<Id>>, e: Event<Id>, c: Id)
    ensures History(log + [e], c) ==
            if e.Managed? && e.target == c && (e.act.DoConstruct? || e.act.DoRestart?) then []
            else if e.who == c then History(log, c) + [e] else History(log, c)
  {
    assert (log + [e])[..|log|] == log;
  }

  lemma FollowSnoc<Id, L>(w: World<Id, L>, l: L, h: seq<Event<Id>>, e: Event<Id>)
    ensures Follow(w, l, h + [e]) ==
            var before := Follow(w, l, h); if before.Here? then FollowOne(w.code(before.l), e) else Lost
  {
    assert (h + [e])[..|h|] == h;
  }

  lemma FollowNone<Id, L>(w: World<Id, L>, l: L)
    ensures Follow<Id, L>(w, l, []) == Here(l)
  {
  }

  /** An event of the current coroutine moves it along its body and leaves the others where they are. */
  lemma OwnEvent<Id, L>(w: World<Id, L>, m: Machine<Id, L>, l: L, e: Event<Id>, c: Id)
    requires c in m.coros && OnTrack(w, m, c) && m.current in m.coros && OnTrack(w, m, m.current)
    requires e.who == m.current
    requires match m.live.k { case Body(here) => here == l
                              case InCont(_, _, _) => Follow(w, w.entry(m.current), History(m.log, m.current)) == Here(l)
                              case _ => false }
    requires e.Managed? ==> e.target != m.current
    ensures var spot := Follow(w, w.entry(c), History(m.log + [e], c));
      if e.Managed? && e.target == c && (e.act.DoConstruct? || e.act.DoRestart?) then spot == Here(w.entry(c))
      else if c == m.current then spot == FollowOne(w.code(l), e)
      else spot == Follow(w, w.entry(c), History(m.log, c))
  {
    HistorySnoc(m.log, e, c);
    FollowSnoc(w, w.entry(c), History(m.log, c), e);
    FollowNone(w, w.entry(c));
    hide Follow, History;
  }

  lemma StepKeepsTrack<Id, L>(w: World<Id, L>, m: Machine<Id, L>, ch: seq<Id>)
    requires Good(m, ch) && AllOnTrack(w, m) && Step(w, m).Ok?
    ensures AllOnTrack(w, Step(w, m).m)
  {
    StepKeeps(w, m, ch);
    RootEndsChain(m, ch);
    assert OnTrack(w, m, m.current);
    forall c | c in Step(w, m).m.coros ensures OnTrack(w, Step(w, m).m, c) {
      StepKeepsOne(w, m, ch, c);
    }
  }

  lemma StepKeepsOne<Id, L>(w: World<Id, L>, m: Machine<Id, L>, ch: seq<Id>, c: Id)
    requires Good(m, ch) && AllOnTrack(w, m) && Step(w, m).Ok? && c in Step(w, m).m.coros
    ensures OnTrack(w, Step(w, m).m, c)
  {
    LiveFacts(m, ch);
    hide Good, Follow, History, StepYield, StepCont, StepManage;
    match m.live.k {
      case EntryPoint => assert OnTrack(w, m, c);
      case InCont(d, ifMore, ifDone) => ReturnKeepsOne(w, m, c);
      case Body(l) =>
        match w.code(l) {
          case Emit(v, next) => EmitKeepsOne(w, m, l, c);
          case Yield(next) => LeaveKeepsOne(w, m, ch, l, c);
          case Return => LeaveKeepsOne(w, m, ch, l, c);
          case Cont(d, ifMore, ifDone) => EnterKeepsOne(w, m, ch, l, c);
          case Manage(d, act, next) => ManageKeepsOne(w, m, ch, l, c);
        }
    }
  }

  lemma ReturnKeepsOne<Id, L>(w: World<Id, L>, m: Machine<Id, L>, c: Id)
    requires AllOnTrack(w, m) && m.current in m.coros && c in m.coros
    requires m.live.k.InCont? && m.live.k.callee in m.coros
    ensures OnTrack(w, Step(w, m).m, c)
  {
    hide Follow, History;
    var d := m.live.k.callee;
    assert OnTrack(w, m, m.current) && OnTrack(w, m, c);
    var l := Follow(w, w.entry(m.current), History(m.log, m.current)).l;
    OwnEvent(w, m, l, Returned(m.current, d, m.coros[d].status != Terminated), c);
  }

  lemma EmitKeepsOne<Id, L>(w: World<Id, L>, m: Machine<Id, L>, l: L, c: Id)
    requires AllOnTrack(w, m) && m.current in m.coros && c in m.coros
    requires m.live.k == Body(l) && w.code(l).Emit?
    ensures OnTrack(w, Step(w, m).m, c)
  {
    hide Follow, History;
    assert OnTrack(w, m, m.current) && OnTrack(w, m, c);
    OwnEvent(w, m, l, Emitted(m.current, w.code(l).v), c);
  }

  lemma LiveFacts<Id, L>(m: Machine<Id, L>, ch: seq<Id>)
    requires Good(m, ch)
    ensures m.live.k.InCont? ==> m.live.k.callee in m.coros
    ensures !m.live.k.AfterTerminate? && m.current in m.coros
  {
  }

  lemma TopOfChain<Id, L>(m: Machine<Id, L>, ch: seq<Id>)
    requires Good(m, ch)
    ensures m.current in m.coros && m.coros[m.current].status == Running
    ensures m.current == m.root <==> m.coros[m.current].caller == None
    ensures m.coros[m.current].caller.Some? ==>
              var d := m.coros[m.current].caller.value;
              d in m.coros && d != m.current && m.coros[d].status == Running && WaitsFor(m.coros[d], m.current)
    ensures forall c | c in m.coros :: SavedByStatus(m.coros[c])
  {
    hide MemoryOk;
    RootEndsChain(m, ch);
    assert ch[0] in ch;
    if |ch| >= 2 {
      TopFacts(m, ch);
      assert ch[1] in ch;
    }
  }

  lemma LeaveKeepsOne<Id, L>(w: World<Id, L>, m: Machine<Id, L>, ch: seq<Id>, l: L, c: Id)
    requires Good(m, ch) && AllOnTrack(w, m) && Step(w, m).Ok? && c in Step(w, m).m.coros
    requires m.live.k == Body(l) && (w.code(l).Yield? || w.code(l).Return?)
    ensures OnTrack(w, Step(w, m).m, c)
  {
    hide Follow, History, Good;
    TopOfChain(m, ch);
    assert OnTrack(w, m, m.current) && OnTrack(w, m, c);
    OwnEvent(w, m, l, if w.code(l).Yield? then Yielded(m.current) else Finished(m.current), c);
  }

  lemma EnterKeepsOne<Id, L>(w: World<Id, L>, m: Machine<Id, L>, ch: seq<Id>, l: L, c: Id)
    requires Good(m, ch) && AllOnTrack(w, m) && Step(w, m).Ok? && c in Step(w, m).m.coros
    requires m.live.k == Body(l) && w.code(l).Cont?
    ensures OnTrack(w, Step(w, m).m, c)
  {
    hide Follow, History, Good;
    TopOfChain(m, ch);
    assert OnTrack(w, m, w.code(l).callee) && OnTrack(w, m, m.current) && OnTrack(w, m, c);
  }

  /** A management call changes nothing but its target, and leaves that one unstarted or gone. */
  lemma ManageFrame<Id, L>(m: Machine<Id, L>, d: Id, act: Act, next: L)
    requires StepManage(m, d, act, next).Ok?
    ensures var r := StepManage(m, d, act, next).m;
      && r.current == m.current && r.live.k == Body(next) && r.log == m.log + [Managed(m.current, d, act)]
      && (forall c | c in r.coros && c != d :: c in m.coros && r.coros[c] == m.coros[c])
      && (d in r.coros ==> r.coros[d].status == NotStarted)
      && (d in r.coros && !act.DoConstruct? && !act.DoRestart? ==>
            d in m.coros && m.coros[d].status == NotStarted)
      && (d in m.coros ==> m.coros[d].status != Running)
  {
  }

  lemma ManageKeepsOne<Id, L>(w: World<Id, L>, m: Machine<Id, L>, ch: seq<Id>, l: L, c: Id)
    requires Good(m, ch) && AllOnTrack(w, m) && Step(w, m).Ok? && c in Step(w, m).m.coros
    requires m.live.k == Body(l) && w.code(l).Manage?
    ensures OnTrack(w, Step(w, m).m, c)
  {
    hide Good, StepManage, Follow, History;
    var d, act := w.code(l).target, w.code(l).act;
    ManageFrame(m, d, act, w.code(l).next);
    TopOfChain(m, ch);
    FollowNone(w, w.entry(c));
    assert OnTrack(w, m, m.current);
    var e := Managed(m.current, d, act);
    if c in m.coros {
      assert OnTrack(w, m, c);
      OwnEvent(w, m, l, e, c);
    } else {
      HistorySnoc(m.log, e, c);
    }
  }

  /** Over every run, every coroutine is exactly where its own history puts it. */
  lemma {:induction false} EveryRunOnTrack<Id, L>(w: World<Id, L>, m: Machine<Id, L>, ch: seq<Id>, n: nat)
    requires Good(m, ch) && AllOnTrack(w, m) && Run(w, m, n).Ok?
    ensures AllOnTrack(w, Run(w, m, n).m)
    decreases n
  {
    hide Good, AllOnTrack;
    if n == 0 {
    } else {
      StepKeepsTrack(w, m, ch);
      StepKeeps(w, m, ch);
      EveryRunOnTrack(w, Step(w, m).m, ChainAfter(w, m, ch), n - 1);
    }
  }

  /** From the start of a thread: each coroutine's events are a prefix of a run of its body. */
  lemma BodiesRunInOrder<Id, L>(w: World<Id, L>, root: Id, n: nat)
    requires Run(w, Boot(w, root), n).Ok?
    ensures var m := Run(w, Boot(w, root), n).m;
      forall c | c in m.coros ::
        && Follow(w, w.entry(c), History(m.log, c)) != Lost
        && (m.coros[c].status == Terminated <==> Follow(w, w.entry(c), History(m.log, c)) == Over)
        && OnTrack(w, m, c)
  {
    BootIsGood(w, root);
    EveryRunOnTrack(w, Boot(w, root), [root], n);
    EveryRunKeeps(w, Boot(w, root), [root], n);
    var m := Run(w, Boot(w, root), n).m;
    var ch := ChainAfterRun(w, Boot(w, root), [root], n);
    forall c | c in m.coros
      ensures Follow(w, w.entry(c), History(m.log, c)) != Lost
      ensures m.coros[c].status == Terminated <==> Follow(w, w.entry(c), History(m.log, c)) == Over
    {
      assert OnTrack(w, m, c);
      RunningWaits(m, ch, c);
    }
  }

  lemma RunningWaits<Id, L>(m: Machine<Id, L>, ch: seq<Id>, c: Id)
    requires Good(m, ch) && c in m.coros
    ensures c == m.current ==> m.coros[c].status == Running && !m.live.k.AfterTerminate?
    ensures c != m.current && m.coros[c].status == Running ==>
              m.coros[c].stackPointer.Some? && m.coros[c].stackPointer.value.k.InCont?
    ensures SavedByStatus(m.coros[c])
  {
    if c != m.current && m.coros[c].status == Running {
      var i :| 0 <= i < |ch| && ch[i] == c;
      assert i > 0 && WaitsFor(m.coros[ch[i - 1 + 1]], ch[i - 1]);
    }
  }
}
