/**
  The scrollable cursor that the three result sets of the connector
  implement: a position from 0 (before the first row) to n + 1 (after the
  last row) and eight ways of moving it.
  */
module Cursor {
  import opened Basics

  const INT_MAX := 0x7fff_ffff
  const MOST_ROWS := 0x7fff_ffff_ffff_fffe   // what a list in memory, and a long long counter, can number

  /** A C++ int whose negation is an int too. */
  type Int = k: int | -INT_MAX <= k <= INT_MAX

  datatype Move =
    | Next | Previous | First | Last | BeforeFirst | AfterLast
    | Absolute(k: Int) | Relative(k: Int)

  predicate OnRow(n: nat, pos: int) {
    1 <= pos <= n
  }

  function Clamp(x: int, hi: nat): nat {
    if x < 0 then 0 else if x > hi then hi else x
  }

  /** Where a move aims, before it is clamped to the positions there are. */
  function Aim(n: nat, pos: nat, move: Move): int {
    match move
    case Next => pos + 1
    case Previous => pos - 1
    case First => if n == 0 then pos else 1
    case Last => if n == 0 then pos else n
    case BeforeFirst => 0
    case AfterLast => n + 1
    case Absolute(k) => if k >= 0 then k else n + 1 + k
    case Relative(k) => pos + k
  }

  /** The position after a move; every move answers whether it ended on a row. */
  function Moved(n: nat, pos: nat, move: Move): nat {
    Clamp(Aim(n, pos, move), n + 1)
  }

  // ---------------------------------------------------------------------
  // What a client sees
  // ---------------------------------------------------------------------

  datatype Seen<Row> = Seen(answer: bool, pos: nat, row: Option<Row>)

  function RowAt<Row>(rows: seq<Row>, pos: nat): Option<Row> {
    if OnRow(|rows|, pos) then Some(rows[pos - 1]) else None
  }

  function Expected<Row>(rows: seq<Row>, pos: nat): Seen<Row> {
    Seen(OnRow(|rows|, pos), pos, RowAt(rows, pos))
  }

  /** What a client of a correct cursor sees over a whole run of moves. */
  function Ideal<Row>(rows: seq<Row>, pos: nat, moves: seq<Move>): seq<Seen<Row>>
    decreases |moves|
  {
    if moves == [] then []
    else
      var p := Moved(|rows|, pos, moves[0]);
      [Expected(rows, p)] + Ideal(rows, p, moves[1..])
  }

  predicate Distinct<Row(==)>(rows: seq<Row>) {
    forall i, j | 0 <= i < j < |rows| :: rows[i] != rows[j]
  }

  // ---------------------------------------------------------------------
  // The machine arithmetic of absolute() and relative()
  // ---------------------------------------------------------------------

  /** (int) n */
  function ToInt(n: nat): int {
    var low := n % WORD32;
    if low <= INT_MAX then low else low - WORD32
  }

  /** The position absolute() computes, for any number of rows. */
  function CastAbsolute(n: nat, k: Int): nat {
    if k > 0 then
      if k > ToInt(n) then n + 1 else k
    else if k < 0 then
      if -k > ToInt(n) then 0 else n - (-k) + 1
    else 0
  }

  /** The cast of the row count to int did not make it smaller than the requested distance. */
  predicate CastOk(n: nat, move: Move) {
    move.Absolute? && move.k != 0 && n > INT_MAX ==> (if move.k > 0 then move.k else -move.k) <= ToInt(n)
  }

  /** The position after a move of the result sets. */
  function Landed(n: nat, pos: nat, move: Move): nat {
    if move.Absolute? then CastAbsolute(n, move.k) else Moved(n, pos, move)
  }

  /** absolute() is right exactly when the cast does not matter. */
  lemma AbsoluteIff(n: nat, pos: nat, move: Move)
    ensures Landed(n, pos, move) == Moved(n, pos, move) <==> CastOk(n, move)
  {
  }

  /** What a client sees of a cursor whose only fault is the cast. */
  function Landing<Row>(rows: seq<Row>, pos: nat, moves: seq<Move>): seq<Seen<Row>>
    decreases |moves|
  {
    if moves == [] then []
    else
      var p := Landed(|rows|, pos, moves[0]);
      [Expected(rows, p)] + Landing(rows, p, moves[1..])
  }

  lemma LandingHead<Row>(rows: seq<Row>, pos: nat, moves: seq<Move>, i: nat)
    requires i < |moves|
    ensures var p := Landed(|rows|, pos, moves[i]);
      Landing(rows, pos, moves[i..]) == [Expected(rows, p)] + Landing(rows, p, moves[i + 1..])
  {
    assert moves[i..][1..] == moves[i + 1..];
  }

  lemma LandingEnds<Row>(rows: seq<Row>, moves: seq<Move>)
    ensures moves[0..] == moves && forall pos :: Landing(rows, pos, moves[|moves|..]) == []
  {
  }

  /** Over every run: the ideal cursor exactly when no absolute() is made wrong by the cast. */
  lemma {:induction false} LandingIff<Row>(rows: seq<Row>, pos: nat, moves: seq<Move>)
    ensures Landing(rows, pos, moves) == Ideal(rows, pos, moves) <==> forall move | move in moves :: CastOk(|rows|, move)
    decreases |moves|
  {
    if moves == [] {
    } else {
      hide CastOk;
      AbsoluteIff(|rows|, pos, moves[0]);
      var p := Moved(|rows|, pos, moves[0]);
      var got, want := Landing(rows, pos, moves), Ideal(rows, pos, moves);
      assert got[0].pos == Landed(|rows|, pos, moves[0]) && want[0].pos == p;
      assert want[1..] == Ideal(rows, p, moves[1..]);
      assert got[1..] == Landing(rows, got[0].pos, moves[1..]);
      assert forall move :: move in moves <==> move == moves[0] || move in moves[1..];
      LandingIff(rows, p, moves[1..]);
    }
  }

  /** row_position + rows in 64-bit unsigned arithmetic */
  function Wrapped(pos: nat, k: Int): nat {
    (pos + k) % WORD64
  }

  /** The unsigned test of relative() finds exactly the moves that leave the rows. */
  lemma WrappedTest(n: nat, pos: nat, k: Int)
    requires pos <= n + 1 && n <= MOST_ROWS
    ensures Wrapped(pos, k) > n || Wrapped(pos, k) < 1 <==> !OnRow(n, pos + k)
    ensures OnRow(n, pos + k) ==> Wrapped(pos, k) == pos + k
  {
    if pos + k < 0 {
      assert Wrapped(pos, k) == pos + k + WORD64;
    } else {
      assert Wrapped(pos, k) == pos + k;
    }
  }
}

/** The buffered result set: rows stored by the client library, read through a native cursor. */
module BufferedCursor {
  import opened Basics
  import opened Cursor

  /** row_position, the offset of the native cursor, and the row last fetched. */
  datatype State<Row> = State(pos: nat, offset: nat, row: Option<Row>)

  function Fetched<Row>(rows: seq<Row>, s: State<Row>): State<Row> {
    if s.offset < |rows| then s.(row := Some(rows[s.offset]), offset := s.offset + 1)
    else s.(row := None)
  }

  /** seek(): go to row p and fetch it. */
  function Sought<Row>(rows: seq<Row>, s: State<Row>, p: nat): State<Row>
    requires OnRow(|rows|, p)
  {
    Fetched(rows, s.(pos := p, offset := p - 1))
  }

  function Step<Row>(rows: seq<Row>, s: State<Row>, move: Move): State<Row> {
    var n := |rows|;
    var p := Landed(n, s.pos, move);
    match move
    case Next =>
      if s.pos == n then s.(pos := n + 1)
      else if s.pos < n + 1 then Fetched(rows, s).(pos := s.pos + 1)
      else s
    case Previous =>
      if s.pos == 0 then s
      else if s.pos == 1 then s.(pos := 0, offset := 0)
      else if OnRow(n, p) then Sought(rows, s, p)
      else s.(pos := p)
    case BeforeFirst => s.(pos := 0, offset := 0)
    case AfterLast => s.(pos := n + 1)
    case Absolute(k) => if k == 0 then s.(pos := 0, offset := 0)
                        else if OnRow(n, p) then Sought(rows, s, p)
                        else s.(pos := p)
    case Relative(k) => if k == 0 then s
                        else if OnRow(n, p) then Sought(rows, s, p)
                        else s.(pos := p)
    case _ => if n == 0 then s else Sought(rows, s, p)
  }

  /** next() answers whether it fetched a row; the other moves answer from the position. */
  function Answer<Row>(rows: seq<Row>, s: State<Row>, move: Move): bool {
    if move == Next then s.pos < |rows| && s.offset < |rows|
    else OnRow(|rows|, Step(rows, s, move).pos)
  }

  function See<Row>(rows: seq<Row>, s: State<Row>, move: Move): Seen<Row> {
    var t := Step(rows, s, move);
    Seen(Answer(rows, s, move), t.pos, if OnRow(|rows|, t.pos) then t.row else None)
  }

  function Trace<Row>(rows: seq<Row>, s: State<Row>, moves: seq<Move>): seq<Seen<Row>>
    decreases |moves|
  {
    if moves == [] then []
    else [See(rows, s, moves[0])] + Trace(rows, Step(rows, s, moves[0]), moves[1..])
  }

  lemma TraceHead<Row>(rows: seq<Row>, s: State<Row>, moves: seq<Move>, i: nat)
    requires i < |moves|
    ensures Trace(rows, s, moves[i..]) == [See(rows, s, moves[i])] + Trace(rows, Step(rows, s, moves[i]), moves[i + 1..])
  {
    hide See, Step;
    assert moves[i..][1..] == moves[i + 1..];
  }

  // ---------------------------------------------------------------------
  // When the buffered result set is a correct cursor
  // ---------------------------------------------------------------------

  /** The ways of leaving the rows that rewind the native cursor. */
  predicate Rewinds(pos: nat, move: Move) {
    move == BeforeFirst || move == Absolute(0) || (move == Previous && pos == 1)
  }

  /** Whether the cursor has been on a row since the native cursor was last rewound. */
  function Strayed(n: nat, pos: nat, strayed: bool, move: Move): bool {
    if OnRow(n, Moved(n, pos, move)) then true
    else if Rewinds(pos, move) then false
    else strayed
  }

  /** No next() from before the first row while the native cursor is not at its start, and no cast that matters. */
  predicate Safe(n: nat, pos: nat, strayed: bool, move: Move) {
    !(move == Next && pos == 0 && strayed) && CastOk(n, move)
  }

  predicate Careful(n: nat, pos: nat, strayed: bool, moves: seq<Move>)
    decreases |moves|
  {
    moves == [] ||
    (Safe(n, pos, strayed, moves[0]) &&
     Careful(n, Moved(n, pos, moves[0]), Strayed(n, pos, strayed, moves[0]), moves[1..]))
  }

  predicate InStep<Row(==)>(rows: seq<Row>, s: State<Row>, pos: nat, strayed: bool) {
    && s.pos == pos <= |rows| + 1
    && s.offset <= |rows|
    && (strayed <==> s.offset != 0)
    && (OnRow(|rows|, pos) ==> s.offset == pos && s.row == Some(rows[pos - 1]))
  }

  lemma StepKeeps<Row>(rows: seq<Row>, s: State<Row>, pos: nat, strayed: bool, move: Move)
    requires InStep(rows, s, pos, strayed)
    ensures Safe(|rows|, pos, strayed, move) ==>
              && InStep(rows, Step(rows, s, move), Moved(|rows|, pos, move), Strayed(|rows|, pos, strayed, move))
              && See(rows, s, move) == Expected(rows, Moved(|rows|, pos, move))
    ensures !Safe(|rows|, pos, strayed, move) && Distinct(rows) ==>
              See(rows, s, move) != Expected(rows, Moved(|rows|, pos, move))
  {
    AbsoluteIff(|rows|, pos, move);
    hide CastOk, CastAbsolute;
  }

  lemma {:induction false} TraceIff<Row>(rows: seq<Row>, s: State<Row>, pos: nat, strayed: bool, moves: seq<Move>)
    requires InStep(rows, s, pos, strayed)
    ensures Careful(|rows|, pos, strayed, moves) ==> Trace(rows, s, moves) == Ideal(rows, pos, moves)
    ensures Distinct(rows) && Trace(rows, s, moves) == Ideal(rows, pos, moves)
            ==> Careful(|rows|, pos, strayed, moves)
    decreases |moves|
  {
    if moves == [] {
    } else {
      var move := moves[0];
      StepKeeps(rows, s, pos, strayed, move);
      var p := Moved(|rows|, pos, move);
      var got, want := Trace(rows, s, moves), Ideal(rows, pos, moves);
      assert got[0] == See(rows, s, move) && want[0] == Expected(rows, p);
      assert got[1..] == Trace(rows, Step(rows, s, move), moves[1..]);
      assert want[1..] == Ideal(rows, p, moves[1..]);
      if Safe(|rows|, pos, strayed, move) {
        TraceIff(rows, Step(rows, s, move), p, Strayed(|rows|, pos, strayed, move), moves[1..]);
      }
    }
  }

  /**
    From a new result set: every careful run is seen as the ideal cursor's,
    and with distinguishable rows no other run is.
    */
  lemma BufferedRefinesIff<Row>(rows: seq<Row>, moves: seq<Move>)
    ensures Careful(|rows|, 0, false, moves) ==> Trace(rows, State(0, 0, None), moves) == Ideal(rows, 0, moves)
    ensures Distinct(rows) ==>
              (Careful(|rows|, 0, false, moves) <==> Trace(rows, State(0, 0, None), moves) == Ideal(rows, 0, moves))
  {
    TraceIff(rows, State(0, 0, None), 0, false, moves);
  }

  /** A run that enters the position before the first row only by a rewinding move is careful. */
  lemma {:induction false} RewindingIsCareful(n: nat, pos: nat, strayed: bool, moves: seq<Move>)
    requires pos == 0 ==> !strayed
    requires EntersFrontByRewinding(n, pos, moves) && forall move | move in moves :: CastOk(n, move)
    ensures Careful(n, pos, strayed, moves)
    decreases |moves|
  {
    if moves == [] {
    } else {
      RewindingIsCareful(n, Moved(n, pos, moves[0]), Strayed(n, pos, strayed, moves[0]), moves[1..]);
    }
  }

  predicate EntersFrontByRewinding(n: nat, pos: nat, moves: seq<Move>)
    decreases |moves|
  {
    moves == [] ||
    var p := Moved(n, pos, moves[0]);
    (p == 0 && pos != 0 ==> Rewinds(pos, moves[0])) && EntersFrontByRewinding(n, p, moves[1..])
  }

  /** After absolute(-2) or relative(-1) from the only row, next() reports no row where there is one. */
  lemma UnderflowLosesTheRow<Row>(r: Row)
    ensures forall m | m in [Absolute(-2), Relative(-1)] ::
              var s := Step([r], Step([r], State(0, 0, None), First), m);
              s.pos == 0 && See([r], s, Next) == Seen(false, 1, None) != Expected([r], 1)
  {
    var on := Step([r], State(0, 0, None), First);
    assert on == State(1, 1, Some(r));
    forall m | m in [Absolute(-2), Relative(-1)]
      ensures Step([r], on, m) == State(0, 1, Some(r))
    {
      assert Moved(1, 1, m) == 0;
    }
  }
}

/** The result set of a prepared statement: rows are fetched into bound buffers. */
module PreparedCursor {
  import opened Basics
  import opened Cursor

  /** row_position, the offset of the native cursor, and the row in the bound buffers. */
  datatype State<Row> = State(pos: nat, offset: nat, bound: Option<Row>)

  function Fetched<Row>(rows: seq<Row>, s: State<Row>): State<Row> {
    if s.offset < |rows| then s.(bound := Some(rows[s.offset]), offset := s.offset + 1) else s
  }

  /** seek(): go to row p and fetch it. */
  function Sought<Row>(rows: seq<Row>, s: State<Row>, p: nat): State<Row>
    requires OnRow(|rows|, p)
  {
    Fetched(rows, s.(pos := p, offset := p - 1))
  }

  function Step<Row>(rows: seq<Row>, s: State<Row>, move: Move): State<Row> {
    var n := |rows|;
    var p := Landed(n, s.pos, move);
    match move
    case Next =>
      if s.pos == n then s.(pos := n + 1)
      else if s.pos < n + 1 then
        Fetched(rows, if s.pos == 0 then s.(offset := 0) else s).(pos := s.pos + 1)
      else s
    case Previous =>
      if s.pos == 0 then s
      else if s.pos == 1 then s.(pos := 0, offset := 0)
      else if OnRow(n, p) then Sought(rows, s, p)
      else s.(pos := p)
    case BeforeFirst => s.(pos := 0, offset := 0)
    case AfterLast => s.(pos := n + 1)
    case Absolute(k) => if k == 0 then s.(pos := 0, offset := 0)
                        else if OnRow(n, p) then Sought(rows, s, p)
                        else s.(pos := p)
    case Relative(k) => if k == 0 then s
                        else if OnRow(n, p) then s.(pos := p, offset := p - 1)
                        else s.(pos := p)
    case _ => if n == 0 then s else Sought(rows, s, p)
  }

  function Answer<Row>(rows: seq<Row>, s: State<Row>, move: Move): bool {
    if move == Next then s.pos < |rows| && (s.pos == 0 || s.offset < |rows|)
    else OnRow(|rows|, Step(rows, s, move).pos)
  }

  function See<Row>(rows: seq<Row>, s: State<Row>, move: Move): Seen<Row> {
    var t := Step(rows, s, move);
    Seen(Answer(rows, s, move), t.pos, if OnRow(|rows|, t.pos) then t.bound else None)
  }

  function Trace<Row>(rows: seq<Row>, s: State<Row>, moves: seq<Move>): seq<Seen<Row>>
    decreases |moves|
  {
    if moves == [] then []
    else [See(rows, s, moves[0])] + Trace(rows, Step(rows, s, moves[0]), moves[1..])
  }

  lemma TraceHead<Row>(rows: seq<Row>, s: State<Row>, moves: seq<Move>, i: nat)
    requires i < |moves|
    ensures Trace(rows, s, moves[i..]) == [See(rows, s, moves[i])] + Trace(rows, Step(rows, s, moves[i]), moves[i + 1..])
  {
    hide See, Step;
    assert moves[i..][1..] == moves[i + 1..];
  }

  // ---------------------------------------------------------------------
  // When the prepared result set is a correct cursor
  // ---------------------------------------------------------------------

  /** What the caller can work out: the row last fetched, and whether relative() came after that fetch. */
  datatype Memo = Memo(last: nat, lagging: bool)

  function Remember(n: nat, pos: nat, memo: Memo, move: Move): Memo {
    var p := Moved(n, pos, move);
    if !OnRow(n, p) then memo
    else if !move.Relative? then Memo(p, false)
    else if move.k != 0 then memo.(lagging := true)
    else memo
  }

  /** relative() must land on the row last fetched, and next() must not follow a relative(). */
  predicate Safe(n: nat, pos: nat, memo: Memo, move: Move) {
    match move
    case Relative(k) => k != 0 && OnRow(n, pos + k) ==> pos + k == memo.last
    case Next => OnRow(n, pos) && pos < n ==> !memo.lagging
    case _ => CastOk(n, move)
  }

  predicate Careful(n: nat, pos: nat, memo: Memo, moves: seq<Move>)
    decreases |moves|
  {
    moves == [] ||
    (Safe(n, pos, memo, moves[0]) &&
     Careful(n, Moved(n, pos, moves[0]), Remember(n, pos, memo, moves[0]), moves[1..]))
  }

  predicate InStep<Row(==)>(rows: seq<Row>, s: State<Row>, pos: nat, memo: Memo) {
    && s.pos == pos <= |rows| + 1
    && memo.last <= |rows|
    && s.bound == RowAt(rows, memo.last)
    && (OnRow(|rows|, pos) ==> memo.last == pos && s.offset == (if memo.lagging then pos - 1 else pos))
  }

  lemma StepKeeps<Row>(rows: seq<Row>, s: State<Row>, pos: nat, memo: Memo, move: Move)
    requires InStep(rows, s, pos, memo)
    ensures Safe(|rows|, pos, memo, move) ==>
              && InStep(rows, Step(rows, s, move), Moved(|rows|, pos, move), Remember(|rows|, pos, memo, move))
              && See(rows, s, move) == Expected(rows, Moved(|rows|, pos, move))
    ensures !Safe(|rows|, pos, memo, move) && Distinct(rows) ==>
              See(rows, s, move) != Expected(rows, Moved(|rows|, pos, move))
  {
    AbsoluteIff(|rows|, pos, move);
    hide CastOk, CastAbsolute;
  }

  lemma {:induction false} TraceIff<Row>(rows: seq<Row>, s: State<Row>, pos: nat, memo: Memo, moves: seq<Move>)
    requires InStep(rows, s, pos, memo)
    ensures Careful(|rows|, pos, memo, moves) ==> Trace(rows, s, moves) == Ideal(rows, pos, moves)
    ensures Distinct(rows) && Trace(rows, s, moves) == Ideal(rows, pos, moves)
            ==> Careful(|rows|, pos, memo, moves)
    decreases |moves|
  {
    if moves == [] {
    } else {
      var move := moves[0];
      StepKeeps(rows, s, pos, memo, move);
      var p := Moved(|rows|, pos, move);
      var got, want := Trace(rows, s, moves), Ideal(rows, pos, moves);
      assert got[0] == See(rows, s, move) && want[0] == Expected(rows, p);
      assert got[1..] == Trace(rows, Step(rows, s, move), moves[1..]);
      assert want[1..] == Ideal(rows, p, moves[1..]);
      if Safe(|rows|, pos, memo, move) {
        TraceIff(rows, Step(rows, s, move), p, Remember(|rows|, pos, memo, move), moves[1..]);
      }
    }
  }

  /**
    From a new result set: every careful run is seen as the ideal cursor's,
    and with distinguishable rows no other run is.
    */
  lemma PreparedRefinesIff<Row>(rows: seq<Row>, moves: seq<Move>)
    ensures Careful(|rows|, 0, Memo(0, false), moves) ==>
              Trace(rows, State(0, 0, None), moves) == Ideal(rows, 0, moves)
    ensures Distinct(rows) ==>
              (Careful(|rows|, 0, Memo(0, false), moves) <==>
               Trace(rows, State(0, 0, None), moves) == Ideal(rows, 0, moves))
  {
    TraceIff(rows, State(0, 0, None), 0, Memo(0, false), moves);
  }

  /** Without a relative() that ends on a row, every run is careful. */
  lemma {:induction false} NoRelativeIsCareful(n: nat, pos: nat, memo: Memo, moves: seq<Move>)
    requires !memo.lagging && NoRelative(n, pos, moves) && forall move | move in moves :: CastOk(n, move)
    ensures Careful(n, pos, memo, moves)
    decreases |moves|
  {
    if moves == [] {
    } else {
      NoRelativeIsCareful(n, Moved(n, pos, moves[0]), Remember(n, pos, memo, moves[0]), moves[1..]);
    }
  }

  predicate NoRelative(n: nat, pos: nat, moves: seq<Move>)
    decreases |moves|
  {
    moves == [] ||
    (!(moves[0].Relative? && moves[0].k != 0 && OnRow(n, pos + moves[0].k)) &&
     NoRelative(n, Moved(n, pos, moves[0]), moves[1..]))
  }

  /** From a row reached in step, a relative() to any other row shows the old row at the new position. */
  lemma RelativeShowsTheOldRow<Row>(rows: seq<Row>, s: State<Row>, pos: nat, memo: Memo, k: Int)
    requires InStep(rows, s, pos, memo) && OnRow(|rows|, pos) && k != 0 && OnRow(|rows|, pos + k)
    ensures See(rows, s, Relative(k)) == Seen(true, pos + k, Some(rows[pos - 1]))
    ensures !Safe(|rows|, pos, memo, Relative(k))
  {
  }
}
