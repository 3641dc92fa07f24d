/**
  The three result set classes. The in-memory one moves a list iterator and
  is a correct cursor on every run; the other two move a native cursor, and
  their methods are proved to make the steps of BufferedCursor and
  PreparedCursor.
  */
module ArtResultSets {
  import opened Basics
  import opened Cursor
  import opened Utf8
  import opened CaseFold

  /** The key under which a column name is stored and looked up. */
  function Folded(name: seq<Byte>): seq<Byte> {
    CaseUp(CString(name + [0]))
  }

  /** The first k columns are in the name index, later ones over earlier ones. */
  ghost predicate Indexed(names: seq<seq<Byte>>, k: nat, byName: map<seq<Byte>, nat>, byIndex: seq<seq<Byte>>) {
    && k <= |names| && |byIndex| == k
    && (forall i | 0 <= i < k :: byIndex[i] == Folded(names[i]) && byIndex[i] in byName)
    && (forall key | key in byName ::
          byName[key] < k && byIndex[byName[key]] == key &&
          forall i | byName[key] < i < k :: byIndex[i] != key)
  }

  lemma IndexStep(names: seq<seq<Byte>>, k: nat, byName: map<seq<Byte>, nat>, byIndex: seq<seq<Byte>>)
    requires k < |names| && Indexed(names, k, byName, byIndex)
    ensures Indexed(names, k + 1, byName[Folded(names[k]) := k], byIndex + [Folded(names[k])])
  {
    hide Folded;
  }

  /** utf8_strup on a name, and the string made of its result. */
  method FoldName(name: seq<Byte>) returns (upstring: seq<Byte>)
    ensures upstring == Folded(name)
  {
    hide CaseUp, CString;
    var buffer := StrUp(name + [0], 0);
    NoNulInCString(name + [0]);
    upstring := CString(buffer[..]);
  }

  class ArtResultSet<Row> {
    const rset: seq<Row>
    const numRows: nat
    var currentRecord: nat   // the list iterator, as an index; |rset| is end()
    var rowPosition: nat
    ghost const names: seq<seq<Byte>>
    var nameToIndex: map<seq<Byte>, nat>
    var indexToName: seq<seq<Byte>>

    ghost predicate Valid()
      reads this
    {
      && numRows == |rset| <= MOST_ROWS
      && rowPosition <= numRows + 1
      && currentRecord == (if rowPosition == 0 then 0 else rowPosition - 1)
      && Indexed(names, |names|, nameToIndex, indexToName)
    }

    constructor (fn: seq<seq<Byte>>, rs: seq<Row>)
      requires |rs| <= MOST_ROWS
      ensures Valid() && rset == rs && names == fn && rowPosition == 0
    {
      rset, numRows := rs, |rs|;
      currentRecord, rowPosition := 0, 0;
      names, nameToIndex, indexToName := fn, map[], [];
      new;
      hide Folded;
      var idx := 0;
      while idx < |fn|
        invariant idx <= |fn| && Indexed(names, idx, nameToIndex, indexToName)
        invariant currentRecord == rowPosition == 0
      {
        var upstring := FoldName(fn[idx]);
        IndexStep(names, idx, nameToIndex, indexToName);
        nameToIndex := nameToIndex[upstring := idx];
        indexToName := indexToName + [upstring];
        idx := idx + 1;
      }
    }

    /** findColumn: 1 + the last column whose folded name is the folded label, or 0. */
    method FindColumn(columnLabel: seq<Byte>) returns (r: nat)
      requires Valid()
      ensures r <= |names|
      ensures r > 0 ==> Folded(names[r - 1]) == Folded(columnLabel)
      ensures forall i | r <= i < |names| :: Folded(names[i]) != Folded(columnLabel)
    {
      hide Folded;
      var upstring := FoldName(columnLabel);
      if upstring in nameToIndex {
        r := nameToIndex[upstring] + 1;
      } else {
        r := 0;
      }
    }

    /** With ASCII names: 1 + the last column whose name is the label up to the case of letters, or 0. */
    method FindAsciiColumn(columnLabel: seq<Byte>) returns (r: nat)
      requires Valid() && IsAscii(columnLabel) && 0 !in columnLabel
      requires forall i | 0 <= i < |names| :: IsAscii(names[i]) && 0 !in names[i]
      ensures r <= |names|
      ensures r > 0 ==> SameText(names[r - 1], columnLabel)
      ensures forall i | r <= i < |names| :: !SameText(names[i], columnLabel)
    {
      hide Folded, SameText, IsAscii;
      r := FindColumn(columnLabel);
      forall i | 0 <= i < |names| ensures Folded(names[i]) == Folded(columnLabel) <==> SameText(names[i], columnLabel) {
        AsciiNamesIff(names[i], columnLabel);
      }
    }

    /** The stored label of a column finds that column, if the folded names differ. */
    method FindByStoredLabel(i: nat) returns (r: nat)
      requires Valid() && i < |names|
      requires forall j, k | 0 <= j < k < |names| :: Folded(names[j]) != Folded(names[k])
      ensures r == i + 1
    {
      FoldedTwice(names[i]);
      hide Folded;
      r := FindColumn(indexToName[i]);
      assert Folded(names[i]) == Folded(indexToName[i]);
    }

    // -------------------------------------------------------------------
    // The cursor
    // -------------------------------------------------------------------

    /** ++current_record, which end() does not allow */
    method Advance()
      requires currentRecord < |rset|
      modifies this`currentRecord
      ensures currentRecord == old(currentRecord) + 1
    {
      currentRecord := currentRecord + 1;
    }

    /** --current_record, which begin() does not allow */
    method Retreat()
      requires currentRecord > 0
      modifies this`currentRecord
      ensures currentRecord == old(currentRecord) - 1
    {
      currentRecord := currentRecord - 1;
    }

    method Seek()
      requires numRows == |rset| && rowPosition <= numRows + 1
      modifies this`currentRecord
      ensures currentRecord == (if rowPosition == 0 then 0 else rowPosition - 1)
    {
      currentRecord := 0;
      var i := rowPosition - 1;
      while i > 0
        invariant i <= rowPosition - 1
        invariant currentRecord == (if rowPosition == 0 then 0 else rowPosition - 1 - i)
        invariant rowPosition > 0 ==> i >= 0
      {
        Advance();
        i := i - 1;
      }
    }

    method AfterLast()
      requires Valid()
      modifies this`rowPosition, this`currentRecord
      ensures Valid() && rowPosition == Moved(numRows, old(rowPosition), Move.AfterLast)
    {
      hide Indexed;
      rowPosition := numRows + 1;
      Seek();
    }

    method BeforeFirst()
      requires Valid()
      modifies this`rowPosition, this`currentRecord
      ensures Valid() && rowPosition == Moved(numRows, old(rowPosition), Move.BeforeFirst)
    {
      hide Indexed;
      rowPosition := 0;
      Seek();
    }

    method Absolute(row: Int) returns (ret: bool)
      requires Valid()
      modifies this`rowPosition, this`currentRecord
      ensures Valid() && rowPosition == Landed(numRows, old(rowPosition), Move.Absolute(row))
      ensures ret == OnRow(numRows, rowPosition)
    {
      hide Indexed;
      if row > 0 {
        if row > ToInt(numRows) {
          AfterLast();
        } else {
          rowPosition := row;
          Seek();
          return true;
        }
      } else if row < 0 {
        if -row > ToInt(numRows) {
          BeforeFirst();
        } else {
          rowPosition := numRows - (-row) + 1;
          Seek();
          return true;
        }
      } else {
        BeforeFirst();
      }
      return rowPosition > 0 && rowPosition < numRows + 1;
    }

    method First() returns (ret: bool)
      requires Valid()
      modifies this`rowPosition, this`currentRecord
      ensures Valid() && rowPosition == Moved(numRows, old(rowPosition), Move.First)
      ensures ret == OnRow(numRows, rowPosition)
    {
      hide Indexed;
      if numRows != 0 {
        rowPosition := 1;
        Seek();
      }
      return numRows != 0;
    }

    method Last() returns (ret: bool)
      requires Valid()
      modifies this`rowPosition, this`currentRecord
      ensures Valid() && rowPosition == Moved(numRows, old(rowPosition), Move.Last)
      ensures ret == OnRow(numRows, rowPosition)
    {
      hide Indexed;
      if numRows != 0 {
        rowPosition := numRows;
        Seek();
      }
      return numRows != 0;
    }

    method Next() returns (ret: bool)
      requires Valid()
      modifies this`rowPosition, this`currentRecord
      ensures Valid() && rowPosition == Moved(numRows, old(rowPosition), Move.Next)
      ensures ret == OnRow(numRows, rowPosition)
    {
      hide Indexed;
      ret := false;
      if rowPosition == numRows {
        AfterLast();
      } else if rowPosition == 0 {
        var first := First();
        ret := true;
      } else if rowPosition > 0 && rowPosition < numRows {
        Advance();
        rowPosition := rowPosition + 1;
        ret := true;
      }
    }

    method Previous() returns (ret: bool)
      requires Valid()
      modifies this`rowPosition, this`currentRecord
      ensures Valid() && rowPosition == Moved(numRows, old(rowPosition), Move.Previous)
      ensures ret == OnRow(numRows, rowPosition)
    {
      hide Indexed;
      if rowPosition == 0 {
        return false;
      } else if rowPosition == 1 {
        BeforeFirst();
        return false;
      } else {
        rowPosition := rowPosition - 1;
        Retreat();
        return true;
      }
    }

    method Relative(rows: Int) returns (ret: bool)
      requires Valid()
      modifies this`rowPosition, this`currentRecord
      ensures Valid() && rowPosition == Moved(numRows, old(rowPosition), Move.Relative(rows))
      ensures ret == OnRow(numRows, rowPosition)
    {
      hide Indexed;
      if rows != 0 {
        WrappedTest(numRows, rowPosition, rows);
        if Wrapped(rowPosition, rows) > numRows || Wrapped(rowPosition, rows) < 1 {
          if rows > 0 {
            AfterLast();
          } else {
            BeforeFirst();
          }
        } else {
          rowPosition := Wrapped(rowPosition, rows);
          Seek();
        }
      }
      return rowPosition > 0 && rowPosition <= numRows;
    }

    /** What the getters read: the record under the iterator, once on a row. */
    function Record(): (r: Row)
      requires Valid() && OnRow(numRows, rowPosition)
      reads this
      ensures Some(r) == RowAt(rset, rowPosition)
    {
      rset[currentRecord]
    }

    /** A whole run of moves: what its client sees is what LandingIff is about. */
    method Perform(moves: seq<Move>) returns (seen: seq<Seen<Row>>)
      requires Valid()
      modifies this`rowPosition, this`currentRecord
      ensures Valid() && seen == Landing(rset, old(rowPosition), moves)
      ensures (forall move | move in moves :: CastOk(|rset|, move)) <==> seen == Ideal(rset, old(rowPosition), moves)
    {
      hide Indexed, Landing, Landed, Ideal, CastOk;
      LandingIff(rset, rowPosition, moves);
      LandingEnds(rset, moves);
      seen := [];
      ghost var all := Landing(rset, rowPosition, moves);
      for i := 0 to |moves|
        invariant Valid() && all == seen + Landing(rset, rowPosition, moves[i..])
      {
        ghost var at, before := rowPosition, seen;
        LandingHead(rset, rowPosition, moves, i);
        var answer := Make(moves[i]);
        var record := if OnRow(numRows, rowPosition) then Some(Record()) else None;
        seen := seen + [Seen(answer, rowPosition, record)];
        assert all == before + ([Expected(rset, rowPosition)] + Landing(rset, rowPosition, moves[i + 1..]));
      }
    }

    method Make(move: Move) returns (answer: bool)
      requires Valid()
      modifies this`rowPosition, this`currentRecord
      ensures Valid() && rowPosition == Landed(numRows, old(rowPosition), move)
      ensures answer == OnRow(numRows, rowPosition)
    {
      hide Indexed, Landed;
      LandedMoves(numRows, rowPosition, move);
      match move
      case Next => answer := Next();
      case Previous => answer := Previous();
      case First => answer := First();
      case Last => answer := Last();
      case BeforeFirst => BeforeFirst(); answer := false;
      case AfterLast => AfterLast(); answer := false;
      case Absolute(k) => answer := Absolute(k);
      case Relative(k) => answer := Relative(k);
    }

    /** while (next()) reads every row once, in order, and stops. */
    method ReadForward() returns (visited: seq<Row>)
      requires Valid() && rowPosition == 0
      modifies this`rowPosition, this`currentRecord
      ensures Valid() && visited == rset && rowPosition == numRows + 1
    {
      hide Indexed;
      visited := [];
      var more := Next();
      while more
        invariant Valid() && more == OnRow(numRows, rowPosition) && rowPosition > 0
        invariant visited == rset[..rowPosition - 1]
        decreases numRows + 1 - rowPosition
      {
        visited := visited + [Record()];
        more := Next();
      }
    }

    /** afterLast() and while (previous()) read every row once, last to first. */
    method ReadBackward() returns (visited: seq<Row>)
      requires Valid()
      modifies this`rowPosition, this`currentRecord
      ensures Valid() && rowPosition == 0
      ensures |visited| == |rset| && forall i | 0 <= i < |rset| :: visited[i] == rset[|rset| - 1 - i]
    {
      hide Indexed;
      visited := [];
      AfterLast();
      var more := Previous();
      while more
        invariant Valid() && more == OnRow(numRows, rowPosition) && rowPosition <= numRows
        invariant |visited| == numRows - rowPosition
        invariant forall i | 0 <= i < |visited| :: visited[i] == rset[numRows - 1 - i]
        decreases rowPosition
      {
        visited := visited + [Record()];
        more := Previous();
      }
    }
  }

  lemma LandedMoves(n: nat, pos: nat, move: Move)
    ensures !move.Absolute? ==> Landed(n, pos, move) == Moved(n, pos, move)
  {
  }

  lemma {:induction false} NoNulInCString(mem: seq<Byte>)
    ensures 0 !in CString(mem)
  {
    if mem == [] || mem[0] == 0 {
    } else {
      NoNulInCString(mem[1..]);
    }
  }

  /** Two ASCII names have the same key exactly when they are equal up to the case of their letters. */
  lemma AsciiNamesIff(a: seq<Byte>, b: seq<Byte>)
    requires IsAscii(a) && IsAscii(b) && 0 !in a && 0 !in b
    ensures Folded(a) == Folded(b) <==> SameText(a, b)
  {
    hide CaseUp, CString, SameText;
    CStringOf(a, []);
    CStringOf(b, []);
    assert a + [0] + [] == a + [0] && b + [0] + [] == b + [0];
    AsciiFoldIff(a, b);
  }

  lemma FoldedTwice(name: seq<Byte>)
    ensures Folded(Folded(name)) == Folded(name)
  {
    var text := CString(name + [0]);
    NoNulInCString(name + [0]);
    CaseUpLength(text);
    CaseUpTwice(text);
    CStringOf(CaseUp(text), []);
    assert CaseUp(text) + [0] + [] == CaseUp(text) + [0];
  }
}

/** MySQL_ResultSet: a native result whose rows the client library holds. */
module BufferedResultSets {
  import opened Basics
  import opened Cursor
  import C = BufferedCursor

  class BufferedResultSet<Row> {
    const rows: seq<Row>
    const numRows: nat
    var offset: nat          // where the native cursor stands
    var rowPosition: nat
    var row: Option<Row>

    ghost predicate Valid()
      reads this
    {
      numRows == |rows| <= MOST_ROWS && rowPosition <= numRows + 1
    }

    ghost function View(): C.State<Row>
      reads this
    {
      C.State(rowPosition, offset, row)
    }

    constructor (rs: seq<Row>)
      requires |rs| <= MOST_ROWS
      ensures Valid() && rows == rs && View() == C.State(0, 0, None)
    {
      rows, numRows := rs, |rs|;
      offset, rowPosition, row := 0, 0, None;
    }

    method DataSeek(k: nat)
      modifies this`offset
      ensures offset == k
    {
      offset := k;
    }

    method FetchRow()
      modifies this`offset, this`row
      ensures View() == C.Fetched(rows, old(View()))
    {
      if offset < |rows| {
        row := Some(rows[offset]);
        offset := offset + 1;
      } else {
        row := None;
      }
    }

    method Seek()
      requires Valid() && OnRow(numRows, rowPosition)
      modifies this`offset, this`row
      ensures View() == C.Sought(rows, old(View()), rowPosition)
    {
      DataSeek(rowPosition - 1);
      FetchRow();
    }

    method AfterLast()
      requires Valid()
      modifies this
      ensures Valid() && View() == C.Step(rows, old(View()), Move.AfterLast)
    {
      rowPosition := numRows + 1;
    }

    method BeforeFirst()
      requires Valid()
      modifies this
      ensures Valid() && View() == C.Step(rows, old(View()), Move.BeforeFirst)
    {
      DataSeek(0);
      rowPosition := 0;
    }

    method Absolute(newPos: Int) returns (ret: bool)
      requires Valid()
      modifies this
      ensures Valid() && View() == C.Step(rows, old(View()), Move.Absolute(newPos))
      ensures ret == C.Answer(rows, old(View()), Move.Absolute(newPos))
    {
      if newPos > 0 {
        if newPos > ToInt(numRows) {
          rowPosition := numRows + 1;
        } else {
          rowPosition := newPos;
          Seek();
          return true;
        }
      } else if newPos < 0 {
        if -newPos > ToInt(numRows) {
          rowPosition := 0;
        } else {
          rowPosition := numRows - (-newPos) + 1;
          Seek();
          return true;
        }
      } else {
        rowPosition := 0;
        DataSeek(0);
      }
      return rowPosition > 0 && rowPosition < numRows + 1;
    }

    method First() returns (ret: bool)
      requires Valid()
      modifies this
      ensures Valid() && View() == C.Step(rows, old(View()), Move.First)
      ensures ret == C.Answer(rows, old(View()), Move.First)
    {
      if numRows != 0 {
        rowPosition := 1;
        Seek();
      }
      return numRows != 0;
    }

    method Last() returns (ret: bool)
      requires Valid()
      modifies this
      ensures Valid() && View() == C.Step(rows, old(View()), Move.Last)
      ensures ret == C.Answer(rows, old(View()), Move.Last)
    {
      if numRows != 0 {
        rowPosition := numRows;
        Seek();
      }
      return numRows != 0;
    }

    method Next() returns (ret: bool)
      requires Valid()
      modifies this
      ensures Valid() && View() == C.Step(rows, old(View()), Move.Next)
      ensures ret == C.Answer(rows, old(View()), Move.Next)
    {
      ret := false;
      if rowPosition == numRows {
        AfterLast();
      } else if rowPosition < numRows + 1 {
        FetchRow();
        rowPosition := rowPosition + 1;
        ret := row.Some?;
      }
    }

    method Previous() returns (ret: bool)
      requires Valid()
      modifies this
      ensures Valid() && View() == C.Step(rows, old(View()), Move.Previous)
      ensures ret == C.Answer(rows, old(View()), Move.Previous)
    {
      if rowPosition == 0 {
        return false;
      } else if rowPosition == 1 {
        BeforeFirst();
        return false;
      } else {
        rowPosition := rowPosition - 1;
        Seek();
        return true;
      }
    }

    method Relative(count: Int) returns (ret: bool)
      requires Valid()
      modifies this
      ensures Valid() && View() == C.Step(rows, old(View()), Move.Relative(count))
      ensures ret == C.Answer(rows, old(View()), Move.Relative(count))
    {
      if count != 0 {
        WrappedTest(numRows, rowPosition, count);
        if Wrapped(rowPosition, count) > numRows || Wrapped(rowPosition, count) < 1 {
          rowPosition := if count > 0 then numRows + 1 else 0;
        } else {
          rowPosition := Wrapped(rowPosition, count);
          Seek();
        }
      }
      return rowPosition > 0 && rowPosition <= numRows;
    }

    /** A whole run of moves on the object: what its client sees is the trace the refinement theorem is about. */
    method Perform(moves: seq<Move>) returns (seen: seq<Seen<Row>>)
      requires Valid()
      modifies this
      ensures Valid() && seen == C.Trace(rows, old(View()), moves)
    {
      hide C.Step, C.Answer;
      seen := [];
      ghost var all := C.Trace(rows, View(), moves);
      for i := 0 to |moves|
        invariant Valid() && all == seen + C.Trace(rows, View(), moves[i..])
      {
        hide C.Trace;
        ghost var at, before := View(), seen;
        C.TraceHead(rows, at, moves, i);
        var answer := Make(moves[i]);
        seen := seen + [Seen(answer, rowPosition, if OnRow(numRows, rowPosition) then row else None)];
        assert all == before + ([C.See(rows, at, moves[i])] + C.Trace(rows, View(), moves[i + 1..]));
      }
    }

    method Make(move: Move) returns (answer: bool)
      requires Valid()
      modifies this
      ensures Valid() && View() == C.Step(rows, old(View()), move)
      ensures answer == C.Answer(rows, old(View()), move)
    {
      match move
      case Next => answer := Next();
      case Previous => answer := Previous();
      case First => answer := First();
      case Last => answer := Last();
      case BeforeFirst => BeforeFirst(); answer := false;
      case AfterLast => AfterLast(); answer := false;
      case Absolute(k) => answer := Absolute(k);
      case Relative(k) => answer := Relative(k);
    }
  }
}

/** MySQL_Prepared_ResultSet: a native statement whose rows are fetched into bound buffers. */
module PreparedResultSets {
  import opened Basics
  import opened Cursor
  import C = PreparedCursor

  class PreparedResultSet<Row> {
    const rows: seq<Row>
    const numRows: nat
    var offset: nat          // where the native cursor stands
    var rowPosition: nat
    var bound: Option<Row>    // what the bound buffers hold

    ghost predicate Valid()
      reads this
    {
      numRows == |rows| <= MOST_ROWS && rowPosition <= numRows + 1
    }

    ghost function View(): C.State<Row>
      reads this
    {
      C.State(rowPosition, offset, bound)
    }

    constructor (rs: seq<Row>)
      requires |rs| <= MOST_ROWS
      ensures Valid() && rows == rs && View() == C.State(0, 0, None)
    {
      rows, numRows := rs, |rs|;
      offset, rowPosition, bound := 0, 0, None;
    }

    method DataSeek(k: nat)
      modifies this`offset
      ensures offset == k
    {
      offset := k;
    }

    /** mysql_stmt_fetch; the answer is false for MYSQL_NO_DATA. */
    method Fetch() returns (got: bool)
      modifies this`offset, this`bound
      ensures View() == C.Fetched(rows, old(View())) && got == (old(offset) < |rows|)
    {
      got := offset < |rows|;
      if got {
        bound := Some(rows[offset]);
        offset := offset + 1;
      }
    }

    method Seek()
      requires Valid() && OnRow(numRows, rowPosition)
      modifies this`offset, this`bound
      ensures View() == C.Sought(rows, old(View()), rowPosition)
    {
      DataSeek(rowPosition - 1);
      var got := Fetch();
    }

    method AfterLast()
      requires Valid()
      modifies this
      ensures Valid() && View() == C.Step(rows, old(View()), Move.AfterLast)
    {
      rowPosition := numRows + 1;
    }

    method BeforeFirst()
      requires Valid()
      modifies this
      ensures Valid() && View() == C.Step(rows, old(View()), Move.BeforeFirst)
    {
      DataSeek(0);
      rowPosition := 0;
    }

    method Absolute(newPos: Int) returns (ret: bool)
      requires Valid()
      modifies this
      ensures Valid() && View() == C.Step(rows, old(View()), Move.Absolute(newPos))
      ensures ret == C.Answer(rows, old(View()), Move.Absolute(newPos))
    {
      if newPos > 0 {
        if newPos > ToInt(numRows) {
          rowPosition := numRows + 1;
        } else {
          rowPosition := newPos;
          Seek();
          return true;
        }
      } else if newPos < 0 {
        if -newPos > ToInt(numRows) {
          rowPosition := 0;
        } else {
          rowPosition := numRows - (-newPos) + 1;
          Seek();
          return true;
        }
      } else {
        rowPosition := 0;
        BeforeFirst();
      }
      return rowPosition > 0 && rowPosition < numRows + 1;
    }

    method First() returns (ret: bool)
      requires Valid()
      modifies this
      ensures Valid() && View() == C.Step(rows, old(View()), Move.First)
      ensures ret == C.Answer(rows, old(View()), Move.First)
    {
      if numRows != 0 {
        rowPosition := 1;
        Seek();
      }
      return numRows != 0;
    }

    method Last() returns (ret: bool)
      requires Valid()
      modifies this
      ensures Valid() && View() == C.Step(rows, old(View()), Move.Last)
      ensures ret == C.Answer(rows, old(View()), Move.Last)
    {
      if numRows != 0 {
        rowPosition := numRows;
        Seek();
      }
      return numRows != 0;
    }

    method Next() returns (ret: bool)
      requires Valid()
      modifies this
      ensures Valid() && View() == C.Step(rows, old(View()), Move.Next)
      ensures ret == C.Answer(rows, old(View()), Move.Next)
    {
      ret := false;
      if rowPosition == numRows {
        rowPosition := rowPosition + 1;
      } else if rowPosition < numRows + 1 {
        if rowPosition == 0 {
          DataSeek(rowPosition);
        }
        ret := Fetch();
        rowPosition := rowPosition + 1;
      }
    }

    method Previous() returns (ret: bool)
      requires Valid()
      modifies this
      ensures Valid() && View() == C.Step(rows, old(View()), Move.Previous)
      ensures ret == C.Answer(rows, old(View()), Move.Previous)
    {
      if rowPosition == 0 {
        return false;
      } else if rowPosition == 1 {
        BeforeFirst();
        return false;
      } else {
        rowPosition := rowPosition - 1;
        DataSeek(rowPosition - 1);
        ret := Fetch();
      }
    }

    method Relative(count: Int) returns (ret: bool)
      requires Valid()
      modifies this
      ensures Valid() && View() == C.Step(rows, old(View()), Move.Relative(count))
      ensures ret == C.Answer(rows, old(View()), Move.Relative(count))
    {
      if count != 0 {
        WrappedTest(numRows, rowPosition, count);
        if Wrapped(rowPosition, count) > numRows || Wrapped(rowPosition, count) < 1 {
          rowPosition := if count > 0 then numRows + 1 else 0;
        } else {
          rowPosition := Wrapped(rowPosition, count);
          DataSeek(rowPosition - 1);
        }
      }
      return rowPosition > 0 && rowPosition <= numRows;
    }

    /** A whole run of moves on the object: what its client sees is the trace the refinement theorem is about. */
    method Perform(moves: seq<Move>) returns (seen: seq<Seen<Row>>)
      requires Valid()
      modifies this
      ensures Valid() && seen == C.Trace(rows, old(View()), moves)
    {
      hide C.Step, C.Answer;
      seen := [];
      ghost var all := C.Trace(rows, View(), moves);
      for i := 0 to |moves|
        invariant Valid() && all == seen + C.Trace(rows, View(), moves[i..])
      {
        hide C.Trace;
        ghost var at, before := View(), seen;
        C.TraceHead(rows, at, moves, i);
        var answer := Make(moves[i]);
        seen := seen + [Seen(answer, rowPosition, if OnRow(numRows, rowPosition) then bound else None)];
        assert all == before + ([C.See(rows, at, moves[i])] + C.Trace(rows, View(), moves[i + 1..]));
      }
    }

    method Make(move: Move) returns (answer: bool)
      requires Valid()
      modifies this
      ensures Valid() && View() == C.Step(rows, old(View()), move)
      ensures answer == C.Answer(rows, old(View()), move)
    {
      match move
      case Next => answer := Next();
      case Previous => answer := Previous();
      case First => answer := First();
      case Last => answer := Last();
      case BeforeFirst => BeforeFirst(); answer := false;
      case AfterLast => AfterLast(); answer := false;
      case Absolute(k) => answer := Absolute(k);
      case Relative(k) => answer := Relative(k);
    }
  }
}
