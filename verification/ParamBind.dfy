/**
  The parameters of a prepared statement as values: what is bound at each
  position, which positions are set, and which blobs the statement owns.
  `deleted` is the sequence of blobs deleted so far.
  */
module ParamBinds {
  import opened Basics

  const MAX_STRING := 256 * 1024

  /** A pointer to a stream or to a string, by address. */
  datatype Blob = NoBlob | Stream(address: nat) | Text(address: nat)

  /** memset gives a fresh binding the type DECIMAL, which is 0. */
  datatype FieldType = DecimalType | LongType | LongLongType | DoubleType | StringType | NullType | LongBlobType

  /** What a buffer holds: the words are the bytes of the number, without a sign. */
  datatype Buffer = NoBuffer | Word32(bits: nat) | Word64(bits: nat) | Float(value: real) | Chars(text: string)

  datatype Length = NoLength | Length(value: nat)

  datatype Bind = Bind(
    fieldType: FieldType, buffer: Buffer, bufferLength: nat, isNull: bool, isUnsigned: bool, length: Length)

  datatype State = State(
    bind: seq<Bind>, valueSet: seq<bool>, owns: seq<bool>, blobs: map<nat, Blob>, deleted: seq<Blob>)

  const FRESH := Bind(DecimalType, NoBuffer, 0, true, false, NoLength)

  function Fresh(n: nat): State {
    State(seq(n, _ => FRESH), seq(n, _ => false), seq(n, _ => false), map[], [])
  }

  // ---------------------------------------------------------------------
  // MySQL_ParamBind
  // ---------------------------------------------------------------------

  function BlobAt(s: State, i: nat): Blob {
    if i in s.blobs then s.blobs[i] else NoBlob
  }

  /** BlobBindDeleter: a null pointer is left alone. */
  function Delete(deleted: seq<Blob>, b: Blob): seq<Blob> {
    if b == NoBlob then deleted else deleted + [b]
  }

  function ResetBlobBind(b: Bind): Bind {
    b.(fieldType := LongBlobType, buffer := NoBuffer, bufferLength := 0, isNull := false, length := Length(0))
  }

  function Set(s: State, i: nat): State
    requires i < |s.valueSet|
  {
    s.(valueSet := s.valueSet[i := true])
  }

  function Unset(s: State, i: nat): State
    requires i < |s.valueSet| && i < |s.owns|
  {
    var t := s.(valueSet := s.valueSet[i := false]);
    if !s.owns[i] then t
    else t.(owns := s.owns[i := false], deleted := Delete(s.deleted, BlobAt(s, i)), blobs := s.blobs - {i})
  }

  function SetBlob(s: State, i: nat, blob: Blob, deleteAfter: bool): State
    requires i < |s.bind| && i < |s.valueSet| && i < |s.owns|
  {
    State(
      s.bind[i := ResetBlobBind(s.bind[i])],
      s.valueSet[i := true],
      s.owns[i := blob != NoBlob && deleteAfter],
      if blob == NoBlob then s.blobs - {i} else s.blobs[i := blob],
      if i in s.blobs && s.owns[i] then Delete(s.deleted, s.blobs[i]) else s.deleted)
  }

  /** One round of clearParameters. The ownership flag is left as it was. */
  function ClearOne(s: State, i: nat): State
    requires i < |s.bind| && i < |s.valueSet| && i < |s.owns|
  {
    var t := s.(bind := s.bind[i := s.bind[i].(length := NoLength, buffer := NoBuffer)]);
    if !s.valueSet[i] then t
    else t.(
      valueSet := s.valueSet[i := false],
      deleted := if i in s.blobs && s.owns[i] then Delete(s.deleted, s.blobs[i]) else s.deleted,
      blobs := s.blobs[i := NoBlob])
  }

  function ClearTo(s: State, k: nat): (t: State)
    requires k <= |s.bind| && |s.bind| == |s.valueSet| == |s.owns|
    ensures |t.bind| == |t.valueSet| == |t.owns| == |s.bind|
  {
    if k == 0 then s else ClearOne(ClearTo(s, k - 1), k - 1)
  }

  function Clear(s: State): State
    requires |s.bind| == |s.valueSet| == |s.owns|
  {
    ClearTo(s, |s.bind|)
  }

  /** One entry of the destructor's walk over the map, which is in key order. */
  function DestroyOne(s: State, i: nat): State
    requires i < |s.owns|
  {
    if i in s.blobs && s.owns[i] then
      s.(owns := s.owns[i := false], deleted := Delete(s.deleted, s.blobs[i]), blobs := s.blobs[i := NoBlob])
    else s
  }

  function DestroyTo(s: State, k: nat): (t: State)
    requires k <= |s.owns|
    ensures |t.owns| == |s.owns|
  {
    if k == 0 then s else DestroyOne(DestroyTo(s, k - 1), k - 1)
  }

  function Destroy(s: State): State
    requires |s.bind| == |s.valueSet| == |s.owns|
  {
    DestroyTo(Clear(s), |s.owns|)
  }

  // ---------------------------------------------------------------------
  // The setters of MySQL_Prepared_Statement
  // ---------------------------------------------------------------------

  datatype Arg =
    | Int(v: int)
    | UInt(v: int)
    | Int64(v: int)
    | UInt64(v: int)
    | Double(r: real)
    | Null
    | Str(address: nat, text: string)
    | InStream(blob: Blob)

  /** Long strings and streams are bound by address and sent when the statement is executed. */
  predicate ByAddress(arg: Arg) {
    arg.InStream? || (arg.Str? && |arg.text| > MAX_STRING)
  }

  function Pointer(arg: Arg): Blob
    requires ByAddress(arg)
  {
    if arg.Str? then Text(arg.address) else arg.blob
  }

  /** The binding a setter writes over b. */
  function Write(b: Bind, arg: Arg): Bind
    requires !ByAddress(arg)
  {
    match arg
    case Int(v) => b.(fieldType := LongType, buffer := Word32(v % WORD32), bufferLength := 0, isNull := false, length := NoLength)
    case UInt(v) => b.(fieldType := LongType, buffer := Word32(v % WORD32), bufferLength := 0, isNull := false,
                       isUnsigned := true, length := NoLength)
    case Int64(v) => b.(fieldType := LongLongType, buffer := Word64(v % WORD64), bufferLength := 0, isNull := false, length := NoLength)
    case UInt64(v) => b.(fieldType := LongLongType, buffer := Word64(v % WORD64), bufferLength := 0, isNull := false,
                         isUnsigned := true, length := NoLength)
    case Double(r) => b.(fieldType := DoubleType, buffer := Float(r), bufferLength := 0, isNull := false, length := NoLength)
    case Null => b.(fieldType := NullType, buffer := NoBuffer, length := NoLength)
    case Str(_, text) => b.(fieldType := StringType, buffer := Chars(text + ['\0']), bufferLength := |text| + 1,
                            isNull := false, length := Length(|text|))
  }

  /** A setter. The index counts from one; a wrong one is refused and changes nothing. */
  function Assign(s: State, index: nat, arg: Arg): State
    requires |s.bind| == |s.valueSet| == |s.owns|
  {
    if index == 0 || index > |s.bind| then s
    else
      var i := index - 1;
      if ByAddress(arg) then SetBlob(s, i, Pointer(arg), false)
      else
        var t := Set(Unset(SetBlob(s, i, NoBlob, false), i), i);
        t.(bind := t.bind[i := Write(t.bind[i], arg)])
  }

  predicate IsAllSet(s: State) {
    forall i | 0 <= i < |s.valueSet| :: s.valueSet[i]
  }

  // ---------------------------------------------------------------------
  // Runs
  // ---------------------------------------------------------------------

  datatype Op =
    | DoSet(i: nat)
    | DoUnset(i: nat)
    | DoSetBlob(i: nat, blob: Blob, deleteAfter: bool)
    | DoAssign(index: nat, arg: Arg)
    | DoClear

  predicate InRange(op: Op, n: nat) {
    (op.DoSet? || op.DoUnset? || op.DoSetBlob?) ==> op.i < n
  }

  function Apply(s: State, op: Op): (t: State)
    requires |s.bind| == |s.valueSet| == |s.owns| && InRange(op, |s.bind|)
    ensures |t.bind| == |t.valueSet| == |t.owns| == |s.bind|
  {
    match op
    case DoSet(i) => Set(s, i)
    case DoUnset(i) => Unset(s, i)
    case DoSetBlob(i, blob, deleteAfter) => SetBlob(s, i, blob, deleteAfter)
    case DoAssign(index, arg) => Assign(s, index, arg)
    case DoClear => Clear(s)
  }

  ghost predicate AllInRange(ops: seq<Op>, n: nat) {
    forall k | 0 <= k < |ops| :: InRange(ops[k], n)
  }

  function Run(n: nat, ops: seq<Op>): (t: State)
    requires AllInRange(ops, n)
    ensures |t.bind| == |t.valueSet| == |t.owns| == n
  {
    if ops == [] then Fresh(n) else Apply(Run(n, ops[..|ops| - 1]), ops[|ops| - 1])
  }

  // ---------------------------------------------------------------------
  // Blob ownership, counted for one blob b
  // ---------------------------------------------------------------------

  /** How often b has been deleted. */
  function Deletions(s: State, b: Blob): nat {
    multiset(s.deleted)[b]
  }

  predicate OwnsAt(s: State, i: nat, b: Blob) {
    i < |s.owns| && s.owns[i] && b != NoBlob && BlobAt(s, i) == b
  }

  /** How many positions hold b and must still delete it. */
  function Owned(s: State, k: nat, b: Blob): nat {
    if k == 0 then 0 else Owned(s, k - 1, b) + if OwnsAt(s, k - 1, b) then 1 else 0
  }

  /** Deletions done and deletions due. */
  function Ledger(s: State, b: Blob): nat {
    Deletions(s, b) + Owned(s, |s.owns|, b)
  }

  lemma DeleteCounts(deleted: seq<Blob>, x: Blob, b: Blob)
    ensures multiset(Delete(deleted, x))[b] == multiset(deleted)[b] + if x == b && b != NoBlob then 1 else 0
  {
  }

  lemma {:induction false} OwnedSplit(s: State, t: State, i: nat, k: nat, b: Blob)
    requires forall j: nat | j < k && j != i :: OwnsAt(t, j, b) == OwnsAt(s, j, b)
    ensures k <= i ==> Owned(t, k, b) == Owned(s, k, b)
    ensures k > i ==> Owned(t, k, b) + (if OwnsAt(s, i, b) then 1 else 0) ==
                      Owned(s, k, b) + (if OwnsAt(t, i, b) then 1 else 0)
  {
    hide OwnsAt;
    if k == 0 {
    } else {
      OwnedSplit(s, t, i, k - 1, b);
    }
  }

  /** A step at position i that gives up b there must delete it, one that takes b on was handed it. */
  lemma LedgerGrows(s: State, t: State, i: nat, b: Blob, more: nat)
    requires i < |s.owns| == |t.owns|
    requires forall j: nat | j != i :: OwnsAt(t, j, b) == OwnsAt(s, j, b)
    requires Deletions(t, b) + (if OwnsAt(t, i, b) then 1 else 0) ==
             Deletions(s, b) + (if OwnsAt(s, i, b) then 1 else 0) + more
    ensures Ledger(t, b) == Ledger(s, b) + more
  {
    hide OwnsAt;
    OwnedSplit(s, t, i, |s.owns|, b);
  }

  lemma SetBlobLedger(s: State, i: nat, blob: Blob, deleteAfter: bool, b: Blob)
    requires i < |s.bind| == |s.valueSet| == |s.owns|
    ensures Ledger(SetBlob(s, i, blob, deleteAfter), b) ==
            Ledger(s, b) + if deleteAfter && blob == b && b != NoBlob then 1 else 0
  {
    DeleteCounts(s.deleted, BlobAt(s, i), b);
    LedgerGrows(s, SetBlob(s, i, blob, deleteAfter), i, b, if deleteAfter && blob == b && b != NoBlob then 1 else 0);
  }

  lemma UnsetLedger(s: State, i: nat, b: Blob)
    requires i < |s.bind| == |s.valueSet| == |s.owns|
    ensures Ledger(Unset(s, i), b) == Ledger(s, b)
  {
    DeleteCounts(s.deleted, BlobAt(s, i), b);
    LedgerGrows(s, Unset(s, i), i, b, 0);
  }

  /** A change that leaves the flags, the blobs and the deletions alone. */
  lemma SameLedger(s: State, t: State, b: Blob)
    requires s.owns == t.owns && s.blobs == t.blobs && s.deleted == t.deleted
    ensures Ledger(s, b) == Ledger(t, b)
  {
    OwnedSplit(s, t, |s.owns|, |s.owns|, b);
  }

  lemma AssignLedger(s: State, index: nat, arg: Arg, b: Blob)
    requires |s.bind| == |s.valueSet| == |s.owns|
    ensures Ledger(Assign(s, index, arg), b) == Ledger(s, b)
  {
    hide Ledger;
    if 0 < index <= |s.bind| {
      var i := index - 1;
      if ByAddress(arg) {
        SetBlobLedger(s, i, Pointer(arg), false, b);
      } else {
        SetBlobLedger(s, i, NoBlob, false, b);
        var a := SetBlob(s, i, NoBlob, false);
        UnsetLedger(a, i, b);
        SameLedger(Unset(a, i), Assign(s, index, arg), b);
      }
    }
  }

  lemma ClearOneLedger(s: State, i: nat, b: Blob)
    requires i < |s.bind| == |s.valueSet| == |s.owns|
    ensures Ledger(ClearOne(s, i), b) == Ledger(s, b)
  {
    DeleteCounts(s.deleted, BlobAt(s, i), b);
    LedgerGrows(s, ClearOne(s, i), i, b, 0);
  }

  lemma {:induction false} ClearLedger(s: State, k: nat, b: Blob)
    requires |s.bind| == |s.valueSet| == |s.owns| && k <= |s.bind|
    ensures Ledger(ClearTo(s, k), b) == Ledger(s, b)
  {
    hide Ledger, ClearOne;
    if k == 0 {
    } else {
      ClearLedger(s, k - 1, b);
      ClearOneLedger(ClearTo(s, k - 1), k - 1, b);
    }
  }

  lemma DestroyOneLedger(s: State, i: nat, b: Blob)
    requires i < |s.owns|
    ensures Ledger(DestroyOne(s, i), b) == Ledger(s, b)
    ensures Owned(s, i, b) == 0 ==> Owned(DestroyOne(s, i), i + 1, b) == 0
  {
    DeleteCounts(s.deleted, BlobAt(s, i), b);
    LedgerGrows(s, DestroyOne(s, i), i, b, 0);
    OwnedSplit(s, DestroyOne(s, i), i, i, b);
  }

  /** The destructor's walk keeps the ledger and leaves nothing owned behind it. */
  lemma {:induction false} DestroyLedger(s: State, k: nat, b: Blob)
    requires k <= |s.owns|
    ensures Ledger(DestroyTo(s, k), b) == Ledger(s, b)
    ensures Owned(DestroyTo(s, k), k, b) == 0
  {
    hide Ledger, DestroyOne;
    if k == 0 {
    } else {
      DestroyLedger(s, k - 1, b);
      DestroyOneLedger(DestroyTo(s, k - 1), k - 1, b);
    }
  }

  predicate HandsOver(op: Op, b: Blob) {
    op.DoSetBlob? && op.deleteAfter && op.blob == b && b != NoBlob
  }

  /** How often b was handed over with the delete flag. */
  function Handed(ops: seq<Op>, b: Blob): nat {
    if ops == [] then 0 else Handed(ops[..|ops| - 1], b) + if HandsOver(ops[|ops| - 1], b) then 1 else 0
  }

  lemma ApplyLedger(s: State, op: Op, b: Blob)
    requires |s.bind| == |s.valueSet| == |s.owns| && InRange(op, |s.bind|)
    ensures Ledger(Apply(s, op), b) == Ledger(s, b) + if HandsOver(op, b) then 1 else 0
  {
    hide Ledger, SetBlob, Unset, Assign, ClearTo;
    match op
    case DoSet(i) => SameLedger(s, Set(s, i), b);
    case DoUnset(i) => UnsetLedger(s, i, b);
    case DoSetBlob(i, blob, deleteAfter) => SetBlobLedger(s, i, blob, deleteAfter, b);
    case DoAssign(index, arg) => AssignLedger(s, index, arg, b);
    case DoClear => ClearLedger(s, |s.bind|, b);
  }

  /** At every moment of every run, the deletions asked for are the ones done and the ones due. */
  lemma {:induction false} Conservation(n: nat, ops: seq<Op>, b: Blob)
    requires AllInRange(ops, n)
    ensures Deletions(Run(n, ops), b) + Owned(Run(n, ops), n, b) == Handed(ops, b)
  {
    hide Apply, HandsOver;
    if ops == [] {
      FreshOwnsNothing(n, n, b);
    } else {
      Conservation(n, ops[..|ops| - 1], b);
      ApplyLedger(Run(n, ops[..|ops| - 1]), ops[|ops| - 1], b);
    }
  }

  lemma {:induction false} FreshOwnsNothing(n: nat, k: nat, b: Blob)
    requires k <= n
    ensures Owned(Fresh(n), k, b) == 0
  {
    if k == 0 {
    } else {
      FreshOwnsNothing(n, k - 1, b);
    }
  }

  /**
    Every run that ends in the destructor deletes each blob exactly as often
    as it was handed over with the delete flag: once for a blob handed over
    once, never for one handed over without the flag.
    */
  lemma EveryBlobDeletedOnce(n: nat, ops: seq<Op>, b: Blob)
    requires AllInRange(ops, n)
    ensures Deletions(Destroy(Run(n, ops)), b) == Handed(ops, b)
    ensures (forall k | 0 <= k < |ops| :: !HandsOver(ops[k], b)) ==> b !in Destroy(Run(n, ops)).deleted
  {
    hide ClearTo, DestroyTo, HandsOver, Run;
    var s := Run(n, ops);
    Conservation(n, ops, b);
    ClearLedger(s, n, b);
    DestroyLedger(Clear(s), n, b);
    if forall k | 0 <= k < |ops| :: !HandsOver(ops[k], b) {
      NeverHanded(ops, b);
    }
  }

  lemma {:induction false} NeverHanded(ops: seq<Op>, b: Blob)
    requires forall k | 0 <= k < |ops| :: !HandsOver(ops[k], b)
    ensures Handed(ops, b) == 0
  {
    if ops == [] {
    } else {
      NeverHanded(ops[..|ops| - 1], b);
    }
  }

  // ---------------------------------------------------------------------
  // What a setter leaves behind
  // ---------------------------------------------------------------------

  /** Everything the statement knows of one parameter, but for ownership. */
  datatype Param = Param(bind: Bind, isSet: bool, entry: Blob, hasEntry: bool)

  function ParamAt(s: State, i: nat): Param
    requires i < |s.bind| && i < |s.valueSet|
  {
    Param(s.bind[i], s.valueSet[i], BlobAt(s, i), i in s.blobs)
  }

  /** The calls a program makes: setters and clearParameters. */
  ghost predicate Calls(ops: seq<Op>) {
    forall k | 0 <= k < |ops| :: ops[k].DoAssign? || ops[k].DoClear?
  }

  predicate Hits(op: Op, i: nat) {
    op.DoAssign? && op.index == i + 1
  }

  datatype LastArg = Never | Last(arg: Arg, cleared: bool)

  /** The last setter that hit position i, and whether the parameters were cleared after it. */
  function LastOn(ops: seq<Op>, i: nat): LastArg {
    if ops == [] then Never
    else
      var before, op := LastOn(ops[..|ops| - 1], i), ops[|ops| - 1];
      if Hits(op, i) then Last(op.arg, false)
      else if op.DoClear? && before.Last? then before.(cleared := true)
      else before
  }

  ghost predicate EverUnsigned(ops: seq<Op>, i: nat) {
    exists k :: 0 <= k < |ops| && Hits(ops[k], i) && (ops[k].arg.UInt? || ops[k].arg.UInt64?)
  }

  /** The parameter after a setter on a binding whose unsigned flag is given, then perhaps a clear. */
  function Expected(last: LastArg, unsigned: bool): Param {
    match last
    case Never => Param(FRESH, false, NoBlob, false)
    case Last(arg, cleared) =>
      var blank := ResetBlobBind(FRESH).(isUnsigned := unsigned);
      var bind := if ByAddress(arg) then blank else Write(blank, arg);
      var blob := if ByAddress(arg) then Pointer(arg) else NoBlob;
      if cleared then Param(bind.(length := NoLength, buffer := NoBuffer), false, NoBlob, true)
      else Param(bind, true, blob, blob != NoBlob)
  }

  function ClearedParam(p: Param): Param {
    var bind := p.bind.(length := NoLength, buffer := NoBuffer);
    if p.isSet then Param(bind, false, NoBlob, true) else p.(bind := bind)
  }

  lemma LastUnsigned(last: LastArg, unsigned: bool)
    requires last.Never? ==> !unsigned
    ensures Expected(last, unsigned).bind.isUnsigned ==
            (unsigned || (last.Last? && (last.arg.UInt? || last.arg.UInt64?)))
    ensures ClearedParam(Expected(last, unsigned)) ==
            if last.Last? then Expected(last.(cleared := true), unsigned) else Expected(last, unsigned)
  {
  }

  lemma ClearOneAt(s: State, k: nat, i: nat)
    requires |s.bind| == |s.valueSet| == |s.owns| && k < |s.bind| && i < |s.bind|
    ensures ParamAt(ClearOne(s, k), i) == if i == k then ClearedParam(ParamAt(s, i)) else ParamAt(s, i)
  {
  }

  lemma {:induction false} ClearEach(s: State, k: nat, i: nat)
    requires |s.bind| == |s.valueSet| == |s.owns| && k <= |s.bind| && i < |s.bind|
    ensures ParamAt(ClearTo(s, k), i) == if i < k then ClearedParam(ParamAt(s, i)) else ParamAt(s, i)
  {
    if k == 0 {
    } else {
      hide ClearOne, ParamAt, ClearedParam;
      ClearEach(s, k - 1, i);
      ClearOneAt(ClearTo(s, k - 1), k - 1, i);
    }
  }

  lemma EverUnsignedGrows(ops: seq<Op>, i: nat)
    requires ops != []
    ensures var op := ops[|ops| - 1];
      EverUnsigned(ops, i) <==>
      EverUnsigned(ops[..|ops| - 1], i) || (Hits(op, i) && (op.arg.UInt? || op.arg.UInt64?))
  {
    var front := ops[..|ops| - 1];
    if EverUnsigned(front, i) {
      var k :| 0 <= k < |front| && Hits(front[k], i) && (front[k].arg.UInt? || front[k].arg.UInt64?);
      assert ops[k] == front[k];
    }
    if EverUnsigned(ops, i) {
      var k :| 0 <= k < |ops| && Hits(ops[k], i) && (ops[k].arg.UInt? || ops[k].arg.UInt64?);
      assert k < |front| ==> ops[k] == front[k];
    }
  }

  /** What a setter does at its own position, and that it does nothing elsewhere. */
  lemma AssignAt(s: State, index: nat, arg: Arg, i: nat)
    requires |s.bind| == |s.valueSet| == |s.owns| && i < |s.bind|
    ensures ParamAt(Assign(s, index, arg), i) ==
      if index != i + 1 then ParamAt(s, i)
      else Expected(Last(arg, false), s.bind[i].isUnsigned || arg.UInt? || arg.UInt64?)
  {
  }

  /**
    After every run of setters and clears, each parameter is what its own
    last setter made of it, whatever was bound before and elsewhere; only
    the unsigned flag remembers, and it is on exactly when some unsigned
    setter has ever hit the position.
    */
  lemma {:induction false} LastSetterDecides(n: nat, ops: seq<Op>, i: nat)
    requires Calls(ops) && AllInRange(ops, n) && i < n
    ensures ParamAt(Run(n, ops), i) == Expected(LastOn(ops, i), EverUnsigned(ops, i))
    ensures LastOn(ops, i).Never? ==> !EverUnsigned(ops, i)
    ensures LastOn(ops, i).Last? && (LastOn(ops, i).arg.UInt? || LastOn(ops, i).arg.UInt64?) ==> EverUnsigned(ops, i)
  {
    if ops == [] {
    } else {
      var front, op := ops[..|ops| - 1], ops[|ops| - 1];
      LastSetterDecides(n, front, i);
      EverUnsignedGrows(ops, i);
      hide Expected, EverUnsigned, Assign, ClearTo;
      var s := Run(n, front);
      LastUnsigned(LastOn(front, i), EverUnsigned(front, i));
      match op
      case DoAssign(index, arg) => AssignAt(s, index, arg, i);
      case DoClear => ClearEach(s, n, i);
    }
  }

  predicate SetSinceClear(ops: seq<Op>, i: nat) {
    LastOn(ops, i).Last? && !LastOn(ops, i).cleared
  }

  /** A statement may be executed exactly when every position was set since the last clear. */
  lemma AllSetIff(n: nat, ops: seq<Op>)
    requires Calls(ops) && AllInRange(ops, n)
    ensures IsAllSet(Run(n, ops)) <==> forall i: nat | i < n :: SetSinceClear(ops, i)
  {
    var flags := Run(n, ops).valueSet;
    forall i: nat | i < n ensures flags[i] == SetSinceClear(ops, i) {
      LastSetterDecides(n, ops, i);
      assert ParamAt(Run(n, ops), i).isSet == flags[i];
    }
    if i: nat :| i < n && !SetSinceClear(ops, i) {
      assert !flags[i];
    }
  }

  // ---------------------------------------------------------------------
  // What each call leaves, field by field
  // ---------------------------------------------------------------------

  predicate IsNumber(arg: Arg) {
    arg.Int? || arg.UInt? || arg.Int64? || arg.UInt64?
  }

  /**
    The binding right after a setter, whatever was there before: a number is
    its bytes in a buffer that fits its type, a text is the first `length`
    characters of its buffer, and a blob is the caller's pointer.
    */
  lemma SetterBinds(s: State, i: nat, arg: Arg)
    requires i < |s.bind| == |s.valueSet| == |s.owns|
    ensures var t := Assign(s, i + 1, arg);
      var b := t.bind[i];
      && t.valueSet[i] && !b.isNull
      && (IsNumber(arg) || arg.Double? ==> b.bufferLength == 0 && b.length == NoLength && i !in t.blobs)
      && match arg
         case Int(v) => b.fieldType == LongType && b.buffer.Word32? && (b.buffer.bits - v) % 0x1_0000_0000 == 0
         case UInt(v) => b.fieldType == LongType && b.buffer.Word32? && (b.buffer.bits - v) % 0x1_0000_0000 == 0 && b.isUnsigned
         case Int64(v) => b.fieldType == LongLongType && b.buffer.Word64? && (b.buffer.bits - v) % 0x1_0000_0000_0000_0000 == 0
         case UInt64(v) =>
           b.fieldType == LongLongType && b.buffer.Word64? && (b.buffer.bits - v) % 0x1_0000_0000_0000_0000 == 0 && b.isUnsigned
         case Double(r) => b.fieldType == DoubleType && b.buffer == Float(r)
         case Null => b.fieldType == NullType && b.buffer == NoBuffer && b.length == NoLength && i !in t.blobs
         case Str(address, text) =>
           if |text| <= 262144 then
             && b.fieldType == StringType && b.buffer.Chars? && b.length == Length(|text|) && i !in t.blobs
             && |b.buffer.text| == b.bufferLength == |text| + 1
             && b.buffer.text[..b.length.value] == text && b.buffer.text[|text|] == '\0'
           else
             && b.fieldType == LongBlobType && b.buffer == NoBuffer && b.bufferLength == 0 && b.length == Length(0)
             && i in t.blobs && t.blobs[i] == Text(address)
         case InStream(blob) =>
           && b.fieldType == LongBlobType && b.buffer == NoBuffer && b.bufferLength == 0 && b.length == Length(0)
           && BlobAt(t, i) == blob && (i in t.blobs <==> blob != NoBlob)
  {
    if IsNumber(arg) {
      SameRest(arg.v, WORD32);
      SameRest(arg.v, WORD64);
    }
  }

  lemma SameRest(v: int, width: int)
    requires width == WORD32 || width == WORD64
    ensures (v % width - v) % width == 0
  {
    assert v == width * (v / width) + v % width;
    Multiple(width, -(v / width));
  }

  lemma Multiple(width: int, k: int)
    requires width == WORD32 || width == WORD64
    ensures (width * k) % width == 0
  {
  }

  /** The same over every run: what the last call leaves does not depend on the calls before it. */
  lemma RunEndsInSetter(n: nat, ops: seq<Op>, i: nat, arg: Arg)
    requires AllInRange(ops, n) && i < n
    ensures AllInRange(ops + [DoAssign(i + 1, arg)], n)
    ensures Run(n, ops + [DoAssign(i + 1, arg)]) == Assign(Run(n, ops), i + 1, arg)
  {
    var all := ops + [DoAssign(i + 1, arg)];
    assert all[..|all| - 1] == ops;
  }

  /** Which positions count as set after a call. */
  lemma SetAfter(s: State, op: Op, j: nat)
    requires j < |s.bind| == |s.valueSet| == |s.owns| && InRange(op, |s.bind|)
    ensures Apply(s, op).valueSet[j] ==
      match op
      case DoSet(i) => i == j || s.valueSet[j]
      case DoUnset(i) => i != j && s.valueSet[j]
      case DoSetBlob(i, _, _) => i == j || s.valueSet[j]
      case DoAssign(index, _) => index == j + 1 || s.valueSet[j]
      case DoClear => false
  {
    if op.DoClear? {
      ClearEach(s, |s.bind|, j);
      assert ParamAt(Clear(s), j).isSet == Clear(s).valueSet[j];
    }
  }

  /** clearParameters: no position is set, and nothing is left of its value but the type. */
  lemma ClearForgets(s: State, j: nat)
    requires j < |s.bind| == |s.valueSet| == |s.owns|
    ensures var t := Clear(s);
      && !t.valueSet[j] && t.bind[j].buffer == NoBuffer && t.bind[j].length == NoLength
      && t.bind[j].fieldType == s.bind[j].fieldType && t.bind[j].isUnsigned == s.bind[j].isUnsigned
      && t.bind[j].isNull == s.bind[j].isNull && t.bind[j].bufferLength == s.bind[j].bufferLength
      && BlobAt(t, j) == if s.valueSet[j] then NoBlob else BlobAt(s, j)
  {
    ClearEach(s, |s.bind|, j);
    assert ParamAt(Clear(s), j).bind == Clear(s).bind[j] && ParamAt(Clear(s), j).isSet == Clear(s).valueSet[j];
  }

  /** setBlob and unset, as far as the entry of the map and the ownership go. */
  lemma EntryAfter(s: State, i: nat, blob: Blob, deleteAfter: bool, j: nat)
    requires i < |s.bind| == |s.valueSet| == |s.owns|
    ensures BlobAt(SetBlob(s, i, blob, deleteAfter), j) == if j == i then blob else BlobAt(s, j)
    ensures BlobAt(Unset(s, i), j) == if j == i && s.owns[i] then NoBlob else BlobAt(s, j)
    ensures j < |s.owns| ==> SetBlob(s, i, blob, deleteAfter).owns[j] == if j == i then deleteAfter && blob != NoBlob else s.owns[j]
    ensures j < |s.owns| ==> Unset(s, i).owns[j] == (j != i && s.owns[j])
  {
  }

  /** clearParameters leaves the ownership flags as they were, even of the blobs it has deleted. */
  lemma {:induction false} ClearKeepsFlags(s: State, k: nat)
    requires |s.bind| == |s.valueSet| == |s.owns| && k <= |s.bind|
    ensures ClearTo(s, k).owns == s.owns
  {
    if k == 0 {
    } else {
      ClearKeepsFlags(s, k - 1);
    }
  }

  /** A parameter no setter has hit: null, of type 0, with nothing in it. */
  lemma NeverSet(n: nat, ops: seq<Op>, i: nat)
    requires Calls(ops) && AllInRange(ops, n) && i < n && LastOn(ops, i).Never?
    ensures var b := Run(n, ops).bind[i];
      && b.isNull && !b.isUnsigned && b.fieldType == DecimalType
      && b.buffer == NoBuffer && b.bufferLength == 0 && b.length == NoLength && !Run(n, ops).valueSet[i]
  {
    LastSetterDecides(n, ops, i);
    assert ParamAt(Run(n, ops), i).bind == Run(n, ops).bind[i];
    assert ParamAt(Run(n, ops), i).isSet == Run(n, ops).valueSet[i];
  }

  // ---------------------------------------------------------------------
  // What the server reads
  // ---------------------------------------------------------------------

  function Signed(bits: int, width: int): int {
    if 2 * bits < width then bits else bits - width
  }

  /** The number in a bound buffer, read as the binding's flag says. */
  function NumberIn(b: Bind): int
    requires b.buffer.Word32? || b.buffer.Word64?
  {
    if b.isUnsigned then b.buffer.bits
    else Signed(b.buffer.bits, if b.buffer.Word32? then WORD32 else WORD64)
  }

  /** The numbers the setter's C++ type can hold. */
  predicate Fits(arg: Arg) {
    match arg
    case Int(v) => -0x8000_0000 <= v < 0x8000_0000
    case UInt(v) => 0 <= v < WORD32
    case Int64(v) => -0x8000_0000_0000_0000 <= v < 0x8000_0000_0000_0000
    case UInt64(v) => 0 <= v < WORD64
    case _ => false
  }

  /**
    A number just set is the number read, unless it is negative and some
    unsigned setter has hit the position before: the flag it left is never
    taken back.
    */
  lemma NumberReadIff(n: nat, ops: seq<Op>, i: nat, arg: Arg)
    requires Calls(ops) && AllInRange(ops, n) && i < n && Fits(arg)
    ensures var b := Run(n, ops + [DoAssign(i + 1, arg)]).bind[i];
      && (b.buffer.Word32? || b.buffer.Word64?)
      && (NumberIn(b) == arg.v <==> arg.v >= 0 || !EverUnsigned(ops, i))
  {
    var all := ops + [DoAssign(i + 1, arg)];
    assert all[..|all| - 1] == ops;
    LastSetterDecides(n, all, i);
    EverUnsignedGrows(all, i);
    assert ParamAt(Run(n, all), i).bind == Run(n, all).bind[i];
    WordOf(arg.v, WORD32);
    WordOf(arg.v, WORD64);
  }

  lemma WordOf(v: int, width: int)
    requires width == WORD32 || width == WORD64
    ensures -width <= 2 * v < width ==> Signed(v % width, width) == v
    ensures 0 <= v < width ==> v % width == v
    ensures -width < v < 0 ==> v % width == v + width
  {
    if -width < v < 0 {
      assert (v + width) % width == v % width;
    }
  }
}
