/**
  LongDataSender: strings and streams are sent to the server in chunks before
  a statement is executed. The string loop counts in 32 bits.
  */
module LongData {
  import opened Basics
  import opened ParamBinds

  // 1 << 18, the size of a chunk and of the read buffer
  const CHUNK := 0x4_0000

  function Concat(chunks: seq<string>): string {
    if chunks == [] then [] else Concat(chunks[..|chunks| - 1]) + chunks[|chunks| - 1]
  }

  lemma ConcatSnoc(chunks: seq<string>, x: string)
    ensures Concat(chunks + [x]) == Concat(chunks) + x
  {
    assert (chunks + [x])[..|chunks|] == chunks;
  }

  /** The one way to cut n characters: full chunks, then what is left. */
  ghost predicate FullButLast(chunks: seq<string>) {
    forall k | 0 <= k < |chunks| - 1 :: |chunks[k]| == CHUNK
  }

  // ---------------------------------------------------------------------
  // Strings
  // ---------------------------------------------------------------------

  /** The sum is an unsigned int; the difference is cut to one. */
  function ChunkSize(sent: nat, length: nat): nat {
    if (sent + CHUNK) % WORD32 > length then (length - sent) % WORD32 else CHUNK
  }

  function NextSent(sent: nat, length: nat): nat {
    (sent + ChunkSize(sent, length)) % WORD32
  }

  /** The counter after k rounds of the loop, which stops once it reaches the length. */
  function SentAfter(length: nat, k: nat): nat {
    if k == 0 then 0
    else
      var sent := SentAfter(length, k - 1);
      if sent < length then NextSent(sent, length) else sent
  }

  ghost predicate Ends(length: nat) {
    exists k: nat :: SentAfter(length, k) >= length
  }

  const LONGEST := WORD32 - CHUNK

  lemma NextBelow(sent: nat, length: nat)
    requires sent < length <= LONGEST
    ensures ChunkSize(sent, length) == if sent + CHUNK > length then length - sent else CHUNK
    ensures NextSent(sent, length) == sent + ChunkSize(sent, length)
  {
    assert (sent + CHUNK) % WORD32 == sent + CHUNK;
  }

  lemma NextAbove(m: nat, length: nat)
    requires length > LONGEST && m < 0x4000
    ensures NextSent(CHUNK * m, length) == CHUNK * if m == 0x3FFF then 0 else m + 1
  {
  }

  lemma NextMod(k: nat)
    requires k > 0
    ensures k % 0x4000 == if (k - 1) % 0x4000 == 0x3FFF then 0 else (k - 1) % 0x4000 + 1
  {
  }

  /** Up to LONGEST, k rounds send k chunks or everything. */
  lemma {:induction false} SentIs(length: nat, k: nat)
    requires length <= LONGEST
    ensures SentAfter(length, k) == if CHUNK * k <= length then CHUNK * k else length
  {
    hide NextSent;
    if k == 0 {
    } else {
      SentIs(length, k - 1);
      var sent := SentAfter(length, k - 1);
      if sent < length {
        NextBelow(sent, length);
      }
    }
  }

  /** Beyond it the counter runs through the multiples of the chunk and wraps to zero. */
  lemma {:induction false} SentWraps(length: nat, k: nat)
    requires length > LONGEST
    ensures SentAfter(length, k) == CHUNK * (k % 0x4000) < length
  {
    hide NextSent;
    if k == 0 {
    } else {
      SentWraps(length, k - 1);
      NextAbove((k - 1) % 0x4000, length);
      NextMod(k);
    }
  }

  /** The string loop ends exactly on strings that leave room for one more chunk in 32 bits. */
  lemma EndsIff(length: nat)
    ensures Ends(length) <==> length <= LONGEST
  {
    if length <= LONGEST {
      SentIs(length, length);
      assert SentAfter(length, length) >= length;
    } else {
      forall k: nat ensures SentAfter(length, k) < length {
        SentWraps(length, k);
      }
    }
  }

  /** The chunks of a string on which the loop ends. */
  method SendString(text: string) returns (chunks: seq<string>)
    requires Ends(|text|)
    ensures Concat(chunks) == text
    ensures FullButLast(chunks) && forall k | 0 <= k < |chunks| :: 0 < |chunks[k]| <= CHUNK
    ensures |chunks| == (|text| + CHUNK - 1) / CHUNK
  {
    EndsIff(|text|);
    hide Ends, NextSent, ChunkSize;
    chunks := [];
    var sent := 0;
    assert text[..0] == [];
    while sent < |text|
      invariant sent <= |text| && Concat(chunks) == text[..sent]
      invariant sent < |text| ==> sent == |chunks| * CHUNK
      invariant sent == |text| ==> |chunks| == (|text| + CHUNK - 1) / CHUNK
      invariant sent < |text| ==> forall k | 0 <= k < |chunks| :: |chunks[k]| == CHUNK
      invariant FullButLast(chunks) && forall k | 0 <= k < |chunks| :: 0 < |chunks[k]| <= CHUNK
    {
      NextBelow(sent, |text|);
      var chunkSize := ChunkSize(sent, |text|);
      ConcatSnoc(chunks, text[sent..sent + chunkSize]);
      assert text[..sent] + text[sent..sent + chunkSize] == text[..sent + chunkSize];
      chunks := chunks + [text[sent..sent + chunkSize]];
      sent := NextSent(sent, |text|);
    }
    assert text[..sent] == text;
  }

  // ---------------------------------------------------------------------
  // Streams
  // ---------------------------------------------------------------------

  /** `rest` is what can still be read; after it comes the end of the file, or an error. */
  datatype IStream = IStream(rest: string, broken: bool, eof: bool, fail: bool, bad: bool)

  predicate IsGood(st: IStream) {
    !st.eof && !st.fail && !st.bad
  }

  /** istream::read: a short read raises eof and fail, an error raises bad. */
  function Read(st: IStream, n: nat): (IStream, string) {
    if !IsGood(st) then (st.(fail := true), [])
    else if |st.rest| >= n then (st.(rest := st.rest[n..]), st.rest[..n])
    else if st.broken then (st.(rest := [], bad := true), st.rest)
    else (st.(rest := [], eof := true, fail := true), st.rest)
  }

  /** What is sent of a stream that can be read. */
  function Sent(st: IStream): string {
    if st.eof then [] else st.rest
  }

  predicate Readable(st: IStream) {
    st.eof || (IsGood(st) && !st.broken)
  }

  /**
    The stream is drained in full buffers and one short one, which is empty
    exactly when the length is a multiple of the buffer. A stream at its end
    sends nothing. A read error stops the sender after the full buffers.
    */
  method SendStream(st: IStream) returns (chunks: seq<string>, after: IStream, ok: bool)
    ensures ok <==> Readable(st)
    ensures ok ==> Concat(chunks) == Sent(st) && after.eof && FullButLast(chunks)
    ensures ok && !st.eof ==> Concat(chunks) == st.rest
    ensures st.eof ==> chunks == []
    ensures ok && !st.eof ==> |chunks| == |st.rest| / CHUNK + 1 && |chunks[|chunks| - 1]| == |st.rest| % CHUNK
    ensures !ok && IsGood(st) ==>
              && Concat(chunks) == st.rest[..|st.rest| / CHUNK * CHUNK]
              && forall k | 0 <= k < |chunks| :: |chunks[k]| == CHUNK
    ensures !ok && !IsGood(st) ==> chunks == []
  {
    hide Concat;
    chunks, after := [], st;
    StartReading(st);
    while true
      invariant chunks == [] ==> after == st
      invariant chunks != [] ==> IsGood(st)
      invariant IsGood(st) && !after.eof ==> Reading(st, chunks, after)
      invariant IsGood(st) && after.eof ==> Drained(st, chunks) && !st.broken
      decreases !after.eof, |after.rest|
    {
      if after.eof {
        StartReading(st);
        return chunks, after, true;
      }
      var read := Read(after, CHUNK);
      if IsGood(st) {
        ReadStep(st, chunks, after);
      }
      after := read.0;
      if after.bad {
        return chunks, after, false;
      }
      if after.fail && !after.eof {
        return chunks, after, false;
      }
      chunks := chunks + [read.1];
    }
  }

  /** Between two reads: full chunks so far. */
  ghost predicate Reading(st: IStream, chunks: seq<string>, now: IStream) {
    && IsGood(now) && now.broken == st.broken
    && Concat(chunks) + now.rest == st.rest && |chunks| * CHUNK + |now.rest| == |st.rest|
    && forall k | 0 <= k < |chunks| :: |chunks[k]| == CHUNK
  }

  ghost predicate Drained(st: IStream, chunks: seq<string>) {
    && Concat(chunks) == st.rest && FullButLast(chunks)
    && |chunks| == |st.rest| / CHUNK + 1 && |chunks[|chunks| - 1]| == |st.rest| % CHUNK
  }

  lemma StartReading(st: IStream)
    ensures Concat([]) == []
    ensures IsGood(st) ==> Reading(st, [], st)
  {
    assert [] + st.rest == st.rest;
  }

  lemma ReadStep(st: IStream, chunks: seq<string>, now: IStream)
    requires Reading(st, chunks, now)
    ensures var (after, got) := Read(now, CHUNK);
      && (after.bad <==> st.broken && |now.rest| < CHUNK)
      && (after.bad ==> Concat(chunks) == st.rest[..|st.rest| / CHUNK * CHUNK])
      && (!after.bad && !after.eof ==> Reading(st, chunks + [got], after) && |after.rest| < |now.rest|)
      && (after.eof ==> !st.broken && Drained(st, chunks + [got]))
  {
    hide Concat;
    var (after, got) := Read(now, CHUNK);
    ConcatSnoc(chunks, got);
    assert got + after.rest == now.rest;
    assert Concat(chunks) + got + after.rest == Concat(chunks) + now.rest;
    if |now.rest| < CHUNK {
      PrefixOf(Concat(chunks), now.rest, st.rest, |chunks|);
    }
  }

  lemma PrefixOf(front: string, rest: string, whole: string, k: nat)
    requires front + rest == whole && k * CHUNK + |rest| == |whole| && |rest| < CHUNK
    ensures front == whole[..|whole| / CHUNK * CHUNK] && |whole| / CHUNK == k && |whole| % CHUNK == |rest|
  {
    assert |front| == k * CHUNK;
    assert |whole| / CHUNK == k;
    assert whole[..|front|] == front;
  }

  // ---------------------------------------------------------------------
  // sendLongDataBeforeParamBind and the check of do_query
  // ---------------------------------------------------------------------

  /** The caller's strings and streams, by address. */
  datatype Memory = Memory(texts: map<nat, string>, streams: map<nat, IStream>)

  datatype Packet = Packet(position: nat, chunk: string)

  /** What the server has received for one position. */
  function Received(packets: seq<Packet>, i: nat): string {
    if packets == [] then []
    else
      var p := packets[|packets| - 1];
      Received(packets[..|packets| - 1], i) + if p.position == i then p.chunk else []
  }

  function Tagged(i: nat, chunks: seq<string>): seq<Packet> {
    seq(|chunks|, k requires 0 <= k < |chunks| => Packet(i, chunks[k]))
  }

  lemma ReceivedSnoc(packets: seq<Packet>, p: Packet, j: nat)
    ensures Received(packets + [p], j) == Received(packets, j) + if p.position == j then p.chunk else []
  {
    assert (packets + [p])[..|packets|] == packets;
  }

  lemma {:induction false} ReceivedTagged(packets: seq<Packet>, i: nat, chunks: seq<string>, j: nat)
    ensures Received(packets + Tagged(i, chunks), j) ==
            Received(packets, j) + if i == j then Concat(chunks) else []
  {
    hide Received, Concat;
    if chunks == [] {
      StartReading(IStream([], false, false, false, false));
      assert packets + Tagged(i, chunks) == packets;
    } else {
      var front, last := chunks[..|chunks| - 1], chunks[|chunks| - 1];
      ReceivedTagged(packets, i, front, j);
      assert packets + Tagged(i, chunks) == packets + Tagged(i, front) + [Packet(i, last)];
      ReceivedSnoc(packets + Tagged(i, front), Packet(i, last), j);
      assert chunks == front + [last];
      ConcatSnoc(front, last);
    }
  }

  /** The blob sent for position i. */
  function Bound(s: State, i: nat): Blob
    requires i < |s.bind|
  {
    if s.bind[i].fieldType.LongBlobType? then BlobAt(s, i) else NoBlob
  }

  /** A position before i is bound to the same stream, and reads it to its end. */
  ghost predicate Drains(s: State, i: nat, a: nat)
    requires i <= |s.bind|
  {
    exists j: nat :: j < i && Bound(s, j) == Stream(a)
  }

  /** The caller's pointers are good. */
  predicate Known(mem: Memory, blob: Blob) {
    match blob
    case NoBlob => true
    case Text(a) => a in mem.texts
    case Stream(a) => a in mem.streams
  }

  ghost predicate AllKnown(s: State, mem: Memory) {
    forall i: nat | i < |s.bind| :: Known(mem, Bound(s, i))
  }

  /** Sending the blob comes to an end and does not throw. */
  ghost predicate Goes(mem: Memory, blob: Blob)
    requires Known(mem, blob)
  {
    match blob
    case NoBlob => true
    case Text(a) => Ends(|mem.texts[a]|)
    case Stream(a) => Readable(mem.streams[a])
  }

  /** What the server must have received for position i. */
  ghost function Due(s: State, mem: Memory, i: nat): string
    requires i < |s.bind| && Known(mem, Bound(s, i))
  {
    match Bound(s, i)
    case NoBlob => []
    case Text(a) => mem.texts[a]
    case Stream(a) => if Drains(s, i, a) then [] else Sent(mem.streams[a])
  }

  /** The streams after the positions before i have been sent. */
  ghost predicate Consumed(s: State, mem: Memory, i: nat, streams: map<nat, IStream>)
    requires i <= |s.bind|
  {
    && streams.Keys == mem.streams.Keys
    && forall a | a in streams :: if Drains(s, i, a) then streams[a].eof else streams[a] == mem.streams[a]
  }

  /** What has gone out of a stream when its sender throws. */
  function SentBeforeError(st: IStream): string {
    if IsGood(st) then st.rest[..|st.rest| / CHUNK * CHUNK] else []
  }

  /** How the loop over the positions ends: after the last, by an exception, or never. */
  datatype Sending = Done | Threw(position: nat) | Endless(position: nat)

  function Reached(n: nat, outcome: Sending): nat {
    match outcome
    case Done => n
    case Threw(i) => i
    case Endless(i) => i
  }

  /** The outcome is decided by the first position whose blob cannot be sent. */
  ghost predicate Decided(s: State, mem: Memory, outcome: Sending)
    requires AllKnown(s, mem)
  {
    var n, i := |s.bind|, Reached(|s.bind|, outcome);
    && i <= n && (forall j: nat | j < i :: Goes(mem, Bound(s, j)))
    && (!outcome.Done? ==> i < n && !Goes(mem, Bound(s, i)) && (outcome.Threw? <==> Bound(s, i).Stream?))
  }

  /** The visitor applied to one blob; `ok` says that it returned. */
  method SendOne(blob: Blob, mem: Memory) returns (chunks: seq<string>, streams: map<nat, IStream>, ok: bool)
    requires Known(mem, blob)
    ensures ok <==> Goes(mem, blob)
    ensures blob.NoBlob? ==> Concat(chunks) == []
    ensures blob.Text? ==> Concat(chunks) == if ok then mem.texts[blob.address] else []
    ensures blob.Stream? ==>
              Concat(chunks) == if ok then Sent(mem.streams[blob.address]) else SentBeforeError(mem.streams[blob.address])
    ensures streams.Keys == mem.streams.Keys
    ensures ok ==> forall a | a in streams :: if blob == Stream(a) then streams[a].eof else streams[a] == mem.streams[a]
  {
    hide Ends;
    chunks, streams, ok := [], mem.streams, true;
    match blob
    case NoBlob =>
    case Text(a) =>
      EndsIff(|mem.texts[a]|);
      if |mem.texts[a]| > LONGEST {
        return [], streams, false;
      }
      chunks := SendString(mem.texts[a]);
    case Stream(a) =>
      var after;
      chunks, after, ok := SendStream(mem.streams[a]);
      streams := streams[a := after];
  }

  /**
    Every position before the one that fails has received what is due; that
    one has received the full buffers read before the error, and the ones
    after it nothing.
    */
  method SendLongData(s: State, mem: Memory)
    returns (packets: seq<Packet>, streams: map<nat, IStream>, outcome: Sending)
    requires AllKnown(s, mem)
    ensures Decided(s, mem, outcome)
    ensures forall i: nat | i < Reached(|s.bind|, outcome) :: Received(packets, i) == Due(s, mem, i)
    ensures outcome.Threw? ==>
              Received(packets, outcome.position) == SentBeforeError(mem.streams[Bound(s, outcome.position).address])
    ensures outcome.Endless? ==> Received(packets, outcome.position) == []
    ensures forall i: nat | Reached(|s.bind|, outcome) < i < |s.bind| :: Received(packets, i) == []
    ensures outcome.Done? ==> Consumed(s, mem, |s.bind|, streams)
  {
    hide Received, Concat, Ends, Bound, Readable, Sent, SentBeforeError;
    packets, streams := [], mem.streams;
    ReceivedNothing();
    for i := 0 to |s.bind|
      invariant Consumed(s, mem, i, streams)
      invariant forall j: nat | j < i :: Goes(mem, Bound(s, j))
      invariant forall j: nat | j < |s.bind| :: Received(packets, j) == if j < i then Due(s, mem, j) else []
    {
      var now := Memory(mem.texts, streams);
      SameGoes(s, mem, i, streams);
      var chunks, next, ok := SendOne(Bound(s, i), now);
      DrainsNext(s, i);
      forall j: nat | j < |s.bind|
        ensures Received(packets + Tagged(i, chunks), j) ==
                Received(packets, j) + if i == j then Concat(chunks) else []
      {
        ReceivedTagged(packets, i, chunks, j);
      }
      packets := packets + Tagged(i, chunks);
      if !ok {
        return packets, next, if Bound(s, i).Stream? then Threw(i) else Endless(i);
      }
      streams := next;
    }
    outcome := Done;
  }

  /** What can be sent at first can be sent when its turn comes: a drained stream sends nothing. */
  lemma SameGoes(s: State, mem: Memory, i: nat, streams: map<nat, IStream>)
    requires i < |s.bind| && AllKnown(s, mem) && Consumed(s, mem, i, streams)
    requires forall j: nat | j < i :: Goes(mem, Bound(s, j))
    ensures var now := Memory(mem.texts, streams);
      && Known(now, Bound(s, i)) && (Goes(now, Bound(s, i)) <==> Goes(mem, Bound(s, i)))
      && (Bound(s, i).Stream? ==>
            && Sent(streams[Bound(s, i).address]) == Due(s, mem, i)
            && (!Goes(mem, Bound(s, i)) ==> streams[Bound(s, i).address] == mem.streams[Bound(s, i).address]))
  {
    hide Bound, Ends;
    assert Known(mem, Bound(s, i));
    if Bound(s, i).Stream? {
      var a := Bound(s, i).address;
      if Drains(s, i, a) {
        var j: nat :| j < i && Bound(s, j) == Stream(a);
        assert Goes(mem, Bound(s, j));
      }
    }
  }

  lemma ReceivedNothing()
    ensures forall i :: Received([], i) == []
  {
  }

  lemma DrainsNext(s: State, i: nat)
    requires i < |s.bind|
    ensures forall a :: Drains(s, i + 1, a) <==> Drains(s, i, a) || Bound(s, i) == Stream(a)
  {
    hide Bound;
    forall a ensures Drains(s, i + 1, a) <==> Drains(s, i, a) || Bound(s, i) == Stream(a) {
      if Bound(s, i) == Stream(a) {
        assert i < i + 1 && Bound(s, i) == Stream(a);
      }
      if Drains(s, i, a) {
        var j: nat :| j < i && Bound(s, j) == Stream(a);
        assert j < i + 1;
      }
    }
  }

  /** What the last setter on position i asks to be sent. */
  function AskedOn(ops: seq<Op>, i: nat): Blob {
    match LastOn(ops, i)
    case Never => NoBlob
    case Last(arg, _) =>
      match arg
      case InStream(blob) => blob
      case Str(address, text) => if |text| > 262144 then Text(address) else NoBlob
      case _ => NoBlob
  }

  /** Once every position is set, what is bound is what the last setter asked for. */
  lemma LastSetterIsBound(n: nat, ops: seq<Op>, i: nat)
    requires Calls(ops) && AllInRange(ops, n) && i < n && SetSinceClear(ops, i)
    ensures Bound(Run(n, ops), i) == AskedOn(ops, i)
  {
    LastSetterDecides(n, ops, i);
    var p := Expected(LastOn(ops, i), EverUnsigned(ops, i));
    assert ParamAt(Run(n, ops), i) == p;
    assert (if p.bind.fieldType.LongBlobType? then p.entry else NoBlob) == AskedOn(ops, i);
  }

  ghost predicate AskedBefore(ops: seq<Op>, i: nat, a: nat) {
    exists j: nat :: j < i && AskedOn(ops, j) == Stream(a)
  }

  /** The long data a program's calls ask for at position i, as they are when the statement is executed. */
  ghost function DueByCalls(ops: seq<Op>, mem: Memory, i: nat): string {
    match AskedOn(ops, i)
    case NoBlob => []
    case Text(a) => if a in mem.texts then mem.texts[a] else []
    case Stream(a) => if a !in mem.streams || AskedBefore(ops, i, a) then [] else Sent(mem.streams[a])
  }

  /**
    A long string is bound by its address: what is due is the text given to
    setString exactly when that text is still there.
    */
  lemma LongStringIff(ops: seq<Op>, mem: Memory, i: nat)
    requires LastOn(ops, i).Last? && LastOn(ops, i).arg.Str? && |LastOn(ops, i).arg.text| > 262144
    ensures var Str(address, text) := LastOn(ops, i).arg;
      DueByCalls(ops, mem, i) == text <==> address in mem.texts && mem.texts[address] == text
  {
  }

  /**
    setBlob with a stream, after any calls: the position is bound to that
    stream, and all of it is due unless an earlier position reads it first.
    */
  lemma StreamIsSent(n: nat, ops: seq<Op>, mem: Memory, i: nat, a: nat)
    requires Calls(ops) && AllInRange(ops, n) && i < n && a in mem.streams
    ensures var all := ops + [DoAssign(i + 1, InStream(Stream(a)))];
      && AllInRange(all, n) && Bound(Run(n, all), i) == Stream(a) == AskedOn(all, i)
      && ((forall j: nat | j < i :: AskedOn(all, j) != Stream(a)) && !mem.streams[a].eof ==>
            DueByCalls(all, mem, i) == mem.streams[a].rest)
  {
    var all := ops + [DoAssign(i + 1, InStream(Stream(a)))];
    RunEndsInSetter(n, ops, i, InStream(Stream(a)));
    SetterBinds(Run(n, ops), i, InStream(Stream(a)));
    assert all[..|all| - 1] == ops;
    assert LastOn(all, i) == Last(InStream(Stream(a)), false);
  }

  lemma DueIs(n: nat, ops: seq<Op>, mem: Memory, i: nat)
    requires Calls(ops) && AllInRange(ops, n) && i < n && IsAllSet(Run(n, ops)) && AllKnown(Run(n, ops), mem)
    ensures Bound(Run(n, ops), i) == AskedOn(ops, i)
    ensures Due(Run(n, ops), mem, i) == DueByCalls(ops, mem, i)
  {
    AllSetIff(n, ops);
    forall j: nat | j < n ensures Bound(Run(n, ops), j) == AskedOn(ops, j) {
      assert SetSinceClear(ops, j);
      LastSetterIsBound(n, ops, j);
    }
    hide Bound, AskedOn, Ends, Run;
    var s := Run(n, ops);
    assert Bound(s, i) == AskedOn(ops, i) && Known(mem, Bound(s, i));
    forall a ensures Drains(s, i, a) == AskedBefore(ops, i, a) {
      if j: nat :| j < i && Bound(s, j) == Stream(a) {
        assert AskedOn(ops, j) == Stream(a);
      }
      if j: nat :| j < i && AskedOn(ops, j) == Stream(a) {
        assert Bound(s, j) == Stream(a);
      }
    }
  }

  datatype Query = Refused | Ran(sending: Sending)

  /**
    do_query after any run of setters and clears: refused unless every
    position is set since the last clear. Otherwise the server receives for
    each position what its last setter asked for, up to the first position
    that cannot be sent.
    */
  method DoQuery(n: nat, ghost ops: seq<Op>, s: State, mem: Memory)
    returns (packets: seq<Packet>, after: Memory, outcome: Query)
    requires Calls(ops) && AllInRange(ops, n) && s == Run(n, ops)
    requires IsAllSet(s) ==> AllKnown(s, mem)
    ensures outcome.Refused? <==> exists i: nat :: i < n && !SetSinceClear(ops, i)
    ensures outcome.Refused? ==> packets == [] && after == mem
    ensures outcome.Ran? ==> AllKnown(s, mem) && Decided(s, mem, outcome.sending)
    ensures outcome.Ran? ==> forall i: nat | i < n :: Bound(s, i) == AskedOn(ops, i)
    ensures outcome.Ran? ==>
              forall i: nat | i < Reached(n, outcome.sending) :: Received(packets, i) == DueByCalls(ops, mem, i)
    ensures outcome.Ran? && outcome.sending.Threw? ==>
              var i := outcome.sending.position;
              Received(packets, i) == SentBeforeError(mem.streams[Bound(s, i).address])
    ensures outcome.Ran? ==> forall i: nat | Reached(n, outcome.sending) < i < n :: Received(packets, i) == []
    ensures outcome == Ran(Done) ==> after.texts == mem.texts && Consumed(s, mem, n, after.streams)
  {
    hide Received, Known, Calls, AllInRange, DueByCalls, SetSinceClear, Due, Decided, AskedOn, Bound, Consumed;
    AllSetIff(n, ops);
    if |s.bind| > 0 && !IsAllSet(s) {
      return [], mem, Refused;
    }
    var streams, sending;
    packets, streams, sending := SendLongData(s, mem);
    after, outcome := Memory(mem.texts, streams), Ran(sending);
    assert Reached(n, sending) <= n by { ReachedInRange(s, mem, sending); }
    forall i: nat | i < n
      ensures Bound(s, i) == AskedOn(ops, i)
      ensures i < Reached(n, sending) ==> Received(packets, i) == DueByCalls(ops, mem, i)
    {
      DueIs(n, ops, mem, i);
    }
  }

  lemma ReachedInRange(s: State, mem: Memory, outcome: Sending)
    requires AllKnown(s, mem) && Decided(s, mem, outcome)
    ensures Reached(|s.bind|, outcome) <= |s.bind|
  {
  }

  /** After a query that came through, the same query comes through again. */
  lemma GoesAgain(s: State, mem: Memory, streams: map<nat, IStream>, outcome: Sending)
    requires AllKnown(s, mem) && Decided(s, mem, Done) && Consumed(s, mem, |s.bind|, streams)
    ensures AllKnown(s, Memory(mem.texts, streams))
    ensures Decided(s, Memory(mem.texts, streams), outcome) ==> outcome.Done?
  {
    hide Bound, Ends;
    var after := Memory(mem.texts, streams);
    forall i: nat | i < |s.bind| ensures Known(after, Bound(s, i)) && Goes(after, Bound(s, i)) {
      assert Known(mem, Bound(s, i)) && Goes(mem, Bound(s, i));
      if Bound(s, i).Stream? {
        DrainedByItself(s, |s.bind|, i);
      }
    }
  }

  /** Executed twice: strings go out again as they are, streams have been read and send nothing. */
  method QueryTwice(n: nat, ghost ops: seq<Op>, s: State, mem: Memory)
    returns (first: seq<Packet>, second: seq<Packet>, outcome: Query)
    requires Calls(ops) && AllInRange(ops, n) && s == Run(n, ops)
    requires IsAllSet(s) ==> AllKnown(s, mem)
    ensures outcome == Ran(Done) <==>
            (forall i: nat | i < n :: SetSinceClear(ops, i)) &&
            (forall i: nat | i < n :: Known(mem, AskedOn(ops, i)) && Goes(mem, AskedOn(ops, i)))
    ensures outcome == Ran(Done) ==> forall i: nat | i < n ::
              && Received(first, i) == DueByCalls(ops, mem, i)
              && Received(second, i) == if AskedOn(ops, i).Stream? then [] else Received(first, i)
  {
    hide Received, Calls, AllInRange, SetSinceClear, AskedOn, Bound, Ends, Readable, Run;
    var after;
    first, after, outcome := DoQuery(n, ops, s, mem);
    second := [];
    if outcome == Ran(Done) {
      var again, result;
      GoesAgain(s, mem, after.streams, Done);
      second, again, result := DoQuery(n, ops, s, after);
      GoesAgain(s, mem, after.streams, if result.Ran? then result.sending else Done);
      forall i: nat | i < n
        ensures DueByCalls(ops, after, i) == if AskedOn(ops, i).Stream? then [] else DueByCalls(ops, mem, i)
      {
        assert Bound(s, i) == AskedOn(ops, i);
        if AskedOn(ops, i).Stream? {
          DrainedByItself(s, n, i);
        }
      }
    } else if outcome.Ran? {
      var i := Reached(n, outcome.sending);
      assert Bound(s, i) == AskedOn(ops, i);
    }
  }

  lemma DrainedByItself(s: State, n: nat, i: nat)
    requires i < n <= |s.bind| && Bound(s, i).Stream?
    ensures Drains(s, n, Bound(s, i).address)
  {
  }
}
