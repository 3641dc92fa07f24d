# A verified model of the coroutine library and the MySQL connector

The project models six parts of the repository and proves what they promise.
`dafny verify dfyconfig.toml` checks it.

* **Coroutines** (`Coroutine*.dfy`). A thread is a machine: each coroutine has a
  status, a caller, an owned stack and a saved stack pointer, and the saved
  stack pointer is the rest of its body. Bodies are arbitrary, possibly
  infinite programs of emit, cont, yield, return and management calls. The
  invariant holds in every reachable state, and the machine is shown to be a
  plain nested call.
  `CoroutineRuntime.dfy` has the classes with their fields.
* **UTF-8 and case folding** (`Utf8.dfy`, `CaseTable.dfy`, `LowerTable.dfy`,
  `CaseFold.dfy`). The codec of section 2 of RFC 2279 up to three octets, the
  whole upper-case table with the lower-case one beside it, and the loop over a
  buffer.
* **Cursors** (`Cursor.dfy`, `ResultSets.dfy`). One abstract cursor over
  positions 0 to n + 1. The in-memory result set refines it on every run whose
  calls of `absolute` survive a cast to int, the buffered and the prepared one
  exactly on the runs stated. The native cursor
  is the rows and an offset; a fetch returns the row at the offset and
  advances.
* **Foreign keys** (`SqlText.dfy`, `ForeignKey*.dfy`) and **privileges**
  (`Privileges.dfy`). The position-moving parsers and their inverses, with the
  text after the key left open.
* **Parameters** (`ParamBind*.dfy`, `LongData.dfy`). What is bound, who deletes
  the blobs, and what is sent in chunks.
* **Connection URL** (`ConnectionUrl.dfy`).

Where the code does not do what its interface suggests, the model follows the
code and a lemma states exactly when the code is right, for all inputs:

* `restart()` on a Running coroutine breaks the chain of callers.
* The buffered cursor loses a row after an underflow by `absolute` or `relative`.
* The prepared cursor shows an old row after `relative`.
* `parseImportedKeys` reads a missing `ON DELETE` or `ON UPDATE` clause from the
  next key of the table, and takes `ON UPDATE NO ACTION` followed by ` DELETE`
  for an `ON DELETE` clause. It cuts a name at its first backslash, and takes the
  rest of the statement for a column shorter than its two quotes.
* The unsigned flag of a parameter is never taken back.
* A string longer than 2^32 - 2^18 is sent for ever, and one over 256 KB is read
  from the caller's memory only when the statement is executed.
* A stream is sent by the first execution only.
* `absolute` counts wrong when the number of rows is not an int.
* A host that starts with `localhost` becomes `127.0.0.1`, whatever follows.
* A blob handed over twice with the delete flag is deleted twice.

Methods of classes are proved against functions of the old state
(`View() == Step(old(View()), ...)`); the properties are lemmas about those
functions. `CHUNK`, `MAX_STRING`, the action numbers and the table are the
constants of the code.

## Model

| member | source | states |
|---|---|---|
| `CoroutineNesting.ContIsANestedCall` | coroutine/src/coroutine.cpp:232-282 | cont(d) is a procedure call: it comes back to the coroutine that called, on its own stack, at the operation after the call, with the chain below unchanged, the coroutines' phases and the event log those of a plain nested call, and true iff d is not Terminated; if the nested call fails the machine fails alike, and while it runs so does the machine |
| `CoroutineNesting.ReturnsIffTheCallDoes` | coroutine/src/coroutine.cpp:214-282 | the machine returns from the current coroutine after some number of steps if and only if the nested-call semantics does with some fuel |
| `CoroutineNesting.Simulates` | coroutine/src/coroutine.cpp:214-282 | from every good state and for every fuel the machine with caller links and saved stack pointers does what the nested call says, with the number of steps as witness |
| `CoroutineNesting.ContReturns` | coroutine/src/coroutine.cpp:247-250 | after a callee has given control back, one more step delivers the result of cont() to the caller |
| `CoroutineNesting.ManageStep` | coroutine/src/coroutine.cpp:130-183 | construct, createStack, setStack, restart and delete change the phases exactly as the store of the nested semantics says, or fail with the same fault |
| `CoroutineNesting.LeaveStep` | coroutine/src/coroutine.cpp:266-282 | yield and the end of a body suspend or finish the current coroutine, log it, and resume what its caller had saved |
| `CoroutineNesting.StopsForGood` | coroutine/src/coroutine.cpp:214-282 | a run that has stopped or failed stays so |
| `CoroutineTraces.BodiesRunInOrder` | coroutine/src/coroutine.cpp:214-282 | in every run of every thread the events of each coroutine are an in-order, exactly-once prefix of a run of its body, complete iff it is Terminated |
| `CoroutineTraces.EveryRunOnTrack` | coroutine/src/coroutine.cpp:214-282 | what a coroutine has saved is the rest of its body after the events it has logged, kept by every run from any good state |
| `CoroutineTraces.RunningWaits` | coroutine/src/coroutine.cpp:240-247 | every Running coroutine other than the current one waits inside a cont() |
| `CoroutineInvariants.EveryRunKeeps` | coroutine/src/coroutine.cpp:196-282 | every run keeps the invariant: the caller links form one finite acyclic chain from current to the root, made of exactly the Running coroutines, all others have no caller, saved stack pointers fit the status, stacks have one owner |
| `CoroutineInvariants.StepKeeps` | coroutine/src/coroutine.cpp:214-282 | one step keeps the invariant, and the chain grows only by cont and shrinks only by yield or return |
| `CoroutineInvariants.BootIsGood` | coroutine/src/coroutine.cpp:196-209 | a thread with only its root coroutine satisfies the invariant |
| `CoroutineInvariants.ChainIsUnique` | coroutine/src/coroutine.cpp:196-212 | there is only one chain of caller links |
| `CoroutineInvariants.StackMemorySafety` | coroutine/src/coroutine.cpp:130-183 | over every run: no stack is freed twice, no two coroutines own the same stack, no stack is leaked, no saved or live frame is on freed memory; borrowed memory is never freed |
| `CoroutineStacks.StacksAsGiven` | coroutine/src/coroutine.cpp:151-183 | over every run: a coroutine lent memory by setStack, with no construct, restart or createStack on it since, has its frames in exactly that memory, saved or live; any other has a malloc'd stack or none yet; the root stays on the thread's |
| `CoroutineStacks.EveryRunAsGiven` | coroutine/src/coroutine.cpp:151-183 | the same from any good state where it holds |
| `CoroutineStacks.StartsOnLentMemory` | coroutine/src/coroutine.cpp:173-183 | continued right after setStack, a coroutine starts at its entry point on that memory |
| `CoroutineInvariants.RestartForgets` | coroutine/src/coroutine.h:48-56 | restart() leaves the coroutine as constructed, frees its stack, and touches no other, whatever its status |
| `CoroutineInvariants.FaultsAreTheCallers` | coroutine/src/coroutine.cpp:232-282 | from a good state the assertions on the library's own links never fail; those on status fail exactly when a Running or Terminated coroutine is continued or the root yields |
| `CoroutineInvariants.CreateStackKeeps` | coroutine/src/coroutine.cpp:151-163 | createStack frees the old stack, owns the new one and keeps the invariant |
| `CoroutineInvariants.SetStackKeeps` | coroutine/src/coroutine.cpp:173-183 | setStack frees an owned stack, borrows the memory and keeps the invariant |
| `CoroutineInvariants.RestartKeepsIff` | coroutine/src/coroutine.h:48-56 | restart() leaves a state with a valid chain if and only if the coroutine is not Running |
| `CoroutineInvariants.DeleteKeeps` | coroutine/src/coroutine.cpp:130-141 | deleting a coroutine that is not Running keeps the invariant |
| `CoroutineInvariants.ConstructKeeps` | coroutine/src/coroutine.cpp:119-128 | constructing keeps the invariant |
| `CoroutineInvariants.EnterKeeps` | coroutine/src/coroutine.cpp:232-247 | entering a NotStarted or Stopped coroutine, with or without a stack, puts it on top of the chain and keeps the invariant |
| `CoroutineInvariants.LeaveKeeps` | coroutine/src/coroutine.cpp:266-282 | leaving takes the top off the chain, finds the caller waiting for exactly this callee, and keeps the invariant |
| `CoroutineRuntime.Coroutine.constructor` | coroutine/src/coroutine.cpp:119-128 | a new coroutine has no stack, no caller and is NotStarted |
| `CoroutineRuntime.Coroutine.ReleaseStack` | coroutine/src/coroutine.cpp:139-140 | frees the owned stack, if any |
| `CoroutineRuntime.Coroutine.CreateStack` | coroutine/src/coroutine.cpp:151-163 | the object's fields and the allocator end as CreateStack of the machine says |
| `CoroutineRuntime.Coroutine.SetStack` | coroutine/src/coroutine.cpp:173-183 | likewise SetStack |
| `CoroutineRuntime.Coroutine.Delete` | coroutine/src/coroutine.cpp:130-141 | likewise Delete |
| `CoroutineRuntime.Coroutine.Cont` | coroutine/src/coroutine.cpp:232-247 | likewise EnterCallee; a missing stack is created first |
| `CoroutineRuntime.Coroutine.Enter` | coroutine/src/coroutine.cpp:240-247 | the part of cont() after the stack exists |
| `CoroutineRuntime.Coroutine.Restart` | coroutine/src/coroutine.h:48-56 | likewise Restart |
| `CoroutineRuntime.Thread.constructor` | coroutine/src/coroutine.cpp:196-212 | a new thread is Boot of the machine |
| `CoroutineRuntime.Thread.YieldHelper` | coroutine/src/coroutine.cpp:266-282 | the fields end as LeaveToCaller of the machine says |
| `CoroutineRuntime.Thread.Step` | coroutine/src/coroutine.cpp:214-282 | from every good state of the objects one step, by whatever operation is next, leaves them as Step of the machine says and good again, or reports the same fault and changes nothing |
| `CoroutineRuntime.Thread.ReturnFromCont` | coroutine/src/coroutine.cpp:247-250 | back in the caller, cont() returns true iff the callee is not Terminated, and the body goes on at the matching branch |
| `CoroutineRuntime.Thread.CallMember` | coroutine/src/coroutine.cpp:119-183 | construct, createStack, setStack, restart and delete on the objects, with their assertions, are StepManage of the machine |
| `CoroutineRuntime.Coroutine.Initialise` | coroutine/src/coroutine.cpp:119-128 | a constructed coroutine joins the thread as Construct of the machine says |
| `CoroutineRuntime.ReadyForCalls` | coroutine/src/coroutine.cpp:232-282 | in a good state of the objects the assertions of cont() and yieldHelper() other than the one on status hold |
| `Utf8.DecodeEncode` | mysql-connector-c++-1.1.0/driver/mysql_util.cpp:2054-2093 | decoding an encoded character yields it and consumes exactly its bytes, whatever follows |
| `Utf8.EncodeDecode` | mysql-connector-c++-1.1.0/driver/mysql_util.cpp:2054-2093 | encoding a decoded character reproduces exactly the bytes consumed |
| `Utf8.OneFormEach` | mysql-connector-c++-1.1.0/driver/mysql_util.cpp:2054-2093 | a byte string decodes to w as a whole if and only if it is the encoding of w: overlong forms are rejected |
| `Utf8.UniUtf8` | mysql-connector-c++-1.1.0/driver/mysql_util.cpp:2161-2203 | my_uni_utf8 with its fall-through writes the encoding in place, or reports no room or an illegal character and changes nothing |
| `CaseTable.Facts00` | mysql-connector-c++-1.1.0/driver/mysql_util.cpp:566-697 | the upper-case column for 0000 to 00FF: idempotent, never needs a longer encoding, and only NUL maps to NUL |
| `CaseTable.Facts0100` | mysql-connector-c++-1.1.0/driver/mysql_util.cpp:699-828 | the upper-case column for 0100 to 013F: idempotent, never needs a longer encoding, and only NUL maps to NUL |
| `CaseTable.Facts0140` | mysql-connector-c++-1.1.0/driver/mysql_util.cpp:699-828 | the upper-case column for 0140 to 017F: idempotent, never needs a longer encoding, and only NUL maps to NUL |
| `CaseTable.Facts0180` | mysql-connector-c++-1.1.0/driver/mysql_util.cpp:699-828 | the upper-case column for 0180 to 019F: idempotent, never needs a longer encoding, and only NUL maps to NUL |
| `CaseTable.Facts01A0` | mysql-connector-c++-1.1.0/driver/mysql_util.cpp:699-828 | the upper-case column for 01A0 to 01BF: idempotent, never needs a longer encoding, and only NUL maps to NUL |
| `CaseTable.Facts01C0` | mysql-connector-c++-1.1.0/driver/mysql_util.cpp:699-828 | the upper-case column for 01C0 to 01DF: idempotent, never needs a longer encoding, and only NUL maps to NUL |
| `CaseTable.Facts01E0` | mysql-connector-c++-1.1.0/driver/mysql_util.cpp:699-828 | the upper-case column for 01E0 to 01FF: idempotent, never needs a longer encoding, and only NUL maps to NUL |
| `CaseTable.Facts0200` | mysql-connector-c++-1.1.0/driver/mysql_util.cpp:830-959 | the upper-case column for 0200 to 023F: idempotent, never needs a longer encoding, and only NUL maps to NUL |
| `CaseTable.Facts0240` | mysql-connector-c++-1.1.0/driver/mysql_util.cpp:830-959 | the upper-case column for 0240 to 026B: idempotent, never needs a longer encoding, and only NUL maps to NUL |
| `CaseTable.Facts026C` | mysql-connector-c++-1.1.0/driver/mysql_util.cpp:830-959 | the upper-case column for 026C to 02FF: idempotent, never needs a longer encoding, and only NUL maps to NUL |
| `CaseTable.Facts0300` | mysql-connector-c++-1.1.0/driver/mysql_util.cpp:961-1090 | the upper-case column for 0300 to 039F: idempotent, never needs a longer encoding, and only NUL maps to NUL |
| `CaseTable.Facts03A0` | mysql-connector-c++-1.1.0/driver/mysql_util.cpp:961-1090 | the upper-case column for 03A0 to 03CB: idempotent, never needs a longer encoding, and only NUL maps to NUL |
| `CaseTable.Facts03CC` | mysql-connector-c++-1.1.0/driver/mysql_util.cpp:961-1090 | the upper-case column for 03CC to 03FF: idempotent, never needs a longer encoding, and only NUL maps to NUL |
| `CaseTable.Facts0400` | mysql-connector-c++-1.1.0/driver/mysql_util.cpp:1092-1221 | the upper-case column for 0400 to 045F: idempotent, never needs a longer encoding, and only NUL maps to NUL |
| `CaseTable.Facts0460` | mysql-connector-c++-1.1.0/driver/mysql_util.cpp:1092-1221 | the upper-case column for 0460 to 04FF: idempotent, never needs a longer encoding, and only NUL maps to NUL |
| `CaseTable.Facts05` | mysql-connector-c++-1.1.0/driver/mysql_util.cpp:1223-1352 | the upper-case column for 0500 to 05FF: idempotent, never needs a longer encoding, and only NUL maps to NUL |
| `CaseTable.Facts1E` | mysql-connector-c++-1.1.0/driver/mysql_util.cpp:1354-1483 | the upper-case column for 1E00 to 1EFF: idempotent, never needs a longer encoding, and only NUL maps to NUL |
| `CaseTable.Facts1F00` | mysql-connector-c++-1.1.0/driver/mysql_util.cpp:1485-1614 | the upper-case column for 1F00 to 1F4F: idempotent, never needs a longer encoding, and only NUL maps to NUL |
| `CaseTable.Facts1F50` | mysql-connector-c++-1.1.0/driver/mysql_util.cpp:1485-1614 | the upper-case column for 1F50 to 1F6F: idempotent, never needs a longer encoding, and only NUL maps to NUL |
| `CaseTable.Facts1F70` | mysql-connector-c++-1.1.0/driver/mysql_util.cpp:1485-1614 | the upper-case column for 1F70 to 1FAF: idempotent, never needs a longer encoding, and only NUL maps to NUL |
| `CaseTable.Facts1FB0` | mysql-connector-c++-1.1.0/driver/mysql_util.cpp:1485-1614 | the upper-case column for 1FB0 to 1FCF: idempotent, never needs a longer encoding, and only NUL maps to NUL |
| `CaseTable.Facts1FD0` | mysql-connector-c++-1.1.0/driver/mysql_util.cpp:1485-1614 | the upper-case column for 1FD0 to 1FFF: idempotent, never needs a longer encoding, and only NUL maps to NUL |
| `CaseTable.Facts21` | mysql-connector-c++-1.1.0/driver/mysql_util.cpp:1616-1745 | the upper-case column for 2100 to 21FF: idempotent, never needs a longer encoding, and only NUL maps to NUL |
| `CaseTable.Facts24` | mysql-connector-c++-1.1.0/driver/mysql_util.cpp:1747-1876 | the upper-case column for 2400 to 24FF: idempotent, never needs a longer encoding, and only NUL maps to NUL |
| `CaseTable.FactsFF` | mysql-connector-c++-1.1.0/driver/mysql_util.cpp:1878-2007 | the upper-case column for FF00 to FFFF: idempotent, never needs a longer encoding, and only NUL maps to NUL |
| `CaseTable.UpperFacts` | mysql-connector-c++-1.1.0/driver/mysql_util.cpp:566-2043 | the same for the whole table, every code below 0x10000 |
| `LowerTable.AsciiUpper` | mysql-connector-c++-1.1.0/driver/mysql_util.cpp:566-697 | on ASCII exactly a to z are changed, to A to Z |
| `LowerTable.UpperAfterLower` | mysql-connector-c++-1.1.0/driver/mysql_util.cpp:566-2043 | against the table's other column, for every code: the upper case of the lower case is the upper case, but for four signs, whose values are given |
| `LowerTable.LowerAfterUpper` | mysql-connector-c++-1.1.0/driver/mysql_util.cpp:566-2043 | the other way round, for every code: the lower case, but for fourteen variants, whose values are given |
| `LowerTable.UndoneIff` | mysql-connector-c++-1.1.0/driver/mysql_util.cpp:566-2043 | exactly which codes the two columns do not undo |
| `LowerTable.TitleIff` | mysql-connector-c++-1.1.0/driver/mysql_util.cpp:566-2043 | a code that has a lower case is its own upper case, but for the four title-case digraphs |
| `CaseFold.SameCaseUpIff` | mysql-connector-c++-1.1.0/driver/mysql_util.cpp:2206-2224 | two texts fold alike if and only if their characters have the same upper cases |
| `CaseFold.CaseUpAscii` | mysql-connector-c++-1.1.0/driver/mysql_util.cpp:2206-2224 | an ASCII text is upper-cased letter by letter, to the same length |
| `CaseFold.AsciiFoldIff` | mysql-connector-c++-1.1.0/driver/mysql_util.cpp:2206-2240 | two ASCII texts fold alike if and only if they are equal up to the case of their letters |
| `CaseFold.FittingIsLongest` | mysql-connector-c++-1.1.0/driver/mysql_util.cpp:2217-2219 | with too little room, what is written is the longest run of whole characters from the front that fits |
| `Utf8.CutShort` | mysql-connector-c++-1.1.0/driver/mysql_util.cpp:2054-2093 | every proper prefix of a character is reported as too small, with the octets it needs |
| `Utf8.IllegalForGood` | mysql-connector-c++-1.1.0/driver/mysql_util.cpp:2054-2093 | an illegal sequence stays illegal whatever follows; one that is too small is shorter than what it asks for |
| `CaseFold.DecodeAllEncoded` | mysql-connector-c++-1.1.0/driver/mysql_util.cpp:2206-2224 | decoding inverts encoding on strings, before any rest |
| `CaseFold.EncodeAllDecoded` | mysql-connector-c++-1.1.0/driver/mysql_util.cpp:2206-2224 | the decoded characters encode to a prefix of the string, after which nothing can be decoded |
| `CaseFold.LongestValidPrefix` | mysql-connector-c++-1.1.0/driver/mysql_util.cpp:2206-2224 | that prefix is the longest valid one |
| `CaseFold.CaseUpTwice` | mysql-connector-c++-1.1.0/driver/mysql_util.cpp:2206-2240 | upper-casing is idempotent on all byte strings, valid or not |
| `CaseFold.CaseUpConcat` | mysql-connector-c++-1.1.0/driver/mysql_util.cpp:2206-2224 | it distributes over concatenation when the left part is valid |
| `CaseFold.CaseUpLength` | mysql-connector-c++-1.1.0/driver/mysql_util.cpp:2206-2240 | the result is never longer than the input, and contains NUL only if the input does |
| `CaseFold.RoomEnough` | mysql-connector-c++-1.1.0/driver/mysql_util.cpp:2227-2240 | room for as many bytes as the source has, and so for four times that, is always enough |
| `CaseFold.CaseUpUtf8` | mysql-connector-c++-1.1.0/driver/mysql_util.cpp:2206-2224 | the loop writes exactly the upper-cased longest valid prefix that fits, inside the buffer |
| `CaseFold.StrLen` | mysql-connector-c++-1.1.0/driver/mysql_util.cpp:2227-2240 | strlen |
| `CaseFold.StrUp` | mysql-connector-c++-1.1.0/driver/mysql_util.cpp:2227-2240 | utf8_strup returns a new buffer with the upper-cased text and its terminator in bounds; as a C string it is the upper-cased text |
| `Cursor.AbsoluteIff` | mysql-connector-c++-1.1.0/driver/mysql_resultset.cpp:86-114 | the position a result set computes, with the int casts of absolute(), is the abstract one if and only if the row count is an int, the argument is 0, or the argument is no further than the row count cast to int |
| `Cursor.LandingIff` | mysql-connector-c++-1.1.0/driver/mysql_art_resultset.cpp:256-281 | over every run, a cursor whose only fault is that cast shows what the abstract cursor shows if and only if no absolute() of the run is made wrong by it |
| `Cursor.WrappedTest` | mysql-connector-c++-1.1.0/driver/mysql_resultset.cpp:921-936 | the unsigned 64-bit test of relative() is true integer clamping |
| `BufferedCursor.BufferedRefinesIff` | mysql-connector-c++-1.1.0/driver/mysql_resultset.cpp:86-138 | over every run the buffered cursor shows what the abstract cursor shows if (and, for distinct rows, only if) no next() is made before the first row while the native cursor is not rewound, and no absolute() is made wrong by its cast |
| `BufferedCursor.TraceIff` | mysql-connector-c++-1.1.0/driver/mysql_resultset.cpp:861-936 | the same from every state in step |
| `BufferedCursor.StepKeeps` | mysql-connector-c++-1.1.0/driver/mysql_resultset.cpp:861-936 | a careful move keeps position, offset and row in step and answers alike; the other kind shows something else |
| `BufferedCursor.RewindingIsCareful` | mysql-connector-c++-1.1.0/driver/mysql_resultset.cpp:86-138 | runs that enter before-first only by beforeFirst, absolute(0) or previous are careful |
| `BufferedCursor.UnderflowLosesTheRow` | mysql-connector-c++-1.1.0/driver/mysql_resultset.cpp:100-101 | the counterexample: after absolute(-2) or relative(-1) from the only row, next() reports no row |
| `PreparedCursor.PreparedRefinesIff` | mysql-connector-c++-1.1.0/driver/mysql_ps_resultset.cpp:1198-1305 | over every run the prepared cursor shows what the abstract cursor shows if (and, for distinct rows, only if) each relative() ends on the row last fetched no next() follows a relative(), and no absolute() is made wrong by its cast |
| `PreparedCursor.TraceIff` | mysql-connector-c++-1.1.0/driver/mysql_ps_resultset.cpp:1198-1305 | the same from every state in step |
| `PreparedCursor.StepKeeps` | mysql-connector-c++-1.1.0/driver/mysql_ps_resultset.cpp:1198-1305 | a safe move keeps the bound row and the offset in step; an unsafe one shows something else |
| `PreparedCursor.NoRelativeIsCareful` | mysql-connector-c++-1.1.0/driver/mysql_ps_resultset.cpp:1198-1245 | without a non-zero relative() that ends on a row every run is careful, so next() needs no positioning |
| `PreparedCursor.RelativeShowsTheOldRow` | mysql-connector-c++-1.1.0/driver/mysql_ps_resultset.cpp:1290-1305 | the counterexample: relative() to another row shows the old row at the new position |
| `ArtResultSets.ArtResultSet.Seek` | mysql-connector-c++-1.1.0/driver/mysql_art_resultset.cpp:231-239 | the iterator loop ends on the row of the position, from anywhere |
| `ArtResultSets.ArtResultSet.AfterLast` | mysql-connector-c++-1.1.0/driver/mysql_art_resultset.cpp:287-293 | the position, the iterator and the answer are those of the abstract cursor, on every run |
| `ArtResultSets.ArtResultSet.BeforeFirst` | mysql-connector-c++-1.1.0/driver/mysql_art_resultset.cpp:299-305 | the position, the iterator and the answer are those of the abstract cursor, on every run |
| `ArtResultSets.ArtResultSet.Absolute` | mysql-connector-c++-1.1.0/driver/mysql_art_resultset.cpp:256-281 | the position is that of AbsoluteIff, for every number of rows, with iterator and answer to match |
| `ArtResultSets.ArtResultSet.First` | mysql-connector-c++-1.1.0/driver/mysql_art_resultset.cpp:378-387 | the position, the iterator and the answer are those of the abstract cursor, on every run |
| `ArtResultSets.ArtResultSet.Last` | mysql-connector-c++-1.1.0/driver/mysql_art_resultset.cpp:840-849 | the position, the iterator and the answer are those of the abstract cursor, on every run |
| `ArtResultSets.ArtResultSet.Next` | mysql-connector-c++-1.1.0/driver/mysql_art_resultset.cpp:877-894 | the position, the iterator and the answer are those of the abstract cursor, on every run |
| `ArtResultSets.ArtResultSet.Previous` | mysql-connector-c++-1.1.0/driver/mysql_art_resultset.cpp:900-916 | the position, the iterator and the answer are those of the abstract cursor, on every run |
| `ArtResultSets.ArtResultSet.Relative` | mysql-connector-c++-1.1.0/driver/mysql_art_resultset.cpp:933-947 | the position, the iterator and the answer are those of the abstract cursor, on every run |
| `BufferedResultSets.BufferedResultSet.Seek` | mysql-connector-c++-1.1.0/driver/mysql_resultset.cpp:1027-1033 | the native cursor is moved and the row fetched |
| `BufferedResultSets.BufferedResultSet.AfterLast` | mysql-connector-c++-1.1.0/driver/mysql_resultset.cpp:120-125 | position, native offset, row and answer end as the step of BufferedCursor says |
| `BufferedResultSets.BufferedResultSet.BeforeFirst` | mysql-connector-c++-1.1.0/driver/mysql_resultset.cpp:131-138 | position, native offset, row and answer end as the step of BufferedCursor says |
| `BufferedResultSets.BufferedResultSet.Absolute` | mysql-connector-c++-1.1.0/driver/mysql_resultset.cpp:86-114 | position, native offset, row and answer end as the step of BufferedCursor says |
| `BufferedResultSets.BufferedResultSet.First` | mysql-connector-c++-1.1.0/driver/mysql_resultset.cpp:243-253 | position, native offset, row and answer end as the step of BufferedCursor says |
| `BufferedResultSets.BufferedResultSet.Last` | mysql-connector-c++-1.1.0/driver/mysql_resultset.cpp:821-831 | position, native offset, row and answer end as the step of BufferedCursor says |
| `BufferedResultSets.BufferedResultSet.Next` | mysql-connector-c++-1.1.0/driver/mysql_resultset.cpp:861-881 | position, native offset, row and answer end as the step of BufferedCursor says |
| `BufferedResultSets.BufferedResultSet.Previous` | mysql-connector-c++-1.1.0/driver/mysql_resultset.cpp:887-904 | position, native offset, row and answer end as the step of BufferedCursor says |
| `BufferedResultSets.BufferedResultSet.Relative` | mysql-connector-c++-1.1.0/driver/mysql_resultset.cpp:921-936 | position, native offset, row and answer end as the step of BufferedCursor says |
| `PreparedResultSets.PreparedResultSet.Seek` | mysql-connector-c++-1.1.0/driver/mysql_ps_resultset.cpp:1396-1401 | the native cursor is moved and the row fetched |
| `PreparedResultSets.PreparedResultSet.AfterLast` | mysql-connector-c++-1.1.0/driver/mysql_ps_resultset.cpp:154-161 | position, native offset, row and answer end as the step of PreparedCursor says |
| `PreparedResultSets.PreparedResultSet.BeforeFirst` | mysql-connector-c++-1.1.0/driver/mysql_ps_resultset.cpp:167-174 | position, native offset, row and answer end as the step of PreparedCursor says |
| `PreparedResultSets.PreparedResultSet.Absolute` | mysql-connector-c++-1.1.0/driver/mysql_ps_resultset.cpp:121-149 | position, native offset, row and answer end as the step of PreparedCursor says |
| `PreparedResultSets.PreparedResultSet.First` | mysql-connector-c++-1.1.0/driver/mysql_ps_resultset.cpp:278-288 | position, native offset, row and answer end as the step of PreparedCursor says |
| `PreparedResultSets.PreparedResultSet.Last` | mysql-connector-c++-1.1.0/driver/mysql_ps_resultset.cpp:1158-1168 | position, native offset, row and answer end as the step of PreparedCursor says |
| `PreparedResultSets.PreparedResultSet.Next` | mysql-connector-c++-1.1.0/driver/mysql_ps_resultset.cpp:1198-1245 | position, native offset, row and answer end as the step of PreparedCursor says |
| `PreparedResultSets.PreparedResultSet.Previous` | mysql-connector-c++-1.1.0/driver/mysql_ps_resultset.cpp:1251-1273 | position, native offset, row and answer end as the step of PreparedCursor says |
| `PreparedResultSets.PreparedResultSet.Relative` | mysql-connector-c++-1.1.0/driver/mysql_ps_resultset.cpp:1290-1305 | position, native offset, row and answer end as the step of PreparedCursor says |
| `ArtResultSets.ArtResultSet.Perform` | mysql-connector-c++-1.1.0/driver/mysql_art_resultset.cpp:256-947 | a whole run of moves on the object shows what the abstract cursor shows if and only if no absolute() is made wrong by its cast |
| `BufferedResultSets.BufferedResultSet.Perform` | mysql-connector-c++-1.1.0/driver/mysql_resultset.cpp:86-936 | a whole run of moves on the object shows the trace that BufferedRefinesIff is about |
| `PreparedResultSets.PreparedResultSet.Perform` | mysql-connector-c++-1.1.0/driver/mysql_ps_resultset.cpp:121-1305 | a whole run of moves on the object shows the trace that PreparedRefinesIff is about |
| `ArtResultSets.ArtResultSet.constructor` | mysql-connector-c++-1.1.0/driver/mysql_art_resultset.cpp:197-215 | the name index holds for each upper-cased name its last column |
| `ArtResultSets.ArtResultSet.FindColumn` | mysql-connector-c++-1.1.0/driver/mysql_art_resultset.cpp:358-372 | 1 + the last column whose folded name is the folded label, or 0 if there is none |
| `ArtResultSets.ArtResultSet.FindByStoredLabel` | mysql-connector-c++-1.1.0/driver/mysql_art_resultset.cpp:207-212 | with distinct folded names the stored label of column i finds column i |
| `ArtResultSets.AsciiNamesIff` | mysql-connector-c++-1.1.0/driver/mysql_art_resultset.cpp:207-212 | two ASCII names have the same key if and only if they are equal up to the case of their letters |
| `ArtResultSets.ArtResultSet.FindAsciiColumn` | mysql-connector-c++-1.1.0/driver/mysql_art_resultset.cpp:358-372 | with ASCII names: 1 + the last column whose name is the label up to case, or 0 |
| `ArtResultSets.FoldedTwice` | mysql-connector-c++-1.1.0/driver/mysql_art_resultset.cpp:207-212 | folding a folded name changes nothing |
| `ArtResultSets.ArtResultSet.ReadForward` | mysql-connector-c++-1.1.0/driver/mysql_art_resultset.cpp:877-894 | while (next()) ends having read every row once in order |
| `ArtResultSets.ArtResultSet.ReadBackward` | mysql-connector-c++-1.1.0/driver/mysql_art_resultset.cpp:900-916 | afterLast() and while (previous()) read every row once in reverse |
| `ForeignKeyPrinter.ParsePrint` | mysql-connector-c++-1.1.0/driver/mysql_metadata.cpp:2500-2621 | the parser inverts the printer, whatever text follows the key: constraint, tables and all columns are recovered without reading past the end; the actions read are given exactly, and are the key's own if and only if the text after it does not mislead the search |
| `ForeignKeyPrinter.PrintedKeyRow` | mysql-connector-c++-1.1.0/driver/mysql_metadata.cpp:2746-2795 | row i of the result pairs the i-th column with the i-th column it refers to, with all its other columns; its two rules are right under the same exact condition, whatever follows |
| `ForeignKeyPrinter.SecondKeyMisleads` | mysql-connector-c++-1.1.0/driver/mysql_metadata.cpp:2597-2619 | the counterexample: in every statement where a key with ON UPDATE only is followed by a key with ON DELETE, the first is reported with the action of the second |
| `ForeignKeyPrinter.SectionIs` | mysql-connector-c++-1.1.0/driver/mysql_metadata.cpp:2546-2587 | a printed FOREIGN KEY or REFERENCES section is read back with its optional name and all its columns |
| `ForeignKeyPrinter.FieldsAre` | mysql-connector-c++-1.1.0/driver/mysql_metadata.cpp:2565-2585 | the field loop returns a printed column list of any length |
| `ForeignKeyPrinter.NameIs` | mysql-connector-c++-1.1.0/driver/mysql_metadata.cpp:2521-2535 | a quoted name is read back |
| `ForeignKeyRules.RulesPrinted` | mysql-connector-c++-1.1.0/driver/mysql_metadata.cpp:2590-2619 | for every pair of optional clauses and every text after them: which actions are read, and that they are the printed ones if and only if not Misread, a condition on the keywords in that text and the first letter after them |
| `ForeignKeyRules.RulesRead` | mysql-connector-c++-1.1.0/driver/mysql_metadata.cpp:2590-2619 | the two searches with a moving position read from any text what the text says without positions |
| `ForeignKeyRules.RuleReads` | mysql-connector-c++-1.1.0/driver/mysql_metadata.cpp:2597-2619 | one search: the action is told by the first letter after the keyword and its blanks, and the next search starts one character after the action |
| `ForeignKeyRules.ClausesNamed` | mysql-connector-c++-1.1.0/driver/mysql_metadata.cpp:2590-2619 | what a text that begins with printed clauses says |
| `ForeignKeyRules.DeleteAfterUpdate` | mysql-connector-c++-1.1.0/driver/mysql_metadata.cpp:2597-2602 | where ON DELETE is found when only ON UPDATE was printed, even across the end of the clause |
| `ForeignKeyRules.SafeSuffix` | mysql-connector-c++-1.1.0/driver/mysql_metadata.cpp:2590-2619 | a key with both clauses is never misread, whatever follows; nor is one before a text without the keywords |
| `ForeignKeyRules.RulesMisled` | mysql-connector-c++-1.1.0/driver/mysql_metadata.cpp:2590-2619 | a counterexample family: ON UPDATE NO ACTION followed by DELETE is taken for an ON DELETE clause |
| `ForeignKeyRules.LaterKeyMisleads` | mysql-connector-c++-1.1.0/driver/mysql_metadata.cpp:2590-2619 | a counterexample family: a later ON DELETE clause is read for a key that has ON UPDATE only, exactly when it is misread |
| `ForeignKeys.ParseImportedKeys` | mysql-connector-c++-1.1.0/driver/mysql_metadata.cpp:2500-2621 | the position-moving parser with its loops and 64-bit wrap-around computes the reference function Parse on every statement |
| `ForeignKeys.NoConstraintIff` | mysql-connector-c++-1.1.0/driver/mysql_metadata.cpp:2512-2516 | nothing is reported if and only if the word CONSTRAINT is not in the statement |
| `ForeignKeys.NoQuoteOverruns` | mysql-connector-c++-1.1.0/driver/mysql_metadata.cpp:2521-2525 | where no quote follows the word, the scan leaves the statement |
| `ForeignKeys.ShortField` | mysql-connector-c++-1.1.0/driver/mysql_metadata.cpp:2576-2579 | brackets with less than two characters in them: the length wraps, and the field is all the rest of the statement |
| `ForeignKeys.OpenBracket` | mysql-connector-c++-1.1.0/driver/mysql_metadata.cpp:2567-2586 | a bracket that is never closed: the field is all the rest, and the next search starts over at 0 |
| `ForeignKeys.MissingKeyword` | mysql-connector-c++-1.1.0/driver/mysql_metadata.cpp:2543-2548 | a missing keyword: the position wraps, and reading goes on near the start of the statement |
| `ForeignKeyPrinter.NameIff` | mysql-connector-c++-1.1.0/driver/mysql_metadata.cpp:2521-2535 | a quoted name is read up to its first backslash, so it is read back if and only if no backslash comes before its last character |
| `ForeignKeyRules.ActionNumbers` | mysql-connector-c++-1.1.0/cppconn/metadata.h:67-77 | the numbers reported for the actions and for deferrability |
| `ForeignKeys.NameLoop` | mysql-connector-c++-1.1.0/driver/mysql_metadata.cpp:2530-2532 | the two-condition scan for the closing quote computes NameAt |
| `ForeignKeys.FieldsLoop` | mysql-connector-c++-1.1.0/driver/mysql_metadata.cpp:2565-2585 | the do-while over the columns computes Fields |
| `ForeignKeys.ReadSection` | mysql-connector-c++-1.1.0/driver/mysql_metadata.cpp:2543-2587 | one round of the first keyword loop computes SectionAt |
| `ForeignKeys.ReadRule` | mysql-connector-c++-1.1.0/driver/mysql_metadata.cpp:2597-2619 | one round of the second keyword loop computes Rule |
| `ForeignKeys.ImportedKeys` | mysql-connector-c++-1.1.0/driver/mysql_metadata.cpp:2746-2795 | the row loop yields min(columns, references) rows, each the row of its index; none for a statement without the word CONSTRAINT; an unnamed table is reported as the empty string |
| `SqlText.FindsIff` | mysql-connector-c++-1.1.0/driver/mysql_metadata.cpp:2512-2517 | the search from the start fails if and only if there is nothing to find |
| `SqlText.FindFirst` | mysql-connector-c++-1.1.0/driver/mysql_metadata.cpp:2512-2517 | the search finds the first match or none |
| `ParamBinds.EveryBlobDeletedOnce` | mysql-connector-c++-1.1.0/driver/mysql_prepared_statement.cpp:243-326 | every run that ends in the destructor deletes each blob exactly as often as it was handed over with the delete flag, and never one only handed over without it |
| `ParamBinds.Conservation` | mysql-connector-c++-1.1.0/driver/mysql_prepared_statement.cpp:243-326 | at every moment of every run, deletions done plus deletions due equal the hand-overs with the flag |
| `ParamBinds.ClearLedger` | mysql-connector-c++-1.1.0/driver/mysql_prepared_statement.cpp:309-326 | clearParameters keeps that balance although it leaves ownership flags behind |
| `ParamBinds.DestroyLedger` | mysql-connector-c++-1.1.0/driver/mysql_prepared_statement.cpp:243-254 | the destructor's walk keeps it and leaves nothing owned |
| `ParamBinds.SetBlobLedger` | mysql-connector-c++-1.1.0/driver/mysql_prepared_statement.cpp:272-295 | setBlob adds to it exactly what it was handed with the flag |
| `ParamBinds.UnsetLedger` | mysql-connector-c++-1.1.0/driver/mysql_prepared_statement.cpp:261-269 | unset keeps it |
| `ParamBinds.AssignLedger` | mysql-connector-c++-1.1.0/driver/mysql_prepared_statement.cpp:680-954 | every setter keeps it |
| `ParamBinds.LastSetterDecides` | mysql-connector-c++-1.1.0/driver/mysql_prepared_statement.cpp:680-954 | after every run of setters and clears, type, value, length, null flag and blob of a parameter are what its own last setter (and a later clear) made of it; the unsigned flag alone is sticky |
| `ParamBinds.SetterBinds` | mysql-connector-c++-1.1.0/driver/mysql_prepared_statement.cpp:584-954 | right after each setter, from any state: a number is its bytes in a buffer of its type, a text is the first `length` characters of its buffer and the terminator is behind it, a double is its value, NULL has type NULL, a stream or long string is the caller's pointer; never the null flag |
| `ParamBinds.RunEndsInSetter` | mysql-connector-c++-1.1.0/driver/mysql_prepared_statement.cpp:680-954 | a run that ends in a setter ends in what SetterBinds says |
| `ParamBinds.SetAfter` | mysql-connector-c++-1.1.0/driver/mysql_prepared_statement.cpp:256-326 | which positions count as set after each call |
| `ParamBinds.ClearForgets` | mysql-connector-c++-1.1.0/driver/mysql_prepared_statement.cpp:309-326 | after clearParameters no position is set and only its type and flags are left of it |
| `ParamBinds.ClearKeepsFlags` | mysql-connector-c++-1.1.0/driver/mysql_prepared_statement.cpp:309-326 | clearParameters leaves every ownership flag as it was |
| `ParamBinds.EntryAfter` | mysql-connector-c++-1.1.0/driver/mysql_prepared_statement.cpp:261-295 | the entry and the ownership of each position after setBlob and unset |
| `ParamBinds.NeverSet` | mysql-connector-c++-1.1.0/driver/mysql_prepared_statement.cpp:225-241 | a parameter no setter has hit is null, of type 0, and empty |
| `ParamBinds.AllSetIff` | mysql-connector-c++-1.1.0/driver/mysql_prepared_statement.cpp:298-306 | isAllSet if and only if every position was set since the last clear |
| `ParamBinds.NumberReadIff` | mysql-connector-c++-1.1.0/driver/mysql_prepared_statement.cpp:719-874 | a number just set is the number read if and only if it is not negative or no unsigned setter ever hit the position |
| `ParamBindRuntime.ParamBind.constructor` | mysql-connector-c++-1.1.0/driver/mysql_prepared_statement.cpp:225-241 | all positions fresh |
| `ParamBindRuntime.ParamBind.Set` | mysql-connector-c++-1.1.0/driver/mysql_prepared_statement.cpp:256-259 | as Set |
| `ParamBindRuntime.ParamBind.Unset` | mysql-connector-c++-1.1.0/driver/mysql_prepared_statement.cpp:261-269 | as Unset |
| `ParamBindRuntime.ParamBind.ResetBlobBind` | mysql-connector-c++-1.1.0/driver/mysql_prepared_statement.cpp:192-203 | the binding becomes an empty long blob, its unsigned flag kept |
| `ParamBindRuntime.ParamBind.SetBlob` | mysql-connector-c++-1.1.0/driver/mysql_prepared_statement.cpp:272-295 | as SetBlob |
| `ParamBindRuntime.ParamBind.IsAllSet` | mysql-connector-c++-1.1.0/driver/mysql_prepared_statement.cpp:298-306 | true iff every position is set |
| `ParamBindRuntime.ParamBind.ClearParameters` | mysql-connector-c++-1.1.0/driver/mysql_prepared_statement.cpp:309-326 | the loop computes Clear |
| `ParamBindRuntime.ParamBind.Destroy` | mysql-connector-c++-1.1.0/driver/mysql_prepared_statement.cpp:243-254 | the destructor computes Destroy |
| `ParamBindRuntime.ParamBind.GetBlobObject` | mysql-connector-c++-1.1.0/driver/mysql_prepared_statement.cpp:336-344 | the entry, or a null pointer |
| `ParamBindRuntime.ParamBind.DeleteEntry` | mysql-connector-c++-1.1.0/driver/mysql_prepared_statement.cpp:155-174 | deletes and nulls the entry, unless null |
| `ParamBindRuntime.ParamBind.SetStream` | mysql-connector-c++-1.1.0/driver/mysql_prepared_statement.cpp:584-596 | as Assign of a stream; a wrong index changes nothing |
| `ParamBindRuntime.ParamBind.SetDouble` | mysql-connector-c++-1.1.0/driver/mysql_prepared_statement.cpp:680-713 | as Assign of a double |
| `ParamBindRuntime.ParamBind.SetInt` | mysql-connector-c++-1.1.0/driver/mysql_prepared_statement.cpp:719-753 | as Assign of a 32-bit signed number |
| `ParamBindRuntime.ParamBind.SetUInt` | mysql-connector-c++-1.1.0/driver/mysql_prepared_statement.cpp:759-794 | as Assign of a 32-bit unsigned number |
| `ParamBindRuntime.ParamBind.SetInt64` | mysql-connector-c++-1.1.0/driver/mysql_prepared_statement.cpp:800-833 | as Assign of a 64-bit signed number |
| `ParamBindRuntime.ParamBind.SetUInt64` | mysql-connector-c++-1.1.0/driver/mysql_prepared_statement.cpp:839-874 | as Assign of a 64-bit unsigned number |
| `ParamBindRuntime.ParamBind.SetNull` | mysql-connector-c++-1.1.0/driver/mysql_prepared_statement.cpp:880-910 | as Assign of NULL |
| `ParamBindRuntime.ParamBind.SetString` | mysql-connector-c++-1.1.0/driver/mysql_prepared_statement.cpp:916-954 | as Assign of a string, by address beyond 256 KB |
| `LongData.EndsIff` | mysql-connector-c++-1.1.0/driver/mysql_prepared_statement.cpp:119-151 | the string loop with its 32-bit counter ends if and only if the length is at most 2^32 - 2^18 |
| `LongData.SentWraps` | mysql-connector-c++-1.1.0/driver/mysql_prepared_statement.cpp:119-151 | beyond that the counter wraps through the multiples of the chunk for ever |
| `LongData.SendString` | mysql-connector-c++-1.1.0/driver/mysql_prepared_statement.cpp:119-151 | the chunks of a string on which the loop ends are 1 to 2^18 characters long, all but the last full, and concatenate to the string |
| `LongData.SendStream` | mysql-connector-c++-1.1.0/driver/mysql_prepared_statement.cpp:79-117 | the chunks concatenate to the stream, all but the last full, the last empty exactly when the length is a multiple of the buffer; a stream at its end sends nothing; a read error stops after the full buffers |
| `LongData.SendLongData` | mysql-connector-c++-1.1.0/driver/mysql_prepared_statement.cpp:385-401 | the first position whose blob cannot be sent decides how the loop ends: by an exception, never, or after the last position; all positions before it receive exactly what is bound there, it receives the full buffers read before the error, and those after it nothing; a stream bound twice reaches only its first position |
| `LongData.DoQuery` | mysql-connector-c++-1.1.0/driver/mysql_prepared_statement.cpp:406-424 | after every run of setters and clears: refused iff some position is unset since the last clear; else each position up to the first that cannot be sent receives what its last setter bound, as it is in memory at execution |
| `LongData.QueryTwice` | mysql-connector-c++-1.1.0/driver/mysql_prepared_statement.cpp:406-424 | executed twice, strings go out again as they are and streams, read to their end, send nothing; it comes through iff all is set and every blob can be sent |
| `LongData.StreamIsSent` | mysql-connector-c++-1.1.0/driver/mysql_prepared_statement.cpp:584-596 | after setBlob with a stream, whatever was called before, that stream is bound, and all of it is due unless an earlier position reads it first |
| `LongData.LongStringIff` | mysql-connector-c++-1.1.0/driver/mysql_prepared_statement.cpp:925-930 | for a string over 256 KB the server gets the text given to setString if and only if that text is still at its address at execution |
| `LongData.LastSetterIsBound` | mysql-connector-c++-1.1.0/driver/mysql_prepared_statement.cpp:385-401 | a position set since the last clear has bound exactly the blob its last setter asked for |
| `Privileges.Tokenise` | mysql-connector-c++-1.1.0/driver/mysql_metadata.cpp:3717-3744 | the scanning loop computes: split at every comma, trim the left of each part, and drop those with a slash where the table version does |
| `Privileges.UnslashedCount` | mysql-connector-c++-1.1.0/driver/mysql_metadata.cpp:3730-3731 | the filter keeps exactly the tokens without a slash, each as often as it occurs |
| `Privileges.UnslashedConcat` | mysql-connector-c++-1.1.0/driver/mysql_metadata.cpp:3730-3731 | the filter keeps the order and treats each token by itself |
| `Privileges.TokensStep` | mysql-connector-c++-1.1.0/driver/mysql_metadata.cpp:1849-1876 | one round of the loop takes off exactly the first token of what is left |
| `Privileges.TokenCount` | mysql-connector-c++-1.1.0/driver/mysql_metadata.cpp:1849-1876 | one token more than there are commas, on every string |
| `Privileges.TokensAreClean` | mysql-connector-c++-1.1.0/driver/mysql_metadata.cpp:1849-1876 | no token has a comma or a leading blank |
| `Privileges.TokensInvertJoinIff` | mysql-connector-c++-1.1.0/driver/mysql_metadata.cpp:1849-1876 | for every non-empty list and any numbers of blanks, tokenising the joined list gives the list back if and only if no token has a comma or a leading blank |
| `ConnectionUrl.InitHost` | mysql-connector-c++-1.1.0/driver/mysql_connection.cpp:422-461 | the reassignments of host, port, schema, socket and flags compute SplitUrl on every option string |
| `ConnectionUrl.UnixUrl` | mysql-connector-c++-1.1.0/driver/mysql_connection.cpp:422-428 | unix://path gives the path as socket and localhost as host, without tcp, whatever was set before |
| `ConnectionUrl.TcpParts` | mysql-connector-c++-1.1.0/driver/mysql_connection.cpp:438-461 | a tcp URL with or without port and schema: a part that is there replaces what the options set, a part that is not leaves it; refused iff the port is not an int |
| `ConnectionUrl.PlainName` | mysql-connector-c++-1.1.0/driver/mysql_connection.cpp:455-461 | a name with neither protocol changes only the host, to the text before the first NUL, or to 127.0.0.1 for a tcp host that starts with localhost |
| `ConnectionUrl.AtoiReads` | mysql-connector-c++-1.1.0/driver/mysql_connection.cpp:452-452 | atoi skips white space, takes one sign and reads the digits up to the first other character |
| `ConnectionUrl.AtoiOfNone` | mysql-connector-c++-1.1.0/driver/mysql_connection.cpp:452-452 | a text without a number is 0 |
| `ConnectionUrl.UrlRoundTrip` | mysql-connector-c++-1.1.0/driver/mysql_connection.cpp:438-461 | tcp://host:port/schema gives back every host without a slash, every int port (as unsigned) and every schema, and keeps the host if and only if it does not start with localhost |
| `ConnectionUrl.CutShowIff` | mysql-connector-c++-1.1.0/driver/mysql_connection.cpp:438-454 | cutting at the first slash and the last colon recovers the parts if and only if they do not contain what is cut at |
| `ConnectionUrl.ShowCut` | mysql-connector-c++-1.1.0/driver/mysql_connection.cpp:438-454 | the parts of any URL put together again are the URL |
| `ConnectionUrl.NumberOfDecimal` | mysql-connector-c++-1.1.0/driver/mysql_connection.cpp:452-452 | atoi reads back every printed number |

## Left out

- The assembly that switches stacks and `initializeStack`: a saved stack pointer is a continuation.
- The generated argument-forwarding templates of the coroutine library, its GUI examples and build files: no logic.
- Threads: each thread has its own current pointer and root, so one thread is modelled.
- A `malloc` that fails, and the size of a stack.
- Result sets that are closed or forward-only, the text of exceptions, logging, and the getters' conversions of values.
- `BufferedResultSet.findColumn`: the same index as in the in-memory result set.
- The native library: a cursor is rows and an offset, and sending is a list of packets.
- Cursor.Int: the argument INT_MIN of absolute and relative is excluded, because negating it is undefined.
- ArtResultSets.ArtResultSet.constructor: fewer than 2^63 - 1 rows, which is more than a list in memory can hold and all that the signed counter of seek() can number.
- CaseFold.StrUp: does not model the overflow of four times the length, nor the result length as an int.
- Four-octet UTF-8: switched off in the code. The sort column of the table: not used.
- ForeignKeyPrinter.ParsePrint: does not cover the blank that getIdentifierQuoteString has for servers before 3.23.6, nor names with a quote, comma or bracket; ForeignKeyPrinter.NameIff says what becomes of a backslash.
- ForeignKeys.ParseImportedKeys: does not model an empty quote string, which getIdentifierQuoteString never returns.
- The SQL text of the metadata queries, the version tables, type information and the `supports` getters: constants.
- The loop over SHOW GRANTS that skips quotes, and `matchTable`.
- LongData.SendLongData: errors of the server while sending; what goes out again and again for a string that is sent for ever; the bound addresses must be those of live objects.
- ParamBinds.LastSetterDecides: buffers are values, so it does not say when their memory is freed.
- ParamBinds.NumberReadIff: a double is a real number, without rounding.
- ParamBindRuntime.ParamBind.Destroy: walks the positions in order where the code walks the map, which is in the same order.
- ConnectionUrl.InitHost: an atoi out of the range of int is undefined, and the result is then None; the other options and the named pipes of Windows are not modelled.
- The sql_mode cache, which is never enabled, savepoints and transactions.
