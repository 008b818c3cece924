/**
  The rotating trace log. Undisturbed, its files are the last chunks of a
  greedy chunking of everything emitted; killed between any two file
  operations, what is left still reads as a suffix of everything emitted.
  (src/hermes_life_bridge/trace.py)
*/
module Trace {
  import opened Basics

  type Size = n: nat | 1 <= n witness 1

  /** One encoded line; `size` is its length in bytes, the newline included. */
  datatype Record = Record(size: Size, line: string)

  /** The log file under 0 and its backups `.1`, `.2`, ... under their numbers. */
  type Files = map<nat, seq<Record>>

  function Bytes(file: seq<Record>): (n: nat)
    ensures n == 0 <==> file == []
  {
    if file == [] then 0 else Bytes(file[..|file| - 1]) + file[|file| - 1].size
  }

  /** The file `index`, empty if there is none. */
  function Lines(files: Files, index: nat): seq<Record> {
    if index in files then files[index] else []
  }

  /** Files `index`, `index - 1`, ..., 0, oldest first. */
  function Reading(files: Files, index: nat): seq<Record> {
    Lines(files, index) + if index == 0 then [] else Reading(files, index - 1)
  }

  ghost predicate IsSuffix<T>(a: seq<T>, b: seq<T>) {
    |a| <= |b| && b[|b| - |a|..] == a
  }

  // ------------------------------------------------------ single operations

  /** The file operations of `emit`; each is atomic. */
  datatype FileOp =
    | Unlink(index: nat)
    | Move(index: nat)          // to index + 1
    | Append(record: Record)

  datatype Log = Log(files: Files, emitted: seq<Record>)

  function Do(log: Log, op: FileOp): Log {
    match op
    case Unlink(i) => log.(files := log.files - {i})
    case Move(i) =>
      if i in log.files then log.(files := Moved(log.files, i)) else log
    case Append(r) => Log(log.files[0 := Lines(log.files, 0) + [r]], log.emitted + [r])
  }

  function DoAll(log: Log, ops: seq<FileOp>): Log {
    if ops == [] then log else Do(DoAll(log, ops[..|ops| - 1]), ops[|ops| - 1])
  }

  /** Operations that lose nothing but the oldest file. */
  predicate Careful(files: Files, op: FileOp, backups: nat, maxBytes: nat) {
    match op
    case Unlink(i) => i == backups
    case Move(i) => i < backups && i in files && i + 1 !in files
    case Append(r) => Bytes(Lines(files, 0)) == 0 || Bytes(Lines(files, 0)) + r.size <= maxBytes
  }

  ghost predicate CarefulAll(log: Log, ops: seq<FileOp>, backups: nat, maxBytes: nat) {
    forall k: nat | k < |ops| :: Careful(DoAll(log, ops[..k]).files, ops[k], backups, maxBytes)
  }

  /** A file is within the limit, or holds a single record. */
  predicate Bounded(file: seq<Record>, maxBytes: nat) {
    Bytes(file) <= maxBytes || |file| == 1
  }

  /** What every state of the log keeps, gaps in the numbering or not. */
  ghost predicate Sound(log: Log, backups: nat, maxBytes: nat) {
    && (forall i | i in log.files :: i <= backups && Bounded(log.files[i], maxBytes))
    && IsSuffix(Reading(log.files, backups), log.emitted)
  }

  lemma {:induction false} ReadingSame(a: Files, b: Files, index: nat)
    requires forall i: nat | i <= index :: Lines(a, i) == Lines(b, i)
    ensures Reading(a, index) == Reading(b, index)
  {
    if index > 0 {
      ReadingSame(a, b, index - 1);
    }
  }

  function Moved(files: Files, i: nat): Files
    requires i in files
  {
    (files - {i})[i + 1 := files[i]]
  }

  lemma MovedLines(files: Files, i: nat)
    requires i in files && i + 1 !in files
    ensures Lines(Moved(files, i), i + 1) == Lines(files, i) && Lines(Moved(files, i), i) == Lines(files, i + 1) == []
    ensures forall j: nat | j != i && j != i + 1 :: Lines(Moved(files, i), j) == Lines(files, j)
  {
  }

  /** Moving a file up into a free number leaves the reading as it was. */
  lemma {:induction false} MoveKeepsReading(files: Files, i: nat, index: nat)
    requires i in files && i + 1 !in files && i + 1 <= index
    ensures Reading(Moved(files, i), index) == Reading(files, index)
  {
    MovedLines(files, i);
    if index > i + 1 {
      MoveKeepsReading(files, i, index - 1);
    } else {
      hide Lines, Moved;
      if i > 0 {
        ReadingSame(Moved(files, i), files, i - 1);
      }
      TwoFiles(files, i);
      TwoFiles(Moved(files, i), i);
    }
  }

  lemma TwoFiles(files: Files, i: nat)
    ensures Reading(files, i + 1) == Lines(files, i + 1) + Lines(files, i) + if i == 0 then [] else Reading(files, i - 1)
  {
    hide Lines;
  }

  lemma {:induction false} AppendReading(files: Files, r: Record, index: nat)
    ensures Reading(files[0 := Lines(files, 0) + [r]], index) == Reading(files, index) + [r]
  {
    var after := files[0 := Lines(files, 0) + [r]];
    AppendedLines(files, r);
    hide Lines, Reading;
    if index > 0 {
      AppendReading(files, r, index - 1);
      ReadingStep(files, index);
      ReadingStep(after, index);
    } else {
      ReadingFirst(files);
      ReadingFirst(after);
    }
  }

  lemma AppendedLines(files: Files, r: Record)
    ensures var after := files[0 := Lines(files, 0) + [r]];
            Lines(after, 0) == Lines(files, 0) + [r] && forall i: nat | i > 0 :: Lines(after, i) == Lines(files, i)
  {
  }

  lemma CarefulIsSound(log: Log, op: FileOp, backups: nat, maxBytes: nat)
    requires Sound(log, backups, maxBytes) && Careful(log.files, op, backups, maxBytes) && backups >= 1
    ensures Sound(Do(log, op), backups, maxBytes)
  {
    match op
    case Unlink(i) => UnlinkIsSound(log, backups, maxBytes);
    case Move(i) => MoveKeepsReading(log.files, i, backups);
    case Append(r) => AppendIsSound(log, r, backups, maxBytes);
  }

  lemma UnlinkIsSound(log: Log, backups: nat, maxBytes: nat)
    requires Sound(log, backups, maxBytes) && backups >= 1
    ensures Sound(log.(files := log.files - {backups}), backups, maxBytes)
  {
    UnlinkedReading(log.files, backups);
    hide Lines, Reading, Bounded;
    SuffixTail(Lines(log.files, backups), Reading(log.files - {backups}, backups), log.emitted);
  }

  lemma UnlinkedReading(files: Files, backups: nat)
    requires backups >= 1
    ensures Reading(files, backups) == Lines(files, backups) + Reading(files - {backups}, backups)
  {
    UnlinkedLines(files, backups);
    EmptiedReading(files, files - {backups}, backups);
  }

  lemma UnlinkedLines(files: Files, index: nat)
    ensures Lines(files - {index}, index) == []
    ensures forall i: nat | i != index :: Lines(files - {index}, i) == Lines(files, i)
  {
  }

  lemma EmptiedReading(files: Files, after: Files, backups: nat)
    requires backups >= 1 && Lines(after, backups) == []
    requires forall i: nat | i != backups :: Lines(after, i) == Lines(files, i)
    ensures Reading(files, backups) == Lines(files, backups) + Reading(after, backups)
  {
    hide Lines, Reading;
    ReadingStep(files, backups);
    ReadingStep(after, backups);
    ReadingSame(after, files, backups - 1);
  }

  lemma ReadingFirst(files: Files)
    ensures Reading(files, 0) == Lines(files, 0)
  {
    assert Reading(files, 0) == Lines(files, 0) + [];
  }

  lemma ReadingStep(files: Files, n: nat)
    requires n >= 1
    ensures Reading(files, n) == Lines(files, n) + Reading(files, n - 1)
  {
    hide Lines;
  }

  lemma SuffixTail<T>(a: seq<T>, b: seq<T>, all: seq<T>)
    requires IsSuffix(a + b, all)
    ensures IsSuffix(b, all)
  {
    assert all[|all| - |a + b|..][|a|..] == b;
  }

  lemma AppendIsSound(log: Log, r: Record, backups: nat, maxBytes: nat)
    requires Sound(log, backups, maxBytes) && Careful(log.files, Append(r), backups, maxBytes)
    ensures Sound(Do(log, Append(r)), backups, maxBytes)
  {
    AppendReading(log.files, r, backups);
    AppendBounded(Lines(log.files, 0), r, maxBytes);
    hide Reading, Bounded, Bytes;
    SuffixAppend(Reading(log.files, backups), log.emitted, r);
    hide IsSuffix, Lines;
  }

  lemma AppendBounded(file: seq<Record>, r: Record, maxBytes: nat)
    requires Bytes(file) == 0 || Bytes(file) + r.size <= maxBytes
    ensures Bounded(file + [r], maxBytes)
  {
    assert (file + [r])[..|file|] == file;
  }

  lemma SuffixAppend<T>(a: seq<T>, b: seq<T>, x: T)
    requires IsSuffix(a, b)
    ensures IsSuffix(a + [x], b + [x])
  {
  }

  lemma {:induction false} CarefulAllIsSound(log: Log, ops: seq<FileOp>, backups: nat, maxBytes: nat)
    requires Sound(log, backups, maxBytes) && CarefulAll(log, ops, backups, maxBytes) && backups >= 1
    ensures Sound(DoAll(log, ops), backups, maxBytes)
  {
    if ops != [] {
      var before := ops[..|ops| - 1];
      forall k: nat | k < |before|
        ensures Careful(DoAll(log, before[..k]).files, before[k], backups, maxBytes)
      {
        assert before[..k] == ops[..k];
      }
      CarefulAllIsSound(log, before, backups, maxBytes);
      assert Careful(DoAll(log, ops[..|before|]).files, ops[|before|], backups, maxBytes);
      CarefulIsSound(DoAll(log, before), ops[|ops| - 1], backups, maxBytes);
    }
  }

  // ----------------------------------------------------------- whole calls

  /** Moves of the files below `n`, highest first. */
  function ShiftOps(files: Files, n: nat): seq<FileOp> {
    if n == 0 then [] else (if n - 1 in files then [Move(n - 1)] else []) + ShiftOps(files, n - 1)
  }

  function RotationOps(files: Files, backups: nat): seq<FileOp> {
    (if backups in files then [Unlink(backups)] else []) + ShiftOps(files, backups)
  }

  predicate Fits(files: Files, r: Record, maxBytes: nat) {
    Bytes(Lines(files, 0)) == 0 || Bytes(Lines(files, 0)) + r.size <= maxBytes
  }

  /** Everything `emit` does to the files. */
  function EmitOps(files: Files, r: Record, backups: nat, maxBytes: nat): seq<FileOp> {
    (if Fits(files, r, maxBytes) then [] else RotationOps(files, backups)) + [Append(r)]
  }

  predicate TakenAfterShift(files: Files, n: nat, j: nat) {
    j != n && if j < n then j in files else j - 1 in files
  }

  /** The files from `n` on have moved up by one, number `n` is free. */
  function ShiftedFrom(files: Files, n: nat, backups: nat): Files {
    map j: nat | j <= backups && TakenAfterShift(files, n, j) ::
      if j < n then files[j] else files[j - 1]
  }

  lemma {:induction false} DoAllSplits(log: Log, a: seq<FileOp>, b: seq<FileOp>)
    ensures DoAll(log, a + b) == DoAll(DoAll(log, a), b)
  {
    if b == [] {
      assert a + b == a;
    } else {
      DoAllSplits(log, a, b[..|b| - 1]);
      assert (a + b)[..|a + b| - 1] == a + b[..|b| - 1];
    }
  }

  lemma CarefulSplits(log: Log, a: seq<FileOp>, b: seq<FileOp>, backups: nat, maxBytes: nat)
    requires CarefulAll(log, a, backups, maxBytes) && CarefulAll(DoAll(log, a), b, backups, maxBytes)
    ensures CarefulAll(log, a + b, backups, maxBytes)
  {
    forall k: nat | k < |a + b|
      ensures Careful(DoAll(log, (a + b)[..k]).files, (a + b)[k], backups, maxBytes)
    {
      if k < |a| {
        assert (a + b)[..k] == a[..k];
      } else {
        assert (a + b)[..k] == a + b[..k - |a|];
        DoAllSplits(log, a, b[..k - |a|]);
      }
    }
    hide Careful, DoAll;
  }

  lemma OneOp(log: Log, op: FileOp, backups: nat, maxBytes: nat)
    ensures DoAll(log, [op]) == Do(log, op)
    ensures Careful(log.files, op, backups, maxBytes) ==> CarefulAll(log, [op], backups, maxBytes)
  {
    assert [op][..0] == [];
    hide Careful, Do;
  }

  lemma NoOps(log: Log, backups: nat, maxBytes: nat)
    ensures DoAll(log, []) == log && CarefulAll(log, [], backups, maxBytes)
  {
  }

  /** Shifting from the top overwrites nothing, and moves every file up by one. */
  lemma {:induction false} ShiftsCarefully(files: Files, n: nat, emitted: seq<Record>, backups: nat, maxBytes: nat)
    requires n <= backups
    ensures var log := Log(ShiftedFrom(files, n, backups), emitted);
            && DoAll(log, ShiftOps(files, n)) == Log(ShiftedFrom(files, 0, backups), emitted)
            && CarefulAll(log, ShiftOps(files, n), backups, maxBytes)
  {
    hide ShiftedFrom, Do, ShiftOps, CarefulAll, DoAll;
    var log := Log(ShiftedFrom(files, n, backups), emitted);
    ShiftOpsStep(files, n);
    if n == 0 {
      NoOps(log, backups, maxBytes);
    } else {
      ShiftsCarefully(files, n - 1, emitted, backups, maxBytes);
      OneShift(files, n, backups);
      if n - 1 in files {
        MovesAreCareful(log.files, n - 1, backups, maxBytes);
        OneOp(log, Move(n - 1), backups, maxBytes);
        DoAllSplits(log, [Move(n - 1)], ShiftOps(files, n - 1));
        CarefulSplits(log, [Move(n - 1)], ShiftOps(files, n - 1), backups, maxBytes);
      }
    }
  }

  lemma MovesAreCareful(files: Files, i: nat, backups: nat, maxBytes: nat)
    ensures Careful(files, Move(i), backups, maxBytes) <==> Careful(files, Move(i), backups, 0)
  {
  }

  lemma ShiftOpsStep(files: Files, n: nat)
    ensures n == 0 ==> ShiftOps(files, n) == []
    ensures n > 0 && n - 1 in files ==> ShiftOps(files, n) == [Move(n - 1)] + ShiftOps(files, n - 1)
    ensures n > 0 && n - 1 !in files ==> ShiftOps(files, n) == ShiftOps(files, n - 1)
  {
    if n > 0 {
      assert [] + ShiftOps(files, n - 1) == ShiftOps(files, n - 1);
    }
  }

  lemma OneShift(files: Files, n: nat, backups: nat)
    requires 1 <= n <= backups
    ensures var before := ShiftedFrom(files, n, backups);
            && (n - 1 in files ==>
                  && Careful(before, Move(n - 1), backups, 0)
                  && forall emitted :: Do(Log(before, emitted), Move(n - 1)) == Log(ShiftedFrom(files, n - 1, backups), emitted))
            && (n - 1 !in files ==> ShiftedFrom(files, n - 1, backups) == before)
  {
    var before := ShiftedFrom(files, n, backups);
    if n - 1 in files {
      assert Moved(before, n - 1) == ShiftedFrom(files, n - 1, backups);
    } else {
      assert ShiftedFrom(files, n - 1, backups) == before;
    }
  }

  /** A rotation moves every file up by one, dropping the last, and loses nothing else. */
  lemma RotationShifts(log: Log, backups: nat, maxBytes: nat)
    requires forall i | i in log.files :: i <= backups
    ensures DoAll(log, RotationOps(log.files, backups)) == log.(files := ShiftedFrom(log.files, 0, backups))
    ensures CarefulAll(log, RotationOps(log.files, backups), backups, maxBytes)
  {
    var files := log.files;
    var shifts := ShiftOps(files, backups);
    ShiftsCarefully(files, backups, log.emitted, backups, maxBytes);
    LastGoes(log, backups);
    hide CarefulAll, ShiftOps, ShiftedFrom, DoAll;
    if backups in files {
      OneOp(log, Unlink(backups), backups, maxBytes);
      DoAllSplits(log, [Unlink(backups)], shifts);
      CarefulSplits(log, [Unlink(backups)], shifts, backups, maxBytes);
    } else {
      assert [] + shifts == shifts;
    }
  }

  lemma LastGoes(log: Log, backups: nat)
    requires forall i | i in log.files :: i <= backups
    ensures Log(ShiftedFrom(log.files, backups, backups), log.emitted)
         == if backups in log.files then Do(log, Unlink(backups)) else log
  {
    var files := log.files;
    if backups in files {
      assert files - {backups} == ShiftedFrom(files, backups, backups);
    } else {
      assert files == ShiftedFrom(files, backups, backups);
    }
  }

  lemma EmitIsCareful(log: Log, r: Record, backups: nat, maxBytes: nat)
    requires forall i | i in log.files :: i <= backups
    ensures CarefulAll(log, EmitOps(log.files, r, backups, maxBytes), backups, maxBytes)
  {
    var rotation := RotationOps(log.files, backups);
    if Fits(log.files, r, maxBytes) {
      OneOp(log, Append(r), backups, maxBytes);
      assert [] + [Append(r)] == [Append(r)];
    } else {
      RotationShifts(log, backups, maxBytes);
      OneOp(DoAll(log, rotation), Append(r), backups, maxBytes);
      hide CarefulAll, DoAll, RotationOps;
      CarefulSplits(log, rotation, [Append(r)], backups, maxBytes);
    }
  }

  // ---------------------------------------------------- runs that may be killed

  /** One call of emit; the process is killed after `ops` file operations. */
  datatype Call = Call(record: Record, ops: nat)

  function AfterCall(log: Log, c: Call, backups: nat, maxBytes: nat): Log {
    DoAll(log, Take(EmitOps(log.files, c.record, backups, maxBytes), c.ops))
  }

  function AfterCalls(calls: seq<Call>, backups: nat, maxBytes: nat): Log {
    if calls == [] then Log(map[], [])
    else AfterCall(AfterCalls(calls[..|calls| - 1], backups, maxBytes), calls[|calls| - 1], backups, maxBytes)
  }

  lemma FewerAreCareful(log: Log, ops: seq<FileOp>, n: nat, backups: nat, maxBytes: nat)
    requires CarefulAll(log, ops, backups, maxBytes)
    ensures CarefulAll(log, Take(ops, n), backups, maxBytes)
  {
    var some := Take(ops, n);
    forall k: nat | k < |some| ensures Careful(DoAll(log, some[..k]).files, some[k], backups, maxBytes) {
      assert some[..k] == ops[..k];
    }
  }

  /**
    However often the process is killed between two file operations, the files
    read, oldest first, as a suffix of everything emitted, and none is over the
    limit unless it holds a single record.
  */
  lemma {:induction false} KilledRunsAreSound(calls: seq<Call>, backups: nat, maxBytes: nat)
    requires backups >= 1
    ensures Sound(AfterCalls(calls, backups, maxBytes), backups, maxBytes)
  {
    if calls == [] {
      NothingToRead(backups);
    } else {
      var before := AfterCalls(calls[..|calls| - 1], backups, maxBytes);
      var c := calls[|calls| - 1];
      KilledRunsAreSound(calls[..|calls| - 1], backups, maxBytes);
      EmitIsCareful(before, c.record, backups, maxBytes);
      FewerAreCareful(before, EmitOps(before.files, c.record, backups, maxBytes), c.ops, backups, maxBytes);
      CarefulAllIsSound(before, Take(EmitOps(before.files, c.record, backups, maxBytes), c.ops), backups, maxBytes);
    }
  }

  lemma {:induction false} NothingToRead(n: nat)
    ensures Reading(map[], n) == []
  {
    if n > 0 {
      NothingToRead(n - 1);
    }
  }

  // -------------------------------------------------------- undisturbed runs

  /** Records packed greedily: a new chunk whenever the next record does not fit. */
  function Chunks(rs: seq<Record>, maxBytes: nat): (cs: seq<seq<Record>>)
    ensures forall i | 0 <= i < |cs| :: cs[i] != [] && Bounded(cs[i], maxBytes)
    ensures Joined(cs) == rs
  {
    if rs == [] then []
    else
      var before := Chunks(rs[..|rs| - 1], maxBytes);
      var r := rs[|rs| - 1];
      if before == [] then [[r]]
      else
        var last := before[|before| - 1];
        if Bytes(last) + r.size <= maxBytes then
          assert (last + [r])[..|last|] == last;
          assert (before[..|before| - 1] + [last + [r]])[..|before| - 1] == before[..|before| - 1];
          before[..|before| - 1] + [last + [r]]
        else
          assert (before + [[r]])[..|before|] == before;
          before + [[r]]
  }

  function Joined(cs: seq<seq<Record>>): seq<Record> {
    if cs == [] then [] else Joined(cs[..|cs| - 1]) + cs[|cs| - 1]
  }

  predicate HasChunk(cs: seq<seq<Record>>, i: nat) {
    i < |cs|
  }

  /** The newest chunks under 0, 1, ..., `backups`. */
  function Newest(cs: seq<seq<Record>>, backups: nat): Files {
    map i: nat | i <= backups && HasChunk(cs, i) :: cs[|cs| - 1 - i]
  }

  /** Is there room for the record in the newest chunk? */
  predicate Room(cs: seq<seq<Record>>, r: Record, maxBytes: nat) {
    cs != [] && Bytes(cs[|cs| - 1]) + r.size <= maxBytes
  }

  lemma ChunksGrow(rs: seq<Record>, r: Record, maxBytes: nat)
    ensures var cs := Chunks(rs, maxBytes);
            Chunks(rs + [r], maxBytes) ==
            if Room(cs, r, maxBytes) then cs[..|cs| - 1] + [cs[|cs| - 1] + [r]] else cs + [[r]]
  {
    assert (rs + [r])[..|rs + [r]| - 1] == rs;
    assert [] + [[r]] == [[r]];
  }

  /** The first record of chunk `i` did not fit into the chunk before it. */
  predicate Closed(cs: seq<seq<Record>>, i: nat, maxBytes: nat) {
    0 < i < |cs| ==> cs[i] != [] && Bytes(cs[i - 1]) + cs[i][0].size > maxBytes
  }

  lemma GrowsClosed(cs: seq<seq<Record>>, r: Record, maxBytes: nat, i: nat)
    requires Closed(cs, i, maxBytes)
    ensures Room(cs, r, maxBytes) ==> Closed(cs[..|cs| - 1] + [cs[|cs| - 1] + [r]], i, maxBytes)
    ensures !Room(cs, r, maxBytes) ==> Closed(cs + [[r]], i, maxBytes)
  {
    hide Bytes;
  }

  /** A chunk is closed only when the next record does not fit. */
  lemma {:induction false} ChunksAreGreedy(rs: seq<Record>, maxBytes: nat)
    ensures forall i: nat :: Closed(Chunks(rs, maxBytes), i, maxBytes)
  {
    hide Closed;
    if rs == [] {
      forall i: nat ensures Closed([], i, maxBytes) {
        NoChunkToClose(i, maxBytes);
      }
    } else {
      var before, r := rs[..|rs| - 1], rs[|rs| - 1];
      var cs := Chunks(before, maxBytes);
      ChunksAreGreedy(before, maxBytes);
      ChunksGrow(before, r, maxBytes);
      assert rs == before + [r];
      hide Chunks, Bytes, Room;
      forall i: nat ensures Closed(Chunks(rs, maxBytes), i, maxBytes) {
        GrowsClosed(cs, r, maxBytes, i);
      }
    }
  }

  lemma NoChunkToClose(i: nat, maxBytes: nat)
    ensures Closed([], i, maxBytes)
  {
  }

  lemma NewestGrows(cs: seq<seq<Record>>, r: Record, backups: nat)
    requires cs != []
    ensures Newest(cs[..|cs| - 1] + [cs[|cs| - 1] + [r]], backups)
         == Newest(cs, backups)[0 := Lines(Newest(cs, backups), 0) + [r]]
  {
    assert HasChunk(cs, 0);
  }

  lemma NewestShifts(cs: seq<seq<Record>>, r: Record, backups: nat)
    ensures Newest(cs + [[r]], backups) == ShiftedFrom(Newest(cs, backups), 0, backups)[0 := [r]]
  {
    var a, b := Newest(cs + [[r]], backups), ShiftedFrom(Newest(cs, backups), 0, backups)[0 := [r]];
    forall i: nat ensures (i in a <==> i in b) && (i in a ==> a[i] == b[i]) {
      assert i > 0 ==> (HasChunk(cs + [[r]], i) <==> HasChunk(cs, i - 1));
    }
  }

  /** An undisturbed emit keeps the files the newest chunks of everything emitted. */
  lemma EmitPacks(log: Log, r: Record, backups: nat, maxBytes: nat)
    requires log.files == Newest(Chunks(log.emitted, maxBytes), backups)
    ensures var after := DoAll(log, EmitOps(log.files, r, backups, maxBytes));
            after.emitted == log.emitted + [r] && after.files == Newest(Chunks(after.emitted, maxBytes), backups)
  {
    var cs := Chunks(log.emitted, maxBytes);
    ChunksGrow(log.emitted, r, maxBytes);
    NewestFits(cs, r, backups, maxBytes);
    hide Chunks, Newest;
    if Fits(log.files, r, maxBytes) && cs != [] {
      OneOp(log, Append(r), backups, maxBytes);
      assert [] + [Append(r)] == [Append(r)];
      NewestGrows(cs, r, backups);
    } else {
      EmitShifts(log, r, backups, maxBytes, cs);
      NewestShifts(cs, r, backups);
    }
    hide DoAll, EmitOps, ShiftedFrom;
  }

  /** The current file is the newest chunk, so it fits exactly when there is room. */
  lemma NewestFits(cs: seq<seq<Record>>, r: Record, backups: nat, maxBytes: nat)
    requires forall i | 0 <= i < |cs| :: cs[i] != []
    ensures Fits(Newest(cs, backups), r, maxBytes) <==> cs == [] || Room(cs, r, maxBytes)
    ensures forall i | i in Newest(cs, backups) :: i <= backups
    ensures cs == [] ==> Newest(cs, backups) == map[]
  {
    if cs != [] {
      assert HasChunk(cs, 0);
    }
  }

  lemma EmitShifts(log: Log, r: Record, backups: nat, maxBytes: nat, cs: seq<seq<Record>>)
    requires forall i | i in log.files :: i <= backups
    requires !Fits(log.files, r, maxBytes) || log.files == map[]
    ensures DoAll(log, EmitOps(log.files, r, backups, maxBytes))
         == Log(ShiftedFrom(log.files, 0, backups)[0 := [r]], log.emitted + [r])
  {
    if Fits(log.files, r, maxBytes) {
      FirstEmit(log, r, backups, maxBytes);
    } else {
      var rotation := RotationOps(log.files, backups);
      RotationShifts(log, backups, maxBytes);
      DoAllSplits(log, rotation, [Append(r)]);
      OneOp(DoAll(log, rotation), Append(r), backups, maxBytes);
      assert Lines(ShiftedFrom(log.files, 0, backups), 0) + [r] == [r];
      hide ShiftedFrom, DoAll, RotationOps;
    }
  }

  lemma FirstEmit(log: Log, r: Record, backups: nat, maxBytes: nat)
    requires log.files == map[]
    ensures DoAll(log, EmitOps(log.files, r, backups, maxBytes))
         == Log(ShiftedFrom(log.files, 0, backups)[0 := [r]], log.emitted + [r])
  {
    assert EmitOps(log.files, r, backups, maxBytes) == [Append(r)] by {
      assert [] + [Append(r)] == [Append(r)];
    }
    OneOp(log, Append(r), backups, maxBytes);
    assert ShiftedFrom(log.files, 0, backups) == map[];
    assert [] + [r] == [r];
    hide DoAll, EmitOps, ShiftedFrom;
  }

  /** Read oldest first, the files of an undisturbed run hold the last chunks whole. */
  lemma {:induction false} NewestReads(cs: seq<seq<Record>>, n: nat, backups: nat)
    requires n <= backups
    ensures Reading(Newest(cs, backups), n) == Joined(Last(cs, n + 1))
  {
    hide Newest, Joined, Reading, Lines, Last, FromEnd;
    NewestLines(cs, n, backups);
    if n == 0 {
      ReadingFirst(Newest(cs, backups));
      JoinedFirst(cs);
    } else {
      NewestReads(cs, n - 1, backups);
      ReadingStep(Newest(cs, backups), n);
      JoinedLast(cs, n);
    }
  }

  /** The chunk with `i` newer ones. */
  function FromEnd(cs: seq<seq<Record>>, i: nat): seq<Record> {
    if i < |cs| then cs[|cs| - 1 - i] else []
  }

  lemma JoinedFirst(cs: seq<seq<Record>>)
    ensures Joined(Last(cs, 1)) == FromEnd(cs, 0)
  {
    if cs != [] {
      assert Last(cs, 1) == [cs[|cs| - 1]];
      JoinedOne(cs[|cs| - 1]);
    }
  }

  lemma JoinedLast(cs: seq<seq<Record>>, n: nat)
    requires n >= 1
    ensures Joined(Last(cs, n + 1)) == FromEnd(cs, n) + Joined(Last(cs, n))
  {
    if n < |cs| {
      assert Last(cs, n + 1) == [cs[|cs| - 1 - n]] + Last(cs, n);
      JoinedSplits([cs[|cs| - 1 - n]], Last(cs, n));
      JoinedOne(cs[|cs| - 1 - n]);
    } else {
      assert Last(cs, n + 1) == cs && Last(cs, n) == cs;
      assert [] + Joined(cs) == Joined(cs);
    }
    hide Joined, Last;
  }

  lemma JoinedOne(c: seq<Record>)
    ensures Joined([c]) == c
  {
    assert [c][..0] == [];
    assert [] + c == c;
  }

  lemma NewestLines(cs: seq<seq<Record>>, i: nat, backups: nat)
    requires i <= backups
    ensures Lines(Newest(cs, backups), i) == FromEnd(cs, i)
  {
    assert HasChunk(cs, i) <==> i < |cs|;
  }

  lemma {:induction false} JoinedSplits(a: seq<seq<Record>>, b: seq<seq<Record>>)
    ensures Joined(a + b) == Joined(a) + Joined(b)
  {
    if b == [] {
      assert a + b == a;
    } else {
      JoinedSplits(a, b[..|b| - 1]);
      assert (a + b)[..|a + b| - 1] == a + b[..|b| - 1];
    }
  }

  // ---------------------------------------------------------------- the tracer

  class BridgeTracer {
    const maxBytes: nat
    const backupCount: nat
    var files: Files
    ghost var emitted: seq<Record>

    ghost predicate Valid()
      reads this
    {
      1024 <= maxBytes && 1 <= backupCount <= 20 && Sound(State(), backupCount, maxBytes)
    }

    ghost function State(): Log
      reads this
    {
      Log(files, emitted)
    }

    /** The files are the newest chunks of everything emitted: `.1` to `.k` without a gap. */
    ghost predicate Packed()
      reads this
    {
      files == Newest(Chunks(emitted, maxBytes), backupCount)
    }

    constructor (maxBytes: nat, backupCount: nat)
      requires 1024 <= maxBytes && 1 <= backupCount <= 20
      ensures Valid() && Packed() && files == map[] && emitted == [] && this.maxBytes == maxBytes && this.backupCount == backupCount
    {
      this.maxBytes, this.backupCount := maxBytes, backupCount;
      files, emitted := map[], [];
      new;
      NothingToRead(backupCount);
      assert Newest([], backupCount) == map[];
    }

    /** One file operation. */
    method Perform(op: FileOp)
      modifies this
      ensures State() == Do(old(State()), op)
    {
      match op
      case Unlink(i) => files := files - {i};
      case Move(i) => if i in files { files := Moved(files, i); }
      case Append(r) => files, emitted := files[0 := Lines(files, 0) + [r]], emitted + [r];
    }

    /** _rotate_locked */
    method Rotate(r: Record)
      requires Valid()
      modifies this
      ensures State() == DoAll(old(State()), if Fits(old(files), r, maxBytes) then [] else RotationOps(old(files), backupCount))
    {
      var currentSize := Bytes(Lines(files, 0));
      if currentSize == 0 || currentSize + r.size <= maxBytes {
        return;
      }
      ghost var ops := RotationOps(files, backupCount);
      ghost var done: seq<FileOp> := [];
      ghost var was, log := files, State();
      if backupCount in files {
        done := [Unlink(backupCount)];
        OneOp(log, Unlink(backupCount), backupCount, maxBytes);
        Perform(Unlink(backupCount));
      }
      var index := backupCount - 1;
      while index > 0
        invariant 0 <= index < backupCount
        invariant State() == DoAll(log, done) && done + ShiftOps(was, index + 1) == ops
        invariant forall j: nat | j <= index :: j in files <==> j in was
      {
        if index in files {
          DoneOnce(log, done, Move(index), ShiftOps(was, index));
          done := done + [Move(index)];
          Perform(Move(index));
        } else {
          assert [] + ShiftOps(was, index) == ShiftOps(was, index);
        }
        index := index - 1;
      }
      assert ShiftOps(was, 1) == [Move(0)] + ShiftOps(was, 0) && ShiftOps(was, 0) == [];
      DoneOnce(log, done, Move(0), []);
      assert done + [Move(0)] == ops;
      Perform(Move(0));
    }

    method Emit(r: Record)
      requires Valid()
      modifies this
      ensures Valid() && State() == DoAll(old(State()), EmitOps(old(files), r, backupCount, maxBytes))
      ensures emitted == old(emitted) + [r]
      ensures old(Packed()) ==> Packed()
    {
      ghost var log := State();
      ghost var rotation := if Fits(files, r, maxBytes) then [] else RotationOps(files, backupCount);
      Rotate(r);
      DoAllSplits(log, rotation, [Append(r)]);
      OneOp(State(), Append(r), backupCount, maxBytes);
      EmitIsCareful(log, r, backupCount, maxBytes);
      CarefulAllIsSound(log, EmitOps(log.files, r, backupCount, maxBytes), backupCount, maxBytes);
      RotationShifts(log, backupCount, maxBytes);
      Perform(Append(r));
      if old(Packed()) {
        EmitPacks(log, r, backupCount, maxBytes);
      }
    }

    /** The last `n` records of all files, read oldest first. */
    method Tail(n: int) returns (r: Result<seq<Record>>)
      requires Valid()
      ensures r == if 1 <= n <= 10000 then Ok(Last(Reading(files, backupCount), n)) else Err(InvalidValue)
      ensures r.Ok? ==> IsSuffix(r.value, emitted) && |r.value| == Min(n, |Reading(files, backupCount)|)
    {
      if n < 1 || n > 10000 {
        return Err(InvalidValue);
      }
      hide Reading, Bounded, IsSuffix, Last, Lines;
      var lines: seq<Record> := [];
      var index := backupCount;
      while index > 0
        invariant 0 <= index <= backupCount
        invariant lines + Reading(files, index) == Reading(files, backupCount)
      {
        ReadOneMore(lines, files, index);
        lines := lines + Lines(files, index);
        index := index - 1;
      }
      lines := lines + Lines(files, 0);
      ReadingFirst(files);
      assert lines == Reading(files, backupCount);
      r := Ok(Last(lines, n));
      LastIsSuffix(lines, n, emitted);
    }
  }

  lemma ReadOneMore(lines: seq<Record>, files: Files, index: nat)
    requires index >= 1
    ensures (lines + Lines(files, index)) + Reading(files, index - 1) == lines + Reading(files, index)
  {
    hide Lines, Reading;
    ReadingStep(files, index);
  }

  lemma DoneOnce(log: Log, done: seq<FileOp>, op: FileOp, rest: seq<FileOp>)
    ensures DoAll(log, done + [op]) == Do(DoAll(log, done), op)
    ensures done + ([op] + rest) == (done + [op]) + rest
  {
    hide Do;
    DoneMore(log, done + [op]);
    hide DoAll;
    assert (done + [op])[..|done|] == done;
  }

  lemma DoneMore(log: Log, ops: seq<FileOp>)
    requires ops != []
    ensures DoAll(log, ops) == Do(DoAll(log, ops[..|ops| - 1]), ops[|ops| - 1])
  {
    hide Do;
  }

  lemma LastIsSuffix(lines: seq<Record>, n: nat, all: seq<Record>)
    requires IsSuffix(lines, all)
    ensures IsSuffix(Last(lines, n), all) && |Last(lines, n)| == Min(n, |lines|)
  {
    var k := Min(n, |lines|);
    assert all[|all| - |lines|..][|lines| - k..] == all[|all| - k..];
  }
}
