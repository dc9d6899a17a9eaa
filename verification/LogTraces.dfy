/** What a stretch of a run does to the log files, told from what the environment supplied: the data its reads returned, how much its
    writes took, how much of a record the stream passed on. */
module LogTraces {
  import opened Sequences
  import opened Registration
  import opened LogPath
  import opened Registry
  import opened RegistryInvariant
  import opened ServerTheorems
  import opened Progress
  import opened Arrivals
  import opened Traces
  import opened DeviceLogs

  // ----- what one step does, from the choice it was given

  /** The epoll thread is at an event with data of its client. */
  predicate AtInput(s: State) {
    s.ep.pc == EBatch && s.ep.i < |s.ep.evs| && s.ep.evs[s.ep.i].input && !s.ep.evs[s.ep.i].rdhup
  }

  /** What the step reads for the file. */
  function ReadFor(s: State, a: Act, f: FileName): seq<Text> {
    if a.t == Ep && AtInput(s) && a.ch.ok && HasFile(s, s.ep.evs[s.ep.i].cli, f) then [a.ch.text] else []
  }

  /** The chunk the step writes to the file, and how much of it. */
  function WriteFor(s: State, a: Act, f: FileName): seq<Entry> {
    if a.t == Ep && s.ep.pc == EWrite && s.ep.file == f then [Chunk(s.ep.rest, s.ep.rest[..Min(a.ch.n, |s.ep.rest|)])] else []
  }

  /** The `write` is short. */
  predicate Short(s: State, a: Act, f: FileName) {
    a.t == Ep && s.ep.pc == EWrite && s.ep.file == f && a.ch.n < |s.ep.rest|
  }

  /** The records after the step: the stream may begin one or continue the last. */
  function RecordsAfter(records: seq<Entry>, s: State, a: Act, f: FileName): seq<Entry> {
    var n := Min(a.ch.n, |s.op.rest|);
    if a.t == Op && s.op.pc == ORecord && s.op.file == f && n > 0 then
      if s.op.begun && records != [] then Grown(records, s.op.rest[..n])
      else records + [CmdRecord(s.op.rest, s.op.rest[..n])]
    else records
  }

  /** The step does this to the file and nothing else. */
  ghost predicate Tells(s: State, a: Act, s': State, f: FileName) {
    var log, log' := FileAt(s.mem, f), FileAt(s'.mem, f);
    && log'.received == log.received + ReadFor(s, a, f)
    && Chunks(log'.entries) == Chunks(log.entries) + WriteFor(s, a, f)
    && Records(log'.entries) == RecordsAfter(Records(log.entries), s, a, f)
  }

  lemma Silent(s: State, a: Act, s': State, f: FileName)
    requires FileAt(s'.mem, f) == FileAt(s.mem, f) && ReadFor(s, a, f) == [] && WriteFor(s, a, f) == []
    requires a.t == Op ==> s.op.pc != ORecord
    ensures Tells(s, a, s', f)
  {
    var log := FileAt(s.mem, f);
    assert log.received + [] == log.received && Chunks(log.entries) + [] == Chunks(log.entries);
  }

  lemma StepTells(s: State, a: Act, s': State, f: FileName)
    requires Reachable(s) && Takes(s, a, s')
    ensures Tells(s, a, s', f)
  {
    hide Reachable, Inv, Tells, BatchStep, UnlinkStep, ReleaseStep, TraverseStep, SelectStep, AcceptStep, NewClassStep, LinkStep,
         CleanStep, Allowed;
    ReachableInv(s);
    match a.t
    case Reg =>
      hide Step;
      RegWrites(s, a.ch, s');
      Silent(s, a, s', f);
    case Ep =>
      match s.ep.pc {
      case EBatch => EventTells(s, a, s', f);
      case EWantCli => OpenTells(s, a, s', f);
      case EWrite => WriteTells(s, a, s', f);
      case _ =>
        hide Step;
        EpQuiet(s, a.ch, s');
        Silent(s, a, s', f);
      }
    case Op =>
      match s.op.pc {
      case OWantCli => OpOpenTells(s, a, s', f);
      case ORecord => RecordTells(s, a, s', f);
      case _ =>
        hide Step;
        OpQuiet(s, a.ch, s');
        Silent(s, a, s', f);
      }
  }

  lemma EventTells(s: State, a: Act, s': State, f: FileName)
    requires a.t == Ep && s.ep.pc == EBatch && BatchStep(s, a.ch) == Ok(s')
    ensures Tells(s, a, s', f)
  {
    hide ClientFile, Chunks, Records;
    var log := FileAt(s.mem, f);
    assert log.received + [] == log.received && Chunks(log.entries) + [] == Chunks(log.entries);
  }

  lemma OpenTells(s: State, a: Act, s': State, f: FileName)
    requires a.t == Ep && s.ep.pc == EWantCli && BatchStep(s, a.ch) == Ok(s')
    ensures Tells(s, a, s', f)
  {
    hide LogFile, LogAlive;
    Silent(s, a, s', f);
  }

  lemma WriteTells(s: State, a: Act, s': State, f: FileName)
    requires a.t == Ep && s.ep.pc == EWrite && BatchStep(s, a.ch) == Ok(s')
    ensures Tells(s, a, s', f)
  {
    hide Tells;
    if s.ep.file == f {
      ChunkTells(s, a, s', f, Chunk(s.ep.rest, s.ep.rest[..Min(a.ch.n, |s.ep.rest|)]));
    } else {
      Silent(s, a, s', f);
    }
  }

  lemma ChunkTells(s: State, a: Act, s': State, f: FileName, e: Entry)
    requires a.t == Ep && s.ep.pc == EWrite && e.Chunk? && WriteFor(s, a, f) == [e] && s'.mem == Begin(s.mem, f, e)
    ensures Tells(s, a, s', f)
  {
    hide Chunks, Records, WriteFor, Grown;
    var log := FileAt(s.mem, f);
    assert log.received + [] == log.received;
    AppendKind(log.entries, e);
  }

  lemma OpOpenTells(s: State, a: Act, s': State, f: FileName)
    requires a.t == Op && s.op.pc == OWantCli && TraverseStep(s, a.ch) == Ok(s')
    ensures Tells(s, a, s', f)
  {
    hide LogFile, LogAlive, RecordText;
    Silent(s, a, s', f);
  }

  lemma RecordTells(s: State, a: Act, s': State, f: FileName)
    requires Reachable(s) && a.t == Op && s.op.pc == ORecord && TraverseStep(s, a.ch) == Ok(s')
    ensures Tells(s, a, s', f)
  {
    hide Reachable, Chunks, Records, Extended, Grown;
    var log, n := FileAt(s.mem, f), Min(a.ch.n, |s.op.rest|);
    assert log.received + [] == log.received && Chunks(log.entries) + [] == Chunks(log.entries);
    if s.op.file == f && n > 0 {
      if s.op.begun {
        RecordThere(s, f);
        ExtendEntry(log.entries, s.op.rest[..n]);
      } else {
        AppendKind(log.entries, CmdRecord(s.op.rest, s.op.rest[..n]));
      }
    }
  }

  lemma RecordThere(s: State, f: FileName)
    requires Reachable(s) && Midway(s, f)
    ensures Records(FileAt(s.mem, f).entries) != []
  {
    hide Reachable, LogOk;
    ReachableFiles(s, f);
  }

  // ----- what a stretch does

  /** What its first `n` steps read for the file, read by read; likewise what they write. */
  function Reads(tr: seq<State>, acts: seq<Act>, f: FileName, n: nat): seq<Text>
    requires n <= |acts| < |tr|
  {
    if n == 0 then [] else Reads(tr, acts, f, n - 1) + ReadFor(tr[n - 1], acts[n - 1], f)
  }

  function Writes(tr: seq<State>, acts: seq<Act>, f: FileName, n: nat): seq<Entry>
    requires n <= |acts| < |tr|
  {
    if n == 0 then [] else Writes(tr, acts, f, n - 1) + WriteFor(tr[n - 1], acts[n - 1], f)
  }

  /** Whoever shares the file and however the threads interleave: what is received for it is what the reads returned, and its
      chunks are what the writes took, each in order and nothing else. */
  lemma {:induction false} PathReceives(tr: seq<State>, acts: seq<Act>, f: FileName, n: nat)
    requires Trace(tr, acts) && n <= |acts|
    ensures FileAt(tr[n].mem, f).received == FileAt(tr[0].mem, f).received + Reads(tr, acts, f, n)
    ensures Chunks(FileAt(tr[n].mem, f).entries) == Chunks(FileAt(tr[0].mem, f).entries) + Writes(tr, acts, f, n)
  {
    hide Reachable, Takes, Chunks, Records, ReadFor, WriteFor;
    var received, chunks := FileAt(tr[0].mem, f).received, Chunks(FileAt(tr[0].mem, f).entries);
    if n == 0 {
      assert received + [] == received && chunks + [] == chunks;
    } else {
      PathReceives(tr, acts, f, n - 1);
      TraceReachable(tr, acts, n - 1);
      assert Takes(tr[n - 1], acts[n - 1], tr[n - 1 + 1]);
      StepTells(tr[n - 1], acts[n - 1], tr[n], f);
      var rs, ws := Reads(tr, acts, f, n - 1), Writes(tr, acts, f, n - 1);
      assert received + (rs + ReadFor(tr[n - 1], acts[n - 1], f)) == received + rs + ReadFor(tr[n - 1], acts[n - 1], f);
      assert chunks + (ws + WriteFor(tr[n - 1], acts[n - 1], f)) == chunks + ws + WriteFor(tr[n - 1], acts[n - 1], f);
    }
  }

  ghost predicate NoneShort(tr: seq<State>, acts: seq<Act>, f: FileName, n: nat)
    requires n <= |acts| < |tr|
  {
    forall i :: 0 <= i < n ==> !Short(tr[i], acts[i], f)
  }

  lemma {:induction false} CompleteUnlessShort(tr: seq<State>, acts: seq<Act>, f: FileName, n: nat)
    requires n <= |acts| < |tr|
    ensures Begun(Writes(tr, acts, f, n)) && (Complete(Writes(tr, acts, f, n)) <==> NoneShort(tr, acts, f, n))
  {
    if n > 0 {
      CompleteUnlessShort(tr, acts, f, n - 1);
      var front, last := Writes(tr, acts, f, n - 1), WriteFor(tr[n - 1], acts[n - 1], f);
      assert last == [] ==> front + last == front;
      assert last != [] ==> (front + last)[|front|] == last[0] && last[0].text[..|last[0].text|] == last[0].text;
      assert forall i :: 0 <= i < |front| ==> (front + last)[i] == front[i];
    }
  }

  /** Over every stretch that begins and ends with nothing waiting, the chunks a file gains are those read for it, one for one; and with
      the command records removed it gains all that was read if and only if no `write` was short. */
  lemma LogHoldsOutput(tr: seq<State>, acts: seq<Act>, f: FileName)
    requires Trace(tr, acts) && ToBegin(tr[0], f) == [] && ToBegin(tr[|acts|], f) == []
    ensures var n := |acts|; var gained := Writes(tr, acts, f, n);
            && Chunks(FileAt(tr[n].mem, f).entries) == Chunks(FileAt(tr[0].mem, f).entries) + gained
            && Texts(gained) == Reads(tr, acts, f, n) && Begun(gained)
            && (Flatten(Datas(gained)) == Flatten(Reads(tr, acts, f, n)) <==> NoneShort(tr, acts, f, n))
  {
    hide Takes, Reachable, Flatten, Datas, Texts, Chunks, Reads, Writes, NoneShort, Begun, Complete, ToBegin;
    var n := |acts|;
    var gained := Writes(tr, acts, f, n);
    PathReceives(tr, acts, f, n);
    TraceReachable(tr, acts, n);
    AtRest(tr[0], f);
    AtRest(tr[n], f);
    GainedRead(Chunks(FileAt(tr[0].mem, f).entries), gained, Reads(tr, acts, f, n));
    CompleteUnlessShort(tr, acts, f, n);
    CompleteExactly(gained);
  }

  /** With nothing waiting the chunks of a file are those received for it. */
  lemma AtRest(s: State, f: FileName)
    requires Reachable(s) && ToBegin(s, f) == []
    ensures FileAt(s.mem, f).received == Texts(Chunks(FileAt(s.mem, f).entries))
  {
    hide Reachable, ToBegin, Texts, Chunks;
    ChunksUnbroken(s, f);
    var texts := Texts(Chunks(FileAt(s.mem, f).entries));
    assert texts + [] == texts;
  }

  lemma GainedRead(before: seq<Entry>, gained: seq<Entry>, read: seq<Text>)
    requires Texts(before + gained) == Texts(before) + read
    ensures Texts(gained) == read
  {
    assert Texts(before + gained) == Texts(before) + Texts(gained);
    SameEnd(Texts(before), Texts(gained), read);
  }

  lemma SameEnd(a: seq<Text>, b: seq<Text>, c: seq<Text>)
    requires a + b == a + c
    ensures b == c
  {
    assert b == (a + b)[|a|..] && c == (a + c)[|a|..];
  }

  // ----- records in one piece

  /** The stream passes on all there is of a record, or nothing. */
  predicate OnePiece(s: State, a: Act) {
    a.t == Op && s.op.pc == ORecord ==> a.ch.n >= |s.op.rest| || a.ch.n == 0
  }

  lemma NotInPieces(s: State, a: Act, s': State)
    requires Takes(s, a, s') && OnePiece(s, a) && !InPieces(s)
    ensures !InPieces(s')
  {
    hide Allowed, TraverseStep, SelectStep;
    match a.t
    case Op =>
      if s.op.pc == ORecord {
        AllOrNothing(s, a.ch, s');
      } else if s.op.pc == OWantCli {
        NotBegun(s, a.ch, s');
      } else {
        hide Step;
        OpQuiet(s, a.ch, s');
      }
    case _ =>
      hide Step;
      Others(s, a.t, a.ch, s');
  }

  lemma AllOrNothing(s: State, ch: Choice, s': State)
    requires s.op.pc == ORecord && TraverseStep(s, ch) == Ok(s') && (ch.n >= |s.op.rest| || ch.n == 0)
    ensures !InPieces(s')
  {
    hide Extended;
  }

  lemma NotBegun(s: State, ch: Choice, s': State)
    requires s.op.pc == OWantCli && TraverseStep(s, ch) == Ok(s')
    ensures !InPieces(s')
  {
    hide LogFile, LogAlive, RecordText;
  }

  /** In every run in which each record is passed on in one piece every file, shared or not, is always whole. */
  lemma OnePieceIntact(tr: seq<State>, acts: seq<Act>, f: FileName)
    requires Run(tr) && Trace(tr, acts) && forall i :: 0 <= i < |acts| ==> OnePiece(tr[i], acts[i])
    ensures Whole(tr[|acts|], f)
  {
    hide Run, Shared, Whole, InPieces, Trace, OnePiece;
    TraceLength(tr, acts);
    forall k | 0 <= k < |tr| - 1
      ensures !InPieces(tr[k])
    {
      NeverInPieces(tr, acts, k);
    }
    LogIntact(tr, f);
  }

  lemma TraceLength(tr: seq<State>, acts: seq<Act>)
    requires Trace(tr, acts)
    ensures |tr| == |acts| + 1
  {
  }

  lemma {:induction false} NeverInPieces(tr: seq<State>, acts: seq<Act>, n: nat)
    requires Run(tr) && Trace(tr, acts) && n <= |acts| && forall i :: 0 <= i < n ==> OnePiece(tr[i], acts[i])
    ensures !InPieces(tr[n])
  {
    hide Next, Takes, Reachable, OnePiece;
    if n > 0 {
      NeverInPieces(tr, acts, n - 1);
      assert Takes(tr[n - 1], acts[n - 1], tr[n - 1 + 1]);
      NotInPieces(tr[n - 1], acts[n - 1], tr[n]);
    }
  }
}
