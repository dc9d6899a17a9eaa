/**
 The log files. The epoll thread appends the chunks a client sends, each by one `write`, and the operator the records of its
 commands, each through a stream that may pass it on in pieces. Both hold the client's own mutex; but a file belongs to a
 device, and two clients of one device are two mutexes. What holds of a file whatever happens, and when it is whole.
 */
module DeviceLogs {
  import opened Sequences
  import opened Registration
  import opened LogPath
  import opened Registry
  import opened RegistryInvariant
  import opened OperatorProof
  import opened SafetyProof
  import opened LockProof
  import opened ServerTheorems
  import opened Arrivals
  import opened Scenarios
  import opened Traces

  /** What of each entry was appended, and what each entry is. */
  function Datas(es: seq<Entry>): (r: seq<Text>)
    ensures |r| == |es|
  {
    seq(|es|, i requires 0 <= i < |es| => es[i].data)
  }

  function Texts(es: seq<Entry>): (r: seq<Text>)
    ensures |r| == |es|
  {
    seq(|es|, i requires 0 <= i < |es| => es[i].text)
  }

  /** The chunks among the entries, in order; likewise the records. */
  function Chunks(es: seq<Entry>): seq<Entry> {
    if es == [] then [] else Chunks(es[..|es| - 1]) + (if es[|es| - 1].Chunk? then [es[|es| - 1]] else [])
  }

  function Records(es: seq<Entry>): seq<Entry> {
    if es == [] then [] else Records(es[..|es| - 1]) + (if es[|es| - 1].CmdRecord? then [es[|es| - 1]] else [])
  }

  /** What was appended of an entry is a beginning of it; all of it if the entry is complete. */
  ghost predicate Begun(es: seq<Entry>) {
    forall i :: 0 <= i < |es| ==> es[i].data <= es[i].text
  }

  ghost predicate Complete(es: seq<Entry>) {
    forall i :: 0 <= i < |es| ==> es[i].data == es[i].text
  }

  lemma AppendEntry(es: seq<Entry>, e: Entry)
    ensures Datas(es + [e]) == Datas(es) + [e.data] && Texts(es + [e]) == Texts(es) + [e.text]
    ensures Flatten(Datas(es + [e])) == Flatten(Datas(es)) + e.data && Flatten(Texts(es + [e])) == Flatten(Texts(es)) + e.text
    ensures Chunks(es + [e]) == if e.Chunk? then Chunks(es) + [e] else Chunks(es)
    ensures Records(es + [e]) == if e.CmdRecord? then Records(es) + [e] else Records(es)
  {
    assert Datas(es + [e]) == Datas(es) + [e.data] && Texts(es + [e]) == Texts(es) + [e.text];
    FlattenAppend(Datas(es), e.data);
    FlattenAppend(Texts(es), e.text);
    assert (es + [e])[..|es|] == es;
  }

  lemma AppendKind(es: seq<Entry>, e: Entry)
    ensures Chunks(es + [e]) == if e.Chunk? then Chunks(es) + [e] else Chunks(es)
    ensures Records(es + [e]) == if e.CmdRecord? then Records(es) + [e] else Records(es)
  {
    AppendEntry(es, e);
  }

  /** The last record with `data` appended to it. */
  function Grown(records: seq<Entry>, data: Text): seq<Entry>
    requires records != []
  {
    var e := records[|records| - 1];
    records[..|records| - 1] + [e.(data := e.data + data)]
  }

  /** Continuing the record begun last changes that entry alone. */
  lemma {:induction false} ExtendEntry(es: seq<Entry>, data: Text)
    requires Records(es) != []
    ensures Chunks(Extended(es, data)) == Chunks(es) && Records(Extended(es, data)) == Grown(Records(es), data)
  {
    var front, e := es[..|es| - 1], es[|es| - 1];
    if e.CmdRecord? {
      AppendEntry(front, e.(data := e.data + data));
    } else {
      ExtendEntry(front, data);
      AppendEntry(Extended(front, data), e);
      assert Records(es) == Records(front);
    }
  }

  lemma GrownData(records: seq<Entry>, data: Text)
    requires records != []
    ensures Flatten(Datas(Grown(records, data))) == Flatten(Datas(records)) + data
  {
    hide Flatten, Datas, Texts, Chunks, Records;
    var front, e := records[..|records| - 1], records[|records| - 1];
    assert records == front + [e];
    AppendEntry(front, e);
    AppendEntry(front, e.(data := e.data + data));
    assert Flatten(Datas(front)) + (e.data + data) == Flatten(Datas(front)) + e.data + data;
  }

  /** `xs` is made of the chunks, each in one piece, and the characters of `b`, each in its order, however they alternate. */
  predicate Woven(xs: Text, chunks: seq<Text>, b: Text)
    decreases |xs| + |chunks|
  {
    || (xs == [] && chunks == [] && b == [])
    || (chunks != []
        && var c := chunks[|chunks| - 1];
           |c| <= |xs| && xs[|xs| - |c|..] == c && Woven(xs[..|xs| - |c|], chunks[..|chunks| - 1], b))
    || (b != [] && xs != [] && xs[|xs| - 1] == b[|b| - 1] && Woven(xs[..|xs| - 1], chunks, b[..|b| - 1]))
  }

  lemma WeaveChunk(xs: Text, chunks: seq<Text>, b: Text, c: Text)
    requires Woven(xs, chunks, b)
    ensures Woven(xs + c, chunks + [c], b)
  {
    assert (xs + c)[|xs|..] == c && (xs + c)[..|xs|] == xs && (chunks + [c])[..|chunks|] == chunks;
  }

  lemma {:induction false} WeaveRecord(xs: Text, chunks: seq<Text>, b: Text, data: Text)
    requires Woven(xs, chunks, b)
    ensures Woven(xs + data, chunks, b + data)
  {
    if data == [] {
      assert xs + data == xs && b + data == b;
    } else {
      var front, x := data[..|data| - 1], data[|data| - 1];
      WeaveRecord(xs, chunks, b, front);
      assert (xs + data)[..|xs + data| - 1] == xs + front && (b + data)[..|b + data| - 1] == b + front;
    }
  }

  // ----- what is under way

  predicate HasFile(s: State, c: ClientId, f: FileName) {
    c in s.mem.clients && ClientFile(s.mem.clients[c]) == f
  }

  /** The chunk received for the file and not written yet. */
  function ToBegin(s: State, f: FileName): seq<Text> {
    if s.ep.pc in {EWantCli, EWrite} && HasFile(s, s.ep.c, f) then [s.ep.rest] else []
  }

  /** The operator's stream has passed on some, and not all, of a record: the append is in pieces. */
  predicate InPieces(s: State) {
    s.op.pc == ORecord && s.op.begun && s.op.rest != []
  }

  /** ... of a record for the file. */
  predicate Midway(s: State, f: FileName) {
    InPieces(s) && s.op.file == f
  }

  /** The epoll thread is about to write to the file just then. */
  predicate Clash(s: State, f: FileName) {
    Midway(s, f) && s.ep.pc == EWrite && s.ep.file == f
  }

  /** Two registered clients have the file, and the server hears from one at least: two connections of one device, or devices
      whose paths name one file. */
  ghost predicate Shared(s: State, f: FileName) {
    exists c, d :: c in s.mem.tothead && d in s.mem.tothead && c != d && HasFile(s, c, f) && HasFile(s, d, f) && d !in s.mem.unwatched
  }

  /** Each thread has the file of the client at hand open. */
  predicate FilesOpen(s: State) {
    && (s.ep.pc == EWrite ==> HasFile(s, s.ep.c, s.ep.file))
    && (s.op.pc == ORecord ==> HasFile(s, s.op.c, s.op.file))
  }

  /** Every chunk received has its entry but for the one waiting, and the characters are the chunks, each in one piece, and
      those of the records. */
  ghost predicate LogOk(log: Log, waiting: seq<Text>) {
    && log.received == Texts(Chunks(log.entries)) + waiting
    && Begun(Chunks(log.entries)) && Begun(Records(log.entries))
    && Woven(log.bytes, Datas(Chunks(log.entries)), Flatten(Datas(Records(log.entries))))
  }

  /** The record begun last lacks what the operator has still to append. */
  ghost predicate RecordOk(records: seq<Entry>, midway: bool, rest: Text) {
    midway ==> records != [] && records[|records| - 1].data + rest == records[|records| - 1].text
  }

  ghost predicate FileOk(s: State, f: FileName) {
    var log := FileAt(s.mem, f);
    LogOk(log, ToBegin(s, f)) && RecordOk(Records(log.entries), Midway(s, f), s.op.rest)
  }

  /** The file is its entries one after the other. */
  predicate LogWhole(log: Log) {
    log.bytes == Flatten(Datas(log.entries))
  }

  predicate Whole(s: State, f: FileName) {
    LogWhole(FileAt(s.mem, f))
  }

  /** ... and a record that is continued is the last of them. */
  predicate Sound(s: State, f: FileName) {
    var es := FileAt(s.mem, f).entries;
    Whole(s, f) && (Midway(s, f) ==> es != [] && es[|es| - 1].CmdRecord?)
  }

  // ----- one append

  lemma ChunkWritten(log: Log, e: Entry)
    requires LogOk(log, [e.text]) && e.Chunk? && e.data <= e.text
    ensures LogOk(log.(bytes := log.bytes + e.data, entries := log.entries + [e]), [])
    ensures Records(log.entries + [e]) == Records(log.entries) && Chunks(log.entries) <= Chunks(log.entries + [e])
  {
    hide Chunks, Records, Woven, Flatten, Datas, Texts;
    AppendEntry(log.entries, e);
    AppendEntry(Chunks(log.entries), e);
    WeaveChunk(log.bytes, Datas(Chunks(log.entries)), Flatten(Datas(Records(log.entries))), e.data);
    assert Texts(Chunks(log.entries)) + [e.text] + [] == Texts(Chunks(log.entries)) + [e.text];
  }

  lemma RecordBegun(log: Log, waiting: seq<Text>, e: Entry, rest: Text)
    requires LogOk(log, waiting) && e.CmdRecord? && e.data + rest == e.text
    ensures LogOk(log.(bytes := log.bytes + e.data, entries := log.entries + [e]), waiting)
    ensures RecordOk(Records(log.entries + [e]), true, rest) && Chunks(log.entries + [e]) == Chunks(log.entries)
  {
    hide Chunks, Records, Woven, Flatten, Datas, Texts;
    AppendEntry(log.entries, e);
    AppendEntry(Records(log.entries), e);
    WeaveRecord(log.bytes, Datas(Chunks(log.entries)), Flatten(Datas(Records(log.entries))), e.data);
  }

  lemma RecordContinued(log: Log, waiting: seq<Text>, data: Text, rest: Text)
    requires LogOk(log, waiting) && RecordOk(Records(log.entries), true, data + rest)
    ensures LogOk(log.(bytes := log.bytes + data, entries := Extended(log.entries, data)), waiting)
    ensures RecordOk(Records(Extended(log.entries, data)), true, rest) && Chunks(Extended(log.entries, data)) == Chunks(log.entries)
  {
    hide Chunks, Records, Woven, Flatten, Datas, Texts, Extended, Grown;
    var records := Records(log.entries);
    ExtendEntry(log.entries, data);
    GrownData(records, data);
    GrownOk(records, data, rest);
    WeaveRecord(log.bytes, Datas(Chunks(log.entries)), Flatten(Datas(records)), data);
  }

  lemma GrownOk(records: seq<Entry>, data: Text, rest: Text)
    requires Begun(records) && RecordOk(records, true, data + rest)
    ensures Begun(Grown(records, data)) && RecordOk(Grown(records, data), true, rest)
  {
    var e := records[|records| - 1];
    assert e.data + data + rest == e.data + (data + rest);
    assert e.data + data <= e.data + data + rest;
  }

  lemma WholeBegun(log: Log, e: Entry)
    requires LogWhole(log)
    ensures LogWhole(log.(bytes := log.bytes + e.data, entries := log.entries + [e]))
  {
    AppendEntry(log.entries, e);
  }

  lemma WholeContinued(log: Log, data: Text)
    requires LogWhole(log) && log.entries != [] && log.entries[|log.entries| - 1].CmdRecord?
    ensures var es := Extended(log.entries, data);
            LogWhole(log.(bytes := log.bytes + data, entries := es)) && es != [] && es[|es| - 1].CmdRecord?
  {
    GrownData(log.entries, data);
    hide Flatten, Datas;
    assert Extended(log.entries, data) == Grown(log.entries, data);
  }

  // ----- who can be at the file

  /** The file a registered client's log is opened under is that of the device it registered as. */
  lemma OpensOwnFile(s: State, c: ClientId)
    requires Reachable(s) && c in s.mem.tothead
    ensures LogAlive(s.mem, c) && LogFile(s.mem, c) == ClientFile(s.mem.clients[c])
  {
    hide Reachable, File;
    RegisteredClassAlive(s, c);
  }

  /** A client at which a thread writes is registered; the epoll thread's is watched. */
  lemma WritersRegistered(s: State)
    requires Inv(s)
    ensures s.ep.pc in {EWantCli, EWrite, EUnCli} ==> s.ep.c in s.mem.tothead && s.ep.c !in s.mem.unwatched
    ensures s.ep.pc == EBatch && s.ep.i < |s.ep.evs| ==>
              s.ep.evs[s.ep.i].cli in s.mem.tothead && s.ep.evs[s.ep.i].cli !in s.mem.unwatched
    ensures s.op.pc in {OWantCli, ORecord, OUnCli, OSend} ==> s.op.c in s.mem.tothead
  {
    hide MemInv, HoldInv, LiveLocks, LockReady;
    ReachEvent(s.mem, RegV(s.reg), EpV(s.ep), s.op);
    OpElsewhere(s.mem, RegV(s.reg), EpV(s.ep), s.op);
    if s.op.pc in {OWantCli, ORecord, OUnCli, OSend} {
      Exclusion(s, Op, ClassListLock);
      assert !Has(s, Ep, ClassListLock);
    }
  }

  /** The two threads are at one file only if two registered clients share it. */
  lemma ClashShared(s: State, f: FileName)
    requires Reachable(s) && Clash(s, f)
    ensures Shared(s, f)
  {
    hide Reachable, Inv, ClientFile, Shared;
    ReachableInv(s);
    ReachableFiles(s, f);
    WritersRegistered(s);
    HeldByWriters(s);
    SharedBy(s, s.op.c, s.ep.c, f);
  }

  lemma SharedBy(s: State, c: ClientId, d: ClientId, f: FileName)
    requires c in s.mem.tothead && d in s.mem.tothead && c != d && HasFile(s, c, f) && HasFile(s, d, f) && d !in s.mem.unwatched
    ensures Shared(s, f)
  {
  }

  lemma HeldByWriters(s: State)
    requires Inv(s)
    ensures s.ep.pc == EWrite && s.op.pc == ORecord ==> s.ep.c != s.op.c
  {
    hide MemInv, HoldInv, LiveLocks, LockReady;
    if s.ep.pc == EWrite {
      Exclusion(s, Ep, CliLock(s.ep.c));
      assert !Has(s, Op, CliLock(s.ep.c));
    }
  }

  // ----- every step

  /** What a step does to a file: nothing, or one thing by one of the two writers. */
  ghost predicate Kept(s: State, s': State, f: FileName) {
    && FilesOpen(s') && FileOk(s', f) && (Sound(s, f) && !Clash(s, f) ==> Sound(s', f))
    && Chunks(FileAt(s.mem, f).entries) <= Chunks(FileAt(s'.mem, f).entries)
  }

  lemma SameFile(s: State, s': State, f: FileName)
    requires FileOk(s, f) && FilesOpen(s') && FileAt(s'.mem, f) == FileAt(s.mem, f)
    requires ToBegin(s', f) == ToBegin(s, f) && (Midway(s', f) ==> Midway(s, f) && s'.op.rest == s.op.rest)
    ensures Kept(s, s', f)
  {
    hide LogOk, LogWhole;
  }

  lemma StepFiles(s: State, t: Thread, ch: Choice, s': State, f: FileName)
    requires Reachable(s) && FilesOpen(s) && FileOk(s, f) && Allowed(s, t, ch) && Step(s, t, ch) == Ok(s')
    ensures Kept(s, s', f)
  {
    hide Reachable, Inv, FileOk, Kept, BatchStep, UnlinkStep, ReleaseStep, TraverseStep, SelectStep, AcceptStep, NewClassStep, LinkStep,
         CleanStep, FilesOpen, Allowed;
    ReachableInv(s);
    match t
    case Reg =>
      hide Step;
      RegKeepsFile(s, ch, s', f);
    case Ep =>
      match s.ep.pc {
      case EBatch => EventKeepsFile(s, ch, s', f);
      case EWantCli => BeginKeepsFile(s, ch, s', f);
      case EWrite => WriteKeepsFile(s, ch, s', f);
      case _ =>
        hide Step;
        EpKeepsFile(s, ch, s', f);
      }
    case Op =>
      match s.op.pc {
      case OWantCli => RecordKeepsFile(s, ch, s', f);
      case ORecord => TypeKeepsFile(s, ch, s', f);
      case _ =>
        hide Step;
        OpKeepsFile(s, ch, s', f);
      }
  }

  lemma RegKeepsFile(s: State, ch: Choice, s': State, f: FileName)
    requires Inv(s) && FilesOpen(s) && FileOk(s, f) && Allowed(s, Reg, ch) && Step(s, Reg, ch) == Ok(s')
    ensures Kept(s, s', f)
  {
    hide Inv, Allowed, Step, FileOk, ClientFile, Kept;
    RegWrites(s, ch, s');
    WritersRegistered(s);
    SameFile(s, s', f);
  }

  /** The steps of the epoll thread that receive and write nothing. */
  lemma EpKeepsFile(s: State, ch: Choice, s': State, f: FileName)
    requires Inv(s) && FilesOpen(s) && FileOk(s, f) && Allowed(s, Ep, ch) && Step(s, Ep, ch) == Ok(s')
    requires s.ep.pc !in {EBatch, EWantCli, EWrite}
    ensures Kept(s, s', f)
  {
    hide Inv, Allowed, Step, FileOk, ClientFile, Kept;
    EpQuiet(s, ch, s');
    RecordStays(s, Ep, ch, s');
    WritersRegistered(s);
    SameFile(s, s', f);
  }

  lemma EpQuiet(s: State, ch: Choice, s': State)
    requires Allowed(s, Ep, ch) && Step(s, Ep, ch) == Ok(s') && s.ep.pc !in {EBatch, EWantCli, EWrite}
    ensures s'.mem.files == s.mem.files && s'.op == s.op && s'.ep.pc !in {EWantCli, EWrite}
  {
    hide Allowed, BatchStep, UnlinkStep, ReleaseStep;
    match s.ep.pc
    case EWait | EUnCli => IdleQuiet(s, ch, s');
    case EWantList | EWantCls | EWantTot | EDelTot | EDelCls | EDelEp | EPut => UnlinkQuiet(s, s');
    case _ => ReleaseQuiet(s, s');
  }

  lemma IdleQuiet(s: State, ch: Choice, s': State)
    requires s.ep.pc in {EWait, EUnCli} && BatchStep(s, ch) == Ok(s')
    ensures s'.mem.files == s.mem.files && s'.op == s.op && s'.ep.pc !in {EWantCli, EWrite}
  {
  }

  lemma UnlinkQuiet(s: State, s': State)
    requires s.ep.pc in {EWantList, EWantCls, EWantTot, EDelTot, EDelCls, EDelEp, EPut} && UnlinkStep(s) == Ok(s')
    ensures s'.mem.files == s.mem.files && s'.op == s.op && s'.ep.pc !in {EWantCli, EWrite}
  {
    hide AllAlive, Remove;
  }

  lemma ReleaseQuiet(s: State, s': State)
    requires s.ep.pc in {EUnTot, EUnCls, EUnList, EShut, EClose, EDestroy, EFree} && ReleaseStep(s) == Ok(s')
    ensures s'.mem.files == s.mem.files && s'.op == s.op && s'.ep.pc !in {EWantCli, EWrite}
  {
    hide SockOpen, SslAlive;
  }

  lemma OpKeepsFile(s: State, ch: Choice, s': State, f: FileName)
    requires Inv(s) && FilesOpen(s) && FileOk(s, f) && Allowed(s, Op, ch) && Step(s, Op, ch) == Ok(s')
    requires s.op.pc !in {OWantCli, ORecord}
    ensures Kept(s, s', f)
  {
    hide Inv, Allowed, FileOk, ClientFile, Kept, TraverseStep, SelectStep;
    OpQuiet(s, ch, s');
    SameFile(s, s', f);
  }

  lemma OpQuiet(s: State, ch: Choice, s': State)
    requires Allowed(s, Op, ch) && Step(s, Op, ch) == Ok(s') && s.op.pc !in {OWantCli, ORecord}
    ensures s'.mem == s.mem && s'.ep == s.ep && s'.op.pc != ORecord
  {
    hide TraverseStep;
    if s.op.pc !in {OWantTot, OScan, OUnTot} {
      TraverseFrame(s, ch, s');
    }
  }

  /** A chunk received is noted for the file of its client. */
  lemma EventKeepsFile(s: State, ch: Choice, s': State, f: FileName)
    requires Inv(s) && FilesOpen(s) && FileOk(s, f) && s.ep.pc == EBatch && BatchStep(s, ch) == Ok(s')
    ensures Kept(s, s', f)
  {
    hide Inv, ClientFile, FileOk, Kept;
    if s'.ep.pc == EWantCli {
      ReceiveKeepsFile(s, s.ep.evs[s.ep.i].cli, ch.text, s', f);
    } else {
      SameFile(s, s', f);
    }
  }

  lemma ReceiveKeepsFile(s: State, c: ClientId, text: Text, s': State, f: FileName)
    requires FilesOpen(s) && FileOk(s, f) && s.ep.pc == EBatch && c in s.mem.clients
    requires s' == s.(mem := AddReceived(s.mem, ClientFile(s.mem.clients[c]), text), ep := s.ep.(pc := EWantCli, c := c, rest := text))
    ensures Kept(s, s', f)
  {
    hide ClientFile, LogOk, LogWhole;
    if HasFile(s, c, f) {
      ChunkReceived(FileAt(s.mem, f), text);
    }
  }

  lemma ChunkReceived(log: Log, text: Text)
    requires LogOk(log, [])
    ensures LogOk(log.(received := log.received + [text]), [text])
    ensures LogWhole(log) ==> LogWhole(log.(received := log.received + [text]))
  {
    hide Chunks, Records, Woven, Flatten, Texts, Datas;
    assert Texts(Chunks(log.entries)) + [] == Texts(Chunks(log.entries));
  }

  lemma BeginKeepsFile(s: State, ch: Choice, s': State, f: FileName)
    requires Reachable(s) && FilesOpen(s) && FileOk(s, f) && s.ep.pc == EWantCli && BatchStep(s, ch) == Ok(s')
    ensures Kept(s, s', f)
  {
    hide Reachable, Inv, ClientFile, LogFile, LogOk, LogWhole;
    ReachableInv(s);
    WritersRegistered(s);
    OpensOwnFile(s, s.ep.c);
    SameFile(s, s', f);
  }

  lemma WriteKeepsFile(s: State, ch: Choice, s': State, f: FileName)
    requires Inv(s) && FilesOpen(s) && FileOk(s, f) && s.ep.pc == EWrite && BatchStep(s, ch) == Ok(s')
    ensures Kept(s, s', f)
  {
    hide Inv, ClientFile, LogOk, LogWhole;
    if s.ep.file == f {
      WriteOwnFile(s, Min(ch.n, |s.ep.rest|), s', f);
    }
  }

  lemma WriteOwnFile(s: State, n: nat, s': State, f: FileName)
    requires FilesOpen(s) && FileOk(s, f) && s.ep.pc == EWrite && s.ep.file == f && n <= |s.ep.rest|
    requires s' == s.(mem := Begin(s.mem, f, Chunk(s.ep.rest, s.ep.rest[..n])), ep := s.ep.(pc := EUnCli))
    ensures Kept(s, s', f)
  {
    hide ClientFile, LogOk, LogWhole;
    var log, e := FileAt(s.mem, f), Chunk(s.ep.rest, s.ep.rest[..n]);
    ChunkWritten(log, e);
    if Whole(s, f) {
      WholeBegun(log, e);
    }
  }

  lemma RecordKeepsFile(s: State, ch: Choice, s': State, f: FileName)
    requires Reachable(s) && FilesOpen(s) && FileOk(s, f) && s.op.pc == OWantCli && TraverseStep(s, ch) == Ok(s')
    ensures Kept(s, s', f)
  {
    hide Reachable, Inv, ClientFile, LogFile, LogOk, LogWhole, RecordText;
    ReachableInv(s);
    WritersRegistered(s);
    OpensOwnFile(s, s.op.c);
    SameFile(s, s', f);
  }

  lemma TypeKeepsFile(s: State, ch: Choice, s': State, f: FileName)
    requires Inv(s) && FilesOpen(s) && FileOk(s, f) && s.op.pc == ORecord && TraverseStep(s, ch) == Ok(s')
    ensures Kept(s, s', f)
  {
    hide Inv, ClientFile, LogOk, LogWhole, Extended;
    var n := Min(ch.n, |s.op.rest|);
    if s.op.file == f && n > 0 {
      TypeOwnFile(s, n, s', f);
    }
  }

  lemma TypeOwnFile(s: State, n: nat, s': State, f: FileName)
    requires FilesOpen(s) && FileOk(s, f) && s.op.pc == ORecord && s.op.file == f && 0 < n <= |s.op.rest|
    requires s' == s.(mem := if s.op.begun then Continue(s.mem, f, s.op.rest[..n])
                             else Begin(s.mem, f, CmdRecord(s.op.rest, s.op.rest[..n])),
                      op := s.op.(rest := s.op.rest[n..], begun := true))
    ensures Kept(s, s', f)
  {
    hide ClientFile, LogOk, LogWhole, Extended;
    var log, data, rest := FileAt(s.mem, f), s.op.rest[..n], s.op.rest[n..];
    assert data + rest == s.op.rest;
    if s.op.begun {
      RecordContinued(log, ToBegin(s, f), data, rest);
      if Sound(s, f) {
        WholeContinued(log, data);
      }
    } else {
      RecordBegun(log, ToBegin(s, f), CmdRecord(s.op.rest, data), rest);
      if Whole(s, f) {
        WholeBegun(log, CmdRecord(s.op.rest, data));
      }
    }
  }

  // ----- every run

  lemma EmptyFile(f: FileName)
    ensures FilesOpen(INIT) && FileOk(INIT, f) && Sound(INIT, f)
  {
    assert Datas([]) == [] && Texts([]) == [];
  }

  lemma {:induction false} RunFiles(tr: seq<State>, i: nat, f: FileName)
    requires Run(tr) && i < |tr|
    ensures FilesOpen(tr[i]) && FileOk(tr[i], f)
  {
    hide Step, Allowed, FileOk, FilesOpen, Whole, Shared, INIT;
    if i == 0 {
      EmptyFile(f);
    } else {
      RunFiles(tr, i - 1, f);
      RunPrefix(tr, i - 1);
      assert Next(tr[i - 1], tr[i - 1 + 1]);
      var t: Thread, ch: Choice :| Allowed(tr[i - 1], t, ch) && Step(tr[i - 1], t, ch) == Ok(tr[i]);
      StepFiles(tr[i - 1], t, ch, tr[i], f);
    }
  }

  lemma ReachableFiles(s: State, f: FileName)
    requires Reachable(s)
    ensures FilesOpen(s) && FileOk(s, f)
  {
    hide Next, FileOk, FilesOpen;
    var tr: seq<State> :| Run(tr) && tr[|tr| - 1] == s;
    RunFiles(tr, |tr| - 1, f);
  }

  /** A whole file stays whole along any path on which the epoll thread does not come to it in the middle of a record. */
  lemma {:induction false} StaysWhole(w: Scope, tr: seq<State>, i: nat, f: FileName)
    requires Chain(w, tr) && Reachable(tr[0]) && Sound(tr[0], f) && i < |tr| && forall k :: 0 <= k < i ==> !Clash(tr[k], f)
    ensures Sound(tr[i], f)
  {
    hide Step, Allowed, Reachable, FileOk, FilesOpen, Sound, Clash;
    if i > 0 {
      StaysWhole(w, tr, i - 1, f);
      PathStep(w, tr, i, f);
    }
  }

  lemma PathStep(w: Scope, tr: seq<State>, i: nat, f: FileName)
    requires Chain(w, tr) && Reachable(tr[0]) && 0 < i < |tr|
    ensures Reachable(tr[i - 1]) && Kept(tr[i - 1], tr[i], f)
  {
    hide Step, Allowed, Reachable, FileOk, FilesOpen, Kept;
    ChainReachable(w, tr, i - 1);
    ReachableFiles(tr[i - 1], f);
    assert Moves(w, tr[i - 1], tr[i - 1 + 1]);
    var t: Thread, ch: Choice :| Allowed(tr[i - 1], t, ch) && Step(tr[i - 1], t, ch) == Ok(tr[i]);
    StepFiles(tr[i - 1], t, ch, tr[i], f);
  }

  /** The chunks of a file stay, and new ones come after them. */
  lemma {:induction false} ChunksStay(w: Scope, tr: seq<State>, i: nat, f: FileName)
    requires Chain(w, tr) && Reachable(tr[0]) && i < |tr|
    ensures Chunks(FileAt(tr[0].mem, f).entries) <= Chunks(FileAt(tr[i].mem, f).entries)
  {
    hide Moves, Reachable, FileOk, FilesOpen, Sound, Clash, Chunks;
    if i > 0 {
      ChunksStay(w, tr, i - 1, f);
      PathStep(w, tr, i, f);
    }
  }

  lemma RunIsChain(tr: seq<State>)
    requires Run(tr)
    ensures Chain(ALL, tr)
  {
    hide Step, Allowed;
    forall i | 0 <= i < |tr| - 1
      ensures Moves(ALL, tr[i], tr[i + 1])
    {
      assert Next(tr[i], tr[i + 1]);
      var t: Thread, ch: Choice :| Allowed(tr[i], t, ch) && Step(tr[i], t, ch) == Ok(tr[i + 1]);
      assert t == Reg || t == Ep || t == Op;
    }
  }

  /** Whatever the interleaving, and whoever shares the file: it has an entry for every chunk received, in order, but for one about
      to be written; it is made of the chunks, as far as their writes went, each in one piece, and of the characters of the
      records, each in its order. No record ever splits a chunk, and nothing is repeated or reordered. */
  lemma ChunksUnbroken(s: State, f: FileName)
    requires Reachable(s)
    ensures var log := FileAt(s.mem, f);
            && log.received == Texts(Chunks(log.entries)) + ToBegin(s, f)
            && Begun(Chunks(log.entries)) && Begun(Records(log.entries))
            && Woven(log.bytes, Datas(Chunks(log.entries)), Flatten(Datas(Records(log.entries))))
  {
    hide Reachable, Woven, Flatten, Chunks, Records, Datas, Texts;
    ReachableFiles(s, f);
  }

  /** A file is its entries one after the other, whoever shares it, unless it was shared at a moment when a record had been passed
      on to it in part. */
  lemma LogIntact(tr: seq<State>, f: FileName)
    requires Run(tr) && forall k :: 0 <= k < |tr| - 1 ==> !(Shared(tr[k], f) && Midway(tr[k], f))
    ensures Whole(tr[|tr| - 1], f)
  {
    hide Inv, Next, Shared, FilesOpen, Reachable, Clash;
    EmptyFile(f);
    RunIsChain(tr);
    RunPrefix(tr, 0);
    forall k | 0 <= k < |tr| - 1
      ensures !Clash(tr[k], f)
    {
      if Clash(tr[k], f) {
        RunPrefix(tr, k);
        ClashShared(tr[k], f);
        ClashMidway(tr[k], f);
      }
    }
    StaysWhole(ALL, tr, |tr| - 1, f);
  }

  lemma ClashMidway(s: State, f: FileName)
    requires Clash(s, f)
    ensures Midway(s, f)
  {
  }

  lemma {:induction false} CompleteExactly(es: seq<Entry>)
    requires Begun(es)
    ensures |Flatten(Datas(es))| <= |Flatten(Texts(es))|
    ensures Flatten(Datas(es)) == Flatten(Texts(es)) <==> Complete(es)
  {
    if es != [] {
      var front, e := es[..|es| - 1], es[|es| - 1];
      assert es == front + [e];
      CompleteExactly(front);
      AppendEntry(front, e);
      hide Flatten, Datas, Texts;
      if Flatten(Datas(es)) == Flatten(Texts(es)) {
        assert |Flatten(Datas(front))| == |Flatten(Texts(front))| && |e.data| == |e.text|;
        SameEnds(Flatten(Datas(front)), e.data, Flatten(Texts(front)), e.text);
      }
    } else {
      assert Datas(es) == Texts(es);
    }
  }

  lemma SameEnds(a: Text, b: Text, c: Text, d: Text)
    requires a + b == c + d && |a| == |c|
    ensures a == c && b == d
  {
    assert a == (a + b)[..|a|] && c == (c + d)[..|c|];
    assert b == (a + b)[|a|..] && d == (c + d)[|c|..];
  }
}
