/**
 Log files two registered clients share. The mutex that guards a file is the client's, so two clients of one device let the
 epoll thread write the file while the operator's stream is passing a record on to it, and then a chunk can split the record.
 It can exactly when the file is shared.
 */
module SharedLogs {
  import opened Sequences
  import opened Registration
  import opened LogPath
  import opened Registry
  import opened RegistryInvariant
  import opened ServerTheorems
  import opened Progress
  import opened Arrivals
  import opened Scenarios
  import opened DeviceLogs

  /** The two threads that write logs. */
  const WRITERS := Scope({Ep, Op}, {})

  /** Both writers are idle and the registration thread is not inside its locks. */
  predicate Quiet(s: State) {
    s.ep.pc == EWait && s.op.pc == OIdle && !HoldsLock(s, Reg)
  }

  // ----- without a registration no file becomes shared

  lemma NotNewlyShared(s: State, t: Thread, ch: Choice, s': State, f: FileName)
    requires Inv(s) && t != Reg && Allowed(s, t, ch) && Step(s, t, ch) == Ok(s') && Shared(s', f)
    ensures Shared(s, f)
  {
    hide Inv, Allowed, Step, ClientFile;
    OnlyLeave(s, t, ch, s');
    RecordStays(s, t, ch, s');
    UnwatchedGrow(s, t, ch, s');
    var c, d :| c in s'.mem.tothead && d in s'.mem.tothead && c != d && HasFile(s', c, f) && HasFile(s', d, f) && d !in s'.mem.unwatched;
    SharedBy(s, c, d, f);
  }

  lemma {:induction false} StaysUnshared(tr: seq<State>, i: nat, f: FileName)
    requires Chain(WRITERS, tr) && Reachable(tr[0]) && !Shared(tr[0], f) && i < |tr|
    ensures !Shared(tr[i], f)
  {
    hide Step, Allowed, Reachable, Shared, Inv;
    if i > 0 {
      StaysUnshared(tr, i - 1, f);
      ChainReachable(WRITERS, tr, i - 1);
      ReachableInv(tr[i - 1]);
      assert Moves(WRITERS, tr[i - 1], tr[i - 1 + 1]);
      var t: Thread, ch: Choice :| t in WRITERS.threads && Allowed(tr[i - 1], t, ch) && Step(tr[i - 1], t, ch) == Ok(tr[i]);
      if Shared(tr[i], f) {
        NotNewlyShared(tr[i - 1], t, ch, tr[i], f);
      }
    }
  }

  // ----- the operator can be brought to any registered client

  const RECORD: Text := "[] ''\n"

  /** The operator sends an empty command to the class of client `c` and has not passed `c` yet. */
  predicate Driving(s: State, c: ClientId) {
    var m, o := s.mem, s.op;
    && LogAlive(m, c)
    && var k := m.clients[c].klass;
    && k in m.classhead && c in m.classes[k].clilist && o.cmd == Send(m.classes[k].name, [])
    && (o.pc == OWantList
        || (o.pc == OClasses && o.i <= IndexOf(m.classhead, k))
        || (o.pc == OWantCls && o.k == k)
        || (o.pc == OClients && o.k == k && o.j <= IndexOf(m.classes[k].clilist, c))
        || (o.pc == OWantCli && o.k == k && o.j <= IndexOf(m.classes[k].clilist, c) && o.c == m.classes[k].clilist[o.j])
        || (o.pc in {OUnCli, OSend} && o.k == k && o.j < IndexOf(m.classes[k].clilist, c) && o.c == m.classes[k].clilist[o.j]))
  }

  /** No class but that of `c` has the name in the command. */
  predicate OneMatches(s: State, c: ClientId)
    requires Driving(s, c)
  {
    forall k :: k in s.mem.classhead && k in s.mem.classes && s.mem.classes[k].name == s.op.cmd.name ==> k == s.mem.clients[c].klass
  }

  /** The operator has opened the log of `c` and is to write the record. */
  predicate AtRecord(s: State, s': State, c: ClientId)
    requires LogAlive(s.mem, c)
  {
    && s'.op.pc == ORecord && s'.op.c == c && s'.op.file == LogFile(s.mem, c) && s'.op.rest == RECORD && !s'.op.begun
    && s'.mem == s.mem && s'.ep == s.ep && s'.reg == s.reg
  }

  lemma EmptyRecord()
    ensures RecordText([], []) == RECORD
  {
  }

  lemma DriveOn(s: State, c: ClientId, ch: Choice, s': State)
    requires Driving(s, c) && (ch.ok <==> s.op.pc == OWantCli && s.op.c == c) && ch.text == [] && TraverseStep(s, ch) == Ok(s')
    requires OneMatches(s, c)
    ensures if ch.ok then AtRecord(s, s', c) else Driving(s', c) && s'.mem == s.mem && s'.ep == s.ep && s'.reg == s.reg
    ensures !ch.ok ==> HoldsLock(s', Op)
  {
    hide Driving, AtRecord, TraverseStep;
    if s.op.pc in {OWantList, OClasses, OWantCls} {
      DriveClasses(s, c, ch, s');
    } else if s.op.pc == OClients {
      DriveClients(s, c, ch, s');
    } else {
      DriveClient(s, c, ch, s');
    }
  }

  lemma DriveClasses(s: State, c: ClientId, ch: Choice, s': State)
    requires Driving(s, c) && s.op.pc in {OWantList, OClasses, OWantCls} && TraverseStep(s, ch) == Ok(s')
    requires OneMatches(s, c)
    ensures Driving(s', c) && s'.mem == s.mem && s'.ep == s.ep && s'.reg == s.reg && HoldsLock(s', Op)
  {
    hide TraverseStep;
    if s.op.pc == OClasses {
      DrivePast(s, c, ch, s');
    } else {
      DriveInto(s, c, ch, s');
    }
  }

  lemma DrivePast(s: State, c: ClientId, ch: Choice, s': State)
    requires Driving(s, c) && s.op.pc == OClasses && TraverseStep(s, ch) == Ok(s')
    requires OneMatches(s, c)
    ensures Driving(s', c) && s'.mem == s.mem && s'.ep == s.ep && s'.reg == s.reg && HoldsLock(s', Op)
  {
    hide File;
  }

  lemma DriveInto(s: State, c: ClientId, ch: Choice, s': State)
    requires Driving(s, c) && s.op.pc in {OWantList, OWantCls} && TraverseStep(s, ch) == Ok(s')
    ensures Driving(s', c) && s'.mem == s.mem && s'.ep == s.ep && s'.reg == s.reg && HoldsLock(s', Op)
  {
    hide File;
  }

  lemma DriveClients(s: State, c: ClientId, ch: Choice, s': State)
    requires Driving(s, c) && s.op.pc == OClients && TraverseStep(s, ch) == Ok(s')
    ensures Driving(s', c) && s'.mem == s.mem && s'.ep == s.ep && s'.reg == s.reg && HoldsLock(s', Op)
  {
  }

  lemma DriveClient(s: State, c: ClientId, ch: Choice, s': State)
    requires Driving(s, c) && s.op.pc !in {OWantList, OClasses, OWantCls, OClients}
    requires (ch.ok <==> s.op.pc == OWantCli && s.op.c == c) && ch.text == [] && TraverseStep(s, ch) == Ok(s')
    ensures if ch.ok then AtRecord(s, s', c) else Driving(s', c) && s'.mem == s.mem && s'.ep == s.ep && s'.reg == s.reg
    ensures !ch.ok ==> HoldsLock(s', Op)
  {
    hide LogFile, RecordText, SslAlive;
    EmptyRecord();
  }

  lemma DrivingSteps(s: State, c: ClientId)
    requires Reachable(s) && Driving(s, c)
    ensures OneMatches(s, c)
    ensures s.op.pc !in {OIdle, OWantTot, OScan, OUnTot, ORecord, OUnCls, OUnList} && LogAlive(s.mem, c)
  {
    hide Reachable;
    forall k | k in s.mem.classhead && k in s.mem.classes && s.mem.classes[k].name == s.op.cmd.name
      ensures k == s.mem.clients[c].klass
    {
      ListedNamesDistinct(s, k, s.mem.clients[c].klass);
    }
  }

  /** While the other threads hold no lock the operator gets there. */
  lemma {:induction false} Drive(w: State, s: State, c: ClientId) returns (s': State)
    requires Reachable(s) && Leads(WRITERS, w, s) && Driving(s, c) && !HoldsLock(s, Reg) && !HoldsLock(s, Ep)
    ensures Reachable(s') && Leads(WRITERS, w, s') && AtRecord(s, s', c)
    decreases if s.op.pc == OWantList then 1 else 0, WorkOf(s, Op).outer, WorkOf(s, Op).phase, WorkOf(s, Op).inner,
              WorkOf(s, Op).place, WorkOf(s, Op).chars
  {
    hide Inv, Reachable, Leads, Driving, AtRecord, TraverseStep, WorkOf, HoldsLock;
    var ch := Choice(s.op.pc == OWantCli && s.op.c == c, 0, NO_ADDRESS, NO_RECORD, [], 1, [], ListClass);
    DrivingSteps(s, c);
    s' := Go(WRITERS, w, s, Op, ch);
    DriveOn(s, c, ch, s');
    if !ch.ok {
      DriveShortens(s, ch, s');
      var next := s';
      SameHolds(s, next);
      s' := Drive(w, next, c);
      SameStart(s, next, s', c);
    }
  }

  lemma SameHolds(s: State, s': State)
    requires s'.ep == s.ep && s'.reg == s.reg
    ensures (HoldsLock(s', Reg) <==> HoldsLock(s, Reg)) && (HoldsLock(s', Ep) <==> HoldsLock(s, Ep))
  {
  }

  lemma SameStart(s: State, next: State, s': State, c: ClientId)
    requires LogAlive(s.mem, c) && next.mem == s.mem && next.ep == s.ep && next.reg == s.reg && AtRecord(next, s', c)
    ensures AtRecord(s, s', c)
  {
  }

  lemma DriveShortens(s: State, ch: Choice, s': State)
    requires Reachable(s) && Allowed(s, Op, ch) && Step(s, Op, ch) == Ok(s') && HoldsLock(s', Op)
    requires s.op.pc !in {OIdle, OWantTot, OScan, OUnTot}
    ensures s'.op.pc != OWantList && (s.op.pc == OWantList || Less(WorkOf(s', Op), WorkOf(s, Op)))
  {
    hide Reachable, Less, WorkOf, Step, Allowed;
    if s.op.pc != OWantList {
      OwnStepProgress(s, Op, ch, s');
    }
  }

  // ----- the two writers at once

  /** A step that nobody opposes: its lock, if it wants one, is held by no other thread. */
  lemma Slip(w: State, s: State, t: Thread, ch: Choice) returns (s': State)
    requires Reachable(s) && Leads(WRITERS, w, s) && t in {Ep, Op} && Allowed(s, t, ch)
    requires forall u: Thread :: u != t && Wants(s, t).Some? ==> !Has(s, u, Wants(s, t).value)
    ensures Step(s, t, ch) == Ok(s') && Leads(WRITERS, w, s') && Reachable(s')
  {
    hide Step, Allowed, Reachable, Leads, Wants, Has;
    CanStep(s, t, ch);
    s' := Step(s, t, ch).next;
    LeadsOn(WRITERS, w, s, t, ch, s');
    Reaches(s, t, ch, s');
  }

  const NO_CHOICE := Choice(false, 0, NO_ADDRESS, NO_RECORD, [], 1, [], ListClass)

  /** The stream passes on `n` more characters of the record. */
  lemma OpAppends(w: State, s: State, n: nat) returns (s': State)
    requires Reachable(s) && Leads(WRITERS, w, s) && s.op.pc == ORecord && 0 < n <= |s.op.rest|
    ensures Reachable(s') && Leads(WRITERS, w, s') && s'.ep == s.ep && s'.reg == s.reg
    ensures s'.op == s.op.(rest := s.op.rest[n..], begun := true)
    ensures s'.mem == if s.op.begun then Continue(s.mem, s.op.file, s.op.rest[..n])
                      else Begin(s.mem, s.op.file, CmdRecord(s.op.rest, s.op.rest[..n]))
  {
    hide Reachable, Leads, Extended;
    s' := Slip(w, s, Op, NO_CHOICE.(n := n));
  }

  /** The whole chunk is written. */
  lemma EpWrites(w: State, s: State) returns (s': State)
    requires Reachable(s) && Leads(WRITERS, w, s) && s.ep.pc == EWrite
    ensures Reachable(s') && Leads(WRITERS, w, s') && s'.op == s.op && s'.reg == s.reg && s'.ep == s.ep.(pc := EUnCli)
    ensures s'.mem == Begin(s.mem, s.ep.file, Chunk(s.ep.rest, s.ep.rest))
  {
    hide Reachable, Leads;
    var n := |s.ep.rest|;
    s' := Slip(w, s, Ep, NO_CHOICE.(text := ['x'], n := n));
    assert s.ep.rest[..n] == s.ep.rest;
  }

  /** A chunk arrives for client `d`, whose mutex is free, and the epoll thread opens its log. */
  lemma Arrives(w: State, s: State, d: ClientId, text: Text) returns (s': State)
    requires Reachable(s) && Leads(WRITERS, w, s) && s.ep.pc == EWait && 1 <= |text| <= BUFLEN
    requires d in s.mem.tothead && d in s.mem.interest.Values && !Has(s, Reg, CliLock(d)) && !Has(s, Op, CliLock(d))
    ensures Reachable(s') && Leads(WRITERS, w, s') && s'.op == s.op && d in s.mem.clients
    ensures s'.ep.pc == EWrite && s'.ep.c == d && s'.ep.rest == text && s'.ep.file == ClientFile(s.mem.clients[d])
    ensures var f := ClientFile(s.mem.clients[d]);
            FileAt(s'.mem, f).bytes == FileAt(s.mem, f).bytes && FileAt(s'.mem, f).entries == FileAt(s.mem, f).entries
  {
    hide Reachable, Leads, File, Inv;
    var ch := Choice(true, 0, NO_ADDRESS, NO_RECORD, text, 1, [Event(d, false, true)], ListClass);
    assert EventClients(ch.evs) == [d];
    OpensOwnFile(s, d);
    var s1 := Slip(w, s, Ep, ch);
    var s2 := Slip(w, s1, Ep, ch);
    OpensOwnFile(s2, d);
    s' := Slip(w, s2, Ep, ch);
  }

  /** The operator can be sent to any registered client. */
  lemma Starts(s: State, c: ClientId) returns (s': State)
    requires Reachable(s) && Quiet(s) && c in s.mem.tothead
    ensures Reachable(s') && Leads(WRITERS, s, s') && Driving(s', c) && s'.mem == s.mem && s'.ep == s.ep && s'.reg == s.reg
  {
    hide Reachable, Leads, Inv;
    RegisteredClassAlive(s, c);
    var k := s.mem.clients[c].klass;
    TotFree(s);
    ListsPartition(s, c, k);
    var ch := NO_CHOICE.(cmd := Send(s.mem.classes[k].name, []));
    LeadsHere(WRITERS, s);
    s' := Slip(s, s, Op, ch);
  }

  lemma TotFree(s: State)
    requires Reachable(s) && Quiet(s)
    ensures IsFree(s, TotLock)
  {
    hide Reachable, Inv, HoldsLock, Has;
    ReachableInv(s);
    HoldsNone(s, Reg);
    OpIdleHolds(s);
    NobodyHolds(s, TotLock);
  }

  lemma OpIdleHolds(s: State)
    requires s.op.pc == OIdle
    ensures forall l :: !Has(s, Op, l)
  {
  }

  /** Between the two states two entries were appended, all of both, and one is inside the other. */
  ghost predicate Splits(log: Log, log': Log, e1: Entry, e2: Entry, t: Text) {
    && log'.entries == log.entries + [e1, e2] && Complete([e1, e2])
    && log'.bytes == log.bytes + t && t != e1.data + e2.data && t != e2.data + e1.data
  }

  ghost predicate Torn(s: State, s': State, f: FileName) {
    && !Midway(s', f) && ToBegin(s', f) == []
    && exists e1, e2, t :: Splits(FileAt(s.mem, f), FileAt(s'.mem, f), e1, e2, t)
  }

  const RECORD_ENTRY := CmdRecord(RECORD, RECORD)
  const CHUNK_ENTRY := Chunk("x", "x")
  const SPLIT: Text := "[x] ''\n"

  /** With two registered clients at one file, some steps of the two writers leave a chunk inside a record. */
  lemma Tears(s: State, f: FileName, c: ClientId, d: ClientId) returns (s': State)
    requires Reachable(s) && Quiet(s) && c in s.mem.tothead && d in s.mem.tothead && c != d && HasFile(s, c, f) && HasFile(s, d, f)
    requires d !in s.mem.unwatched
    ensures Leads(WRITERS, s, s') && Reachable(s') && !Midway(s', f) && ToBegin(s', f) == []
    ensures Splits(FileAt(s.mem, f), FileAt(s'.mem, f), RECORD_ENTRY, CHUNK_ENTRY, SPLIT)
  {
    hide Reachable, Leads, Inv, Driving, HoldsLock, Has, LogFile, ClientFile, Extended, FileAt;
    OpensOwnFile(s, c);
    ListIsWatched(s, d) by {
      OpIdle(s);
    }
    var s1 := Starts(s, c);
    EpIdle(s1, s);
    var s2 := Drive(s, s1, c);
    HoldsOnly(s2, s, d);
    var s3 := OpAppends(s, s2, 1);
    HoldsOnly(s3, s, d);
    var s4 := Arrives(s, s3, d, "x");
    var s5 := EpWrites(s, s4);
    s' := OpAppends(s, s5, 5);
    assert RECORD[..1] == "[" && RECORD[1..] == "] ''\n" && RECORD[1..][..5] == "] ''\n" && RECORD[1..][5..] == [];
    Interleaves(s.mem, s3.mem, s4.mem, s5.mem, s'.mem, f);
  }

  /** What the two threads do to the file. */
  lemma Interleaves(m: Memory, m1: Memory, m2: Memory, m3: Memory, m4: Memory, f: FileName)
    requires m1 == Begin(m, f, CmdRecord(RECORD, "["))
    requires FileAt(m2, f).bytes == FileAt(m1, f).bytes && FileAt(m2, f).entries == FileAt(m1, f).entries
    requires m3 == Begin(m2, f, Chunk("x", "x")) && m4 == Continue(m3, f, "] ''\n")
    ensures Splits(FileAt(m, f), FileAt(m4, f), RECORD_ENTRY, CHUNK_ENTRY, SPLIT)
  {
    var log, begun := FileAt(m, f), CmdRecord(RECORD, "[");
    assert FileAt(m4, f).bytes == log.bytes + "[" + "x" + "] ''\n";
    assert log.bytes + "[" + "x" + "] ''\n" == log.bytes + SPLIT;
    ExtendsUnderChunk(log.entries, begun, CHUNK_ENTRY, "] ''\n");
    assert begun.(data := "[" + "] ''\n") == RECORD_ENTRY;
    assert log.entries + [RECORD_ENTRY] + [CHUNK_ENTRY] == log.entries + [RECORD_ENTRY, CHUNK_ENTRY];
    assert SPLIT[1] == 'x' && (RECORD + "x")[1] == ']' && ("x" + RECORD)[1] == '[';
  }

  lemma ExtendsUnderChunk(es: seq<Entry>, e: Entry, c: Entry, data: Text)
    requires e.CmdRecord? && c.Chunk?
    ensures Extended(es + [e] + [c], data) == es + [e.(data := e.data + data)] + [c]
  {
    assert (es + [e] + [c])[..|es| + 1] == es + [e] && (es + [e])[..|es|] == es;
  }

  lemma OpIdle(s: State)
    requires Quiet(s)
    ensures EpAlone(s)
  {
  }

  lemma EpIdle(s: State, s0: State)
    requires Quiet(s0) && s.ep == s0.ep && s.reg == s0.reg
    ensures !HoldsLock(s, Reg) && !HoldsLock(s, Ep)
  {
  }

  /** At a record the operator holds the mutex of its own client only. */
  lemma HoldsOnly(s: State, s0: State, d: ClientId)
    requires Quiet(s0) && s.reg == s0.reg && s.op.pc == ORecord && s.op.c != d
    ensures !Has(s, Reg, CliLock(d)) && !Has(s, Op, CliLock(d))
  {
  }

  lemma TornIsNotWhole(log: Log, log': Log, e1: Entry, e2: Entry, t: Text)
    requires LogWhole(log) && Splits(log, log', e1, e2, t)
    ensures !LogWhole(log')
  {
    AppendEntry(log.entries, e1);
    AppendEntry(log.entries + [e1], e2);
    hide Chunks, Records, Datas, Flatten;
    assert log.entries + [e1] + [e2] == log.entries + [e1, e2];
    assert log.bytes + e1.data + e2.data == log.bytes + (e1.data + e2.data);
    SameTail(log.bytes, t, e1.data + e2.data);
  }

  lemma SameTail(a: Text, b: Text, c: Text)
    ensures a + b == a + c <==> b == c
  {
    assert (a + b)[|a|..] == b && (a + c)[|a|..] == c;
  }

  /** From a state in which the writers are idle and the file is whole, steps of the two writers can tear it if and only if two
      registered clients share it; if they do not, it stays whole whatever the writers do. */
  lemma TornExactlyWhenShared(s: State, f: FileName)
    requires Reachable(s) && Quiet(s) && Whole(s, f)
    ensures (exists s' :: Leads(WRITERS, s, s') && Torn(s, s', f)) <==> Shared(s, f)
    ensures !Shared(s, f) ==> forall s' :: Leads(WRITERS, s, s') ==> Whole(s', f)
  {
    hide Reachable, Leads, LogWhole, Splits;
    if Shared(s, f) {
      var c, d :| c in s.mem.tothead && d in s.mem.tothead && c != d && HasFile(s, c, f) && HasFile(s, d, f) && d !in s.mem.unwatched;
      var s' := Tears(s, f, c, d);
      assert Leads(WRITERS, s, s') && Torn(s, s', f);
    } else {
      forall s' | Leads(WRITERS, s, s')
        ensures Whole(s', f) && !Torn(s, s', f)
      {
        UnsharedWhole(s, s', f);
        if Torn(s, s', f) {
          var e1, e2, t :| Splits(FileAt(s.mem, f), FileAt(s'.mem, f), e1, e2, t);
          TornIsNotWhole(FileAt(s.mem, f), FileAt(s'.mem, f), e1, e2, t);
        }
      }
    }
  }

  lemma UnsharedWhole(s: State, s': State, f: FileName)
    requires Reachable(s) && Quiet(s) && Whole(s, f) && !Shared(s, f) && Leads(WRITERS, s, s')
    ensures Whole(s', f)
  {
    hide Reachable, Moves, LogWhole, Shared, Clash;
    var tr: seq<State> :| Chain(WRITERS, tr) && tr[0] == s && tr[|tr| - 1] == s';
    forall k | 0 <= k < |tr| - 1
      ensures !Clash(tr[k], f)
    {
      StaysUnshared(tr, k, f);
      if Clash(tr[k], f) {
        ChainReachable(WRITERS, tr, k);
        ClashShared(tr[k], f);
      }
    }
    StaysWhole(WRITERS, tr, |tr| - 1, f);
  }

  // ----- an input

  /** A device that connects again before its first connection is removed has two clients at one file. */
  lemma ConnectsTwice(rec: Registration.Record, ip: Address) returns (s: State)
    requires rec.Valid()
    ensures Reachable(s) && Quiet(s) && s.mem.files == map[] && Shared(s, File(Device(ServerName(rec), ip, rec.mac)))
  {
    hide Reachable, Leads, File;
    StartReachable();
    var s1 := Connects(INIT, rec, ip, true);
    LeadsReachable(REG, INIT, s1);
    s := Connects(s1, rec, ip, true);
    LeadsReachable(REG, s1, s);
    SharedBy(s, s1.reg.n, s.reg.n, File(Device(ServerName(rec), ip, rec.mac)));
  }

  /** So for every device some run of the server leaves a log that is a record with a chunk inside. */
  lemma ChunkSplitsRecord(rec: Registration.Record, ip: Address) returns (s: State)
    requires rec.Valid()
    ensures var log := FileAt(s.mem, File(Device(ServerName(rec), ip, rec.mac)));
            Reachable(s) && log.bytes == "[x] ''\n" && log.entries == [CmdRecord("[] ''\n", "[] ''\n"), Chunk("x", "x")]
  {
    hide Reachable, Leads, File, Quiet;
    var f := File(Device(ServerName(rec), ip, rec.mac));
    var s1 := ConnectsTwice(rec, ip);
    var c, d :| c in s1.mem.tothead && d in s1.mem.tothead && c != d && HasFile(s1, c, f) && HasFile(s1, d, f) && d !in s1.mem.unwatched;
    s := Tears(s1, f, c, d);
  }

  // ----- which clients share a file

  /** The device a client registered as. */
  function DeviceOf(cl: Client): Device { Device(cl.who, cl.ip, cl.mac) }

  /** Clients whose class names have no slash share a file if and only if they are connections of one device. */
  lemma SharedBySameDevice(s: State, f: FileName)
    requires forall c :: c in s.mem.tothead ==> c in s.mem.clients && '/' !in s.mem.clients[c].who
    ensures Shared(s, f) <==>
            exists c, d :: c in s.mem.tothead && d in s.mem.tothead && c != d && HasFile(s, c, f) && d !in s.mem.unwatched
                           && DeviceOf(s.mem.clients[c]) == DeviceOf(s.mem.clients[d])
  {
    hide File;
    if Shared(s, f) {
      var c, d :| c in s.mem.tothead && d in s.mem.tothead && c != d && HasFile(s, c, f) && HasFile(s, d, f) && d !in s.mem.unwatched;
      FilesDistinct(DeviceOf(s.mem.clients[c]), DeviceOf(s.mem.clients[d]));
    }
  }
}
