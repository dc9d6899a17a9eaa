/** What a command of the operator does from its beginning to its end, told from the command given and from what the environment
    supplied on the way: which logs opened, how much of a record the stream passed on, which writes to clients succeeded. */
module Commands {
  import opened Registration
  import opened LogPath
  import opened Registry
  import opened RegistryInvariant
  import opened ServerTheorems
  import opened Progress
  import opened Traces
  import opened DeviceLogs
  import opened LogTraces

  /** The stretch begins with the operator giving a command and does not go beyond its end. */
  ghost predicate CarriesOut(tr: seq<State>, acts: seq<Act>) {
    && Trace(tr, acts) && acts != [] && tr[0].op.pc == OIdle && acts[0].t == Op
    && forall k :: 0 < k < |acts| ==> tr[k].op.pc != OIdle
  }

  lemma CommandStep(s: State, a: Act, s': State)
    requires Takes(s, a, s')
    ensures if a.t == Op && s.op.pc == OIdle then s'.op.cmd == a.ch.cmd && s'.op.pc == if a.ch.cmd.BashTo? then OWantTot else OWantList
            else s'.op.cmd == s.op.cmd
  {
    hide Allowed, TraverseStep, SelectStep;
    if a.t != Op {
      hide Step;
      Others(s, a.t, a.ch, s');
    } else if s.op.pc in {OWantTot, OScan, OUnTot} {
      SelectCommand(s, s');
    } else if s.op.pc in {OWantCli, ORecord, OUnCli, OSend} {
      ClientCommand(s, a.ch, s');
    } else {
      ClassCommand(s, a.ch, s');
    }
  }

  lemma SelectCommand(s: State, s': State)
    requires s.op.pc in {OWantTot, OScan, OUnTot} && SelectStep(s) == Ok(s')
    ensures s'.op.cmd == s.op.cmd
  {
  }

  lemma ClientCommand(s: State, ch: Choice, s': State)
    requires s.op.pc in {OWantCli, ORecord, OUnCli, OSend} && TraverseStep(s, ch) == Ok(s')
    ensures s'.op.cmd == s.op.cmd
  {
    hide LogFile, LogAlive, RecordText, SslAlive, Extended;
  }

  lemma ClassCommand(s: State, ch: Choice, s': State)
    requires s.op.pc !in {OWantTot, OScan, OUnTot, OWantCli, ORecord, OUnCli, OSend} && TraverseStep(s, ch) == Ok(s')
    ensures if s.op.pc == OIdle then s'.op.cmd == ch.cmd && s'.op.pc == if ch.cmd.BashTo? then OWantTot else OWantList
            else s'.op.cmd == s.op.cmd
  {
    hide Visits;
  }

  /** The command carried out is the one given, up to its end. */
  lemma {:induction false} CommandKept(tr: seq<State>, acts: seq<Act>, k: nat)
    requires CarriesOut(tr, acts) && 0 < k <= |acts|
    ensures tr[k].op.cmd == acts[0].ch.cmd
    ensures k == 1 ==> tr[k].op.pc == if acts[0].ch.cmd.BashTo? then OWantTot else OWantList
  {
    hide Takes, Reachable;
    assert Takes(tr[k - 1], acts[k - 1], tr[k - 1 + 1]);
    CommandStep(tr[k - 1], acts[k - 1], tr[k]);
    if k > 1 {
      CommandKept(tr, acts, k - 1);
    }
  }

  // ----- what the choices say

  /** One attempt to record the command: the client, the file of its device, the time, and whether the log opened. */
  datatype Open = Open(c: ClientId, file: FileName, time: Text, ok: bool)

  /** One write of the command to a client. */
  datatype Sending = Sending(c: ClientId, ok: bool)

  function FileOf(s: State, c: ClientId): FileName {
    if c in s.mem.clients then ClientFile(s.mem.clients[c]) else []
  }

  function OpenBy(s: State, a: Act): seq<Open> {
    if a.t == Op && s.op.pc == OWantCli then [Open(s.op.c, FileOf(s, s.op.c), a.ch.text, a.ch.ok)] else []
  }

  function SendBy(s: State, a: Act): seq<Sending> {
    if a.t == Op && s.op.pc == OSend then [Sending(s.op.c, a.ch.ok)] else []
  }

  /** The attempts and the writes of the first `n` steps. */
  function Opens(tr: seq<State>, acts: seq<Act>, n: nat): seq<Open>
    requires n <= |acts| < |tr|
  {
    if n == 0 then [] else Opens(tr, acts, n - 1) + OpenBy(tr[n - 1], acts[n - 1])
  }

  function Sends(tr: seq<State>, acts: seq<Act>, n: nat): seq<Sending>
    requires n <= |acts| < |tr|
  {
    if n == 0 then [] else Sends(tr, acts, n - 1) + SendBy(tr[n - 1], acts[n - 1])
  }

  function Attempted(opens: seq<Open>): (r: seq<ClientId>)
    ensures |r| == |opens|
  {
    seq(|opens|, i requires 0 <= i < |opens| => opens[i].c)
  }

  function Addressed(sends: seq<Sending>): (r: seq<ClientId>)
    ensures |r| == |sends|
  {
    seq(|sends|, i requires 0 <= i < |sends| => sends[i].c)
  }

  /** What the writes that succeeded have sent. */
  function Delivered(sends: seq<Sending>, text: Text): seq<(ClientId, Text)> {
    if sends == [] then []
    else
      var last := sends[|sends| - 1];
      Delivered(sends[..|sends| - 1], text) + (if last.ok then [(last.c, text)] else [])
  }

  /** The attempts that opened the file. */
  function Due(opens: seq<Open>, f: FileName): seq<Open> {
    if opens == [] then []
    else
      var last := opens[|opens| - 1];
      Due(opens[..|opens| - 1], f) + (if last.ok && last.file == f then [last] else [])
  }

  /** The stream never gives up on a record. */
  predicate PassesOn(s: State, a: Act) {
    a.t == Op && s.op.pc == ORecord ==> a.ch.n > 0
  }

  // ----- whom the command is sent to

  /** The clients recorded for and written to are those attempted, but for the one at hand, which is written to last. */
  ghost predicate Underway(s: State, text: Text, opens: seq<Open>, sends: seq<Sending>) {
    if s.op.pc == OWantList then opens == [] && sends == []
    else
      && s.op.pc in {OClasses, OWantCls, OClients, OWantCli, ORecord, OUnCli, OSend, OUnCls, OUnList, OIdle}
      && Attempted(opens) == s.op.done + (if s.op.pc in {ORecord, OUnCli, OSend} then [s.op.c] else [])
      && Addressed(sends) == s.op.done && s.op.sent == Delivered(sends, text)
  }

  lemma OneMore(opens: seq<Open>, o: Open, sends: seq<Sending>, x: Sending, text: Text)
    ensures Attempted(opens + [o]) == Attempted(opens) + [o.c] && Addressed(sends + [x]) == Addressed(sends) + [x.c]
    ensures Delivered(sends + [x], text) == if x.ok then Delivered(sends, text) + [(x.c, text)] else Delivered(sends, text)
  {
    assert (sends + [x])[..|sends|] == sends;
  }

  lemma UnderwayStep(s: State, a: Act, s': State, opens: seq<Open>, sends: seq<Sending>)
    requires Takes(s, a, s') && s.op.pc != OIdle && s.op.cmd.Send? && Underway(s, s.op.cmd.text, opens, sends)
    ensures Underway(s', s.op.cmd.text, opens + OpenBy(s, a), sends + SendBy(s, a))
  {
    hide Allowed, TraverseStep, SelectStep, Attempted, Addressed, Delivered;
    assert opens + [] == opens && sends + [] == sends;
    if a.t != Op {
      hide Step;
      Others(s, a.t, a.ch, s');
    } else if s.op.pc in {OWantCli, ORecord, OUnCli, OSend} {
      UnderwayClient(s, a, s', opens, sends);
    } else {
      UnderwayClass(s, a, s', opens, sends);
    }
  }

  lemma UnderwayClient(s: State, a: Act, s': State, opens: seq<Open>, sends: seq<Sending>)
    requires a.t == Op && s.op.pc in {OWantCli, ORecord, OUnCli, OSend} && TraverseStep(s, a.ch) == Ok(s')
    requires s.op.cmd.Send? && Underway(s, s.op.cmd.text, opens, sends)
    ensures Underway(s', s.op.cmd.text, opens + OpenBy(s, a), sends + SendBy(s, a))
  {
    hide LogFile, LogAlive, RecordText, SslAlive, Extended, Attempted, Addressed, Delivered, FileOf;
    assert opens + [] == opens && sends + [] == sends;
    OneMore(opens, Open(s.op.c, FileOf(s, s.op.c), a.ch.text, a.ch.ok), sends, Sending(s.op.c, a.ch.ok), s.op.cmd.text);
    assert s.op.done + [] == s.op.done;
  }

  lemma UnderwayClass(s: State, a: Act, s': State, opens: seq<Open>, sends: seq<Sending>)
    requires a.t == Op && s.op.pc !in {OIdle, OWantTot, OScan, OUnTot, OWantCli, ORecord, OUnCli, OSend}
    requires TraverseStep(s, a.ch) == Ok(s') && s.op.cmd.Send? && Underway(s, s.op.cmd.text, opens, sends)
    ensures Underway(s', s.op.cmd.text, opens + OpenBy(s, a), sends + SendBy(s, a))
  {
    hide Visits;
    assert opens + [] == opens && sends + [] == sends && s'.op.done + [] == s'.op.done;
  }

  lemma {:induction false} UnderwayAt(tr: seq<State>, acts: seq<Act>, k: nat)
    requires CarriesOut(tr, acts) && acts[0].ch.cmd.Send? && 0 < k <= |acts|
    ensures Underway(tr[k], acts[0].ch.cmd.text, Opens(tr, acts, k), Sends(tr, acts, k))
  {
    hide Takes, Reachable, Underway;
    assert Takes(tr[k - 1], acts[k - 1], tr[k - 1 + 1]);
    CommandKept(tr, acts, k);
    if k == 1 {
      AtStart(tr[1], acts[0].ch.cmd.text);
      assert Opens(tr, acts, 0) == [] && Sends(tr, acts, 0) == [];
    } else {
      CommandKept(tr, acts, k - 1);
      UnderwayAt(tr, acts, k - 1);
      UnderwayStep(tr[k - 1], acts[k - 1], tr[k], Opens(tr, acts, k - 1), Sends(tr, acts, k - 1));
    }
  }

  lemma AtStart(s: State, text: Text)
    requires s.op.pc == OWantList
    ensures Underway(s, text, [], [])
  {
  }

  /** When `cmd_sendcmd` has gone through the class list it has tried to open the log of each client of the one class with the name, as
      that class's list stood when its lock was taken, and has written the command to each, once, in order, and to no other, whether
      the log opened or not; what was sent is the command. */
  lemma CommandSent(tr: seq<State>, acts: seq<Act>)
    requires CarriesOut(tr, acts) && acts[0].ch.cmd.Send? && tr[|acts|].op.pc == OUnList
    ensures var s, cmd, n := tr[|acts|], acts[0].ch.cmd, |acts|;
            && Attempted(Opens(tr, acts, n)) == s.op.done == Addressed(Sends(tr, acts, n))
            && s.op.sent == Delivered(Sends(tr, acts, n), cmd.text)
            && (forall i :: 0 <= i < |s.mem.classhead| && NameOf(s.mem.classes, s.mem.classhead[i]) == cmd.name ==>
                  |s.op.taken| == 1 && s.op.taken[0].0 == s.mem.classhead[i] && s.op.done == s.op.taken[0].1)
            && ((forall i :: 0 <= i < |s.mem.classhead| ==> NameOf(s.mem.classes, s.mem.classhead[i]) != cmd.name) ==> s.op.done == [])
  {
    hide Takes, Reachable, Attempted, Addressed, Delivered, Opens, Sends, NameOf;
    var n := |acts|;
    CommandKept(tr, acts, n);
    UnderwayAt(tr, acts, n);
    TraceReachable(tr, acts, n);
    BroadcastDone(tr[n]);
  }

  // ----- what is recorded

  /** The record of a command: the time in brackets, a blank, the command in quotes, a newline. */
  ghost predicate IsRecord(t: Text, time: Text, text: Text) {
    var n := |time|;
    && |t| == n + |text| + 6
    && t[0] == '[' && t[1..n + 1] == time && t[n + 1] == ']' && t[n + 2] == ' '
    && t[n + 3] == '\'' && t[n + 4..n + 4 + |text|] == text && t[n + 4 + |text|] == '\'' && t[n + 5 + |text|] == '\n'
  }

  lemma RecordIs(time: Text, text: Text)
    ensures IsRecord(RecordText(time, text), time, text)
  {
    var t, n := RecordText(time, text), |time|;
    assert t == "[" + time + ("] '" + text + "'\n");
    assert t == ("[" + time + "] '") + text + "'\n";
    assert t[1..n + 1] == time && t[n + 4..n + 4 + |text|] == text;
  }

  /** The operator has opened the file and the stream has passed nothing on yet. */
  predicate Opened(s: State, f: FileName) {
    s.op.pc == ORecord && !s.op.begun && s.op.file == f
  }

  /** The records gained are those due, each complete, but for the one that is being written. */
  ghost predicate Recorded(s: State, f: FileName, text: Text, due: seq<Open>, gained: seq<Entry>) {
    && |due| == |gained| + (if Opened(s, f) then 1 else 0)
    && (forall i :: 0 <= i < |gained| ==>
          IsRecord(gained[i].text, due[i].time, text) && (gained[i].data == gained[i].text || (i == |gained| - 1 && Midway(s, f))))
    && (Opened(s, f) ==> s.op.rest != [] && IsRecord(s.op.rest, due[|due| - 1].time, text))
    && (Midway(s, f) ==> gained != [] && gained[|gained| - 1].data + s.op.rest == gained[|gained| - 1].text)
  }

  lemma DueMore(opens: seq<Open>, o: Open, f: FileName)
    ensures Due(opens + [o], f) == if o.ok && o.file == f then Due(opens, f) + [o] else Due(opens, f)
  {
    assert (opens + [o])[..|opens|] == opens;
  }

  lemma GainsAfter(records: seq<Entry>, gained: seq<Entry>, s: State, a: Act, f: FileName)
    requires Midway(s, f) ==> gained != []
    ensures RecordsAfter(records + gained, s, a, f) == records + RecordsAfter(gained, s, a, f)
  {
    var n := Min(a.ch.n, |s.op.rest|);
    if a.t == Op && s.op.pc == ORecord && s.op.file == f && n > 0 {
      if s.op.begun {
        assert (records + gained)[..|records + gained| - 1] == records + gained[..|gained| - 1];
      } else {
        assert records + gained + [CmdRecord(s.op.rest, s.op.rest[..n])] == records + (gained + [CmdRecord(s.op.rest, s.op.rest[..n])]);
      }
    }
  }

  lemma RecordedStep(s: State, a: Act, s': State, f: FileName, opens: seq<Open>, gained: seq<Entry>)
    requires Reachable(s) && Takes(s, a, s') && PassesOn(s, a) && s.op.pc != OIdle && s.op.cmd.Send?
    requires Recorded(s, f, s.op.cmd.text, Due(opens, f), gained)
    ensures Recorded(s', f, s.op.cmd.text, Due(opens + OpenBy(s, a), f), RecordsAfter(gained, s, a, f))
  {
    hide Reachable, Allowed, TraverseStep, SelectStep, Due, Recorded;
    assert opens + [] == opens;
    if a.t != Op {
      hide Step;
      Others(s, a.t, a.ch, s');
      SameRecords(s, s', f, s.op.cmd.text, Due(opens, f), gained);
    } else if s.op.pc == OWantCli {
      RecordDue(s, a, s', f, opens, gained);
    } else if s.op.pc == ORecord {
      RecordGained(s, a.ch, s', f, Due(opens, f), gained);
    } else {
      hide Step;
      OpQuiet(s, a.ch, s');
      SameRecords(s, s', f, s.op.cmd.text, Due(opens, f), gained);
    }
  }

  lemma SameRecords(s: State, s': State, f: FileName, text: Text, due: seq<Open>, gained: seq<Entry>)
    requires Recorded(s, f, text, due, gained) && (s'.op == s.op || (s.op.pc != ORecord && s'.op.pc != ORecord))
    ensures Recorded(s', f, text, due, gained)
  {
  }

  lemma RecordDue(s: State, a: Act, s': State, f: FileName, opens: seq<Open>, gained: seq<Entry>)
    requires Reachable(s) && a.t == Op && s.op.pc == OWantCli && s.op.cmd.Send? && TraverseStep(s, a.ch) == Ok(s')
    requires Recorded(s, f, s.op.cmd.text, Due(opens, f), gained)
    ensures Recorded(s', f, s.op.cmd.text, Due(opens + OpenBy(s, a), f), gained)
  {
    hide Reachable, Inv, LogFile, RecordText, Due, IsRecord, ClientFile;
    ReachableInv(s);
    WritersRegistered(s);
    OpensOwnFile(s, s.op.c);
    DueMore(opens, Open(s.op.c, FileOf(s, s.op.c), a.ch.text, a.ch.ok), f);
    RecordIs(a.ch.text, s.op.cmd.text);
    NotEmpty(a.ch.text, s.op.cmd.text);
  }

  lemma NotEmpty(time: Text, text: Text)
    ensures RecordText(time, text) != []
  {
  }

  lemma RecordGained(s: State, ch: Choice, s': State, f: FileName, due: seq<Open>, gained: seq<Entry>)
    requires s.op.pc == ORecord && s.op.cmd.Send? && TraverseStep(s, ch) == Ok(s') && ch.n > 0
    requires Recorded(s, f, s.op.cmd.text, due, gained)
    ensures Recorded(s', f, s.op.cmd.text, due, RecordsAfter(gained, s, Act(Op, ch), f))
  {
    hide IsRecord, Extended;
    var n := Min(ch.n, |s.op.rest|);
    if n > 0 && s.op.file == f {
      var piece, rest := s.op.rest[..n], s.op.rest[n..];
      assert piece + rest == s.op.rest;
      if s.op.begun {
        var last := gained[|gained| - 1];
        assert last.data + (piece + rest) == last.data + piece + rest;
        assert rest == [] ==> last.data + piece + rest == last.data + piece;
      } else {
        assert rest == [] ==> piece + rest == piece;
      }
    }
  }

  lemma {:induction false} RecordedAt(tr: seq<State>, acts: seq<Act>, f: FileName, k: nat) returns (gained: seq<Entry>)
    requires CarriesOut(tr, acts) && acts[0].ch.cmd.Send? && 0 < k <= |acts|
    requires forall i :: 0 <= i < k ==> PassesOn(tr[i], acts[i])
    ensures Records(FileAt(tr[k].mem, f).entries) == Records(FileAt(tr[0].mem, f).entries) + gained
    ensures Recorded(tr[k], f, acts[0].ch.cmd.text, Due(Opens(tr, acts, k), f), gained)
  {
    hide Takes, Reachable, Recorded, Due, Records, Chunks, RecordsAfter, PassesOn;
    var records := Records(FileAt(tr[0].mem, f).entries);
    TraceReachable(tr, acts, k - 1);
    assert Takes(tr[k - 1], acts[k - 1], tr[k - 1 + 1]);
    StepTells(tr[k - 1], acts[k - 1], tr[k], f);
    if k == 1 {
      CommandKept(tr, acts, 1);
      gained := [];
      NothingYet(tr[0], acts[0], tr[1], f, acts[0].ch.cmd.text, records);
      assert Opens(tr, acts, 0) == [] && [] + OpenBy(tr[0], acts[0]) == [];
      assert records + [] == records;
    } else {
      CommandKept(tr, acts, k - 1);
      var before := RecordedAt(tr, acts, f, k - 1);
      RecordedStep(tr[k - 1], acts[k - 1], tr[k], f, Opens(tr, acts, k - 1), before);
      gained := RecordsAfter(before, tr[k - 1], acts[k - 1], f);
      MidwayGained(tr[k - 1], f, acts[0].ch.cmd.text, Due(Opens(tr, acts, k - 1), f), before);
      GainsAfter(records, before, tr[k - 1], acts[k - 1], f);
    }
  }

  lemma NothingYet(s: State, a: Act, s': State, f: FileName, text: Text, records: seq<Entry>)
    requires s.op.pc == OIdle && s'.op.pc == OWantList
    ensures RecordsAfter(records, s, a, f) == records && OpenBy(s, a) == [] && Recorded(s', f, text, Due([], f), [])
  {
  }

  lemma MidwayGained(s: State, f: FileName, text: Text, due: seq<Open>, gained: seq<Entry>)
    requires Recorded(s, f, text, due, gained)
    ensures Midway(s, f) ==> gained != []
  {
  }

  /** When `cmd_sendcmd` has gone through the class list every log file has gained, in order, exactly one record for each of those
      attempts that opened it, and none for one that did not open: the time in brackets and the command in quotes, whole if the
      stream never gives up. */
  lemma CommandRecorded(tr: seq<State>, acts: seq<Act>, f: FileName) returns (gained: seq<Entry>)
    requires CarriesOut(tr, acts) && acts[0].ch.cmd.Send? && tr[|acts|].op.pc == OUnList
    requires forall i :: 0 <= i < |acts| ==> PassesOn(tr[i], acts[i])
    ensures Records(FileAt(tr[|acts|].mem, f).entries) == Records(FileAt(tr[0].mem, f).entries) + gained
    ensures var due := Due(Opens(tr, acts, |acts|), f);
            && |gained| == |due|
            && forall i :: 0 <= i < |due| ==>
                 IsRecord(gained[i].text, due[i].time, acts[0].ch.cmd.text) && gained[i].data == gained[i].text
  {
    hide Takes, Reachable, Due, Records, Opens, IsRecord, PassesOn;
    gained := RecordedAt(tr, acts, f, |acts|);
  }
}
