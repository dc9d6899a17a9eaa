/** From the output of commands on the device to the device's log on the server. */
module EndToEnd {
  import opened Wrappers
  import opened Sequences
  import opened Registration
  import opened LogPath
  import opened Registry
  import opened RegistryInvariant
  import opened ServerTheorems
  import opened OutputRelay
  import opened Traces
  import opened DeviceLogs
  import opened LogTraces

  /** What the step reads from the connection of client `c`: the data the choice supplies. */
  function ReadFrom(s: State, a: Act, c: ClientId): seq<Text> {
    if a.t == Ep && AtInput(s) && a.ch.ok && s.ep.evs[s.ep.i].cli == c then [a.ch.text] else []
  }

  /** What the first `n` steps read from it, read by read. */
  function ReadsFrom(tr: seq<State>, acts: seq<Act>, c: ClientId, n: nat): seq<Text>
    requires n <= |acts| < |tr|
  {
    if n == 0 then [] else ReadsFrom(tr, acts, c, n - 1) + ReadFrom(tr[n - 1], acts[n - 1], c)
  }

  /** Client `c` is registered and the only registered client whose file is `f`. */
  ghost predicate SoleAt(s: State, c: ClientId, f: FileName) {
    c in s.mem.tothead && HasFile(s, c, f) && !Shared(s, f)
  }

  ghost predicate Sole(tr: seq<State>, acts: seq<Act>, c: ClientId, f: FileName) {
    |acts| < |tr| && forall k :: 0 <= k < |acts| ==> SoleAt(tr[k], c, f)
  }

  lemma SoleRead(s: State, a: Act, c: ClientId, f: FileName)
    requires Reachable(s) && SoleAt(s, c, f)
    ensures ReadFor(s, a, f) == ReadFrom(s, a, c)
  {
    hide Reachable, Inv, ClientFile, Shared;
    ReachableInv(s);
    WritersRegistered(s);
    if AtInput(s) && s.ep.evs[s.ep.i].cli != c && HasFile(s, s.ep.evs[s.ep.i].cli, f) {
      SharedBy(s, c, s.ep.evs[s.ep.i].cli, f);
    }
  }

  /** While the file has one client, what is read for the file is what is read from that client. */
  lemma {:induction false} SoleReads(tr: seq<State>, acts: seq<Act>, c: ClientId, f: FileName, n: nat)
    requires Trace(tr, acts) && Sole(tr, acts, c, f) && n <= |acts|
    ensures Reads(tr, acts, f, n) == ReadsFrom(tr, acts, c, n)
  {
    hide Reachable, Takes, ReadFor, ReadFrom, SoleAt;
    if n > 0 {
      SoleReads(tr, acts, c, f, n - 1);
      TraceReachable(tr, acts, n - 1);
      SoleRead(tr[n - 1], acts[n - 1], c, f);
    }
  }

  /** ... and a file that was whole still is, whatever commands were recorded meanwhile. */
  lemma SoleWhole(tr: seq<State>, acts: seq<Act>, c: ClientId, f: FileName)
    requires Trace(tr, acts) && Sole(tr, acts, c, f) && Sound(tr[0], f)
    ensures Whole(tr[|acts|], f)
  {
    hide Takes, Reachable, Shared, Clash;
    TraceIsChain(tr, acts);
    forall k | 0 <= k < |acts|
      ensures !Clash(tr[k], f)
    {
      if Clash(tr[k], f) {
        TraceReachable(tr, acts, k);
        ClashShared(tr[k], f);
      }
    }
    StaysWhole(ALL, tr, |acts|, f);
  }

  // ----- commands

  /** A command, what it says (`None` when it cannot be run), and the pieces the client sends in answer. */
  datatype Answer = Answer(cmd: Text, output: Option<Text>, pieces: seq<Text>) {
    predicate Valid() {
      |cmd| <= CMDLEN && Answers(pieces, output, cmd)
    }

    /** What the log is to hold of it. */
    function Reported(): Text
      requires |cmd| <= CMDLEN
    {
      if cmd == RCTLBASH then []
      else
        match output
        case None => Failure(Redirected(cmd))
        case Some(text) => if text == [] then Notice(Redirected(cmd)) else text
    }
  }

  ghost predicate AllValid(answers: seq<Answer>) {
    forall i :: 0 <= i < |answers| ==> answers[i].Valid()
  }

  /** The pieces sent, one command after the other. */
  function Sent(answers: seq<Answer>): seq<Text> {
    if answers == [] then [] else Sent(answers[..|answers| - 1]) + answers[|answers| - 1].pieces
  }

  function AllReported(answers: seq<Answer>): Text
    requires AllValid(answers)
  {
    if answers == [] then []
    else AllReported(answers[..|answers| - 1]) + answers[|answers| - 1].Reported()
  }

  lemma AnswerReported(a: Answer)
    requires a.Valid()
    ensures Flatten(a.pieces) == a.Reported()
  {
    if |a.pieces| == 1 {
      assert a.pieces[..0] == [];
    }
  }

  lemma {:induction false} SentReported(answers: seq<Answer>)
    requires AllValid(answers)
    ensures Flatten(Sent(answers)) == AllReported(answers)
  {
    if answers != [] {
      var front, a := answers[..|answers| - 1], answers[|answers| - 1];
      SentReported(front);
      AnswerReported(a);
      FlattenConcat(Sent(front), a.pieces);
    }
  }

  /** End to end, for any number of commands over one connection: the device sends what answers them, as `RunCommand` does, and the
      connection delivers bytes in order to the server's reads. Then the log has gained the chunks read, one for one: a beginning of
      what the commands reported, one after the other; and once all is delivered it has gained exactly that if and only if no
      `write` was short. */
  lemma OutputReachesLog(tr: seq<State>, acts: seq<Act>, c: ClientId, f: FileName, answers: seq<Answer>)
    requires Trace(tr, acts) && Sole(tr, acts, c, f) && ToBegin(tr[0], f) == [] && ToBegin(tr[|acts|], f) == []
    requires AllValid(answers) && Flatten(ReadsFrom(tr, acts, c, |acts|)) <= Flatten(Sent(answers))
    ensures var n := |acts|; var gained := Writes(tr, acts, f, n); var read := Flatten(ReadsFrom(tr, acts, c, n));
            && Chunks(FileAt(tr[n].mem, f).entries) == Chunks(FileAt(tr[0].mem, f).entries) + gained
            && Texts(gained) == ReadsFrom(tr, acts, c, n) && Begun(gained) && read <= AllReported(answers)
            && (NoneShort(tr, acts, f, n) ==> Flatten(Datas(gained)) == read)
            && (|read| == |Flatten(Sent(answers))| ==> (Flatten(Datas(gained)) == AllReported(answers) <==> NoneShort(tr, acts, f, n)))
    ensures Sound(tr[0], f) ==> Whole(tr[|acts|], f)
  {
    hide Takes, Reachable, Sole, Flatten, Datas, Texts, Chunks, ReadsFrom, Reads, Writes, NoneShort, Sent, AllReported, AllValid, Sound,
         Whole, ToBegin;
    LogHoldsOutput(tr, acts, f);
    SoleReads(tr, acts, c, f, |acts|);
    SentReported(answers);
    if Sound(tr[0], f) {
      SoleWhole(tr, acts, c, f);
    }
  }
}
