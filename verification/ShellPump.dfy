/**
 The remote shell: `bashto` on the server and `exchange` on the client, each one loop around one buffer that serves
 both directions, connected by two FIFO byte channels. One step is one call of either loop.
 */
module ShellPump {
  import opened Registration

  type Bytes = seq<byte>

  /** Where a loop is. `First` and `Second` are its two reads, each followed by the write of what was read; a write
      that fails stops the loop with the bytes still in the buffer. */
  datatype Pc = Selecting | First | FirstOut | Second | SecondOut | Stopped | StoppedFirst | StoppedSecond

  /** A loop: its program counter, whether `select` reported the second descriptor, its buffer, and how much of it the last read filled. */
  datatype Side = Side(pc: Pc, second: bool, buf: Bytes, n: nat) {
    predicate Valid() { |buf| == BUFLEN && n <= BUFLEN }

    /** The bytes read from the first descriptor and not written yet; likewise from the second. */
    function FromFirst(): Bytes requires Valid() { if pc in {FirstOut, StoppedFirst} then buf[..n] else [] }

    function FromSecond(): Bytes requires Valid() { if pc in {SecondOut, StoppedSecond} then buf[..n] else [] }

    /** A read overwrites the beginning of the buffer. */
    function Filled(data: Bytes, pc': Pc): Side
      requires Valid() && |data| <= BUFLEN
    {
      Side(pc', second, data + buf[|data|..], |data|)
    }
  }

  /** Both loops, what each end of the shell has produced and received so far, and the bytes under way. */
  datatype Shell = Shell(
    server: Side, client: Side,
    typed: Bytes, toPty: Bytes, fromPty: Bytes, shown: Bytes,
    up: Bytes, down: Bytes)

  /** What the environment supplies: whether the call succeeds, the descriptors `select` reports, the bytes read. */
  datatype Choice = Choice(ok: bool, first: bool, second: bool, data: Bytes)

  datatype Process = Server | Client

  /** A successful read from the keyboard or the pseudo-terminal yields something, one from the connection a
      beginning of what is under way; never more than the buffer holds. */
  predicate Allowed(s: Shell, p: Process, ch: Choice) {
    && 1 <= |ch.data| <= BUFLEN
    && (p == Server && s.server.pc == Second && ch.ok ==> ch.data <= s.down)
    && (p == Client && s.client.pc == First && ch.ok ==> ch.data <= s.up)
  }

  function AfterSelect(x: Side, ch: Choice): Side {
    if !ch.ok then x.(pc := Stopped)
    else x.(pc := if ch.first then First else if ch.second then Second else Selecting, second := ch.second)
  }

  function AfterFirst(x: Side): Pc { if x.second then Second else Selecting }

  /** `bashto`: keyboard to connection, then connection to screen. When the keyboard yields nothing the write that follows
      fails and stops the loop; the result of writing to the screen is not looked at. */
  function ServerStep(s: Shell, ch: Choice): Shell
    requires s.server.Valid() && Allowed(s, Server, ch)
  {
    var x := s.server;
    match x.pc
    case Selecting => s.(server := AfterSelect(x, ch))
    case First =>
      if ch.ok then s.(server := x.Filled(ch.data, FirstOut), typed := s.typed + ch.data)
      else s.(server := x.(pc := Stopped))
    case FirstOut =>
      if ch.ok then s.(server := x.(pc := AfterFirst(x)), up := s.up + x.buf[..x.n])
      else s.(server := x.(pc := StoppedFirst))
    case Second =>
      if ch.ok then s.(server := x.Filled(ch.data, SecondOut), down := s.down[|ch.data|..])
      else s.(server := x.(pc := Stopped))
    case SecondOut => s.(server := x.(pc := Selecting), shown := s.shown + x.buf[..x.n])
    case _ => s
  }

  /** `exchange`: connection to pseudo-terminal, then pseudo-terminal to connection. */
  function ClientStep(s: Shell, ch: Choice): Shell
    requires s.client.Valid() && Allowed(s, Client, ch)
  {
    var x := s.client;
    match x.pc
    case Selecting => s.(client := AfterSelect(x, ch))
    case First =>
      if ch.ok then s.(client := x.Filled(ch.data, FirstOut), up := s.up[|ch.data|..])
      else s.(client := x.(pc := Stopped))
    case FirstOut =>
      if ch.ok then s.(client := x.(pc := AfterFirst(x)), toPty := s.toPty + x.buf[..x.n])
      else s.(client := x.(pc := StoppedFirst))
    case Second =>
      if ch.ok then s.(client := x.Filled(ch.data, SecondOut), fromPty := s.fromPty + ch.data)
      else s.(client := x.(pc := Stopped))
    case SecondOut =>
      if ch.ok then s.(client := x.(pc := Selecting), down := s.down + x.buf[..x.n])
      else s.(client := x.(pc := StoppedSecond))
    case _ => s
  }

  function Step(s: Shell, p: Process, ch: Choice): Shell
    requires s.server.Valid() && s.client.Valid() && Allowed(s, p, ch)
  {
    match p
    case Server => ServerStep(s, ch)
    case Client => ClientStep(s, ch)
  }

  /** A run of the two loops, starting with nothing under way and anything in the buffers. */
  ghost predicate Run(tr: seq<Shell>) {
    && |tr| > 0
    && tr[0].server.Valid() && tr[0].server.pc == Selecting && tr[0].client.Valid() && tr[0].client.pc == Selecting
    && tr[0] == Shell(tr[0].server, tr[0].client, [], [], [], [], [], [])
    && forall i :: 0 <= i < |tr| - 1 ==> Next(tr[i], tr[i + 1])
  }

  ghost predicate Next(s: Shell, s': Shell) {
    s.server.Valid() && s.client.Valid() && exists p, ch :: Allowed(s, p, ch) && s' == Step(s, p, ch)
  }

  ghost predicate Reachable(s: Shell) {
    exists tr: seq<Shell> :: Run(tr) && s == tr[|tr| - 1]
  }

  /** From the keyboard to the pseudo-terminal every byte that went in is out, held by a loop or under way, in order. */
  ghost predicate UpConserved(s: Shell)
    requires s.server.Valid() && s.client.Valid()
  {
    s.typed == s.toPty + (s.client.FromFirst() + (s.up + s.server.FromFirst()))
  }

  /** Likewise from the pseudo-terminal to the screen. */
  ghost predicate DownConserved(s: Shell)
    requires s.server.Valid() && s.client.Valid()
  {
    s.fromPty == s.shown + (s.server.FromSecond() + (s.down + s.client.FromSecond()))
  }

  ghost predicate Conserved(s: Shell) {
    s.server.Valid() && s.client.Valid() && UpConserved(s) && DownConserved(s)
  }

  /** A read leaves what was read in the buffer's front. */
  lemma FilledHolds(x: Side, data: Bytes, pc: Pc)
    requires x.Valid() && |data| <= BUFLEN
    ensures x.Filled(data, pc).Valid() && x.Filled(data, pc).buf[..|data|] == data
  {
  }

  /** Bytes pass from what follows to what precedes without changing the whole. */
  lemma Passed(a: Bytes, b: Bytes, c: Bytes)
    ensures a + (b + c) == (a + b) + ([] + c)
    ensures (a + b) + c == a + (b + c)
  {
  }

  lemma ServerConservesUp(s: Shell, ch: Choice)
    requires Conserved(s) && Allowed(s, Server, ch)
    ensures ServerStep(s, ch).server.Valid() && UpConserved(ServerStep(s, ch))
  {
    FilledHolds(s.server, ch.data, FirstOut);
    FilledHolds(s.server, ch.data, SecondOut);
    hide Side.Filled, DownConserved;
  }

  lemma ServerConservesDown(s: Shell, ch: Choice)
    requires Conserved(s) && Allowed(s, Server, ch)
    ensures ServerStep(s, ch).server.Valid() && DownConserved(ServerStep(s, ch))
  {
    FilledHolds(s.server, ch.data, FirstOut);
    FilledHolds(s.server, ch.data, SecondOut);
    hide Side.Filled, UpConserved;
    match s.server.pc
    case Second =>
      if ch.ok {
        assert s.down == ch.data + s.down[|ch.data|..];
        Passed([], ch.data, s.down[|ch.data|..] + s.client.FromSecond());
        Passed(ch.data, s.down[|ch.data|..], s.client.FromSecond());
      }
    case SecondOut => Passed(s.shown, s.server.buf[..s.server.n], s.down + s.client.FromSecond());
    case _ =>
  }

  lemma ClientConservesUp(s: Shell, ch: Choice)
    requires Conserved(s) && Allowed(s, Client, ch)
    ensures ClientStep(s, ch).client.Valid() && UpConserved(ClientStep(s, ch))
  {
    FilledHolds(s.client, ch.data, FirstOut);
    FilledHolds(s.client, ch.data, SecondOut);
    hide Side.Filled, DownConserved;
    match s.client.pc
    case First =>
      if ch.ok {
        assert s.up == ch.data + s.up[|ch.data|..];
        Passed([], ch.data, s.up[|ch.data|..] + s.server.FromFirst());
        Passed(ch.data, s.up[|ch.data|..], s.server.FromFirst());
      }
    case FirstOut => Passed(s.toPty, s.client.buf[..s.client.n], s.up + s.server.FromFirst());
    case _ =>
  }

  lemma ClientConservesDown(s: Shell, ch: Choice)
    requires Conserved(s) && Allowed(s, Client, ch)
    ensures ClientStep(s, ch).client.Valid() && DownConserved(ClientStep(s, ch))
  {
    FilledHolds(s.client, ch.data, FirstOut);
    FilledHolds(s.client, ch.data, SecondOut);
    hide Side.Filled, UpConserved;
  }

  lemma {:induction false} RunConserves(tr: seq<Shell>, i: nat)
    requires Run(tr) && i < |tr|
    ensures Conserved(tr[i])
  {
    if i > 0 {
      RunConserves(tr, i - 1);
      assert Next(tr[i - 1], tr[i - 1 + 1]);
      var p, ch :| Allowed(tr[i - 1], p, ch) && tr[i] == Step(tr[i - 1], p, ch);
      hide UpConserved, DownConserved;
      match p
      case Server =>
        ServerConservesUp(tr[i - 1], ch);
        ServerConservesDown(tr[i - 1], ch);
      case Client =>
        ClientConservesUp(tr[i - 1], ch);
        ClientConservesDown(tr[i - 1], ch);
    }
  }

  lemma ReachableConserves(s: Shell)
    requires Reachable(s)
    ensures Conserved(s)
  {
    var tr: seq<Shell> :| Run(tr) && s == tr[|tr| - 1];
    RunConserves(tr, |tr| - 1);
  }

  /** However the two loops interleave and wherever either stops, what has come out at one end is a beginning of what
      went in at the other: nothing is lost, repeated, reordered or crossed over between the directions. */
  lemma SinksArePrefixes(s: Shell)
    requires Reachable(s)
    ensures s.toPty <= s.typed && s.shown <= s.fromPty
  {
    ReachableConserves(s);
  }

  /** Whenever both loops are at their heads, what went in is what came out and what is under way. */
  lemma AtLoopHeads(s: Shell)
    requires Reachable(s) && s.server.pc == Selecting && s.client.pc == Selecting
    ensures s.typed == s.toPty + s.up && s.fromPty == s.shown + s.down
  {
    ReachableConserves(s);
  }
}
