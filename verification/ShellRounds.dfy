/** The remote shell at work: what one round of either loop does, for every outcome of its calls and whatever the other loop does
    meanwhile, and that what is typed or printed gets through. */
module ShellRounds {
  import opened Registration
  import opened ShellPump

  datatype Act = Act(p: Process, ch: Choice)

  ghost predicate Takes(s: Shell, a: Act, s': Shell) {
    s.server.Valid() && s.client.Valid() && Allowed(s, a.p, a.ch) && s' == Step(s, a.p, a.ch)
  }

  /** A stretch of a run: any steps of the two loops, from any reachable state on. */
  ghost predicate Trace(tr: seq<Shell>, acts: seq<Act>) {
    |tr| == |acts| + 1 && Reachable(tr[0]) && forall i :: 0 <= i < |acts| ==> Takes(tr[i], acts[i], tr[i + 1])
  }

  lemma ReachesOn(s: Shell, a: Act, s': Shell)
    requires Reachable(s) && Takes(s, a, s')
    ensures Reachable(s')
  {
    hide Step, Allowed;
    var tr: seq<Shell> :| Run(tr) && s == tr[|tr| - 1];
    assert Next(s, s');
    var tr' := tr + [s'];
    forall i | 0 <= i < |tr'| - 1
      ensures Next(tr'[i], tr'[i + 1])
    {
      assert i < |tr| - 1 ==> Next(tr[i], tr[i + 1]);
    }
    assert Run(tr') && tr'[|tr'| - 1] == s';
  }

  lemma {:induction false} TraceReachable(tr: seq<Shell>, acts: seq<Act>, i: nat)
    requires Trace(tr, acts) && i < |tr|
    ensures Reachable(tr[i])
  {
    hide Reachable, Takes;
    if i > 0 {
      TraceReachable(tr, acts, i - 1);
      assert Takes(tr[i - 1], acts[i - 1], tr[i - 1 + 1]);
      ReachesOn(tr[i - 1], acts[i - 1], tr[i]);
    }
  }

  function SideOf(s: Shell, p: Process): Side {
    match p
    case Server => s.server
    case Client => s.client
  }

  predicate Halted(pc: Pc) { pc in {Stopped, StoppedFirst, StoppedSecond} }

  /** What has come in at the keyboard, or gone out to the pseudo-terminal, on the way up. */
  function Front(s: Shell, p: Process): Bytes {
    match p
    case Server => s.typed
    case Client => s.toPty
  }

  /** What has gone out to the screen, or come in from the pseudo-terminal, on the way down. */
  function Back(s: Shell, p: Process): Bytes {
    match p
    case Server => s.shown
    case Client => s.fromPty
  }

  /** What the step reads at the program point. */
  function InputBy(s: Shell, a: Act, p: Process, pc: Pc): Bytes {
    if a.p == p && SideOf(s, p).pc == pc && a.ch.ok then a.ch.data else []
  }

  function Input(tr: seq<Shell>, acts: seq<Act>, p: Process, pc: Pc, n: nat): Bytes
    requires n <= |acts| < |tr|
  {
    if n == 0 then [] else Input(tr, acts, p, pc, n - 1) + InputBy(tr[n - 1], acts[n - 1], p, pc)
  }

  /** A call of the loop fails; writing to the screen is not looked at. */
  predicate Fails(s: Shell, a: Act, p: Process) {
    a.p == p && !a.ch.ok && !Halted(SideOf(s, p).pc) && !(p == Server && s.server.pc == SecondOut)
  }

  ghost predicate NoneFails(tr: seq<Shell>, acts: seq<Act>, p: Process, n: nat)
    requires n <= |acts| < |tr|
  {
    forall i :: 0 <= i < n ==> !Fails(tr[i], acts[i], p)
  }

  /** How far a round has come whose `select` reported `sel`, and which has read `first` and `second` so far. */
  ghost predicate InRound(s0: Shell, s: Shell, p: Process, sel: Choice, first: Bytes, second: Bytes) {
    var x := SideOf(s, p);
    && x.Valid()
    && (x.pc in {First, FirstOut, Second, SecondOut} ==> x.second == sel.second)
    && (match x.pc
        case Selecting =>
          && (first != [] <==> sel.first) && (second != [] <==> sel.second)
          && Front(s, p) == Front(s0, p) + first && Back(s, p) == Back(s0, p) + second
        case First =>
          sel.first && first == [] && second == [] && Front(s, p) == Front(s0, p) && Back(s, p) == Back(s0, p)
        case FirstOut =>
          && sel.first && first != [] && second == [] && x.FromFirst() == first
          && Front(s, p) == Front(s0, p) + (if p == Server then first else []) && Back(s, p) == Back(s0, p)
        case Second =>
          && sel.second && (first != [] <==> sel.first) && second == []
          && Front(s, p) == Front(s0, p) + first && Back(s, p) == Back(s0, p)
        case SecondOut =>
          && sel.second && (first != [] <==> sel.first) && second != [] && x.FromSecond() == second
          && Front(s, p) == Front(s0, p) + first && Back(s, p) == Back(s0, p) + (if p == Client then second else [])
        case _ => true)
  }

  lemma OthersLeave(s: Shell, a: Act, s': Shell, p: Process)
    requires Takes(s, a, s') && a.p != p
    ensures SideOf(s', p) == SideOf(s, p) && Front(s', p) == Front(s, p) && Back(s', p) == Back(s, p)
  {
  }

  lemma Begins(s: Shell, a: Act, s': Shell)
    requires Takes(s, a, s') && SideOf(s, a.p).pc == Selecting
    ensures InRound(s, s', a.p, a.ch, [], []) && (Halted(SideOf(s', a.p).pc) <==> Fails(s, a, a.p))
  {
    assert Front(s, a.p) + [] == Front(s, a.p) && Back(s, a.p) + [] == Back(s, a.p);
  }

  lemma GoesOn(s0: Shell, s: Shell, a: Act, s': Shell, sel: Choice, first: Bytes, second: Bytes)
    requires Takes(s, a, s') && SideOf(s, a.p).pc in {First, FirstOut, Second, SecondOut} && InRound(s0, s, a.p, sel, first, second)
    ensures InRound(s0, s', a.p, sel, first + InputBy(s, a, a.p, First), second + InputBy(s, a, a.p, Second))
    ensures Halted(SideOf(s', a.p).pc) <==> Fails(s, a, a.p)
  {
    var x := SideOf(s, a.p);
    assert first + [] == first && second + [] == second && [] + a.ch.data == a.ch.data;
    FilledHolds(x, a.ch.data, FirstOut);
    FilledHolds(x, a.ch.data, SecondOut);
    hide Side.Filled;
    assert Front(s0, a.p) + [] == Front(s0, a.p) && Back(s0, a.p) + [] == Back(s0, a.p);
    match a.p
    case Server =>
    case Client =>
  }

  /** The stretch is one round of the loop: from its `select` to the next one, or to where the loop stops. */
  ghost predicate Round(tr: seq<Shell>, acts: seq<Act>, p: Process) {
    && Trace(tr, acts) && acts != [] && SideOf(tr[0], p).pc == Selecting && acts[0].p == p
    && forall k :: 0 < k < |acts| ==> SideOf(tr[k], p).pc in {First, FirstOut, Second, SecondOut}
  }

  lemma {:induction false} RoundAt(tr: seq<Shell>, acts: seq<Act>, p: Process, k: nat)
    requires Round(tr, acts, p) && 0 < k <= |acts|
    ensures InRound(tr[0], tr[k], p, acts[0].ch, Input(tr, acts, p, First, k), Input(tr, acts, p, Second, k))
    ensures Halted(SideOf(tr[k], p).pc) <==> !NoneFails(tr, acts, p, k)
  {
    hide Reachable, Takes, InRound, Fails;
    assert Takes(tr[k - 1], acts[k - 1], tr[k - 1 + 1]);
    if k == 1 {
      Begins(tr[0], acts[0], tr[1]);
      AtStart(tr, acts, p);
    } else {
      RoundAt(tr, acts, p, k - 1);
      var first, second := Input(tr, acts, p, First, k - 1), Input(tr, acts, p, Second, k - 1);
      if acts[k - 1].p == p {
        GoesOn(tr[0], tr[k - 1], acts[k - 1], tr[k], acts[0].ch, first, second);
      } else {
        OthersLeave(tr[k - 1], acts[k - 1], tr[k], p);
        SameRound(tr[0], tr[k - 1], tr[k], p, acts[0].ch, first, second);
        assert first + [] == first && second + [] == second;
        NotOurs(tr[k - 1], acts[k - 1], p);
      }
    }
  }

  lemma AtStart(tr: seq<Shell>, acts: seq<Act>, p: Process)
    requires 0 < |acts| < |tr| && SideOf(tr[0], p).pc == Selecting
    ensures Input(tr, acts, p, First, 1) == [] && Input(tr, acts, p, Second, 1) == []
  {
    assert Input(tr, acts, p, First, 0) == [] && Input(tr, acts, p, Second, 0) == [];
  }

  lemma SameRound(s0: Shell, s: Shell, s': Shell, p: Process, sel: Choice, first: Bytes, second: Bytes)
    requires InRound(s0, s, p, sel, first, second)
    requires SideOf(s', p) == SideOf(s, p) && Front(s', p) == Front(s, p) && Back(s', p) == Back(s, p)
    ensures InRound(s0, s', p, sel, first, second)
  {
  }

  lemma NotOurs(s: Shell, a: Act, p: Process)
    requires a.p != p
    ensures !Fails(s, a, p)
  {
  }

  /** Whatever the other loop does meanwhile: a round stops if and only if one of its calls fails; and one that comes back to `select`
      has read from a descriptor if and only if it was reported, and has passed what it read to the other end, all of it. */
  lemma RoundExactly(tr: seq<Shell>, acts: seq<Act>, p: Process)
    requires Round(tr, acts, p)
    ensures var n := |acts|; var sel, s, s' := acts[0].ch, tr[0], tr[n];
            var first, second := Input(tr, acts, p, First, n), Input(tr, acts, p, Second, n);
            && (Halted(SideOf(s', p).pc) <==> !NoneFails(tr, acts, p, n))
            && (SideOf(s', p).pc == Selecting ==>
                  && (first != [] <==> sel.first) && (second != [] <==> sel.second)
                  && Front(s', p) == Front(s, p) + first && Back(s', p) == Back(s, p) + second)
  {
    hide Takes, Reachable, NoneFails, Input;
    RoundAt(tr, acts, p, |acts|);
  }

  // ----- what is typed or printed gets through

  ghost predicate Leads(s: Shell, s': Shell) {
    exists tr, acts :: Trace(tr, acts) && tr[0] == s && tr[|acts|] == s'
  }

  lemma LeadsHere(s: Shell)
    requires Reachable(s)
    ensures Leads(s, s)
  {
    hide Reachable;
    var tr, acts: seq<Act> := [s], [];
    assert Trace(tr, acts) && tr[0] == s && tr[|acts|] == s;
  }

  predicate AtHeads(s: Shell) { s.server.pc == Selecting && s.client.pc == Selecting }

  predicate Valid(s: Shell) { s.server.Valid() && s.client.Valid() }

  lemma LastValid(tr: seq<Shell>, acts: seq<Act>)
    requires Trace(tr, acts)
    ensures Reachable(tr[|acts|]) && Valid(tr[|acts|])
  {
    hide Reachable, Takes;
    TraceReachable(tr, acts, |acts|);
    ReachableConserves(tr[|acts|]);
  }

  /** One more step. */
  lemma Then(tr: seq<Shell>, acts: seq<Act>, a: Act) returns (tr': seq<Shell>, acts': seq<Act>)
    requires Trace(tr, acts) && Valid(tr[|acts|]) && Allowed(tr[|acts|], a.p, a.ch)
    ensures Trace(tr', acts') && acts' == acts + [a] && tr' == tr + [Step(tr[|acts|], a.p, a.ch)]
    ensures Valid(tr'[|acts'|])
    ensures Round(tr, acts, a.p) && SideOf(tr[|acts|], a.p).pc in {First, FirstOut, Second, SecondOut} ==> Round(tr', acts', a.p)
    ensures acts == [] && SideOf(tr[0], a.p).pc == Selecting ==> Round(tr', acts', a.p)
  {
    hide Reachable, Step, Allowed, Side.Valid;
    tr', acts' := tr + [Step(tr[|acts|], a.p, a.ch)], acts + [a];
    forall i | 0 <= i < |acts'|
      ensures Takes(tr'[i], acts'[i], tr'[i + 1])
    {
      assert i < |acts| ==> Takes(tr[i], acts[i], tr[i + 1]);
    }
    LastValid(tr', acts');
  }

  lemma SecondKept(x: Side, data: Bytes, pc: Pc)
    requires x.Valid() && |data| <= BUFLEN
    ensures x.Filled(data, pc).second == x.second && x.Filled(data, pc).pc == pc && x.Filled(data, pc).n == |data|
  {
  }

  lemma ServerFirstSteps(s: Shell, data: Bytes)
    requires Valid(s) && s.server.pc == First && 1 <= |data| <= BUFLEN
    ensures var ch := Choice(true, false, false, data); Allowed(s, Server, ch)
    ensures var ch := Choice(true, false, false, data); var s1 := Step(s, Server, ch);
            Valid(s1) && s1.server.pc == FirstOut && Allowed(s1, Server, ch)
    ensures var ch := Choice(true, false, false, data); var s2 := Step(Step(s, Server, ch), Server, ch);
            && s2.server.pc == AfterFirst(s.server) && s2.server.second == s.server.second
            && s2 == s.(server := s2.server, typed := s.typed + data, up := s.up + data)
  {
    FilledHolds(s.server, data, FirstOut);
    SecondKept(s.server, data, FirstOut);
    hide Side.Filled;
  }

  /** The server's first half of a round: what is typed goes to the connection. */
  lemma ServerFirst(tr: seq<Shell>, acts: seq<Act>, data: Bytes) returns (tr': seq<Shell>, acts': seq<Act>)
    requires Round(tr, acts, Server) && tr[|acts|].server.pc == First && 1 <= |data| <= BUFLEN
    ensures Round(tr', acts', Server) && acts <= acts' && tr'[0] == tr[0]
    ensures var s, s' := tr[|acts|], tr'[|acts'|];
            && s'.server.pc == AfterFirst(s.server) && s'.server.second == s.server.second
            && s' == s.(server := s'.server, typed := s.typed + data, up := s.up + data)
  {
    hide Takes, Reachable, Step, Allowed, Valid, Side.Valid;
    LastValid(tr, acts);
    ServerFirstSteps(tr[|acts|], data);
    tr', acts' := Then(tr, acts, Act(Server, Choice(true, false, false, data)));
    tr', acts' := Then(tr', acts', Act(Server, Choice(true, false, false, data)));
  }

  lemma ServerSecondSteps(s: Shell, data: Bytes)
    requires Valid(s) && s.server.pc == Second && 1 <= |data| <= BUFLEN && data <= s.down
    ensures var ch := Choice(true, false, false, data); Allowed(s, Server, ch)
    ensures var ch := Choice(true, false, false, data); var s1 := Step(s, Server, ch);
            Valid(s1) && s1.server.pc == SecondOut && Allowed(s1, Server, ch)
    ensures var ch := Choice(true, false, false, data); var s2 := Step(Step(s, Server, ch), Server, ch);
            && s2.server.pc == Selecting && s2.server.second == s.server.second
            && s2 == s.(server := s2.server, shown := s.shown + data, down := s.down[|data|..])
  {
    FilledHolds(s.server, data, SecondOut);
    SecondKept(s.server, data, SecondOut);
    hide Side.Filled;
  }

  /** The second half: what is under way goes to the screen, as much of it as the buffer holds. */
  lemma ServerSecond(tr: seq<Shell>, acts: seq<Act>) returns (tr': seq<Shell>, acts': seq<Act>)
    requires Round(tr, acts, Server) && tr[|acts|].server.pc == Second && tr[|acts|].down != []
    ensures Round(tr', acts', Server) && acts <= acts' && tr'[0] == tr[0]
    ensures var s, s' := tr[|acts|], tr'[|acts'|]; var k := Min(BUFLEN, |s.down|);
            && s'.server.pc == Selecting && s'.server.second == s.server.second
            && s' == s.(server := s'.server, shown := s.shown + s.down[..k], down := s.down[k..])
  {
    hide Takes, Reachable, Step, Allowed, Valid, Side.Valid;
    LastValid(tr, acts);
    var data := tr[|acts|].down[..Min(BUFLEN, |tr[|acts|].down|)];
    ServerSecondSteps(tr[|acts|], data);
    tr', acts' := Then(tr, acts, Act(Server, Choice(true, false, false, data)));
    tr', acts' := Then(tr', acts', Act(Server, Choice(true, false, false, data)));
  }

  lemma ClientFirstSteps(s: Shell, data: Bytes)
    requires Valid(s) && s.client.pc == First && 1 <= |data| <= BUFLEN && data <= s.up
    ensures var ch := Choice(true, false, false, data); Allowed(s, Client, ch)
    ensures var ch := Choice(true, false, false, data); var s1 := Step(s, Client, ch);
            Valid(s1) && s1.client.pc == FirstOut && Allowed(s1, Client, ch)
    ensures var ch := Choice(true, false, false, data); var s2 := Step(Step(s, Client, ch), Client, ch);
            && s2.client.pc == AfterFirst(s.client) && s2.client.second == s.client.second
            && s2 == s.(client := s2.client, toPty := s.toPty + data, up := s.up[|data|..])
  {
    FilledHolds(s.client, data, FirstOut);
    SecondKept(s.client, data, FirstOut);
    hide Side.Filled;
  }

  /** The client's first half of a round: what is under way goes to the pseudo-terminal. */
  lemma ClientFirst(tr: seq<Shell>, acts: seq<Act>) returns (tr': seq<Shell>, acts': seq<Act>)
    requires Round(tr, acts, Client) && tr[|acts|].client.pc == First && tr[|acts|].up != []
    ensures Round(tr', acts', Client) && acts <= acts' && tr'[0] == tr[0]
    ensures var s, s' := tr[|acts|], tr'[|acts'|]; var k := Min(BUFLEN, |s.up|);
            && s'.client.pc == AfterFirst(s.client) && s'.client.second == s.client.second
            && s' == s.(client := s'.client, toPty := s.toPty + s.up[..k], up := s.up[k..])
  {
    hide Takes, Reachable, Step, Allowed, Valid, Side.Valid;
    LastValid(tr, acts);
    var data := tr[|acts|].up[..Min(BUFLEN, |tr[|acts|].up|)];
    ClientFirstSteps(tr[|acts|], data);
    tr', acts' := Then(tr, acts, Act(Client, Choice(true, false, false, data)));
    tr', acts' := Then(tr', acts', Act(Client, Choice(true, false, false, data)));
  }

  lemma ClientSecondSteps(s: Shell, data: Bytes)
    requires Valid(s) && s.client.pc == Second && 1 <= |data| <= BUFLEN
    ensures var ch := Choice(true, false, false, data); Allowed(s, Client, ch)
    ensures var ch := Choice(true, false, false, data); var s1 := Step(s, Client, ch);
            Valid(s1) && s1.client.pc == SecondOut && Allowed(s1, Client, ch)
    ensures var ch := Choice(true, false, false, data); var s2 := Step(Step(s, Client, ch), Client, ch);
            && s2.client.pc == Selecting && s2.client.second == s.client.second
            && s2 == s.(client := s2.client, fromPty := s.fromPty + data, down := s.down + data)
  {
    FilledHolds(s.client, data, SecondOut);
    SecondKept(s.client, data, SecondOut);
    hide Side.Filled;
  }

  /** The second half: what is printed goes to the connection. */
  lemma ClientSecond(tr: seq<Shell>, acts: seq<Act>, data: Bytes) returns (tr': seq<Shell>, acts': seq<Act>)
    requires Round(tr, acts, Client) && tr[|acts|].client.pc == Second && 1 <= |data| <= BUFLEN
    ensures Round(tr', acts', Client) && acts <= acts' && tr'[0] == tr[0]
    ensures var s, s' := tr[|acts|], tr'[|acts'|];
            && s'.client.pc == Selecting && s'.client.second == s.client.second
            && s' == s.(client := s'.client, fromPty := s.fromPty + data, down := s.down + data)
  {
    hide Takes, Reachable, Step, Allowed, Valid, Side.Valid;
    LastValid(tr, acts);
    ClientSecondSteps(tr[|acts|], data);
    tr', acts' := Then(tr, acts, Act(Client, Choice(true, false, false, data)));
    tr', acts' := Then(tr', acts', Act(Client, Choice(true, false, false, data)));
  }

  /** A round whose `select` reports these descriptors, both together or either. */
  ghost predicate RoundWith(tr: seq<Shell>, acts: seq<Act>, p: Process, first: bool, second: bool) {
    && Round(tr, acts, p) && SideOf(tr[|acts|], p).pc == Selecting
    && acts[0].ch.ok && acts[0].ch.first == first && acts[0].ch.second == second
  }

  lemma Selects(s: Shell, p: Process, first: bool, second: bool) returns (tr: seq<Shell>, acts: seq<Act>)
    requires Reachable(s) && SideOf(s, p).pc == Selecting && (first || second)
    ensures Round(tr, acts, p) && tr[0] == s && acts[0].ch.ok && acts[0].ch.first == first && acts[0].ch.second == second
    ensures var s' := tr[|acts|];
            && SideOf(s', p).pc == (if first then First else Second) && SideOf(s', p).second == second
            && s' == match p case Server => s.(server := s'.server) case Client => s.(client := s'.client)
  {
    hide Reachable;
    tr, acts := [s], [];
    assert Trace(tr, acts);
    LastValid(tr, acts);
    tr, acts := Then(tr, acts, Act(p, Choice(true, first, second, [0])));
  }

  /** From every reachable state in which the server's loop is at its head, whatever the client's does: a round that reports the
      keyboard, the connection or both is run to its end by the loop alone, with what is typed sent and what is under way shown. */
  lemma ServerRound(s: Shell, first: bool, second: bool, data: Bytes) returns (tr: seq<Shell>, acts: seq<Act>)
    requires Reachable(s) && s.server.pc == Selecting && 1 <= |data| <= BUFLEN && (first || second) && (second ==> s.down != [])
    ensures RoundWith(tr, acts, Server, first, second) && tr[0] == s
    ensures var s' := tr[|acts|]; var typed, k := if first then data else [], if second then Min(BUFLEN, |s.down|) else 0;
            s' == s.(server := s'.server, typed := s.typed + typed, up := s.up + typed, shown := s.shown + s.down[..k], down := s.down[k..])
  {
    hide Reachable, Takes, Side.Valid;
    tr, acts := Selects(s, Server, first, second);
    assert s.typed + [] == s.typed && s.up + [] == s.up && s.shown + s.down[..0] == s.shown && s.down[0..] == s.down;
    if first {
      tr, acts := ServerFirst(tr, acts, data);
    }
    if second {
      tr, acts := ServerSecond(tr, acts);
    }
  }

  /** Likewise the client's: what is under way goes to the pseudo-terminal and what that prints is sent. */
  lemma ClientRound(s: Shell, first: bool, second: bool, data: Bytes) returns (tr: seq<Shell>, acts: seq<Act>)
    requires Reachable(s) && s.client.pc == Selecting && 1 <= |data| <= BUFLEN && (first || second) && (first ==> s.up != [])
    ensures RoundWith(tr, acts, Client, first, second) && tr[0] == s
    ensures var s' := tr[|acts|]; var printed, k := if second then data else [], if first then Min(BUFLEN, |s.up|) else 0;
            s' == s.(client := s'.client, fromPty := s.fromPty + printed, down := s.down + printed,
                    toPty := s.toPty + s.up[..k], up := s.up[k..])
  {
    hide Reachable, Takes, Side.Valid;
    tr, acts := Selects(s, Client, first, second);
    assert s.fromPty + [] == s.fromPty && s.down + [] == s.down && s.toPty + s.up[..0] == s.toPty && s.up[0..] == s.up;
    if first {
      tr, acts := ClientFirst(tr, acts);
    }
    if second {
      tr, acts := ClientSecond(tr, acts, data);
    }
  }

  lemma LeadsRound(w: Shell, tr: seq<Shell>, acts: seq<Act>)
    requires Trace(tr, acts) && Leads(w, tr[0])
    ensures Leads(w, tr[|acts|]) && Reachable(tr[|acts|])
  {
    hide Reachable, Takes;
    TraceReachable(tr, acts, |acts|);
    var tr0, acts0 :| Trace(tr0, acts0) && tr0[0] == w && tr0[|acts0|] == tr[0];
    var tr', acts' := tr0 + tr[1..], acts0 + acts;
    forall i | 0 <= i < |acts'|
      ensures Takes(tr'[i], acts'[i], tr'[i + 1])
    {
      if i < |acts0| {
        assert Takes(tr0[i], acts0[i], tr0[i + 1]);
      } else {
        assert Takes(tr[i - |acts0|], acts[i - |acts0|], tr[i - |acts0| + 1]);
      }
    }
    assert Trace(tr', acts') && tr'[0] == w && tr'[|acts'|] == tr[|acts|];
  }

  /** The client passes on all that is under way. */
  lemma {:induction false} ClientDrains(w: Shell, s: Shell) returns (s': Shell)
    requires Reachable(s) && Leads(w, s) && s.client.pc == Selecting
    ensures Reachable(s') && Leads(w, s') && s'.client.pc == Selecting && s'.up == []
    ensures s' == s.(client := s'.client, toPty := s.toPty + s.up, up := [])
    decreases |s.up|
  {
    hide Reachable, Leads, Takes;
    if s.up == [] {
      assert s.toPty + s.up == s.toPty;
      s' := s;
    } else {
      var tr, acts := ClientRound(s, true, false, [0]);
      LeadsRound(w, tr, acts);
      var k := Min(BUFLEN, |s.up|);
      s' := ClientDrains(w, tr[|acts|]);
      assert s.toPty + s.up[..k] + s.up[k..] == s.toPty + s.up && s.fromPty + [] == s.fromPty && s.down + [] == s.down;
    }
  }

  lemma {:induction false} ServerDrains(w: Shell, s: Shell) returns (s': Shell)
    requires Reachable(s) && Leads(w, s) && s.server.pc == Selecting
    ensures Reachable(s') && Leads(w, s') && s'.server.pc == Selecting && s'.down == []
    ensures s' == s.(server := s'.server, shown := s.shown + s.down, down := [])
    decreases |s.down|
  {
    hide Reachable, Leads, Takes;
    if s.down == [] {
      assert s.shown + s.down == s.shown;
      s' := s;
    } else {
      var tr, acts := ServerRound(s, false, true, [0]);
      LeadsRound(w, tr, acts);
      var k := Min(BUFLEN, |s.down|);
      s' := ServerDrains(w, tr[|acts|]);
      assert s.shown + s.down[..k] + s.down[k..] == s.shown + s.down && s.typed + [] == s.typed && s.up + [] == s.up;
    }
  }

  /** From every reachable state with both loops at their heads, whatever is typed, up to a buffer full at a time, can get to the
      pseudo-terminal, with all that was under way before it. */
  lemma TypedArrives(s: Shell, data: Bytes) returns (s': Shell)
    requires Reachable(s) && AtHeads(s) && 1 <= |data| <= BUFLEN
    ensures Leads(s, s') && AtHeads(s') && s'.typed == s.typed + data && s'.toPty == s'.typed
    ensures s'.fromPty == s.fromPty && s'.shown == s.shown
  {
    hide Reachable, Leads, Takes;
    LeadsHere(s);
    var tr, acts := ServerRound(s, true, false, data);
    LeadsRound(s, tr, acts);
    s' := ClientDrains(s, tr[|acts|]);
    AtLoopHeads(s');
    assert s.shown + s.down[..0] == s.shown && s'.toPty + s'.up == s'.toPty;
  }

  /** Likewise whatever the pseudo-terminal prints can get to the screen. */
  lemma PrintedArrives(s: Shell, data: Bytes) returns (s': Shell)
    requires Reachable(s) && AtHeads(s) && 1 <= |data| <= BUFLEN
    ensures Leads(s, s') && AtHeads(s') && s'.fromPty == s.fromPty + data && s'.shown == s'.fromPty
    ensures s'.typed == s.typed && s'.toPty == s.toPty
  {
    hide Reachable, Leads, Takes;
    LeadsHere(s);
    var tr, acts := ClientRound(s, false, true, data);
    LeadsRound(s, tr, acts);
    s' := ServerDrains(s, tr[|acts|]);
    AtLoopHeads(s');
    assert s.toPty + s.up[..0] == s.toPty && s'.shown + s'.down == s'.shown;
  }

  /** ... and both at once: with either loop finding both its descriptors reported, everything typed and printed gets through. */
  lemma BothArrive(s: Shell, typed: Bytes, more: Bytes, printed: Bytes) returns (s': Shell)
    requires Reachable(s) && AtHeads(s) && 1 <= |typed| <= BUFLEN && 1 <= |more| <= BUFLEN && 1 <= |printed| <= BUFLEN
    ensures Leads(s, s') && AtHeads(s') && s'.typed == s.typed + typed + more && s'.toPty == s'.typed
    ensures s'.fromPty == s.fromPty + printed && s'.shown == s'.fromPty
  {
    hide Reachable, Leads, Takes;
    LeadsHere(s);
    var tr, acts := ServerRound(s, true, false, typed);
    LeadsRound(s, tr, acts);
    var s1 := tr[|acts|];
    tr, acts := ClientRound(s1, true, true, printed);
    LeadsRound(s, tr, acts);
    var s2 := tr[|acts|];
    tr, acts := ServerRound(s2, true, true, more);
    LeadsRound(s, tr, acts);
    var s3 := tr[|acts|];
    s' := ClientDrains(s, s3);
    s' := ServerDrains(s, s');
    AtLoopHeads(s');
    assert s'.toPty + s'.up == s'.toPty && s'.shown + s'.down == s'.shown;
  }
}
