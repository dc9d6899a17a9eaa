/**
 `putclass` as it is written: it destroys the mutex of the class and frees the class while `cli_free` holds that
 mutex and is still to unlock it. `Registry` lets the class live until that unlock. Here the two are compared: they
 agree step by step until the last reference to a class is given back, and there the code as written faults.
 */
module AsWritten {
  import opened Sequences
  import opened Registration
  import opened LogPath
  import opened Registry
  import opened RegistryInvariant
  import opened StepProof
  import opened LockProof
  import opened ServerTheorems
  import opened Progress
  import opened Arrivals
  import opened Scenarios

  /** `putclass`: destroying a mutex demands that nobody holds it. */
  function PutAsWritten(s: State): Outcome
    requires s.ep.pc == EPut
  {
    var m, e := s.mem, s.ep;
    if e.c !in m.clients || m.clients[e.c].klass !in m.classes then Fault
    else
      var k := m.clients[e.c].klass;
      var left := m.classes[k].count - 1;
      if left != 0 then
        Ok(s.(mem := m.(classes := m.classes[k := m.classes[k].(count := left)]), ep := e.(pc := EUnTot, dying := false)))
      else if k !in m.classhead || !AllAlive(m.classhead, m.classes) then Fault
      else if ClassLock(k) !in s.locks || s.locks[ClassLock(k)] != Free then Fault
      else
        Ok(s.(mem := m.(classes := m.classes - {k}, classhead := Remove(m.classhead, k)), locks := s.locks - {ClassLock(k)},
              ep := e.(pc := EUnTot, dying := true)))
  }

  /** The unlock that follows reads the class for its mutex. */
  function UnlockAsWritten(s: State): Outcome
    requires s.ep.pc == EUnCls
  {
    var m, e := s.mem, s.ep;
    if e.c !in m.clients || m.clients[e.c].klass !in m.classes then Fault
    else Unlock(s, Ep, ClassLock(m.clients[e.c].klass), s.(ep := e.(pc := EUnList)))
  }

  function StepAsWritten(s: State, t: Thread, ch: Choice): Outcome
    requires Allowed(s, t, ch)
  {
    if t == Ep && s.ep.pc == EPut then PutAsWritten(s)
    else if t == Ep && s.ep.pc == EUnCls then UnlockAsWritten(s)
    else Step(s, t, ch)
  }

  ghost predicate NextAsWritten(s: State, s': State) {
    exists t: Thread, ch: Choice :: Allowed(s, t, ch) && StepAsWritten(s, t, ch) == Ok(s')
  }

  /** A run of the code as written, up to a fault. */
  ghost predicate RunAsWritten(tr: seq<State>) {
    |tr| > 0 && tr[0] == INIT && forall i :: 0 <= i < |tr| - 1 ==> NextAsWritten(tr[i], tr[i + 1])
  }

  ghost predicate ReachableAsWritten(s: State) {
    exists tr: seq<State> :: RunAsWritten(tr) && tr[|tr| - 1] == s
  }

  /** The removal gives back the last reference: no other client is on the class's list and no registration holds a reference. */
  predicate GivesBackLast(s: State) {
    s.ep.k in s.mem.classes && s.mem.classes[s.ep.k].clilist == [] && s.ep.k !in InFlight(RegV(s.reg))
  }

  // ----- the last reference

  lemma CountAtPut(s: State)
    requires Inv(s) && s.ep.pc == EPut
    ensures s.ep.c in s.mem.clients && s.mem.clients[s.ep.c].klass == s.ep.k && s.ep.k in s.mem.classes
    ensures s.mem.classes[s.ep.k].count == 1 <==> GivesBackLast(s)
  {
    hide MemInv, HoldInv, LiveLocks, LockReady;
    EpClass(s.mem, RegV(s.reg), EpV(s.ep), s.op);
    MemCounts(s);
    CountAtLeast(s.mem.classes, InFlight(RegV(s.reg)), Unlinked(EpV(s.ep)), s.ep.k);
  }

  /** `putclass` faults if and only if it is called for the last reference: its caller holds the mutex it destroys. */
  lemma PutFaultsExactly(s: State)
    requires Inv(s) && s.ep.pc == EPut
    ensures PutAsWritten(s) == Fault <==> GivesBackLast(s)
    ensures !GivesBackLast(s) ==> PutAsWritten(s) == UnlinkStep(s)
  {
    hide MemInv, LiveLocks, LockReady, HoldInv, Remove, AllAlive;
    CountAtPut(s);
    Exclusion(s, Ep, ClassLock(s.ep.k));
  }

  /** While no class has lost its last reference the two agree, but for the step that takes one away. */
  lemma StepsAgree(s: State, t: Thread, ch: Choice)
    requires Inv(s) && Allowed(s, t, ch) && !s.ep.dying
    ensures StepAsWritten(s, t, ch) == if t == Ep && s.ep.pc == EPut && GivesBackLast(s) then Fault else Step(s, t, ch)
  {
    hide Inv, Allowed, GivesBackLast, UnlinkStep, PutAsWritten;
    if t == Ep && s.ep.pc == EPut {
      PutFaultsExactly(s);
    } else if t == Ep && s.ep.pc == EUnCls {
      UnlocksAgree(s);
    }
  }

  lemma UnlocksAgree(s: State)
    requires Inv(s) && s.ep.pc == EUnCls && !s.ep.dying
    ensures UnlockAsWritten(s) == ReleaseStep(s)
  {
    hide MemInv, HoldInv, LiveLocks, LockReady;
    EpClass(s.mem, RegV(s.reg), EpV(s.ep), s.op);
  }

  /** A step of the model leaves the mark down unless it gives back a last reference. */
  lemma MarkStays(s: State, t: Thread, ch: Choice, s': State)
    requires Inv(s) && Allowed(s, t, ch) && !s.ep.dying && Step(s, t, ch) == Ok(s')
    ensures s'.ep.dying <==> t == Ep && s.ep.pc == EPut && GivesBackLast(s)
  {
    hide Inv, Allowed, Step, GivesBackLast;
    if t == Ep {
      EpMark(s, ch, s');
    } else {
      Others(s, t, ch, s');
    }
  }

  lemma EpMark(s: State, ch: Choice, s': State)
    requires Inv(s) && Allowed(s, Ep, ch) && !s.ep.dying && Step(s, Ep, ch) == Ok(s')
    ensures s'.ep.dying <==> s.ep.pc == EPut && GivesBackLast(s)
  {
    hide Inv, GivesBackLast, AllAlive, Remove, File;
    if s.ep.pc == EPut {
      CountAtPut(s);
    }
  }

  /** A step of the code as written is a step of the model that leaves the mark down, and conversely. */
  lemma NextAgrees(s: State, s': State)
    requires Inv(s) && !s.ep.dying
    ensures NextAsWritten(s, s') <==> Next(s, s') && !s'.ep.dying
  {
    hide Inv, Allowed, Step, StepAsWritten, GivesBackLast;
    if NextAsWritten(s, s') {
      var t: Thread, ch: Choice :| Allowed(s, t, ch) && StepAsWritten(s, t, ch) == Ok(s');
      StepsAgree(s, t, ch);
      MarkStays(s, t, ch, s');
    }
    if Next(s, s') && !s'.ep.dying {
      var t: Thread, ch: Choice :| Allowed(s, t, ch) && Step(s, t, ch) == Ok(s');
      StepsAgree(s, t, ch);
      MarkStays(s, t, ch, s');
    }
  }

  lemma {:induction false} AsWrittenIsRun(tr: seq<State>, n: nat)
    requires RunAsWritten(tr) && n < |tr|
    ensures Run(tr[..n + 1]) && !tr[n].ep.dying
  {
    hide Next, NextAsWritten, Inv;
    if n > 0 {
      AsWrittenIsRun(tr, n - 1);
      var front, all := tr[..n], tr[..n + 1];
      RunInv(front, n - 1);
      assert NextAsWritten(tr[n - 1], tr[n - 1 + 1]);
      NextAgrees(tr[n - 1], tr[n]);
      forall i | 0 <= i < |all| - 1
        ensures Next(all[i], all[i + 1])
      {
        assert i < n - 1 ==> Next(front[i], front[i + 1]);
      }
    }
  }

  /** The runs of the code as written are exactly the runs of the model in which no class loses its last reference. */
  lemma RunsAgree(tr: seq<State>)
    ensures RunAsWritten(tr) <==> Run(tr) && forall i :: 0 <= i < |tr| ==> !tr[i].ep.dying
  {
    hide Next, NextAsWritten, Inv;
    if RunAsWritten(tr) {
      forall i | 0 <= i < |tr|
        ensures !tr[i].ep.dying
      {
        AsWrittenIsRun(tr, i);
      }
      AsWrittenIsRun(tr, |tr| - 1);
      assert tr[..|tr| - 1 + 1] == tr;
    }
    if Run(tr) && forall i :: 0 <= i < |tr| ==> !tr[i].ep.dying {
      forall i | 0 <= i < |tr| - 1
        ensures NextAsWritten(tr[i], tr[i + 1])
      {
        RunInv(tr, i);
        assert Next(tr[i], tr[i + 1]);
        NextAgrees(tr[i], tr[i + 1]);
      }
    }
  }

  lemma ReachableAgrees(s: State)
    requires ReachableAsWritten(s)
    ensures Reachable(s) && !s.ep.dying
  {
    hide Next, NextAsWritten;
    var tr: seq<State> :| RunAsWritten(tr) && tr[|tr| - 1] == s;
    RunsAgree(tr);
  }

  /** With `putclass` as written a step faults, in one of the ways modelled, if and only if the epoll thread gives back the last
      reference to a class. */
  lemma FaultsExactly(s: State, t: Thread, ch: Choice)
    requires ReachableAsWritten(s) && Allowed(s, t, ch)
    ensures StepAsWritten(s, t, ch) == Fault <==> t == Ep && s.ep.pc == EPut && GivesBackLast(s)
  {
    hide Inv, Reachable, ReachableAsWritten, Step, StepAsWritten, Allowed, GivesBackLast;
    ReachableAgrees(s);
    ReachableInv(s);
    StepsAgree(s, t, ch);
    NeverFaults(s, t, ch);
  }

  // ----- decided when the removal begins

  /** Whether the removal will give back the last reference, as it shows at each of its points: its client is alone on the
      class's list until it is off it, and no registration holds a reference. */
  predicate WillGiveBackLast(s: State) {
    && s.ep.k in s.mem.classes && s.ep.k !in InFlight(RegV(s.reg))
    && s.mem.classes[s.ep.k].clilist == if s.ep.pc in {EDelTot, EDelCls} then [s.ep.c] else []
  }

  predicate Unlinking(s: State) {
    s.ep.pc in {EDelTot, EDelCls, EDelEp, EPut}
  }

  /** No step of any thread before `putclass` changes the answer: the removal holds all three locks. */
  lemma DecisionStays(s: State, t: Thread, ch: Choice, s': State)
    requires Reachable(s) && Unlinking(s) && Allowed(s, t, ch) && Step(s, t, ch) == Ok(s') && Unlinking(s')
    ensures s'.ep.c == s.ep.c && s'.ep.k == s.ep.k && (WillGiveBackLast(s') <==> WillGiveBackLast(s))
  {
    hide Inv, Reachable, Allowed, Step, WillGiveBackLast;
    ReachableInv(s);
    match t
    case Ep => EpDecision(s, ch, s');
    case _ =>
      RemovalClass(s);
      ListsGuarded(s, t, ch, s');
      Others(s, t, ch, s');
      EpHoldsAll(s, t);
      FlightStays(s, t, ch, s');
      OtherDecision(s, t, s');
  }

  lemma EpDecision(s: State, ch: Choice, s': State)
    requires Inv(s) && Unlinking(s) && Allowed(s, Ep, ch) && Step(s, Ep, ch) == Ok(s') && Unlinking(s')
    ensures s'.ep.c == s.ep.c && s'.ep.k == s.ep.k && (WillGiveBackLast(s') <==> WillGiveBackLast(s))
  {
    hide Inv, AllAlive, Remove;
    ClassAtHand(s);
    if s.ep.pc == EDelCls {
      RemoveLast(s.mem.classes[s.ep.k].clilist, s.ep.c);
    }
  }

  lemma RemoveLast(xs: seq<nat>, x: nat)
    requires x in xs
    ensures Remove(xs, x) == [] <==> xs == [x]
  {
  }

  /** A registration neither takes a reference nor hands one over to a list without the locks the removal holds. */
  lemma FlightStays(s: State, t: Thread, ch: Choice, s': State)
    requires t != Ep && Allowed(s, t, ch) && Step(s, t, ch) == Ok(s') && !Has(s, t, ClassListLock) && !Has(s, t, TotLock)
    ensures InFlight(RegV(s'.reg)) == InFlight(RegV(s.reg))
  {
    hide Allowed, Step;
    if t == Op {
      Others(s, t, ch, s');
    } else {
      RegFlight(s, ch, s');
    }
  }

  lemma RegFlight(s: State, ch: Choice, s': State)
    requires Allowed(s, Reg, ch) && Step(s, Reg, ch) == Ok(s') && !Has(s, Reg, ClassListLock) && !Has(s, Reg, TotLock)
    ensures InFlight(RegV(s'.reg)) == InFlight(RegV(s.reg))
  {
    hide Allowed, AcceptStep, NewClassStep, LinkStep, CleanStep;
    match s.reg.pc
    case RIdle | RAccept | RSslNew | RSslAccept | RRead => AcceptFlight(s, ch, s');
    case RSetUp | RWantLink | RWantTot | RAddTot | RAddCls | RInsert | RUnTot | RUnCls => LinkFlight(s, ch, s');
    case _ => RestFlight(s, ch, s');
  }

  lemma AcceptFlight(s: State, ch: Choice, s': State)
    requires s.reg.pc in {RIdle, RAccept, RSslNew, RSslAccept, RRead} && Allowed(s, Reg, ch) && AcceptStep(s, ch) == Ok(s')
    ensures InFlight(RegV(s'.reg)) == InFlight(RegV(s.reg))
  {
    hide SockOpen, SslAlive, ServerName;
  }

  lemma LinkFlight(s: State, ch: Choice, s': State)
    requires s.reg.pc in {RSetUp, RWantLink, RWantTot, RUnCls} && LinkStep(s, ch) == Ok(s')
    ensures InFlight(RegV(s'.reg)) == InFlight(RegV(s.reg))
  {
  }

  lemma RestFlight(s: State, ch: Choice, s': State)
    requires (s.reg.pc == RWantList && NewClassStep(s, ch) == Ok(s'))
             || (s.reg.pc in {RClean4, RClean3, RClean2, RClean1} && CleanStep(s) == Ok(s'))
    ensures InFlight(RegV(s'.reg)) == InFlight(RegV(s.reg))
  {
    hide SockOpen, SslAlive;
  }

  lemma EpHoldsAll(s: State, t: Thread)
    requires Inv(s) && Unlinking(s) && t != Ep
    ensures !Has(s, t, ClassListLock) && !Has(s, t, TotLock) && !Has(s, t, ClassLock(s.ep.k))
  {
    hide MemInv, HoldInv, LiveLocks, LockReady;
    Exclusion(s, Ep, ClassListLock);
    Exclusion(s, Ep, TotLock);
    Exclusion(s, Ep, ClassLock(s.ep.k));
  }

  lemma OtherDecision(s: State, t: Thread, s': State)
    requires t != Ep && Guarded(s, t, s') && s'.ep == s.ep
    requires !Has(s, t, ClassListLock) && !Has(s, t, TotLock) && !Has(s, t, ClassLock(s.ep.k))
    requires s.ep.k in InFlight(RegV(s'.reg)) <==> s.ep.k in InFlight(RegV(s.reg))
    requires s.ep.k in s.mem.classes
    ensures WillGiveBackLast(s') <==> WillGiveBackLast(s)
  {
  }

  /** What every point of the removal rests on: its class is alive. */
  lemma RemovalClass(s: State)
    requires Inv(s) && Unlinking(s)
    ensures s.ep.k in s.mem.classes
  {
    hide MemInv, HoldInv, LiveLocks, LockReady;
    EpClass(s.mem, RegV(s.reg), EpV(s.ep), s.op);
  }

  lemma {:induction false} DecisionKept(tr: seq<State>, i: nat, j: nat)
    requires Run(tr) && i <= j < |tr| && forall k :: i <= k <= j ==> Unlinking(tr[k])
    ensures WillGiveBackLast(tr[j]) <==> WillGiveBackLast(tr[i])
    decreases j - i
  {
    hide Step, Allowed, WillGiveBackLast, Unlinking;
    if i < j {
      DecisionKept(tr, i, j - 1);
      assert Next(tr[j - 1], tr[j - 1 + 1]);
      var t: Thread, ch: Choice :| Allowed(tr[j - 1], t, ch) && Step(tr[j - 1], t, ch) == Ok(tr[j]);
      RunPrefix(tr, j - 1);
      DecisionStays(tr[j - 1], t, ch, tr[j]);
    }
  }

  /** Whether the removal of a client ends in a fault is decided before it changes anything: it does if and only if the client is
      then alone on its class's list and no registration holds a reference to the class. */
  lemma RemovalFaultsExactly(tr: seq<State>, i: nat, j: nat)
    requires Run(tr) && i <= j < |tr| && tr[i].ep.pc == EDelTot && tr[j].ep.pc == EPut
    requires forall k :: i <= k <= j ==> Unlinking(tr[k])
    ensures var s := tr[i];
            && s.ep.k in s.mem.classes
            && (PutAsWritten(tr[j]) == Fault <==>
                s.mem.classes[s.ep.k].clilist == [s.ep.c] && s.ep.k !in InFlight(RegV(s.reg)))
  {
    hide Inv, PutAsWritten, Run;
    DecisionKept(tr, i, j);
    RunInv(tr, i);
    RunInv(tr, j);
    RemovalClass(tr[i]);
    PutFaultsExactly(tr[j]);
  }

  // ----- an input that faults

  /** Steps that give nothing back lead a run of the code as written where they lead the model. */
  lemma {:induction false} LeadsAsWritten(w: Scope, tr: seq<State>, i: nat)
    requires Chain(w, tr) && ReachableAsWritten(tr[0]) && i < |tr| && (Ep in w.threads ==> {EPut, EUnCls} <= w.avoid)
    ensures ReachableAsWritten(tr[i])
  {
    hide ReachableAsWritten, Step, Allowed;
    if i > 0 {
      LeadsAsWritten(w, tr, i - 1);
      assert Moves(w, tr[i - 1], tr[i - 1 + 1]);
      var t: Thread, ch: Choice :| t in w.threads && (t == Ep ==> tr[i - 1].ep.pc !in w.avoid)
                                   && Allowed(tr[i - 1], t, ch) && Step(tr[i - 1], t, ch) == Ok(tr[i]);
      ReachesAsWritten(tr[i - 1], t, ch, tr[i]);
    }
  }

  lemma ReachesAsWritten(s: State, t: Thread, ch: Choice, s': State)
    requires ReachableAsWritten(s) && Allowed(s, t, ch) && StepAsWritten(s, t, ch) == Ok(s')
    ensures ReachableAsWritten(s')
  {
    hide StepAsWritten, Allowed;
    var tr: seq<State> :| RunAsWritten(tr) && tr[|tr| - 1] == s;
    assert NextAsWritten(s, s');
    var tr' := tr + [s'];
    forall i | 0 <= i < |tr'| - 1
      ensures NextAsWritten(tr'[i], tr'[i + 1])
    {
      assert i < |tr| - 1 ==> NextAsWritten(tr[i], tr[i + 1]);
    }
    assert RunAsWritten(tr') && tr'[|tr'| - 1] == s';
  }

  lemma LeadsToAsWritten(w: Scope, s: State, s': State)
    requires ReachableAsWritten(s) && Leads(w, s, s') && (Ep in w.threads ==> {EPut, EUnCls} <= w.avoid)
    ensures ReachableAsWritten(s')
  {
    hide ReachableAsWritten, Moves;
    var tr: seq<State> :| Chain(w, tr) && tr[0] == s && tr[|tr| - 1] == s';
    LeadsAsWritten(w, tr, |tr| - 1);
  }

  lemma RemovalStep(w: State, s: State, ch: Choice) returns (s': State)
    requires Reachable(s) && Leads(REMOVAL, w, s) && EpAlone(s) && s.ep.pc in {EDelTot, EDelCls, EDelEp} && Allowed(s, Ep, ch)
    ensures Leads(REMOVAL, w, s') && Reachable(s') && s'.reg == s.reg && s'.op == s.op && s'.ep.k == s.ep.k
    ensures s'.ep.pc == if s.ep.pc == EDelTot then EDelCls else if s.ep.pc == EDelCls then EDelEp else EPut
    ensures WillGiveBackLast(s') <==> WillGiveBackLast(s)
  {
    hide Reachable, Leads, AllAlive, Remove, WillGiveBackLast;
    s' := Go(REMOVAL, w, s, Ep, ch);
    DecisionStays(s, Ep, ch, s');
  }

  /** While the other threads hold no lock, every event that removes a client leads to `putclass`, which faults if and only if the
      client was alone in its class and no registration holds a reference to the class. */
  lemma HangUpFaultsExactly(s: State, c: ClientId, rdhup: bool, input: bool, ok: bool) returns (s': State)
    requires Removes(rdhup, input, ok)
    requires ReachableAsWritten(s) && s.ep.pc == EWait && EpAlone(s) && c in s.mem.tothead && c !in s.mem.unwatched
    ensures ReachableAsWritten(s') && s'.ep.pc == EPut
    ensures c in s.mem.clients && s.mem.clients[c].klass in s.mem.classes
    ensures var k := s.mem.clients[c].klass;
            PutAsWritten(s') == Fault <==> s.mem.classes[k].clilist == [c] && k !in InFlight(RegV(s.reg))
  {
    hide Reachable, Leads, ReachableAsWritten, PutAsWritten, Inv;
    ReachableAgrees(s);
    var ch := Choice(true, 0, NO_ADDRESS, NO_RECORD, [], 1, [], ListClass);
    var s1 := HangUp(s, c, rdhup, input, ok);
    ReachableInv(s1);
    ClassAtHand(s1);
    RemovalClass(s1);
    RegisteredClassAlive(s, c);
    s' := RemovalStep(s, s1, ch);
    s' := RemovalStep(s, s', ch);
    s' := RemovalStep(s, s', ch);
    LeadsToAsWritten(REMOVAL, s, s');
    ReachableInv(s');
    PutFaultsExactly(s');
  }

  lemma OnlyMember(xs: seq<nat>, x: nat)
    requires NoDup(xs) && x in xs && forall y :: y in xs ==> y == x
    ensures xs == [x]
  {
    FirstTwo(xs);
    assert forall i :: 0 <= i < |xs| ==> xs[i] in xs;
  }

  lemma FirstTwo(xs: seq<nat>)
    requires NoDup(xs)
    ensures |xs| > 1 ==> xs[0] != xs[1]
  {
  }

  /** One device suffices: it registers, with any record and from any address, and hangs up. */
  lemma OneDeviceFaults(rec: Registration.Record, ip: Address) returns (s: State)
    requires rec.Valid()
    ensures ReachableAsWritten(s) && s.ep.pc == EPut && PutAsWritten(s) == Fault
  {
    hide Reachable, Leads, ReachableAsWritten, PutAsWritten, Inv;
    StartReachable();
    StartAsWritten();
    var s0 := Connects(INIT, rec, ip, true);
    LeadsReachable(REG, INIT, s0);
    LeadsToAsWritten(REG, INIT, s0);
    ReachableInv(s0);
    NobodyHolds(s0, TotLock);
    var c := s0.reg.n;
    RegisteredClassAlive(s0, c);
    var k := s0.mem.clients[c].klass;
    ListsPartition(s0, c, k);
    forall d | d in s0.mem.classes[k].clilist
      ensures d == c
    {
      ListsPartition(s0, d, k);
    }
    OnlyMember(s0.mem.classes[k].clilist, c);
    s := HangUpFaultsExactly(s0, c, true, true, false);
  }

  lemma StartAsWritten()
    ensures ReachableAsWritten(INIT)
  {
    assert RunAsWritten([INIT]) && [INIT][|[INIT]| - 1] == INIT;
  }
}
