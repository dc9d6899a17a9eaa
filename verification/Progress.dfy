/** Who may change the shared lists, and how far each thread inside its locks is from holding none. */
module Progress {
  import opened Wrappers
  import opened Sequences
  import opened Registry
  import opened RegistryInvariant
  import opened LockProof
  import opened OperatorProof
  import opened ServerTheorems

  // ----- the lists change only under their locks

  /** What a step of thread `t` may change: each list only under the lock that guards it, and the list of a live class stays
      until a thread that holds the class list frees the class. */
  ghost predicate Guarded(s: State, t: Thread, s': State) {
    && (s'.mem.classhead != s.mem.classhead ==> Has(s, t, ClassListLock))
    && (s'.mem.tothead != s.mem.tothead ==> Has(s, t, TotLock))
    && (forall k :: k in s.mem.classes && k !in s'.mem.classes ==> Has(s, t, ClassListLock) && Has(s, t, ClassLock(k)))
    && (forall k :: k in s.mem.classes && k in s'.mem.classes && s'.mem.classes[k].clilist != s.mem.classes[k].clilist ==>
          Has(s, t, ClassLock(k)) && Has(s, t, TotLock))
    && (forall k :: k in s.mem.classes && k in s'.mem.classes && s'.mem.classes[k].count != s.mem.classes[k].count ==>
          Has(s, t, ClassLock(k)) && Has(s, t, ClassListLock))
  }

  lemma ListsGuarded(s: State, t: Thread, ch: Choice, s': State)
    requires Reachable(s) && Allowed(s, t, ch) && Step(s, t, ch) == Ok(s')
    ensures Guarded(s, t, s')
  {
    hide Inv, AcceptStep, NewClassStep, LinkStep, CleanStep, BatchStep, UnlinkStep, ReleaseStep, TraverseStep, SelectStep, Guarded;
    ReachableInv(s);
    match t
    case Reg =>
      if s.reg.pc in {RIdle, RAccept, RSslNew, RSslAccept, RRead} {
        AcceptGuarded(s, ch, s');
      } else if s.reg.pc in {RWantList, RScan, RNoMem, RWant, RGet, RDrop, RPublish, RUnList} {
        NewClassGuarded(s, ch, s');
      } else if s.reg.pc in {RClean4, RClean3, RClean2, RClean1} {
        CleanGuarded(s, s');
      } else {
        LinkGuarded(s, ch, s');
      }
    case Ep =>
      if s.ep.pc in {EWait, EBatch, EWantCli, EWrite, EUnCli} {
        BatchGuarded(s, ch, s');
      } else if s.ep.pc in {EWantList, EWantCls, EWantTot, EDelTot, EDelCls, EDelEp, EPut} {
        UnlinkGuarded(s, s');
      } else {
        ReleaseGuarded(s, s');
      }
    case Op =>
      if s.op.pc in {OWantTot, OScan, OUnTot} {
        SelectGuarded(s, s');
      } else {
        TraverseGuarded(s, ch, s');
      }
  }

  lemma AcceptGuarded(s: State, ch: Choice, s': State)
    requires s.reg.pc in {RIdle, RAccept, RSslNew, RSslAccept, RRead} && Allowed(s, Reg, ch) && AcceptStep(s, ch) == Ok(s')
    ensures Guarded(s, Reg, s')
  {
  }

  lemma NewClassGuarded(s: State, ch: Choice, s': State)
    requires s.reg.pc in {RWantList, RScan, RNoMem, RWant, RGet, RDrop, RPublish, RUnList}
    requires Allowed(s, Reg, ch) && NewClassStep(s, ch) == Ok(s')
    ensures Guarded(s, Reg, s')
  {
  }

  lemma CleanGuarded(s: State, s': State)
    requires s.reg.pc in {RClean4, RClean3, RClean2, RClean1} && CleanStep(s) == Ok(s')
    ensures Guarded(s, Reg, s')
  {
  }

  lemma LinkGuarded(s: State, ch: Choice, s': State)
    requires s.reg.pc in {RSetUp, RWantLink, RWantTot, RAddTot, RAddCls, RInsert, RUnTot, RUnCls} && LinkStep(s, ch) == Ok(s')
    ensures Guarded(s, Reg, s')
  {
    hide LinkStep, Guarded;
    if s.reg.pc in {RAddTot, RAddCls, RInsert} {
      JoinGuarded(s, ch, s');
    } else {
      LinkKeepsLists(s, ch, s');
      Untouched(s, Reg, s');
    }
  }

  lemma JoinGuarded(s: State, ch: Choice, s': State)
    requires s.reg.pc in {RAddTot, RAddCls, RInsert} && LinkStep(s, ch) == Ok(s')
    ensures Guarded(s, Reg, s')
  {
    hide AllAlive, SockOpen;
  }

  lemma LinkKeepsLists(s: State, ch: Choice, s': State)
    requires s.reg.pc in {RSetUp, RWantLink, RWantTot, RUnTot, RUnCls} && LinkStep(s, ch) == Ok(s')
    ensures s'.mem.classhead == s.mem.classhead && s'.mem.tothead == s.mem.tothead && s'.mem.classes == s.mem.classes
  {
  }

  lemma Untouched(s: State, t: Thread, s': State)
    requires s'.mem.classhead == s.mem.classhead && s'.mem.tothead == s.mem.tothead && s'.mem.classes == s.mem.classes
    ensures Guarded(s, t, s')
  {
  }

  lemma BatchGuarded(s: State, ch: Choice, s': State)
    requires s.ep.pc in {EWait, EBatch, EWantCli, EWrite, EUnCli} && BatchStep(s, ch) == Ok(s')
    ensures Guarded(s, Ep, s')
  {
  }

  /** The class `cli_free` works on is the one it locked. */
  lemma ClassAtHand(s: State)
    requires Inv(s) && s.ep.pc in {EDelTot, EDelCls, EDelEp, EPut, EUnTot, EUnCls}
    ensures s.ep.c in s.mem.clients ==> s.mem.clients[s.ep.c].klass == s.ep.k
  {
    hide NoDup, Partition, NamesDistinct, ClassesCounted, ClientsClassed, RegClass, RegClient, ListInv, BatchInv,
         UnwatchedInv, CountInv, Table, CommandInv, BetweenClasses, InsideClass, Selecting, KlassOf, SockOf, SslOf, HoldInv,
         LiveLocks, LockReady;
  }

  lemma UnlinkGuarded(s: State, s': State)
    requires Inv(s) && s.ep.pc in {EWantList, EWantCls, EWantTot, EDelTot, EDelCls, EDelEp, EPut} && UnlinkStep(s) == Ok(s')
    ensures Guarded(s, Ep, s')
  {
    hide Inv, UnlinkStep, Guarded;
    if s.ep.pc in {EDelCls, EPut} {
      ClassAtHand(s);
      if s.ep.pc == EDelCls {
        DelClassGuarded(s, s');
      } else {
        PutGuarded(s, s');
      }
    } else {
      UnlinkRestGuarded(s, s');
    }
  }

  lemma DelClassGuarded(s: State, s': State)
    requires s.ep.pc == EDelCls && UnlinkStep(s) == Ok(s')
    requires s.ep.c in s.mem.clients ==> s.mem.clients[s.ep.c].klass == s.ep.k
    ensures Guarded(s, Ep, s')
  {
    hide AllAlive;
  }

  lemma PutFrame(s: State, s': State)
    requires s.ep.pc == EPut && UnlinkStep(s) == Ok(s')
    ensures s.ep.c in s.mem.clients && s'.mem.tothead == s.mem.tothead
    ensures var k := s.mem.clients[s.ep.c].klass;
            k in s.mem.classes && s'.mem.classes == s.mem.classes[k := s.mem.classes[k].(count := s.mem.classes[k].count - 1)]
  {
    hide AllAlive, Remove;
  }

  lemma PutGuarded(s: State, s': State)
    requires s.ep.pc == EPut && UnlinkStep(s) == Ok(s')
    requires s.ep.c in s.mem.clients ==> s.mem.clients[s.ep.c].klass == s.ep.k
    ensures Guarded(s, Ep, s')
  {
    hide UnlinkStep;
    PutFrame(s, s');
  }

  lemma UnlinkRestGuarded(s: State, s': State)
    requires s.ep.pc in {EWantList, EWantCls, EWantTot, EDelTot, EDelEp} && UnlinkStep(s) == Ok(s')
    ensures Guarded(s, Ep, s')
  {
    hide Remove, AllAlive;
  }

  lemma ReleaseGuarded(s: State, s': State)
    requires Inv(s) && s.ep.pc in {EUnTot, EUnCls, EUnList, EShut, EClose, EDestroy, EFree} && ReleaseStep(s) == Ok(s')
    ensures Guarded(s, Ep, s')
  {
    hide Inv;
    if s.ep.pc == EUnCls {
      ClassAtHand(s);
    }
  }

  lemma TraverseGuarded(s: State, ch: Choice, s': State)
    requires s.op.pc !in {OWantTot, OScan, OUnTot} && TraverseStep(s, ch) == Ok(s')
    ensures Guarded(s, Op, s')
  {
    hide TraverseStep, Has;
    TraverseFrame(s, ch, s');
  }

  lemma SelectGuarded(s: State, s': State)
    requires s.op.pc in {OWantTot, OScan, OUnTot} && SelectStep(s) == Ok(s')
    ensures Guarded(s, Op, s')
  {
  }

  // ----- the way out of the locks

  predicate HoldsLock(s: State, t: Thread) {
    HoldingsOf(s).Of(t) != Holdings(false, false, None, None)
  }

  /** What a thread has still to do before it holds no lock: outer entries to visit, the phase, inner entries, the place in
      the inner loop, characters of the record to append. */
  datatype Work = Work(outer: nat, phase: nat, inner: nat, place: nat, chars: nat)

  predicate Less(v: Work, w: Work) {
    v.outer < w.outer || (v.outer == w.outer &&
    (v.phase < w.phase || (v.phase == w.phase &&
    (v.inner < w.inner || (v.inner == w.inner &&
    (v.place < w.place || (v.place == w.place && v.chars < w.chars)))))))
  }

  function Minus(a: int, b: int): nat { if a > b then a - b else 0 }

  function RegWork(m: Memory, r: RegState): Work {
    match r.pc
    case RScan => Work(Minus(|m.classhead|, r.i), 9, 0, 0, 0)
    case RWant => Work(0, 8, 0, 0, 0)
    case RGet => Work(0, 7, 0, 0, 0)
    case RDrop => Work(0, 6, 0, 0, 0)
    case RPublish | RWantTot => Work(0, 5, 0, 0, 0)
    case RAddTot => Work(0, 4, 0, 0, 0)
    case RAddCls => Work(0, 3, 0, 0, 0)
    case RInsert => Work(0, 2, 0, 0, 0)
    case RUnTot => Work(0, 1, 0, 0, 0)
    case _ => Work(0, 0, 0, 0, 0)
  }

  function EpWork(e: EpState): Work {
    match e.pc
    case EWantCls => Work(0, 8, 0, 0, 0)
    case EWantTot => Work(0, 7, 0, 0, 0)
    case EDelTot => Work(0, 6, 0, 0, 0)
    case EDelCls => Work(0, 5, 0, 0, 0)
    case EDelEp => Work(0, 4, 0, 0, 0)
    case EPut => Work(0, 3, 0, 0, 0)
    case EUnTot => Work(0, 2, 0, 0, 0)
    case EUnCls => Work(0, 1, 0, 0, 0)
    case EWrite => Work(0, 1, 0, 0, 0)
    case _ => Work(0, 0, 0, 0, 0)
  }

  function OpWork(m: Memory, o: OpState): Work {
    var outer := Minus(|m.classhead|, o.i);
    var inner := if o.k in m.classes then Minus(|m.classes[o.k].clilist|, o.j) else 0;
    match o.pc
    case OClasses => Work(outer, 3, 0, 0, 0)
    case OWantCls => Work(outer, 2, 0, 0, 0)
    case OClients => Work(outer, 1, inner, 4, 0)
    case OWantCli => Work(outer, 1, inner, 3, 0)
    case ORecord => Work(outer, 1, inner, 2, |o.rest|)
    case OUnCli => Work(outer, 1, inner, 1, 0)
    case OSend => Work(outer, 1, inner, 0, 0)
    case OUnCls => Work(outer, 0, 0, 0, 0)
    case OScan => Work(Minus(|m.tothead|, o.i), 1, 0, 0, 0)
    case _ => Work(0, 0, 0, 0, 0)
  }

  function WorkOf(s: State, t: Thread): Work {
    match t
    case Reg => RegWork(s.mem, s.reg)
    case Ep => EpWork(s.ep)
    case Op => OpWork(s.mem, s.op)
  }

  /** Where the operator's cursors may be. */
  lemma OpCursors(s: State)
    requires Inv(s)
    ensures InClass(s.op) ==> s.op.i < |s.mem.classhead| && s.op.k in s.mem.classes && s.op.j <= |s.mem.classes[s.op.k].clilist|
    ensures s.op.pc in {OWantCli, ORecord, OUnCli, OSend} ==> s.op.k in s.mem.classes && s.op.j < |s.mem.classes[s.op.k].clilist|
  {
    hide Inv, NoDup, NamesDistinct, BetweenClasses, Selecting, CommandInv, Names;
    OpParts(s);
  }

  /** Each step a thread takes with a lock held brings it nearer to holding none. */
  lemma OwnStepProgress(s: State, t: Thread, ch: Choice, s': State)
    requires Reachable(s) && Allowed(s, t, ch) && Step(s, t, ch) == Ok(s') && HoldsLock(s, t)
    ensures HoldsLock(s', t) ==> Less(WorkOf(s', t), WorkOf(s, t))
  {
    hide Inv, Allowed, Reachable, Less;
    ReachableInv(s);
    match t
    case Reg => RegProgress(s, ch, s');
    case Ep => EpProgress(s, ch, s');
    case Op => OpProgress(s, ch, s');
  }

  lemma RegProgress(s: State, ch: Choice, s': State)
    requires Allowed(s, Reg, ch) && Step(s, Reg, ch) == Ok(s') && HoldsLock(s, Reg)
    ensures HoldsLock(s', Reg) ==> Less(WorkOf(s', Reg), WorkOf(s, Reg))
  {
    hide Less, WorkOf, NewClassStep, LinkStep, AcceptStep, CleanStep;
    if s.reg.pc in {RWantList, RScan, RNoMem, RWant, RGet, RDrop, RPublish, RUnList} {
      NewClassProgress(s, ch, s');
    } else {
      LinkProgress(s, ch, s');
    }
  }

  lemma NewClassProgress(s: State, ch: Choice, s': State)
    requires s.reg.pc in {RWantList, RScan, RNoMem, RWant, RGet, RDrop, RPublish, RUnList}
    requires NewClassStep(s, ch) == Ok(s') && HoldsLock(s, Reg)
    ensures HoldsLock(s', Reg) ==> Less(WorkOf(s', Reg), WorkOf(s, Reg))
  {
    hide AllAlive;
  }

  lemma LinkProgress(s: State, ch: Choice, s': State)
    requires s.reg.pc in {RSetUp, RWantLink, RWantTot, RAddTot, RAddCls, RInsert, RUnTot, RUnCls}
    requires LinkStep(s, ch) == Ok(s') && HoldsLock(s, Reg)
    ensures HoldsLock(s', Reg) ==> Less(WorkOf(s', Reg), WorkOf(s, Reg))
  {
    hide AllAlive, SockOpen;
  }

  lemma EpProgress(s: State, ch: Choice, s': State)
    requires Allowed(s, Ep, ch) && Step(s, Ep, ch) == Ok(s') && HoldsLock(s, Ep)
    ensures HoldsLock(s', Ep) ==> Less(WorkOf(s', Ep), WorkOf(s, Ep))
  {
    hide Less, WorkOf, BatchStep, UnlinkStep, ReleaseStep;
    if s.ep.pc in {EWait, EBatch, EWantCli, EWrite, EUnCli} {
      WriteProgress(s, ch, s');
    } else {
      RemovalProgress(s, s');
    }
  }

  lemma WriteProgress(s: State, ch: Choice, s': State)
    requires s.ep.pc in {EWait, EBatch, EWantCli, EWrite, EUnCli} && BatchStep(s, ch) == Ok(s') && HoldsLock(s, Ep)
    ensures HoldsLock(s', Ep) ==> Less(WorkOf(s', Ep), WorkOf(s, Ep))
  {
    hide LogAlive;
  }

  lemma RemovalProgress(s: State, s': State)
    requires s.ep.pc in {EWantCls, EWantTot, EDelTot, EDelCls, EDelEp, EPut, EUnTot, EUnCls, EUnList}
    requires (if s.ep.pc in {EUnTot, EUnCls, EUnList} then ReleaseStep(s) else UnlinkStep(s)) == Ok(s')
    ensures HoldsLock(s', Ep) ==> Less(WorkOf(s', Ep), WorkOf(s, Ep))
  {
    hide AllAlive, Remove;
  }

  lemma OpProgress(s: State, ch: Choice, s': State)
    requires Inv(s) && Allowed(s, Op, ch) && Step(s, Op, ch) == Ok(s') && HoldsLock(s, Op)
    ensures HoldsLock(s', Op) ==> Less(WorkOf(s', Op), WorkOf(s, Op))
  {
    hide Inv, Less, WorkOf, TraverseStep, SelectStep;
    OpCursors(s);
    if s.op.pc in {OWantTot, OScan, OUnTot} {
      SelectProgress(s, s');
    } else {
      TraverseProgress(s, ch, s');
    }
  }

  lemma SelectProgress(s: State, s': State)
    requires s.op.pc in {OWantTot, OScan, OUnTot} && SelectStep(s) == Ok(s') && HoldsLock(s, Op)
    ensures HoldsLock(s', Op) ==> Less(WorkOf(s', Op), WorkOf(s, Op))
  {
  }

  lemma TraverseProgress(s: State, ch: Choice, s': State)
    requires s.op.pc !in {OWantTot, OScan, OUnTot} && TraverseStep(s, ch) == Ok(s') && HoldsLock(s, Op)
    requires InClass(s.op) ==> s.op.i < |s.mem.classhead| && s.op.k in s.mem.classes && s.op.j <= |s.mem.classes[s.op.k].clilist|
    requires s.op.pc in {OWantCli, ORecord, OUnCli, OSend} ==> s.op.k in s.mem.classes && s.op.j < |s.mem.classes[s.op.k].clilist|
    ensures HoldsLock(s', Op) ==> Less(WorkOf(s', Op), WorkOf(s, Op))
  {
    hide Less, WorkOf, TraverseStep;
    if InClass(s.op) {
      ClientsProgress(s, ch, s');
    } else {
      ClassesProgress(s, ch, s');
    }
  }

  lemma ClassesProgress(s: State, ch: Choice, s': State)
    requires s.op.pc in {OClasses, OWantCls, OUnList} && TraverseStep(s, ch) == Ok(s')
    ensures HoldsLock(s', Op) ==> Less(WorkOf(s', Op), WorkOf(s, Op))
  {
    hide RecordText, SslAlive, LogAlive;
  }

  lemma ClientsProgress(s: State, ch: Choice, s': State)
    requires InClass(s.op) && TraverseStep(s, ch) == Ok(s')
    requires s.op.i < |s.mem.classhead| && s.op.k in s.mem.classes && s.op.j <= |s.mem.classes[s.op.k].clilist|
    requires s.op.pc in {OWantCli, ORecord, OUnCli, OSend} ==> s.op.j < |s.mem.classes[s.op.k].clilist|
    ensures HoldsLock(s', Op) ==> Less(WorkOf(s', Op), WorkOf(s, Op))
  {
    hide Less, WorkOf, TraverseStep;
    if s.op.pc in {OClients, OUnCls} {
      ClassProgress(s, ch, s');
    } else {
      ClientProgress(s, ch, s');
    }
  }

  lemma ClassProgress(s: State, ch: Choice, s': State)
    requires s.op.pc in {OClients, OUnCls} && TraverseStep(s, ch) == Ok(s')
    requires s.op.i < |s.mem.classhead| && s.op.k in s.mem.classes
    ensures HoldsLock(s', Op) ==> Less(WorkOf(s', Op), WorkOf(s, Op))
  {
    hide RecordText, SslAlive, LogAlive, LogFile, Visits;
  }

  lemma ClientProgress(s: State, ch: Choice, s': State)
    requires s.op.pc in {OWantCli, ORecord, OUnCli, OSend} && TraverseStep(s, ch) == Ok(s')
    requires s.op.i < |s.mem.classhead| && s.op.k in s.mem.classes && s.op.j < |s.mem.classes[s.op.k].clilist|
    ensures HoldsLock(s', Op) ==> Less(WorkOf(s', Op), WorkOf(s, Op))
  {
    hide RecordText, SslAlive, LogAlive, LogFile, Visits;
  }

  /** Steps of the other threads do not make it longer. */
  lemma OtherStepNeutral(s: State, t: Thread, u: Thread, ch: Choice, s': State)
    requires Reachable(s) && u != t && Allowed(s, u, ch) && Step(s, u, ch) == Ok(s') && HoldsLock(s, t)
    ensures HoldsLock(s', t) && WorkOf(s', t) == WorkOf(s, t)
  {
    hide Inv, Allowed, Step, Reachable;
    ListsGuarded(s, u, ch, s');
    Others(s, u, ch, s');
    ReachableInv(s);
    OpCursors(s);
    Excluded(s, t, u);
  }

  lemma Excluded(s: State, t: Thread, u: Thread)
    requires Inv(s) && u != t
    ensures forall l :: Has(s, t, l) ==> !Has(s, u, l)
  {
    hide MemInv, LiveLocks, LockReady;
    forall l | Has(s, t, l)
      ensures !Has(s, u, l)
    {
      Exclusion(s, t, l);
    }
  }

  /** A step changes no other thread's own state. */
  lemma Others(s: State, u: Thread, ch: Choice, s': State)
    requires Allowed(s, u, ch) && Step(s, u, ch) == Ok(s')
    ensures u != Reg ==> s'.reg == s.reg
    ensures u != Ep ==> s'.ep == s.ep
    ensures u != Op ==> s'.op == s.op
  {
    hide Allowed, Step;
    match u
    case Reg => RegOnly(s, ch, s');
    case Ep => EpOnly(s, ch, s');
    case Op => OpOnly(s, ch, s');
  }

  lemma RegOnly(s: State, ch: Choice, s': State)
    requires Allowed(s, Reg, ch) && Step(s, Reg, ch) == Ok(s')
    ensures s'.ep == s.ep && s'.op == s.op
  {
    hide AllAlive, SockOpen, SslAlive;
  }

  lemma EpOnly(s: State, ch: Choice, s': State)
    requires Allowed(s, Ep, ch) && Step(s, Ep, ch) == Ok(s')
    ensures s'.reg == s.reg && s'.op == s.op
  {
    hide AllAlive, SockOpen, SslAlive, LogAlive, LogFile, Remove;
  }

  lemma OpOnly(s: State, ch: Choice, s': State)
    requires Allowed(s, Op, ch) && Step(s, Op, ch) == Ok(s')
    ensures s'.reg == s.reg && s'.ep == s.ep
  {
    hide SslAlive, LogAlive, LogFile, RecordText, Visits;
  }
}
