/** Each step of each thread keeps the whole invariant. */
module StepProof {
  import opened Sequences
  import opened Registration
  import opened LogPath
  import opened Registry
  import opened RegistryInvariant
  import opened RegistryLemmas
  import opened RegistrationProof
  import opened RemovalProof
  import opened OperatorProof
  import opened LockProof

  /** The clients with a lock only change with the clients the threads hold. */
  lemma SameReady(tothead: seq<ClientId>, rv: RegView, rv': RegView, ev: EpView, ev': EpView)
    requires RegReady(rv') == RegReady(rv) && EpReady(ev') == EpReady(ev)
    ensures LockReady(tothead, rv', ev') == LockReady(tothead, rv, ev)
  {
  }

  // ----- registration

  lemma AcceptKeeps(s: State, ch: Choice, s': State)
    requires Inv(s) && s.reg.pc in {RIdle, RAccept, RSslNew, RSslAccept, RRead} && Allowed(s, Reg, ch)
    requires AcceptStep(s, ch) == Ok(s')
    ensures Inv(s')
  {
    hide MemInv, HoldInv, LiveLocks, ServerName, LockReady;
    var m, rv, ev, o := s.mem, RegV(s.reg), EpV(s.ep), s.op;
    AcceptLocks(s, ch, s');
    SameReady(m.tothead, rv, RegV(s'.reg), ev, ev);
    match s.reg.pc
    case RIdle =>
      if ch.ok {
        Malloc(m, rv, ev, o, ch.id, s'.mem.clients[ch.id]);
      }
    case RAccept =>
      if ch.ok {
        GotSock(m, rv, ev, o, ch.id, ch.ip);
      }
    case RSslNew =>
      if ch.ok {
        GotSsl(m, rv, ev, o, ch.id);
      }
    case _ =>
  }

  lemma NewClassKeeps(s: State, ch: Choice, s': State)
    requires Inv(s) && s.reg.pc in {RWantList, RScan, RNoMem, RWant, RGet, RDrop, RPublish, RUnList} && Allowed(s, Reg, ch)
    requires NewClassStep(s, ch) == Ok(s')
    ensures Inv(s')
  {
    hide MemInv, HoldInv, LiveLocks, LockReady, NewClassStep;
    assert ClassLock(ch.id) !in s.locks || s.reg.pc != RScan by {
      LiveClass(s, ch.id);
    }
    NewClassLocks(s, ch, s');
    hide Inv;
    match s.reg.pc
    case RScan => ScanKeeps(s, ch, s');
    case RGet | RPublish => CountedKeeps(s, ch, s');
    case _ => NewClassLockKeeps(s, ch, s');
  }

  /** The steps of `newclass` that only take or release a lock. */
  lemma NewClassLockKeeps(s: State, ch: Choice, s': State)
    requires Inv(s) && s.reg.pc in {RWantList, RNoMem, RWant, RDrop, RUnList}
    requires NewClassStep(s, ch) == Ok(s') && HoldInv(s'.locks, HoldingsOf(s'))
    ensures Inv(s')
  {
    hide MemInv, HoldInv, LiveLocks, LockReady;
    var m, rv, ev, o := s.mem, RegV(s.reg), EpV(s.ep), s.op;
    SameReady(m.tothead, rv, RegV(s'.reg), ev, ev);
    match s.reg.pc
    case RWantList =>
      StartScan(m, rv, ev, o, s.reg.who);
      SameLocks(s.locks, ClassListLock, Held(Reg));
    case RNoMem | RUnList => SameLocks(s.locks, ClassListLock, Free);
    case RWant => SameLocks(s.locks, ClassLock(s.reg.k), Held(Reg));
    case RDrop => SameLocks(s.locks, ClassLock(s.reg.k), Free);
  }

  lemma CountedKeeps(s: State, ch: Choice, s': State)
    requires Inv(s) && s.reg.pc in {RGet, RPublish}
    requires NewClassStep(s, ch) == Ok(s') && HoldInv(s'.locks, HoldingsOf(s'))
    ensures Inv(s')
  {
    hide MemInv, HoldInv, LiveLocks, LockReady;
    var m, rv, ev, o := s.mem, RegV(s.reg), EpV(s.ep), s.op;
    SameReady(m.tothead, rv, RegV(s'.reg), ev, ev);
    if s.reg.pc == RGet {
      Get(m, rv, RegV(s'.reg), ev, o);
      assert s'.mem.classes.Keys == m.classes.Keys;
    } else {
      Exclusion(s, Reg, ClassListLock);
      assert !Has(s, Op, ClassListLock);
      Publish(m, rv, ev, o);
    }
  }

  lemma LiveClass(s: State, k: ClassId)
    requires Inv(s)
    ensures ClassLock(k) in s.locks <==> k in s.mem.classes
  {
    hide MemInv, HoldInv;
  }

  lemma ScanKeeps(s: State, ch: Choice, s': State)
    requires Inv(s) && s.reg.pc == RScan && Allowed(s, Reg, ch)
    requires NewClassStep(s, ch) == Ok(s') && HoldInv(s'.locks, HoldingsOf(s'))
    ensures Inv(s')
  {
    hide MemInv, HoldInv, LockReady;
    var m, rv, ev, o := s.mem, RegV(s.reg), EpV(s.ep), s.op;
    ScanBound(m, rv, ev, o);
    SameReady(m.tothead, rv, RegV(s'.reg), ev, ev);
    if s.reg.i < |m.classhead| {
      if m.classes[m.classhead[s.reg.i]].name == s.reg.who {
        ScanHit(m, rv, ev, o);
      } else {
        ScanOn(m, rv, ev, o);
      }
    } else if !ch.ok {
      GiveUp(m, rv, ev, o);
    } else {
      Build(m, rv, ev, o, ch.id);
    }
  }

  lemma LinkKeeps(s: State, ch: Choice, s': State)
    requires Inv(s) && s.reg.pc in {RSetUp, RWantLink, RWantTot, RAddTot, RAddCls, RInsert, RUnTot, RUnCls}
    requires LinkStep(s, ch) == Ok(s')
    ensures Inv(s')
  {
    hide MemInv, HoldInv, LiveLocks, LockReady, LinkStep;
    assert CliLock(s.reg.n) !in s.locks || s.reg.pc != RSetUp by {
      if s.reg.pc == RSetUp {
        NotReady(s);
      }
    }
    LinkLocks(s, ch, s');
    hide Inv;
    match s.reg.pc
    case RSetUp => SetUpKeeps(s, ch, s');
    case RAddTot | RAddCls | RInsert => LinkedKeeps(s, ch, s');
    case _ => LinkLockKeeps(s, ch, s');
  }

  lemma LinkLockKeeps(s: State, ch: Choice, s': State)
    requires Inv(s) && s.reg.pc in {RWantLink, RWantTot, RUnTot, RUnCls}
    requires LinkStep(s, ch) == Ok(s') && HoldInv(s'.locks, HoldingsOf(s'))
    ensures Inv(s')
  {
    hide MemInv, HoldInv, LiveLocks, LockReady;
    var m, rv, ev, o := s.mem, RegV(s.reg), EpV(s.ep), s.op;
    match s.reg.pc
    case RWantLink => SameLocks(s.locks, ClassLock(s.reg.k), Held(Reg));
    case RWantTot => SameLocks(s.locks, TotLock, Held(Reg));
    case RUnTot => SameLocks(s.locks, TotLock, Free);
    case RUnCls =>
      Finish(m, rv, ev, o);
      SameReady(m.tothead, rv, NoReg, ev, ev);
      SameLocks(s.locks, ClassLock(s.reg.k), Free);
  }

  lemma NotReady(s: State)
    requires Inv(s) && s.reg.pc == RSetUp
    ensures CliLock(s.reg.n) !in s.locks
  {
    hide MemInv, HoldInv;
    RegNotEp(s.mem, RegV(s.reg), EpV(s.ep), s.op);
  }

  /** The two threads never hold the same client, nor one that is on the list of all clients. */
  lemma RegNotEp(m: Memory, rv: RegView, ev: EpView, o: OpState)
    requires MemInv(m, rv, ev, o)
    ensures forall c :: c in RegOwn(rv) ==> c in m.clients && c !in m.tothead && c !in EpOwn(ev)
    ensures forall c :: c in EpOwn(ev) ==> c in m.clients && c !in m.tothead
  {
    hide NoDup, ClassesCounted, NamesDistinct, ClientsClassed, RegClass, RegClient, EpPointers, ListInv, CountInv, Table,
         BatchInv, UnwatchedInv, CommandInv, BetweenClasses, InsideClass, Selecting, KlassOf, Names;
    Ownership(m, rv, ev);
  }

  lemma SetUpKeeps(s: State, ch: Choice, s': State)
    requires Inv(s) && s.reg.pc == RSetUp && LinkStep(s, ch) == Ok(s') && HoldInv(s'.locks, HoldingsOf(s'))
    ensures Inv(s')
  {
    hide MemInv, HoldInv;
    SetUp(s.mem, RegV(s.reg), EpV(s.ep), s.op, s.reg.mac);
  }

  lemma LinkedKeeps(s: State, ch: Choice, s': State)
    requires Inv(s) && s.reg.pc in {RAddTot, RAddCls, RInsert}
    requires LinkStep(s, ch) == Ok(s') && HoldInv(s'.locks, HoldingsOf(s'))
    ensures Inv(s')
  {
    hide MemInv, HoldInv, LiveLocks, LockReady;
    var m, rv, ev, o := s.mem, RegV(s.reg), EpV(s.ep), s.op;
    Exclusion(s, Reg, TotLock);
    Exclusion(s, Reg, ClassLock(s.reg.k));
    assert !Has(s, Ep, TotLock) && !Has(s, Op, TotLock) && !Has(s, Op, ClassLock(s.reg.k));
    if s.reg.pc == RAddTot {
      LinkTot(m, rv, ev, o);
      AddTotReady(m.tothead, rv, ev);
    } else if s.reg.pc == RAddCls {
      LinkClass(m, rv, ev, o);
      assert s'.mem.classes.Keys == m.classes.Keys;
      SameReady(m.tothead, rv, RegV(s'.reg), ev, ev);
    } else {
      if ch.ok {
        Watch(m, rv, ev, o);
      } else {
        Refuse(m, rv, ev, o);
      }
      SameReady(m.tothead, rv, RegV(s'.reg), ev, ev);
    }
  }

  lemma AddTotReady(tothead: seq<ClientId>, rv: RegView, ev: EpView)
    requires rv.Ready?
    ensures LockReady(tothead + [rv.n], OnTot(rv.n, rv.who, rv.k), ev) == LockReady(tothead, rv, ev)
  {
    MembersAppend(tothead, rv.n);
  }

  lemma CleanKeeps(s: State, s': State)
    requires Inv(s) && s.reg.pc in {RClean4, RClean3, RClean2, RClean1} && CleanStep(s) == Ok(s')
    ensures Inv(s')
  {
    hide MemInv, HoldInv, LiveLocks, LockReady;
    var m, rv, ev, o := s.mem, RegV(s.reg), EpV(s.ep), s.op;
    CleanLocks(s, s');
    SameReady(m.tothead, rv, RegV(s'.reg), ev, ev);
    match s.reg.pc
    case RClean4 =>
    case RClean3 => DropSsl(m, rv, ev, o);
    case RClean2 => DropSock(m, rv, ev, o);
    case RClean1 => DropClient(m, rv, ev, o);
  }

  // ----- the epoll thread

  lemma BatchKeeps(s: State, ch: Choice, s': State)
    requires Inv(s) && s.ep.pc in {EWait, EBatch, EWantCli, EWrite, EUnCli} && Allowed(s, Ep, ch) && BatchStep(s, ch) == Ok(s')
    ensures Inv(s')
  {
    hide MemInv, HoldInv, LiveLocks, LockReady, BatchStep, Allowed;
    var m, rv, ev, ev', o := s.mem, RegV(s.reg), EpV(s.ep), EpV(s'.ep), s.op;
    BatchLocks(s, ch, s');
    BatchFrame(s, ch, s');
    BatchMem(s, ch, s');
    FilesFrame(m, rv, ev', o, s'.mem.files);
    SameReady(m.tothead, rv, rv, ev, ev');
  }

  /** Within the batch the epoll thread touches no memory but the log files. */
  lemma BatchFrame(s: State, ch: Choice, s': State)
    requires s.ep.pc in {EWait, EBatch, EWantCli, EWrite, EUnCli} && BatchStep(s, ch) == Ok(s')
    ensures s'.mem == s.mem.(files := s'.mem.files) && s'.reg == s.reg && s'.op == s.op && s'.locks.Keys == s.locks.Keys
    ensures EpReady(EpV(s.ep)) == EpReady(EpV(s'.ep))
  {
    hide BatchStep;
    match s.ep.pc
    case EWait | EBatch => EventFrame(s, ch, s');
    case _ => WriteFrame(s, ch, s');
  }

  lemma EventFrame(s: State, ch: Choice, s': State)
    requires s.ep.pc in {EWait, EBatch} && BatchStep(s, ch) == Ok(s')
    ensures s'.mem == s.mem.(files := s'.mem.files) && s'.reg == s.reg && s'.op == s.op && s'.locks.Keys == s.locks.Keys
    ensures EpReady(EpV(s.ep)) == EpReady(EpV(s'.ep))
  {
    hide File, SslAlive;
  }

  lemma WriteFrame(s: State, ch: Choice, s': State)
    requires s.ep.pc in {EWantCli, EWrite, EUnCli} && BatchStep(s, ch) == Ok(s')
    ensures s'.mem == s.mem.(files := s'.mem.files) && s'.reg == s.reg && s'.op == s.op && s'.locks.Keys == s.locks.Keys
    ensures EpReady(EpV(s.ep)) == EpReady(EpV(s'.ep))
  {
    hide File, LogAlive;
  }

  lemma BatchMem(s: State, ch: Choice, s': State)
    requires Inv(s) && s.ep.pc in {EWait, EBatch, EWantCli, EWrite, EUnCli} && Allowed(s, Ep, ch) && BatchStep(s, ch) == Ok(s')
    ensures MemInv(s.mem, RegV(s.reg), EpV(s'.ep), s.op)
  {
    hide MemInv, HoldInv, LiveLocks, LockReady, File, SslAlive, LogAlive;
    var m, rv, ev, o := s.mem, RegV(s.reg), EpV(s.ep), s.op;
    match s.ep.pc
    case EWait => Report(m, rv, ev, o, ch.evs);
    case EBatch | EUnCli => BatchSilent(m, rv, ev, EpV(s'.ep), o);
    case EWantCli | EWrite =>
  }

  lemma UnlinkKeeps(s: State, s': State)
    requires Inv(s) && s.ep.pc in {EWantList, EWantCls, EWantTot, EDelTot, EDelCls, EDelEp, EPut} && UnlinkStep(s) == Ok(s')
    ensures Inv(s')
  {
    hide MemInv, HoldInv, LiveLocks, LockReady;
    var m, rv, ev, o := s.mem, RegV(s.reg), EpV(s.ep), s.op;
    UnlinkLocks(s, s');
    match s.ep.pc
    case EWantList => SameLocks(s.locks, ClassListLock, Held(Ep));
    case EWantCls =>
      BatchSilent(m, rv, ev, EpV(s'.ep), o);
      SameLocks(s.locks, ClassLock(m.clients[s.ep.c].klass), Held(Ep));
      SameReady(m.tothead, rv, rv, ev, EpV(s'.ep));
    case EWantTot => SameLocks(s.locks, TotLock, Held(Ep));
    case EDelTot => DelTotKeeps(s, s');
    case EDelCls => DelClsKeeps(s, s');
    case EDelEp =>
      Unwatch(m, rv, ev, o);
      SameReady(m.tothead, rv, rv, ev, EpV(s'.ep));
    case EPut => PutKeeps(s, s');
  }

  lemma DelTotKeeps(s: State, s': State)
    requires Inv(s) && s.ep.pc == EDelTot && UnlinkStep(s) == Ok(s') && HoldInv(s'.locks, HoldingsOf(s'))
    ensures Inv(s')
  {
    hide MemInv, HoldInv, LiveLocks, LockReady;
    var m, rv, ev, o := s.mem, RegV(s.reg), EpV(s.ep), s.op;
    Exclusion(s, Ep, TotLock);
    assert !Has(s, Reg, TotLock) && !Has(s, Op, TotLock);
    UnlinkTot(m, rv, ev, o);
    NoDuplicates(m, rv, ev, o);
    DelTotReady(m.tothead, rv, ev, EpV(s'.ep));
  }

  lemma NoDuplicates(m: Memory, rv: RegView, ev: EpView, o: OpState)
    requires MemInv(m, rv, ev, o)
    ensures NoDup(m.tothead) && NoDup(m.classhead)
  {
    hide NoDup, Partition, ListInv, BatchInv, UnwatchedInv, Table;
  }

  lemma DelTotReady(tothead: seq<ClientId>, rv: RegView, ev: EpView, ev': EpView)
    requires NoDup(tothead) && ev.Locked? && ev.c in tothead && ev'.OffTot? && ev'.c == ev.c
    ensures LockReady(Remove(tothead, ev.c), rv, ev') == LockReady(tothead, rv, ev)
  {
    MembersRemove(tothead, ev.c);
    hide Remove;
  }

  lemma DelClsKeeps(s: State, s': State)
    requires Inv(s) && s.ep.pc == EDelCls && UnlinkStep(s) == Ok(s') && HoldInv(s'.locks, HoldingsOf(s'))
    ensures Inv(s')
  {
    hide MemInv, HoldInv, LiveLocks, LockReady;
    var m, rv, ev, o := s.mem, RegV(s.reg), EpV(s.ep), s.op;
    Exclusion(s, Ep, TotLock);
    Exclusion(s, Ep, ClassLock(s.ep.k));
    assert !Has(s, Reg, TotLock) && !Has(s, Op, ClassLock(s.ep.k));
    EpClass(m, rv, ev, o);
    UnlinkClass(m, rv, ev, o);
    assert s'.mem.classes.Keys == m.classes.Keys;
    SameReady(m.tothead, rv, rv, ev, EpV(s'.ep));
  }

  lemma EpClass(m: Memory, rv: RegView, ev: EpView, o: OpState)
    requires MemInv(m, rv, ev, o)
    ensures ev.Locked? || ev.OffTot? || ev.OffCls? || ev.OffEp? || ev.Given? ==>
              ev.c in m.clients && ev.k == m.clients[ev.c].klass && ev.k in m.classes
    ensures ev.OffEp? ==> ev.k in m.classhead
  {
    hide NoDup, ClassesCounted, NamesDistinct, ClientsClassed, RegClass, RegClient, ListInv, CountInv, Table,
         BatchInv, UnwatchedInv, CommandInv, BetweenClasses, InsideClass, Selecting, KlassOf;
  }

  /** The last reference is given back under all three locks, so no registration and no traversal is near the class. */
  lemma PutKeeps(s: State, s': State)
    requires Inv(s) && s.ep.pc == EPut && UnlinkStep(s) == Ok(s') && HoldInv(s'.locks, HoldingsOf(s'))
    ensures Inv(s')
  {
    hide MemInv, HoldInv, LiveLocks, LockReady;
    var m, rv, ev, o := s.mem, RegV(s.reg), EpV(s.ep), s.op;
    EpClass(m, rv, ev, o);
    SameReady(m.tothead, rv, rv, ev, EpV(s'.ep));
    assert s'.mem.classes.Keys == m.classes.Keys;
    if m.classes[s.ep.k].count == 1 {
      Exclusion(s, Ep, ClassListLock);
      Exclusion(s, Ep, TotLock);
      assert !Has(s, Reg, ClassListLock) && !Has(s, Reg, TotLock) && !Has(s, Op, ClassListLock);
      PutLast(m, rv, ev, o);
    } else {
      Put(m, rv, ev, o);
    }
  }

  lemma ReleaseKeeps(s: State, s': State)
    requires Inv(s) && s.ep.pc in {EUnTot, EUnCls, EUnList, EShut, EClose, EDestroy, EFree} && ReleaseStep(s) == Ok(s')
    ensures Inv(s')
  {
    hide MemInv, HoldInv, LiveLocks, LockReady;
    var m, rv, ev, o := s.mem, RegV(s.reg), EpV(s.ep), s.op;
    ReleaseLocks(s, s');
    match s.ep.pc
    case EUnTot => SameLocks(s.locks, TotLock, Free);
    case EUnCls => UnClsKeeps(s, s');
    case EUnList => SameLocks(s.locks, ClassListLock, Free);
    case EShut =>
      Shut(m, rv, ev, o);
      SameReady(m.tothead, rv, rv, ev, EpV(s'.ep));
    case EClose =>
      Close(m, rv, ev, o);
      SameReady(m.tothead, rv, rv, ev, EpV(s'.ep));
    case EDestroy =>
      DestroyLock(m, rv, ev, o);
      DestroyReady(s, s');
    case EFree =>
      FreeClient(m, rv, ev, o, s.ep.brk);
      SameReady(m.tothead, rv, rv, ev, EpV(s'.ep));
  }

  lemma UnClsKeeps(s: State, s': State)
    requires Inv(s) && s.ep.pc == EUnCls && ReleaseStep(s) == Ok(s') && HoldInv(s'.locks, HoldingsOf(s'))
    ensures Inv(s')
  {
    hide MemInv, HoldInv, LiveLocks, LockReady;
    var m, rv, ev, o := s.mem, RegV(s.reg), EpV(s.ep), s.op;
    EpClass(m, rv, ev, o);
    SameLocks(s.locks, ClassLock(s.ep.k), Free);
    SameReady(m.tothead, rv, rv, ev, EpV(s'.ep));
    if s.ep.dying {
      Exclusion(s, Ep, ClassListLock);
      Exclusion(s, Ep, ClassLock(s.ep.k));
      assert !Has(s, Op, ClassListLock) && !Has(s, Reg, ClassLock(s.ep.k));
      DoneHolds(s);
      FreeClass(m, rv, ev, o);
      FreeClassLocks(s.locks, m.classes, s.ep.k, LockReady(m.tothead, rv, ev));
    } else {
      Keep(m, rv, ev, o);
    }
  }

  lemma DoneHolds(s: State)
    ensures RegV(s.reg).Done? ==> Has(s, Reg, ClassLock(RegV(s.reg).k))
  {
  }

  lemma FreeClassLocks(locks: map<LockId, Mutex>, classes: map<ClassId, Class>, k: ClassId, ready: set<ClientId>)
    requires LiveLocks(locks.Keys, classes.Keys, ready)
    ensures LiveLocks((locks - {ClassLock(k)}).Keys, (classes - {k}).Keys, ready)
  {
  }

  lemma DestroyFrame(s: State, s': State)
    requires s.ep.pc == EDestroy && ReleaseStep(s) == Ok(s')
    ensures s'.mem == s.mem && s'.reg == s.reg && s'.op == s.op && s'.ep == s.ep.(pc := EFree)
    ensures s'.locks.Keys == s.locks.Keys - {CliLock(s.ep.c)}
  {
  }

  lemma LockDestroyed(locks: set<LockId>, classes: set<ClassId>, tothead: seq<ClientId>, rv: RegView, ev: EpView)
    requires ev.NoSock? && LiveLocks(locks, classes, LockReady(tothead, rv, ev)) && ev.c !in tothead && ev.c !in RegReady(rv)
    ensures var ev' := NoLock(ev.evs, ev.i, ev.c);
            LiveLocks(locks - {CliLock(ev.c)}, classes, LockReady(tothead, rv, ev'))
  {
  }

  lemma DestroyFacts(s: State)
    requires Inv(s) && s.ep.pc == EDestroy
    ensures LiveLocks(s.locks.Keys, s.mem.classes.Keys, LockReady(s.mem.tothead, RegV(s.reg), EpV(s.ep)))
    ensures s.ep.c !in s.mem.tothead && s.ep.c !in RegReady(RegV(s.reg))
  {
    hide MemInv, HoldInv, LiveLocks, LockReady;
    RegNotEp(s.mem, RegV(s.reg), EpV(s.ep), s.op);
  }

  lemma DestroyReady(s: State, s': State)
    requires Inv(s) && s.ep.pc == EDestroy && ReleaseStep(s) == Ok(s')
    ensures LiveLocks(s'.locks.Keys, s'.mem.classes.Keys, LockReady(s'.mem.tothead, RegV(s'.reg), EpV(s'.ep)))
  {
    hide Inv, ReleaseStep, LiveLocks, LockReady, RegV, RegReady;
    DestroyFrame(s, s');
    DestroyFacts(s);
    LockDestroyed(s.locks.Keys, s.mem.classes.Keys, s.mem.tothead, RegV(s.reg), EpV(s.ep));
  }

  // ----- the operator

  lemma TraverseKeeps(s: State, ch: Choice, s': State)
    requires Inv(s) && s.op.pc !in {OWantTot, OScan, OUnTot} && TraverseStep(s, ch) == Ok(s')
    ensures Inv(s')
  {
    hide MemInv, HoldInv, LiveLocks, LockReady, RecordText;
    TraverseLocks(s, ch, s');
    TraverseMem(s, ch, s');
    assert s'.locks.Keys == s.locks.Keys;
  }

  lemma FreeUnheld(s: State, l: LockId)
    requires HoldInv(s.locks, HoldingsOf(s)) && l in s.locks && s.locks[l] == Free
    ensures forall t: Thread :: !Has(s, t, l)
  {
  }

  lemma SelectKeeps(s: State, s': State)
    requires Inv(s) && s.op.pc in {OWantTot, OScan, OUnTot} && SelectStep(s) == Ok(s')
    ensures Inv(s')
  {
    hide MemInv, HoldInv, LiveLocks, LockReady;
    SelectLocks(s, s');
    SelectMem(s, s');
    assert s'.locks.Keys == s.locks.Keys;
  }

  // ----- every step

  lemma StepKeeps(s: State, t: Thread, ch: Choice, s': State)
    requires Inv(s) && Allowed(s, t, ch) && Step(s, t, ch) == Ok(s')
    ensures Inv(s')
  {
    hide Inv, AcceptStep, NewClassStep, LinkStep, CleanStep, BatchStep, UnlinkStep, ReleaseStep, TraverseStep, SelectStep, Allowed;
    match t
    case Reg =>
      match s.reg.pc {
      case RIdle | RAccept | RSslNew | RSslAccept | RRead => AcceptKeeps(s, ch, s');
      case RWantList | RScan | RNoMem | RWant | RGet | RDrop | RPublish | RUnList => NewClassKeeps(s, ch, s');
      case RClean4 | RClean3 | RClean2 | RClean1 => CleanKeeps(s, s');
      case _ => LinkKeeps(s, ch, s');
      }
    case Ep =>
      match s.ep.pc {
      case EWait | EBatch | EWantCli | EWrite | EUnCli => BatchKeeps(s, ch, s');
      case EWantList | EWantCls | EWantTot | EDelTot | EDelCls | EDelEp | EPut => UnlinkKeeps(s, s');
      case _ => ReleaseKeeps(s, s');
      }
    case Op =>
      match s.op.pc {
      case OWantTot | OScan | OUnTot => SelectKeeps(s, s');
      case _ => TraverseKeeps(s, ch, s');
      }
  }
}
