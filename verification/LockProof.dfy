/** Every step keeps the lock part of the invariant: a mutex is held exactly at the program points between its lock and its unlock. */
module LockProof {
  import opened Wrappers
  import opened Registry
  import opened RegistryInvariant

  /** A lock held by one thread is held by no other. */
  lemma Exclusion(s: State, t: Thread, l: LockId)
    requires HoldInv(s.locks, HoldingsOf(s)) && Has(s, t, l)
    ensures l in s.locks && s.locks[l] == Held(t)
    ensures forall u: Thread :: u != t ==> !Has(s, u, l)
  {
  }

  lemma FreeIfUnheld(s: State, l: LockId)
    requires HoldInv(s.locks, HoldingsOf(s)) && l in s.locks
    requires !Has(s, Reg, l) && !Has(s, Ep, l) && !Has(s, Op, l)
    ensures s.locks[l] == Free
  {
    assert Agrees(s.locks[l], false, false, false);
  }

  lemma Acquire(locks: map<LockId, Mutex>, hs: AllHoldings, t: Thread, l: LockId)
    requires HoldInv(locks, hs) && l in locks && locks[l] == Free
    requires (l.ClassLock? ==> hs.Of(t).cls == None) && (l.CliLock? ==> hs.Of(t).cli == None)
    ensures HoldInv(locks[l := Held(t)], hs.With(t, hs.Of(t).Plus(l)))
  {
  }

  lemma Release(locks: map<LockId, Mutex>, hs: AllHoldings, t: Thread, l: LockId)
    requires HoldInv(locks, hs) && l in locks && locks[l] == Held(t)
    ensures hs.Of(t).Has(l) && HoldInv(locks[l := Free], hs.With(t, hs.Of(t).Minus(l)))
  {
  }

  lemma InitLock(locks: map<LockId, Mutex>, hs: AllHoldings, l: LockId)
    requires HoldInv(locks, hs) && l !in locks
    ensures HoldInv(locks[l := Free], hs)
  {
  }

  lemma DestroyFree(locks: map<LockId, Mutex>, hs: AllHoldings, l: LockId)
    requires HoldInv(locks, hs) && l in locks && locks[l] == Free
    ensures HoldInv(locks - {l}, hs)
  {
  }

  // ----- the registration thread

  lemma AcceptLocks(s: State, ch: Choice, s': State)
    requires HoldInv(s.locks, HoldingsOf(s)) && s.reg.pc in {RIdle, RAccept, RSslNew, RSslAccept, RRead} && Allowed(s, Reg, ch)
    requires AcceptStep(s, ch) == Ok(s')
    ensures HoldInv(s'.locks, HoldingsOf(s'))
  {
    hide HoldInv;
  }

  lemma NewClassLocks(s: State, ch: Choice, s': State)
    requires HoldInv(s.locks, HoldingsOf(s)) && s.reg.pc in {RWantList, RScan, RNoMem, RWant, RGet, RDrop, RPublish, RUnList}
    requires ClassLock(ch.id) !in s.locks || s.reg.pc != RScan
    requires NewClassStep(s, ch) == Ok(s')
    ensures HoldInv(s'.locks, HoldingsOf(s'))
  {
    hide HoldInv;
    var hs := HoldingsOf(s);
    match s.reg.pc
    case RWantList => Acquire(s.locks, hs, Reg, ClassListLock);
    case RScan => InitLock(s.locks, hs, ClassLock(ch.id));
    case RNoMem | RUnList => Release(s.locks, hs, Reg, ClassListLock);
    case RWant => Acquire(s.locks, hs, Reg, ClassLock(s.reg.k));
    case RDrop => Release(s.locks, hs, Reg, ClassLock(s.reg.k));
    case _ =>
  }

  lemma LinkLocks(s: State, ch: Choice, s': State)
    requires HoldInv(s.locks, HoldingsOf(s)) && s.reg.pc in {RSetUp, RWantLink, RWantTot, RAddTot, RAddCls, RInsert, RUnTot, RUnCls}
    requires CliLock(s.reg.n) !in s.locks || s.reg.pc != RSetUp
    requires LinkStep(s, ch) == Ok(s')
    ensures HoldInv(s'.locks, HoldingsOf(s'))
  {
    hide HoldInv;
    var hs := HoldingsOf(s);
    match s.reg.pc
    case RSetUp => InitLock(s.locks, hs, CliLock(s.reg.n));
    case RWantLink => Acquire(s.locks, hs, Reg, ClassLock(s.reg.k));
    case RWantTot => Acquire(s.locks, hs, Reg, TotLock);
    case RUnTot => Release(s.locks, hs, Reg, TotLock);
    case RUnCls => Release(s.locks, hs, Reg, ClassLock(s.reg.k));
    case _ =>
  }

  lemma CleanLocks(s: State, s': State)
    requires HoldInv(s.locks, HoldingsOf(s)) && s.reg.pc in {RClean4, RClean3, RClean2, RClean1} && CleanStep(s) == Ok(s')
    ensures HoldInv(s'.locks, HoldingsOf(s'))
  {
    hide HoldInv;
  }

  // ----- the epoll thread

  lemma BatchLocks(s: State, ch: Choice, s': State)
    requires HoldInv(s.locks, HoldingsOf(s)) && s.ep.pc in {EWait, EBatch, EWantCli, EWrite, EUnCli} && BatchStep(s, ch) == Ok(s')
    ensures HoldInv(s'.locks, HoldingsOf(s'))
  {
    hide HoldInv;
    match s.ep.pc
    case EWantCli => Acquire(s.locks, HoldingsOf(s), Ep, CliLock(s.ep.c));
    case EUnCli => Release(s.locks, HoldingsOf(s), Ep, CliLock(s.ep.c));
    case _ =>
  }

  lemma UnlinkLocks(s: State, s': State)
    requires HoldInv(s.locks, HoldingsOf(s)) && s.ep.pc in {EWantList, EWantCls, EWantTot, EDelTot, EDelCls, EDelEp, EPut}
    requires UnlinkStep(s) == Ok(s')
    ensures HoldInv(s'.locks, HoldingsOf(s'))
  {
    hide HoldInv;
    var hs := HoldingsOf(s);
    match s.ep.pc
    case EWantList => Acquire(s.locks, hs, Ep, ClassListLock);
    case EWantCls => Acquire(s.locks, hs, Ep, ClassLock(s.mem.clients[s.ep.c].klass));
    case EWantTot => Acquire(s.locks, hs, Ep, TotLock);
    case _ =>
  }

  lemma ReleaseLocks(s: State, s': State)
    requires HoldInv(s.locks, HoldingsOf(s)) && s.ep.pc in {EUnTot, EUnCls, EUnList, EShut, EClose, EDestroy, EFree}
    requires ReleaseStep(s) == Ok(s')
    ensures HoldInv(s'.locks, HoldingsOf(s'))
  {
    hide HoldInv;
    var hs := HoldingsOf(s);
    match s.ep.pc
    case EUnTot => Release(s.locks, hs, Ep, TotLock);
    case EUnCls =>
      var l := ClassLock(s.mem.clients[s.ep.c].klass);
      Release(s.locks, hs, Ep, l);
      if s.ep.dying {
        DestroyFree(s.locks[l := Free], HoldingsOf(s'), l);
        assert s.locks[l := Free] - {l} == s.locks - {l};
      }
    case EUnList => Release(s.locks, hs, Ep, ClassListLock);
    case EDestroy => DestroyFree(s.locks, hs, CliLock(s.ep.c));
    case _ =>
  }

  // ----- the operator

  lemma TraverseLocks(s: State, ch: Choice, s': State)
    requires HoldInv(s.locks, HoldingsOf(s)) && s.op.pc !in {OWantTot, OScan, OUnTot} && TraverseStep(s, ch) == Ok(s')
    ensures HoldInv(s'.locks, HoldingsOf(s'))
  {
    hide HoldInv, TraverseStep, HoldingsOf;
    match s.op.pc
    case OWantCli | ORecord | OUnCli | OSend => ClientLocks(s, ch, s');
    case _ => ClassLocks(s, ch, s');
  }

  lemma ClassLocks(s: State, ch: Choice, s': State)
    requires s.op.pc !in {OWantTot, OScan, OUnTot, OWantCli, ORecord, OUnCli, OSend}
    requires HoldInv(s.locks, HoldingsOf(s)) && TraverseStep(s, ch) == Ok(s')
    ensures HoldInv(s'.locks, HoldingsOf(s'))
  {
    hide HoldInv, Visits;
    var hs := HoldingsOf(s);
    match s.op.pc
    case OWantList => Acquire(s.locks, hs, Op, ClassListLock);
    case OWantCls => Acquire(s.locks, hs, Op, ClassLock(s.op.k));
    case OUnCls => Release(s.locks, hs, Op, ClassLock(s.op.k));
    case OUnList => Release(s.locks, hs, Op, ClassListLock);
    case _ =>
  }

  lemma ClientLocks(s: State, ch: Choice, s': State)
    requires s.op.pc in {OWantCli, ORecord, OUnCli, OSend}
    requires HoldInv(s.locks, HoldingsOf(s)) && TraverseStep(s, ch) == Ok(s')
    ensures HoldInv(s'.locks, HoldingsOf(s'))
  {
    hide HoldInv, RecordText, LogAlive, LogFile, SslAlive;
    match s.op.pc
    case OWantCli => Acquire(s.locks, HoldingsOf(s), Op, CliLock(s.op.c));
    case OUnCli => Release(s.locks, HoldingsOf(s), Op, CliLock(s.op.c));
    case _ =>
  }

  lemma SelectLocks(s: State, s': State)
    requires HoldInv(s.locks, HoldingsOf(s)) && s.op.pc in {OWantTot, OScan, OUnTot} && SelectStep(s) == Ok(s')
    ensures HoldInv(s'.locks, HoldingsOf(s'))
  {
    hide HoldInv;
    match s.op.pc
    case OWantTot => Acquire(s.locks, HoldingsOf(s), Op, TotLock);
    case OUnTot => Release(s.locks, HoldingsOf(s), Op, TotLock);
    case _ =>
  }
}
