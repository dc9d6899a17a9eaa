/** No step of any thread reaches a fault: every access is to a live object and every release is of something held. */
module SafetyProof {
  import opened Wrappers
  import opened Sequences
  import opened Registration
  import opened Registry
  import opened RegistryInvariant
  import opened RegistryLemmas
  import opened LockProof

  /** The locks of everything the threads can reach exist. */
  lemma ReachLocks(s: State)
    requires Inv(s)
    ensures ClassListLock in s.locks && TotLock in s.locks
    ensures forall k :: ClassLock(k) in s.locks <==> k in s.mem.classes
    ensures forall c :: c in s.mem.tothead || c in EpReady(EpV(s.ep)) ==> CliLock(c) in s.locks
  {
    hide MemInv, HoldInv;
  }

  /** A thread can release what its program point says it holds. */
  lemma CanUnlock(s: State, t: Thread, l: LockId, next: State)
    requires HoldInv(s.locks, HoldingsOf(s)) && Has(s, t, l)
    ensures Unlock(s, t, l, next) != Fault
  {
    Exclusion(s, t, l);
  }

  lemma RegSafe(s: State, ch: Choice)
    requires Inv(s) && Allowed(s, Reg, ch)
    ensures Step(s, Reg, ch) != Fault
  {
    hide MemInv, LiveLocks, LockReady, ServerName, HoldInv;
    var m, rv, ev, o := s.mem, RegV(s.reg), EpV(s.ep), s.op;
    Reach(m, rv, ev, o);
    ReachKernel(m, rv, ev, o);
    ReachLocks(s);
    match s.reg.pc
    case RNoMem | RUnList => CanUnlock(s, Reg, ClassListLock, s);
    case RDrop | RUnCls => CanUnlock(s, Reg, ClassLock(s.reg.k), s);
    case RUnTot => CanUnlock(s, Reg, TotLock, s);
    case _ =>
  }

  lemma BatchSafe(s: State, ch: Choice)
    requires Inv(s) && Allowed(s, Ep, ch) && s.ep.pc in {EWait, EBatch, EWantCli, EWrite, EUnCli}
    ensures BatchStep(s, ch) != Fault
  {
    hide MemInv, LiveLocks, LockReady, HoldInv;
    var m, rv, ev, o := s.mem, RegV(s.reg), EpV(s.ep), s.op;
    Reach(m, rv, ev, o);
    ReachKernel(m, rv, ev, o);
    ReachLocks(s);
    ReachEvent(m, rv, ev, o);
    if s.ep.pc == EUnCli {
      CanUnlock(s, Ep, CliLock(s.ep.c), s);
    }
  }

  lemma UnlinkSafe(s: State)
    requires Inv(s) && s.ep.pc in {EWantList, EWantCls, EWantTot, EDelTot, EDelCls, EDelEp, EPut}
    ensures UnlinkStep(s) != Fault
  {
    hide MemInv, LiveLocks, LockReady, HoldInv;
    var m, rv, ev, o := s.mem, RegV(s.reg), EpV(s.ep), s.op;
    Reach(m, rv, ev, o);
    ReachLocks(s);
    if s.ep.pc == EDelCls {
      Exclusion(s, Ep, TotLock);
      assert !Has(s, Reg, TotLock);
      ListedInClass(m, rv, ev, o);
    }
  }

  lemma ReleaseSafe(s: State)
    requires Inv(s) && s.ep.pc in {EUnTot, EUnCls, EUnList, EShut, EClose, EDestroy, EFree}
    ensures ReleaseStep(s) != Fault
  {
    hide Inv, ReleaseStep;
    match s.ep.pc
    case EUnTot | EUnCls | EUnList => UnlockSafe(s);
    case _ => DisposeSafe(s);
  }

  lemma UnlockSafe(s: State)
    requires Inv(s) && s.ep.pc in {EUnTot, EUnCls, EUnList}
    ensures ReleaseStep(s) != Fault
  {
    hide MemInv, LiveLocks, LockReady, HoldInv;
    Reach(s.mem, RegV(s.reg), EpV(s.ep), s.op);
    match s.ep.pc
    case EUnTot => CanUnlock(s, Ep, TotLock, s);
    case EUnList => CanUnlock(s, Ep, ClassListLock, s);
    case EUnCls => Exclusion(s, Ep, ClassLock(s.ep.k));
  }

  lemma DisposeSafe(s: State)
    requires Inv(s) && s.ep.pc in {EShut, EClose, EDestroy, EFree}
    ensures ReleaseStep(s) != Fault
  {
    hide MemInv, LiveLocks, LockReady, HoldInv;
    Reach(s.mem, RegV(s.reg), EpV(s.ep), s.op);
    ReachKernel(s.mem, RegV(s.reg), EpV(s.ep), s.op);
    if s.ep.pc == EDestroy {
      ClientLockFree(s);
    }
  }

  /** The client of the event at hand is registered and watched. */
  lemma ReachEvent(m: Memory, rv: RegView, ev: EpView, o: OpState)
    requires MemInv(m, rv, ev, o)
    ensures ev.AtBatch? && ev.i < |ev.evs| ==> ev.evs[ev.i].cli in m.tothead && ev.evs[ev.i].cli !in m.unwatched
    ensures ev.Serving? ==> ev.c in m.tothead && ev.c !in m.unwatched
  {
    hide NoDup, Partition, ClassesCounted, NamesDistinct, ClientsClassed, RegClass, RegClient, EpPointers, ListInv, CountInv,
         Table, CommandInv, BetweenClasses, InsideClass, Selecting, KlassOf, Names, SockOf, SslOf;
  }

  /** A client taken off the list of all clients is still on its class's list. */
  lemma ListedInClass(m: Memory, rv: RegView, ev: EpView, o: OpState)
    requires MemInv(m, rv, ev, o) && !rv.OnTot? && ev.OffTot? && ev.k in m.classes
    ensures ev.c in m.classes[ev.k].clilist
  {
    hide NoDup, Partition, ClassesCounted, NamesDistinct, ClientsClassed, RegClass, RegClient, CountInv,
         Table, BatchInv, UnwatchedInv, CommandInv, BetweenClasses, InsideClass, Selecting;
    ByClassMember(ClassView(m.tothead, rv, ev), KlassOf(m.clients), ev.k, ev.c);
  }

  /** Once the client is off both lists, no thread holds its lock and none is about to take it. */
  lemma ClientLockFree(s: State)
    requires Inv(s) && s.ep.pc in {EDelEp, EPut, EUnTot, EUnCls, EUnList, EShut, EClose, EDestroy}
    ensures CliLock(s.ep.c) in s.locks && s.locks[CliLock(s.ep.c)] == Free
    ensures forall t: Thread :: Wants(s, t) != Some(CliLock(s.ep.c))
  {
    hide MemInv, LiveLocks, LockReady, HoldInv;
    ReachLocks(s);
    OpElsewhere(s.mem, RegV(s.reg), EpV(s.ep), s.op);
    FreeIfUnheld(s, CliLock(s.ep.c));
  }

  lemma OpElsewhere(m: Memory, rv: RegView, ev: EpView, o: OpState)
    requires MemInv(m, rv, ev, o)
    ensures o.pc in {OWantCli, ORecord, OUnCli, OSend} ==> o.c in m.tothead || (ev.OffTot? && o.c == ev.c)
    ensures forall c :: c in EpOwn(ev) ==> c !in m.tothead
  {
    hide NoDup, ClassesCounted, NamesDistinct, ClientsClassed, RegClass, RegClient, EpPointers, CountInv,
         Table, BatchInv, UnwatchedInv, CommandInv, BetweenClasses, Selecting;
    OpClientListed(m, rv, ev, o);
    Ownership(m, rv, ev);
  }

  lemma OpSafe(s: State, ch: Choice)
    requires Inv(s) && Allowed(s, Op, ch)
    ensures Step(s, Op, ch) != Fault
  {
    hide MemInv, LiveLocks, LockReady, HoldInv, RecordText;
    var m, rv, ev, o := s.mem, RegV(s.reg), EpV(s.ep), s.op;
    Reach(m, rv, ev, o);
    ReachKernel(m, rv, ev, o);
    ReachLocks(s);
    ReachTraversal(m, rv, ev, o);
    match s.op.pc
    case OWantCli | ORecord | OSend => OpClientAlive(s);
    case OUnCli => CanUnlock(s, Op, CliLock(s.op.c), s);
    case OUnTot => CanUnlock(s, Op, TotLock, s);
    case OUnList => CanUnlock(s, Op, ClassListLock, s);
    case OUnCls => CanUnlock(s, Op, ClassLock(s.op.k), s);
    case _ =>
  }

  lemma ReachTraversal(m: Memory, rv: RegView, ev: EpView, o: OpState)
    requires MemInv(m, rv, ev, o)
    ensures o.pc == OWantCls || InClass(o) ==> o.k in m.classes
    ensures o.pc in {OWantCli, ORecord, OUnCli, OSend} ==> o.cmd.Send?
    ensures o.pc == OScan ==> o.cmd.BashTo?
  {
    hide NoDup, Partition, ClassesCounted, NamesDistinct, ClientsClassed, RegClass, RegClient, EpPointers, ListInv, CountInv,
         Table, BatchInv, UnwatchedInv;
  }

  /** Under the class's lock the operator only meets clients that are alive, with their lock, their class and SSL object. */
  lemma OpClientAlive(s: State)
    requires Inv(s) && s.op.pc in {OWantCli, ORecord, OUnCli, OSend}
    ensures LogAlive(s.mem, s.op.c) && SslAlive(s.mem, s.op.c) && CliLock(s.op.c) in s.locks
  {
    hide MemInv, LiveLocks, LockReady, HoldInv;
    Exclusion(s, Op, ClassListLock);
    assert !Has(s, Ep, ClassListLock);
    OpElsewhere(s.mem, RegV(s.reg), EpV(s.ep), s.op);
    ReachLocks(s);
    Reach(s.mem, RegV(s.reg), EpV(s.ep), s.op);
    ReachKernel(s.mem, RegV(s.reg), EpV(s.ep), s.op);
  }

  lemma StepSafe(s: State, t: Thread, ch: Choice)
    requires Inv(s) && Allowed(s, t, ch)
    ensures Step(s, t, ch) != Fault
  {
    hide Inv, Allowed, AcceptStep, NewClassStep, LinkStep, CleanStep, BatchStep, UnlinkStep, ReleaseStep, TraverseStep, SelectStep;
    match t
    case Reg => RegSafe(s, ch);
    case Op => OpSafe(s, ch);
    case Ep =>
      match s.ep.pc
      case EWait | EBatch | EWantCli | EWrite | EUnCli => BatchSafe(s, ch);
      case EWantList | EWantCls | EWantTot | EDelTot | EDelCls | EDelEp | EPut => UnlinkSafe(s);
      case _ => ReleaseSafe(s);
  }
}
