/** What holds in every run of the server, for any number of classes and clients and any interleaving of the three threads. */
module ServerTheorems {
  import opened Wrappers
  import opened Sequences
  import opened Registration
  import opened Registry
  import opened RegistryInvariant
  import opened RegistryLemmas
  import opened StepProof
  import opened SafetyProof
  import opened LockProof
  import MacAddress

  // ----- every run

  lemma InitMem(o: OpState)
    requires o == INIT.op
    ensures MemInv(INIT.mem, NoReg, Waiting, o)
  {
    InitTables();
    InitOp(o);
    hide Table, BatchInv, UnwatchedInv, CommandInv, BetweenClasses, InsideClass, Selecting;
  }

  lemma InitTables()
    ensures Table(INIT.mem.socks, SockOf(INIT.mem.clients), SockOwners(INIT.mem.tothead, NoReg, Waiting))
    ensures Table(INIT.mem.ssls, SslOf(INIT.mem.clients), SslOwners(INIT.mem.tothead, NoReg, Waiting))
    ensures Table(INIT.mem.interest, SockOf(INIT.mem.clients), Watched(INIT.mem.tothead, INIT.mem.unwatched, NoReg, Waiting))
    ensures BatchInv(Waiting, Registered(INIT.mem.tothead, INIT.mem.unwatched, NoReg))
  {
  }

  lemma InitOp(o: OpState)
    requires o == INIT.op
    ensures CommandInv(o)
    ensures BetweenClasses(Names(INIT.mem.classes), INIT.mem.classhead, o)
    ensures InsideClass(INIT.mem.classes, Names(INIT.mem.classes), INIT.mem.classhead, o)
    ensures Selecting(INIT.mem.tothead, INIT.mem.clients, o)
  {
  }

  lemma InitLocks()
    ensures HoldInv(INIT.locks, HoldingsOf(INIT))
    ensures LiveLocks(INIT.locks.Keys, {}, {})
  {
    hide MemInv;
  }

  lemma InitInv()
    ensures Inv(INIT)
  {
    InitMem(INIT.op);
    InitLocks();
    hide MemInv, HoldInv, LiveLocks;
  }

  lemma {:induction false} RunInv(tr: seq<State>, i: nat)
    requires Run(tr) && i < |tr|
    ensures Inv(tr[i])
  {
    hide Inv, Step;
    if i == 0 {
      InitInv();
    } else {
      RunInv(tr, i - 1);
      assert Next(tr[i - 1], tr[i - 1 + 1]);
      var t: Thread, ch: Choice :| Allowed(tr[i - 1], t, ch) && Step(tr[i - 1], t, ch) == Ok(tr[i]);
      StepKeeps(tr[i - 1], t, ch, tr[i]);
    }
  }

  lemma ReachableInv(s: State)
    requires Reachable(s)
    ensures Inv(s)
  {
    hide Inv, Next, INIT;
    var tr: seq<State> :| Run(tr) && tr[|tr| - 1] == s;
    RunInv(tr, |tr| - 1);
  }

  /** With a class freed only after the unlock that follows, no thread ever uses an object that is not alive,
      frees one twice, unlocks what it does not hold, destroys a held lock or closes what is not open. The order
      the code has instead is in `AsWritten`. */
  lemma NeverFaults(s: State, t: Thread, ch: Choice)
    requires Reachable(s) && Allowed(s, t, ch)
    ensures Step(s, t, ch) != Fault
  {
    hide Inv, Step;
    ReachableInv(s);
    StepSafe(s, t, ch);
  }

  // ----- reference counts

  function NameOf(classes: map<ClassId, Class>, k: ClassId): Text {
    if k in classes then classes[k].name else []
  }

  predicate IsFree(s: State, l: LockId) {
    l in s.locks && s.locks[l] == Free
  }

  /** The clients of the class that are linked, plus the registrations that hold a reference but are not linked yet. */
  function References(s: State, k: ClassId): nat
    requires k in s.mem.classes
  {
    |s.mem.classes[k].clilist| + One(k in InFlight(RegV(s.reg)))
  }

  /** Whenever the lock of all clients is free, every live class counts exactly its references, and it is on the
      class list exactly when there is one, except while `newclass` is between counting and listing it. */
  lemma ReferenceCounts(s: State, k: ClassId)
    requires Reachable(s) && IsFree(s, TotLock) && k in s.mem.classes
    ensures s.mem.classes[k].count == References(s, k)
    ensures k in s.mem.classhead <==> References(s, k) > 0 && k !in Building(RegV(s.reg))
  {
    hide NoDup, NamesDistinct, RegClient, Table, BatchInv, UnwatchedInv, CommandInv, BetweenClasses, InsideClass, Selecting,
         HoldInv, LiveLocks, LockReady, ByClass;
    ReachableInv(s);
    Unlocked(s);
    var m, rv, ev := s.mem, RegV(s.reg), EpV(s.ep);
    Ownership(m, rv, ev);
    if k !in m.classhead {
      UnlistedClassEmpty(m, rv, ev, k);
    }
  }

  /** With the lock of all clients free no registration is between its link operations and no removal between its unlink operations. */
  lemma Unlocked(s: State)
    requires Inv(s) && IsFree(s, TotLock)
    ensures !RegV(s.reg).OnTot? && !RegV(s.reg).OnBoth?
    ensures !EpV(s.ep).OffTot? && !EpV(s.ep).OffCls? && !EpV(s.ep).OffEp?
  {
    hide MemInv, LiveLocks, HoldInv;
    FreeUnheld(s, TotLock);
    assert !Has(s, Reg, TotLock) && !Has(s, Ep, TotLock);
  }

  /** In the window between `newclass` returning a class and the client being linked, the class stays alive, listed
      and counted, whatever is removed meanwhile: even when its client list is empty. */
  lemma WindowKeepsClass(s: State)
    requires Reachable(s) && s.reg.pc in {RUnList, RSetUp, RWantLink, RWantTot, RAddTot, RAddCls}
    ensures s.reg.k in s.mem.classhead && s.reg.k in s.mem.classes && s.mem.classes[s.reg.k].name == s.reg.who
    ensures s.mem.classes[s.reg.k].count > |s.mem.classes[s.reg.k].clilist|
  {
    hide MemInv, HoldInv, LiveLocks, LockReady, CountInv, Names, NoneNamed;
    ReachableInv(s);
    RegPart(s.mem, RegV(s.reg), EpV(s.ep), s.op);
    NameInNames(s.mem.classes, s.reg.k);
    CountAtLeast(s.mem.classes, InFlight(RegV(s.reg)), Unlinked(EpV(s.ep)), s.reg.k);
  }

  /** What the invariant says about the registration's class and the counts. */
  lemma RegPart(m: Memory, rv: RegView, ev: EpView, o: OpState)
    requires MemInv(m, rv, ev, o)
    ensures RegClass(Names(m.classes), m.classhead, rv) && CountInv(m.classes, InFlight(rv), Unlinked(ev))
  {
    hide NoDup, Partition, ClassesCounted, NamesDistinct, ClientsClassed, RegClass, RegClient, EpPointers, ListInv, CountInv,
         Table, BatchInv, UnwatchedInv, CommandInv, BetweenClasses, InsideClass, Selecting, KlassOf, Names, SockOf, SslOf;
  }

  lemma NameInNames(classes: map<ClassId, Class>, k: ClassId)
    ensures k in Names(classes) <==> k in classes
    ensures k in classes ==> Names(classes)[k] == classes[k].name
  {
  }

  lemma CountAtLeast(classes: map<ClassId, Class>, inFlight: set<ClassId>, unlinked: set<ClassId>, k: ClassId)
    requires CountInv(classes, inFlight, unlinked) && k in classes
    ensures classes[k].count == |classes[k].clilist| + One(k in inFlight) + One(k in unlinked)
  {
  }

  /** Every registered client's class is alive, listed, and bears the name the client registered under. */
  lemma RegisteredClassAlive(s: State, c: ClientId)
    requires Reachable(s) && c in s.mem.tothead
    ensures c in s.mem.clients && s.mem.clients[c].klass in s.mem.classhead && s.mem.clients[c].klass in s.mem.classes
    ensures s.mem.classes[s.mem.clients[c].klass].name == s.mem.clients[c].who
  {
    hide NoDup, NamesDistinct, Table, BatchInv, UnwatchedInv, CommandInv, BetweenClasses, InsideClass, Selecting, ListInv, CountInv,
         HoldInv, LiveLocks, LockReady, ByClass;
    ReachableInv(s);
    Ownership(s.mem, RegV(s.reg), EpV(s.ep));
  }

  /** Two clients registered at the same time share a class object exactly when they registered the same name. */
  lemma SharedClass(s: State, c: ClientId, d: ClientId)
    requires Reachable(s) && c in s.mem.tothead && d in s.mem.tothead
    ensures c in s.mem.clients && d in s.mem.clients
    ensures s.mem.clients[c].klass == s.mem.clients[d].klass <==> s.mem.clients[c].who == s.mem.clients[d].who
  {
    RegisteredClassAlive(s, c);
    RegisteredClassAlive(s, d);
    ListedNamesDistinct(s, s.mem.clients[c].klass, s.mem.clients[d].klass);
  }

  lemma ListedNamesDistinct(s: State, j: ClassId, k: ClassId)
    requires Reachable(s) && j in s.mem.classhead && k in s.mem.classhead
    ensures j in s.mem.classes && k in s.mem.classes
    ensures s.mem.classes[j].name == s.mem.classes[k].name ==> j == k
  {
    hide NoDup, Partition, Table, BatchInv, UnwatchedInv, CommandInv, BetweenClasses, InsideClass, Selecting, ListInv, CountInv,
         HoldInv, LiveLocks, LockReady, ByClass, ClientsClassed, RegClass, RegClient, EpPointers;
    ReachableInv(s);
    var a, b := IndexOf(s.mem.classhead, j), IndexOf(s.mem.classhead, k);
  }

  // ----- agreement of the lists and tables

  /** Whenever the lock of all clients is free, each listed class's list is the list of all clients filtered by class,
      in the same order. */
  lemma ListsAgree(s: State, k: ClassId)
    requires Reachable(s) && IsFree(s, TotLock) && k in s.mem.classhead
    ensures NoDup(s.mem.tothead)
    ensures k in s.mem.classes && s.mem.classes[k].clilist == ByClass(s.mem.tothead, KlassOf(s.mem.clients), k)
  {
    hide NoDup, NamesDistinct, ClassesCounted, ClientsClassed, RegClass, RegClient, EpPointers, CountInv, Table, BatchInv, UnwatchedInv,
         CommandInv, BetweenClasses, InsideClass, Selecting, KlassOf, ByClass, HoldInv, LiveLocks, LockReady;
    ReachableInv(s);
    Unlocked(s);
    Ownership(s.mem, RegV(s.reg), EpV(s.ep));
  }

  /** Hence the class lists partition the list of all clients: each client is on exactly one, once. */
  lemma ListsPartition(s: State, c: ClientId, k: ClassId)
    requires Reachable(s) && IsFree(s, TotLock) && k in s.mem.classhead && k in s.mem.classes
    ensures c in s.mem.classes[k].clilist <==> c in s.mem.tothead && c in s.mem.clients && s.mem.clients[c].klass == k
    ensures NoDup(s.mem.classes[k].clilist)
  {
    ListsAgree(s, k);
    ByClassMember(s.mem.tothead, KlassOf(s.mem.clients), k, c);
    ByClassNoDup(s.mem.tothead, KlassOf(s.mem.clients), k);
  }

  /** ... and the epoll set watches exactly the descriptors of the listed clients that it took, each under its own client: those of all
      listed clients if and only if no insertion failed. */
  lemma InterestAgrees(s: State)
    requires Reachable(s) && IsFree(s, TotLock)
    ensures s.mem.interest.Values == Members(s.mem.tothead) - s.mem.unwatched
    ensures forall c :: c in s.mem.tothead && c !in s.mem.unwatched ==>
              c in s.mem.clients && s.mem.clients[c].sock in s.mem.interest && s.mem.interest[s.mem.clients[c].sock] == c
    ensures s.mem.unwatched <= Members(s.mem.tothead)
    ensures s.mem.interest.Values == Members(s.mem.tothead) <==> s.mem.unwatched == {}
  {
    hide NoDup, NamesDistinct, ClassesCounted, ClientsClassed, RegClass, RegClient, EpPointers, CountInv, ListInv, BatchInv,
         CommandInv, BetweenClasses, InsideClass, Selecting, KlassOf, Partition, HoldInv, LiveLocks, LockReady;
    ReachableInv(s);
    Unlocked(s);
    WatchedAll(s.mem.interest, s.mem.clients, Members(s.mem.tothead) - s.mem.unwatched);
    if c :| c in s.mem.unwatched {
      assert c in Members(s.mem.tothead) && c !in s.mem.interest.Values;
    }
  }

  lemma WatchedAll(interest: map<Fd, ClientId>, clients: map<ClientId, Client>, owners: set<ClientId>)
    requires Table(interest, SockOf(clients), owners)
    ensures interest.Values == owners
    ensures forall c :: c in owners ==> c in clients && clients[c].sock in interest && interest[clients[c].sock] == c
  {
    assert forall f :: f in interest ==> interest[f] in owners;
  }

  // ----- resources

  /** The open descriptors are those of the registered clients, of the registration that has one and of the
      removal that has not closed it; likewise the SSL objects. No two clients share one. The descriptors of the
      logs, and what closing those twice may hit, are not in the table. */
  lemma ResourcesConserved(s: State)
    requires Reachable(s)
    ensures Table(s.mem.socks, SockOf(s.mem.clients), Members(s.mem.tothead) + RegSock(RegV(s.reg)) + EpSock(EpV(s.ep)))
    ensures Table(s.mem.ssls, SslOf(s.mem.clients), Members(s.mem.tothead) + RegSsl(RegV(s.reg)) + EpSsl(EpV(s.ep)))
    ensures Partition(s.mem.clients.Keys, Members(s.mem.tothead), RegOwn(RegV(s.reg)), EpOwn(EpV(s.ep)))
  {
    hide NoDup, NamesDistinct, ClassesCounted, ClientsClassed, RegClass, RegClient, EpPointers, CountInv, ListInv, BatchInv,
         UnwatchedInv, Table, CommandInv, BetweenClasses, InsideClass, Selecting, KlassOf, Partition, HoldInv, LiveLocks,
         LockReady;
    ReachableInv(s);
  }

  /** Whenever no registration and no removal is in progress nothing is left over from any that failed or ended:
      live clients and client locks are those of the registered clients, live classes and class locks those
      on the class list, and every count is the length of the class's list. */
  lemma NothingLeaks(s: State)
    requires Reachable(s) && s.reg.pc == RIdle && s.ep.pc in {EWait, EBatch}
    ensures s.mem.clients.Keys == Members(s.mem.tothead)
    ensures s.mem.classes.Keys == Members(s.mem.classhead)
    ensures Table(s.mem.socks, SockOf(s.mem.clients), Members(s.mem.tothead))
    ensures Table(s.mem.ssls, SslOf(s.mem.clients), Members(s.mem.tothead))
    ensures forall c :: CliLock(c) in s.locks <==> c in s.mem.tothead
    ensures forall k :: ClassLock(k) in s.locks <==> k in s.mem.classhead
    ensures forall k :: k in s.mem.classes ==> s.mem.classes[k].count == |s.mem.classes[k].clilist|
  {
    hide NoDup, NamesDistinct, ClassesCounted, ClientsClassed, RegClass, RegClient, EpPointers, ListInv, BatchInv, UnwatchedInv, Table,
         CommandInv, BetweenClasses, InsideClass, Selecting, KlassOf, SockOf, SslOf, HoldInv;
    ReachableInv(s);
    var rv, ev := RegV(s.reg), EpV(s.ep);
    assert SockOwners(s.mem.tothead, rv, ev) == Members(s.mem.tothead) == SslOwners(s.mem.tothead, rv, ev);
  }

  /** On every failure exit of `accept_newcli` no class holds a reference for the client being dropped. */
  lemma FailureTakesNoReference(s: State, k: ClassId)
    requires Reachable(s) && s.reg.pc in {RNoMem, RClean4, RClean3, RClean2, RClean1} && k in s.mem.classes
    ensures s.mem.classes[k].count == |s.mem.classes[k].clilist| + One(k in Unlinked(EpV(s.ep)))
  {
    hide MemInv, HoldInv, LiveLocks, LockReady;
    ReachableInv(s);
    MemCounts(s);
    CountAtLeast(s.mem.classes, {}, Unlinked(EpV(s.ep)), k);
  }

  /** ... and that client is alive, on no list and not watched, so the ladder can free it. */
  lemma FailureUnlisted(s: State)
    requires Reachable(s) && s.reg.pc in {RNoMem, RClean4, RClean3, RClean2, RClean1}
    ensures s.reg.n in s.mem.clients && s.reg.n !in s.mem.tothead && s.reg.n !in s.mem.interest.Values
  {
    hide Inv;
    ReachableInv(s);
    WatchedOnly(s);
    Unlisted(s);
  }

  lemma Unlisted(s: State)
    requires Inv(s)
    ensures forall c :: c in RegOwn(RegV(s.reg)) ==> c in s.mem.clients && c !in s.mem.tothead && c !in EpOwn(EpV(s.ep))
  {
    hide MemInv, HoldInv, LiveLocks, LockReady;
    RegNotEp(s.mem, RegV(s.reg), EpV(s.ep), s.op);
  }

  /** Only registered clients and the one being unlinked are watched. */
  lemma WatchedOnly(s: State)
    requires Inv(s)
    ensures forall c :: c in s.mem.interest.Values ==> c in s.mem.tothead || c in EpOwn(EpV(s.ep))
  {
    hide NoDup, Partition, NamesDistinct, ClassesCounted, ClientsClassed, RegClass, RegClient, EpPointers, ListInv, BatchInv,
         UnwatchedInv, CountInv, Table, CommandInv, BetweenClasses, InsideClass, Selecting, KlassOf, SockOf, SslOf, HoldInv,
         LiveLocks, LockReady;
    InTable(s.mem.interest, SockOf(s.mem.clients), Watched(s.mem.tothead, s.mem.unwatched, RegV(s.reg), EpV(s.ep)));
  }

  lemma InTable(table: map<nat, ClientId>, number: map<ClientId, nat>, owners: set<ClientId>)
    requires Table(table, number, owners)
    ensures table.Values <= owners
  {
  }

  // ----- the batch

  /** Every event of the batch still to be handled is for a client that is alive and registered, with its descriptor
      and SSL object open, whatever earlier events of the batch freed; and no client comes twice. */
  lemma BatchSafeToDispatch(s: State, j: nat)
    requires Reachable(s) && s.ep.pc != EWait && s.ep.i <= j < |s.ep.evs| && (s.ep.pc == EBatch || s.ep.i != j)
    ensures var c := s.ep.evs[j].cli; c in s.mem.tothead && SockOpen(s.mem, c) && SslAlive(s.mem, c)
    ensures forall i :: 0 <= i < |s.ep.evs| && i != j ==> s.ep.evs[i].cli != s.ep.evs[j].cli
  {
    hide MemInv, HoldInv, LiveLocks, LockReady;
    ReachableInv(s);
    PendingEvents(s.mem, RegV(s.reg), EpV(s.ep), s.op);
    ReachKernel(s.mem, RegV(s.reg), EpV(s.ep), s.op);
  }

  lemma PendingEvents(m: Memory, rv: RegView, ev: EpView, o: OpState)
    requires MemInv(m, rv, ev, o)
    ensures !ev.Waiting? ==> forall i, j :: 0 <= i < j < |ev.evs| ==> ev.evs[i].cli != ev.evs[j].cli
    ensures !ev.Waiting? ==>
              forall j :: ev.i <= j < |ev.evs| && (ev.AtBatch? || ev.i != j) ==> ev.evs[j].cli in m.tothead
  {
    hide NoDup, NamesDistinct, ClassesCounted, ClientsClassed, RegClass, RegClient, EpPointers, ListInv, Table, CountInv, Partition,
         CommandInv, BetweenClasses, InsideClass, Selecting, KlassOf, SockOf, SslOf;
  }

  /** When a hang-up ends the batch early, the clients of the skipped events are still registered. */
  lemma SkippedStayRegistered(s: State, s': State, j: nat)
    requires Reachable(s) && s.ep.pc == EFree && s.ep.brk && ReleaseStep(s) == Ok(s') && s.ep.i < j < |s.ep.evs|
    ensures s'.ep.pc == EWait && s.ep.c !in s'.mem.clients
    ensures s.ep.evs[j].cli in s'.mem.tothead && s.ep.evs[j].cli in s'.mem.clients && s.ep.evs[j].cli in s'.mem.interest.Values
  {
    hide Inv;
    ReachableInv(s);
    BatchRest(s, j);
  }

  /** While a client is being freed, the clients of the events after its own are registered and watched. */
  lemma BatchRest(s: State, j: nat)
    requires Inv(s) && s.ep.pc == EFree && s.ep.i < j < |s.ep.evs|
    ensures s.ep.evs[j].cli in s.mem.tothead && s.ep.evs[j].cli in s.mem.clients && s.ep.evs[j].cli in s.mem.interest.Values
    ensures s.ep.evs[j].cli != s.ep.c
  {
    hide MemInv, HoldInv, LiveLocks, LockReady;
    var m, rv, ev := s.mem, RegV(s.reg), EpV(s.ep);
    BatchPart(m, rv, ev, s.op);
    var c := s.ep.evs[j].cli;
    assert c in Watched(m.tothead, m.unwatched, rv, ev);
    assert m.interest[SockOf(m.clients)[c]] == c;
  }

  /** What the invariant says about the batch and the epoll set. */
  lemma BatchPart(m: Memory, rv: RegView, ev: EpView, o: OpState)
    requires MemInv(m, rv, ev, o)
    ensures Table(m.interest, SockOf(m.clients), Watched(m.tothead, m.unwatched, rv, ev))
    ensures BatchInv(ev, Registered(m.tothead, m.unwatched, rv))
  {
    hide NoDup, Partition, ClassesCounted, NamesDistinct, ClientsClassed, RegClass, RegClient, EpPointers, ListInv, CountInv,
         Table, BatchInv, UnwatchedInv, CommandInv, BetweenClasses, InsideClass, Selecting, KlassOf, Names, SockOf, SslOf;
  }

  // ----- destruction

  /** When `putclass` is about to free a class, no other thread holds its lock or waits for it, and no client, no
      registration and no traversal refers to the class. */
  lemma ClassFreedUnused(s: State)
    requires Reachable(s) && s.ep.pc == EPut && s.ep.k in s.mem.classes && s.mem.classes[s.ep.k].count == 1
    ensures forall t: Thread :: t != Ep ==> !Has(s, t, ClassLock(s.ep.k)) && Wants(s, t) != Some(ClassLock(s.ep.k))
    ensures s.mem.classes[s.ep.k].clilist == [] && s.ep.k !in InFlight(RegV(s.reg)) && !Traversing(s.op)
  {
    hide MemInv, HoldInv, LiveLocks, LockReady;
    ReachableInv(s);
    Exclusion(s, Ep, ClassListLock);
    Exclusion(s, Ep, TotLock);
    Exclusion(s, Ep, ClassLock(s.ep.k));
    assert !Has(s, Reg, ClassListLock) && !Has(s, Op, ClassListLock);
    assert !Has(s, Reg, ClassLock(s.ep.k)) && !Has(s, Op, ClassLock(s.ep.k));
    MemCounts(s);
    CountAtLeast(s.mem.classes, InFlight(RegV(s.reg)), Unlinked(EpV(s.ep)), s.ep.k);
  }

  lemma MemCounts(s: State)
    requires Inv(s)
    ensures CountInv(s.mem.classes, InFlight(RegV(s.reg)), Unlinked(EpV(s.ep)))
  {
    hide NoDup, Partition, NamesDistinct, ClassesCounted, ClientsClassed, RegClass, RegClient, EpPointers, ListInv, BatchInv,
         UnwatchedInv, CountInv, Table, CommandInv, BetweenClasses, InsideClass, Selecting, HoldInv, LiveLocks, LockReady;
  }

  /** From the moment the class leaves the class list until the unlock after it, which is as late as it can be freed,
      nothing else can reach it any more. */
  lemma DyingClassUnreachable(s: State, c: ClientId)
    requires Reachable(s) && s.ep.pc in {EUnTot, EUnCls} && s.ep.dying
    ensures s.ep.k in s.mem.classes && s.ep.k !in s.mem.classhead
    ensures c in s.mem.tothead && c in s.mem.clients ==> s.mem.clients[c].klass != s.ep.k
    ensures s.ep.k !in InFlight(RegV(s.reg)) && Wants(s, Reg) != Some(ClassLock(s.ep.k)) && Wants(s, Op) != Some(ClassLock(s.ep.k))
  {
    hide MemInv, HoldInv, LiveLocks, LockReady;
    ReachableInv(s);
    Exclusion(s, Ep, ClassListLock);
    assert !Has(s, Reg, ClassListLock) && !Has(s, Op, ClassListLock);
    ListedClasses(s, c);
  }

  /** What clients and registrations refer to is on the class list; what is being freed is not. */
  lemma ListedClasses(s: State, c: ClientId)
    requires Inv(s)
    ensures c in s.mem.tothead && c in s.mem.clients ==> s.mem.clients[c].klass in s.mem.classhead
    ensures s.reg.pc in {RUnList, RSetUp, RWantLink, RWantTot, RAddTot, RAddCls} ==> s.reg.k in s.mem.classhead
    ensures forall k :: k in Dying(EpV(s.ep)) ==> k in s.mem.classes && k !in s.mem.classhead
  {
    hide NoDup, NamesDistinct, ClassesCounted, EpPointers, ListInv, BatchInv, UnwatchedInv, CountInv, Table, RegClient, NoneNamed,
         CommandInv, BetweenClasses, InsideClass, Selecting, KlassOf, SockOf, SslOf, HoldInv, LiveLocks, LockReady;
    Ownership(s.mem, RegV(s.reg), EpV(s.ep));
  }

  /** When a client's lock is destroyed no thread holds it or waits for it, the client is on no list, and neither a
      broadcast nor a listing is at it. A `cmd_bashto` that selected it earlier may still use it. */
  lemma ClientLockDestroyedUnused(s: State)
    requires Reachable(s) && s.ep.pc == EDestroy
    ensures IsFree(s, CliLock(s.ep.c)) && forall t: Thread :: Wants(s, t) != Some(CliLock(s.ep.c))
    ensures s.ep.c !in s.mem.tothead && s.ep.c !in s.mem.interest.Values
    ensures s.op.pc in {OWantCli, ORecord, OUnCli, OSend} ==> s.op.c != s.ep.c
  {
    hide NoDup, NamesDistinct, ClassesCounted, ClientsClassed, RegClass, RegClient, EpPointers, ListInv, BatchInv,
         UnwatchedInv, CountInv, Table, CommandInv, BetweenClasses, InsideClass, Selecting, KlassOf, SockOf, SslOf, HoldInv,
         LiveLocks, LockReady;
    ReachableInv(s);
    ClientLockFree(s);
    OpElsewhere(s.mem, RegV(s.reg), EpV(s.ep), s.op);
    InTable(s.mem.interest, SockOf(s.mem.clients), Watched(s.mem.tothead, s.mem.unwatched, RegV(s.reg), EpV(s.ep)));
  }

  // ----- deadlock

  /** The order in which locks are taken. */
  function Rank(l: LockId): nat {
    match l
    case ClassListLock => 0
    case ClassLock(_) => 1
    case TotLock | CliLock(_) => 2
  }

  /** The thread is stopped at a lock that another holds. */
  predicate BlockedOn(s: State, t: Thread, l: LockId) {
    Wants(s, t) == Some(l) && l in s.locks && s.locks[l] != Free
  }

  predicate IsBlocked(s: State, t: Thread) {
    Wants(s, t).Some? && BlockedOn(s, t, Wants(s, t).value)
  }

  predicate WaitsFor(s: State, t: Thread, u: Thread) {
    IsBlocked(s, t) && Has(s, u, Wants(s, t).value)
  }

  /** Being blocked is the only thing, besides a fault, that stops a step. */
  lemma BlockedMeans(s: State, t: Thread, ch: Choice)
    requires Inv(s) && Allowed(s, t, ch)
    ensures Step(s, t, ch) == Blocked <==> IsBlocked(s, t)
  {
    hide Inv, Step, IsBlocked;
    StepSafe(s, t, ch);
    match t
    case Reg => RegBlocked(s, ch);
    case Ep => EpBlocked(s, ch);
    case Op => OpBlocked(s, ch);
  }

  lemma RegBlocked(s: State, ch: Choice)
    requires Allowed(s, Reg, ch) && Step(s, Reg, ch) != Fault
    ensures Step(s, Reg, ch) == Blocked <==> IsBlocked(s, Reg)
  {
    hide ServerName, AllAlive, SockOpen, SslAlive;
  }

  lemma EpBlocked(s: State, ch: Choice)
    requires Allowed(s, Ep, ch) && Step(s, Ep, ch) != Fault
    ensures Step(s, Ep, ch) == Blocked <==> IsBlocked(s, Ep)
  {
    hide AllAlive, SockOpen, SslAlive, LogFile, Remove;
  }

  lemma OpBlocked(s: State, ch: Choice)
    requires Allowed(s, Op, ch) && Step(s, Op, ch) != Fault
    ensures Step(s, Op, ch) == Blocked <==> IsBlocked(s, Op)
  {
    hide RecordText, SslAlive, LogFile, Visits;
  }

  /** A thread holds at most one lock of each rank, and the lock it waits for ranks above all it holds. */
  lemma LockOrder(s: State, t: Thread, l: LockId, l': LockId)
    requires Has(s, t, l)
    ensures Has(s, t, l') && Rank(l) == Rank(l') ==> l == l'
    ensures Wants(s, t) == Some(l') ==> Rank(l) < Rank(l')
  {
  }

  /** A blocked thread waits for another one, and the lock that one may wait for in turn ranks higher. */
  lemma HolderOf(s: State, t: Thread) returns (u: Thread)
    requires Inv(s) && IsBlocked(s, t)
    ensures WaitsFor(s, t, u)
  {
    hide MemInv, LiveLocks, LockReady;
    var l := Wants(s, t).value;
    u := s.locks[l].holder;
    assert Agrees(s.locks[l], Has(s, Reg, l), Has(s, Ep, l), Has(s, Op, l));
  }

  /** Each element of the path waits for the next one. */
  predicate WaitChain(s: State, path: seq<Thread>) {
    |path| > 0 && forall i :: 0 <= i < |path| - 1 ==> WaitsFor(s, path[i], path[i + 1])
  }

  lemma {:induction false} RanksAscend(s: State, path: seq<Thread>)
    requires WaitChain(s, path) && |path| > 1 && Wants(s, path[|path| - 1]).Some?
    ensures Wants(s, path[0]).Some? && Rank(Wants(s, path[0]).value) < Rank(Wants(s, path[|path| - 1]).value)
  {
    hide Wants, Has;
    assert WaitsFor(s, path[0], path[0 + 1]);
    LockOrder(s, path[1], Wants(s, path[0]).value, Wants(s, path[1]).value) by {
      if |path| > 2 {
        assert WaitsFor(s, path[1], path[1 + 1]);
      }
    }
    if |path| > 2 {
      RanksAscend(s, path[1..]);
    }
  }

  /** The wait-for relation has no cycle, in any state. */
  lemma NoWaitCycle(s: State, path: seq<Thread>)
    requires WaitChain(s, path) && |path| > 1
    ensures path[0] != path[|path| - 1]
  {
    assert WaitsFor(s, path[0], path[0 + 1]);
    if Wants(s, path[|path| - 1]).Some? {
      RanksAscend(s, path);
    }
  }

  /** From every thread a chain of waits leads to a thread that is not blocked. */
  lemma {:induction false} ChainEnds(s: State, t: Thread) returns (path: seq<Thread>)
    requires Inv(s)
    ensures WaitChain(s, path) && path[0] == t && !IsBlocked(s, path[|path| - 1])
    decreases if IsBlocked(s, t) then 3 - Rank(Wants(s, t).value) else 0
  {
    hide Inv, Wants, Has;
    if !IsBlocked(s, t) {
      return [t];
    }
    var u := HolderOf(s, t);
    if IsBlocked(s, u) {
      LockOrder(s, u, Wants(s, t).value, Wants(s, u).value);
    }
    var rest := ChainEnds(s, u);
    path := [t] + rest;
  }

  lemma {:induction false} Bound(xs: set<nat>) returns (b: nat)
    ensures forall x :: x in xs ==> x < b
    decreases |xs|
  {
    if xs == {} {
      b := 0;
    } else {
      var x :| x in xs;
      var b' := Bound(xs - {x});
      b := if x < b' then b' else x + 1;
      assert forall y :: y in xs ==> y == x || y in xs - {x};
    }
  }

  /** The server never deadlocks: in every reachable state some thread can take a step. */
  lemma SomeThreadSteps(s: State)
    requires Reachable(s)
    ensures exists t: Thread, ch: Choice :: Allowed(s, t, ch) && Step(s, t, ch).Ok?
  {
    hide Inv, Step, Wants, Has;
    ReachableInv(s);
    var path := ChainEnds(s, Op);
    var t := path[|path| - 1];
    var b := Bound(s.mem.clients.Keys + s.mem.socks.Keys + s.mem.ssls.Keys + s.mem.classes.Keys);
    var ch := Choice(false, b, NO_ADDRESS, Registration.Record(Zeros(DEVID_LEN), NO_MAC), ['x'], 1, [], ListClass);
    assert t != Ep || s.ep.pc != EWait by {
      if |path| > 1 && t == Ep {
        assert WaitsFor(s, path[|path| - 2], path[|path| - 2 + 1]);
        HoldsSomething(s, Wants(s, path[|path| - 2]).value);
      }
    }
    BlockedMeans(s, t, ch);
    StepSafe(s, t, ch);
  }

  lemma HoldsSomething(s: State, l: LockId)
    requires Has(s, Ep, l)
    ensures s.ep.pc != EWait
  {
  }

  // ----- broadcast and selection

  lemma {:induction false} EnteredNone(cmd: Command, ks: seq<ClassId>, names: map<ClassId, Text>)
    requires forall k :: k in ks && k in names ==> !Visits(cmd, names[k])
    ensures Entered(cmd, ks, names) == []
  {
    if ks != [] {
      assert ks[|ks| - 1] in ks;
      EnteredNone(cmd, ks[..|ks| - 1], names);
    }
  }

  /** A broadcast enters the one listed class with the name. */
  lemma {:induction false} EnteredOne(cmd: Command, classhead: seq<ClassId>, names: map<ClassId, Text>, i: nat, j: nat)
    requires NamesDistinct(names, classhead) && cmd.Send? && i < j <= |classhead| && names[classhead[i]] == cmd.name
    ensures Entered(cmd, classhead[..j], names) == [classhead[i]]
  {
    var ks := classhead[..j];
    assert ks[..j - 1] == classhead[..j - 1];
    if i == j - 1 {
      EnteredNone(cmd, classhead[..i], names);
    } else {
      EnteredOne(cmd, classhead, names, i, j - 1);
    }
  }

  lemma OpParts(s: State)
    requires Inv(s)
    ensures NoDup(s.mem.classhead) && NamesDistinct(Names(s.mem.classes), s.mem.classhead)
    ensures BetweenClasses(Names(s.mem.classes), s.mem.classhead, s.op)
    ensures InsideClass(s.mem.classes, Names(s.mem.classes), s.mem.classhead, s.op)
    ensures Selecting(s.mem.tothead, s.mem.clients, s.op) && CommandInv(s.op)
  {
    hide NoDup, Partition, NamesDistinct, ClassesCounted, ClientsClassed, RegClass, RegClient, EpPointers, ListInv, BatchInv,
         UnwatchedInv, CountInv, Table, CommandInv, BetweenClasses, InsideClass, Selecting, LiveLocks, HoldInv;
  }

  /** When `cmd_sendcmd` leaves the class with the given name it has attempted exactly that class's clients, each
      once, in list order, and no other; the list is still the one found when its lock was taken. */
  lemma BroadcastClass(s: State)
    requires Reachable(s) && s.op.pc == OUnCls && s.op.cmd.Send?
    ensures s.op.k in s.mem.classes && s.mem.classes[s.op.k].name == s.op.cmd.name
    ensures s.op.taken == [(s.op.k, s.mem.classes[s.op.k].clilist)]
    ensures s.op.done == s.mem.classes[s.op.k].clilist && NoDup(s.op.done)
  {
    hide Inv;
    ClassListNoDup(s, s.op.k) by {
      ReachableInv(s);
      OpParts(s);
    }
    ReachableInv(s);
    OpParts(s);
    var names, o := Names(s.mem.classes), s.op;
    NameInNames(s.mem.classes, o.k);
    EnteredOne(o.cmd, s.mem.classhead, names, o.i, o.i + 1);
    hide NamesDistinct, Selecting, Names, Entered;
    assert |o.taken| == 1;
    assert s.mem.classes[o.k].clilist[..o.j] == s.mem.classes[o.k].clilist;
    assert Flatten(Snapshots(o.taken[..0])) == [];
  }

  lemma ViewNoDup(tothead: seq<ClientId>, rv: RegView, ev: EpView)
    requires NoDup(tothead) && (ev.OffTot? ==> ev.c !in tothead)
    ensures NoDup(ClassView(tothead, rv, ev))
  {
  }

  /** No client is attempted twice: a class list never has a client twice, even in the middle of a link or an unlink. */
  lemma ClassListNoDup(s: State, k: ClassId)
    requires Reachable(s) && k in s.mem.classes
    ensures NoDup(s.mem.classes[k].clilist)
  {
    hide NamesDistinct, ClassesCounted, ClientsClassed, RegClass, RegClient, EpPointers, BatchInv, UnwatchedInv, CountInv, Table,
         CommandInv, BetweenClasses, InsideClass, Selecting, LiveLocks, HoldInv, ByClass, KlassOf;
    ReachableInv(s);
    Ownership(s.mem, RegV(s.reg), EpV(s.ep));
    ViewNoDup(s.mem.tothead, RegV(s.reg), EpV(s.ep));
    ByClassNoDup(ClassView(s.mem.tothead, RegV(s.reg), EpV(s.ep)), KlassOf(s.mem.clients), k);
  }

  /** At its end `cmd_sendcmd` has attempted the clients of the listed class with the given name as that class's list
      stood when its lock was taken, or none if no listed class has the name. */
  lemma BroadcastDone(s: State)
    requires Reachable(s) && s.op.pc == OUnList && s.op.cmd.Send?
    ensures forall i :: 0 <= i < |s.mem.classhead| && NameOf(s.mem.classes, s.mem.classhead[i]) == s.op.cmd.name ==>
              |s.op.taken| == 1 && s.op.taken[0].0 == s.mem.classhead[i] && s.op.done == s.op.taken[0].1
    ensures (forall i :: 0 <= i < |s.mem.classhead| ==> NameOf(s.mem.classes, s.mem.classhead[i]) != s.op.cmd.name) ==> s.op.done == []
  {
    hide Inv;
    ReachableInv(s);
    OpParts(s);
    var names, o, ks := Names(s.mem.classes), s.op, s.mem.classhead;
    assert ks[..|ks|] == ks;
    if i :| 0 <= i < |ks| && NameOf(s.mem.classes, ks[i]) == o.cmd.name {
      Listed(names, s.mem.classes, ks, i);
      EnteredOne(o.cmd, ks, names, i, |ks|);
      OneTaken(o.taken);
      forall j | 0 <= j < |ks| && NameOf(s.mem.classes, ks[j]) == o.cmd.name
        ensures j == i
      {
        Listed(names, s.mem.classes, ks, j);
      }
    } else {
      forall k | k in ks
        ensures k in names ==> !Visits(o.cmd, names[k])
      {
        Listed(names, s.mem.classes, ks, IndexOf(ks, k));
      }
      EnteredNone(o.cmd, ks, names);
      assert o.taken == [];
    }
  }

  lemma Listed(names: map<ClassId, Text>, classes: map<ClassId, Class>, ks: seq<ClassId>, i: nat)
    requires names == Names(classes) && NamesDistinct(names, ks) && i < |ks|
    ensures ks[i] in names && names[ks[i]] == NameOf(classes, ks[i])
  {
  }

  lemma OneTaken(taken: seq<(ClassId, seq<ClientId>)>)
    requires |Keys(taken)| == 1
    ensures |taken| == 1 && Keys(taken) == [taken[0].0] && Flatten(Snapshots(taken)) == taken[0].1
  {
    assert Snapshots(taken)[..0] == [];
  }

  /** The listing of classes enters none of them. */
  lemma ClassListingDone(s: State)
    requires Reachable(s) && s.op.pc == OUnList && s.op.cmd.ListClass?
    ensures s.op.taken == [] && s.op.done == []
  {
    hide Inv;
    ReachableInv(s);
    OpParts(s);
    EnteredNone(s.op.cmd, s.mem.classhead, Names(s.mem.classes));
    assert Snapshots(s.op.taken) == [];
  }

  /** The listing goes through every class once, in list order, each as it stood when its lock was taken. */
  lemma ListingDone(s: State)
    requires Reachable(s) && s.op.pc == OUnList && s.op.cmd.ListCli?
    ensures Keys(s.op.taken) == s.mem.classhead && s.op.done == Flatten(Snapshots(s.op.taken))
  {
    hide Inv;
    ReachableInv(s);
    OpParts(s);
    EnteredAll(s.op.cmd, s.mem.classhead, Names(s.mem.classes));
  }

  lemma {:induction false} EnteredAll(cmd: Command, ks: seq<ClassId>, names: map<ClassId, Text>)
    requires cmd.ListCli? && forall k :: k in ks ==> k in names
    ensures Entered(cmd, ks, names) == ks
  {
    if ks != [] {
      assert ks[|ks| - 1] in ks;
      EnteredAll(cmd, ks[..|ks| - 1], names);
    }
  }

  /** `cmd_bashto` selects the first client of the list of all clients that has the MAC, and gives up only if none has it. */
  lemma SelectsFirst(s: State)
    requires Reachable(s) && s.op.pc == OUnTot && s.op.cmd.BashTo?
    ensures match s.op.found
            case Some(c) => exists i :: 0 <= i < |s.mem.tothead| && s.mem.tothead[i] == c && MacIs(s.mem.clients, c, s.op.cmd.mac)
                              && forall j :: 0 <= j < i ==> !MacIs(s.mem.clients, s.mem.tothead[j], s.op.cmd.mac)
            case None => forall i :: 0 <= i < |s.mem.tothead| ==> !MacIs(s.mem.clients, s.mem.tothead[i], s.op.cmd.mac)
  {
    hide Inv;
    ReachableInv(s);
    OpParts(s);
  }

  /** Typing a MAC as the listing shows it selects a client with that MAC: the first one, and so the listed one or one before it. */
  lemma ListedMacSelects(s: State, c: ClientId, was: Mac)
    requires Reachable(s) && s.op.pc == OUnTot && s.op.cmd.BashTo? && c in s.mem.tothead && c in s.mem.clients
    requires s.op.cmd.mac == MacAddress.Parsed(MacAddress.GetMacStr(s.mem.clients[c].mac), 0, was)
    ensures s.op.found.Some? && s.op.found.value in s.mem.tothead
    ensures MacIs(s.mem.clients, s.op.found.value, s.mem.clients[c].mac)
    ensures IndexOf(s.mem.tothead, s.op.found.value) <= IndexOf(s.mem.tothead, c)
  {
    hide Reachable;
    MacAddress.MacRoundTrip(s.mem.clients[c].mac, was);
    SelectsFirst(s);
    var i := IndexOf(s.mem.tothead, c);
    assert MacIs(s.mem.clients, s.mem.tothead[i], s.op.cmd.mac);
  }
}
