/**
 Every step of the epoll thread keeps the memory part of the invariant. Each lemma is one change of the
 shared memory; parts of the invariant it does not touch stay hidden and carry over as they are.
 */
module RemovalProof {
  import opened Sequences
  import opened Registry
  import opened RegistryInvariant
  import opened RegistryLemmas

  // ----- the batch

  /** The client at hand, if any, is still registered. */
  predicate InBatch(ev: EpView) {
    ev.Waiting? || ev.AtBatch? || ev.Serving? || ev.Locked?
  }

  /** Up to the removal itself the thread touches no memory but the log files. */
  lemma BatchMoves(m: Memory, rv: RegView, ev: EpView, ev': EpView, o: OpState)
    requires MemInv(m, rv, ev, o) && InBatch(ev) && InBatch(ev')
    requires EpPointers(Names(m.classes), m.classhead, m.clients, |m.tothead|, ev')
    requires BatchInv(ev', Registered(m.tothead, m.unwatched, rv))
    ensures MemInv(m, rv, ev', o)
  {
    hide NoDup, Partition, ClassesCounted, NamesDistinct, ClientsClassed, NoneNamed, RegClass, EpPointers, ListInv, CountInv,
         Table, BatchInv, UnwatchedInv, CommandInv, BetweenClasses, InsideClass, Selecting, KlassOf, Names, SockOf, SslOf;
  }

  /** Every client epoll reports is registered. */
  lemma Reported(interest: map<nat, ClientId>, number: map<ClientId, nat>, registered: set<ClientId>, evs: seq<Event>)
    requires Table(interest, number, registered) && NoDup(EventClients(evs))
    requires forall e :: e in evs ==> e.cli in interest.Values
    ensures BatchInv(AtBatch(evs, 0), registered)
  {
    forall j | 0 <= j < |evs|
      ensures evs[j].cli in registered
    {
      assert evs[j] in evs;
    }
    forall i, j | 0 <= i < j < |evs|
      ensures evs[i].cli != evs[j].cli
    {
      assert EventClients(evs)[i] != EventClients(evs)[j];
    }
  }

  lemma PointersMove(m: Memory, ev: EpView)
    requires !ev.Locked? && !ev.OffTot? && !ev.OffCls? && !ev.OffEp? && !ev.Given?
    ensures EpPointers(Names(m.classes), m.classhead, m.clients, |m.tothead|, ev)
  {
  }

  /** A step within the batch. */
  lemma BatchSilent(m: Memory, rv: RegView, ev: EpView, ev': EpView, o: OpState)
    requires MemInv(m, rv, ev, o) && InBatch(ev) && InBatch(ev')
    requires (ev.AtBatch? && ev'.Waiting?)
             || (ev.AtBatch? && ev.i < |ev.evs| && ev' == Serving(ev.evs, ev.i, ev.evs[ev.i].cli))
             || (ev.Serving? && ev' == AtBatch(ev.evs, ev.i + 1))
             || (ev.Serving? && ev.c in m.clients && ev' == Locked(ev.evs, ev.i, ev.c, m.clients[ev.c].klass))
    ensures MemInv(m, rv, ev', o)
  {
    hide NoDup, Partition, ClassesCounted, NamesDistinct, ClientsClassed, NoneNamed, RegClass, EpPointers, ListInv, CountInv,
         Table, BatchInv, UnwatchedInv, CommandInv, BetweenClasses, InsideClass, Selecting, KlassOf, Names, SockOf, SslOf;
    BatchCursor(ev, ev', Registered(m.tothead, m.unwatched, rv));
    if ev'.Locked? {
      LockPointers(m, rv, ev, ev');
    } else {
      PointersMove(m, ev');
    }
    BatchMoves(m, rv, ev, ev', o);
  }

  lemma BatchCursor(ev: EpView, ev': EpView, registered: set<ClientId>)
    requires BatchInv(ev, registered)
    requires ev'.Waiting? || (ev.Serving? && ev' == AtBatch(ev.evs, ev.i + 1))
             || (ev.AtBatch? && ev.i < |ev.evs| && ev'.Serving?
                 && ev'.evs == ev.evs && ev'.i == ev.i && ev'.c == ev.evs[ev.i].cli)
             || (ev.Serving? && ev'.Locked? && ev'.evs == ev.evs && ev'.i == ev.i && ev'.c == ev.c)
    ensures BatchInv(ev', registered)
  {
  }

  lemma LockPointers(m: Memory, rv: RegView, ev: EpView, ev': EpView)
    requires ev.Serving? && BatchInv(ev, Registered(m.tothead, m.unwatched, rv))
    requires ClientsClassed(Names(m.classes), m.classhead, m.clients, m.tothead)
    requires ev.c in m.clients && ev' == Locked(ev.evs, ev.i, ev.c, m.clients[ev.c].klass)
    ensures EpPointers(Names(m.classes), m.classhead, m.clients, |m.tothead|, ev')
  {
  }

  lemma Report(m: Memory, rv: RegView, ev: EpView, o: OpState, evs: seq<Event>)
    requires MemInv(m, rv, ev, o) && ev.Waiting? && NoDup(EventClients(evs))
    requires forall e :: e in evs ==> e.cli in m.interest.Values
    ensures MemInv(m, rv, AtBatch(evs, 0), o)
  {
    hide NoDup, Partition, ClassesCounted, NamesDistinct, ClientsClassed, NoneNamed, RegClass, EpPointers, ListInv, CountInv,
         Table, BatchInv, UnwatchedInv, CommandInv, BetweenClasses, InsideClass, Selecting, KlassOf, Names, SockOf, SslOf;
    assert Watched(m.tothead, m.unwatched, rv, ev) == Registered(m.tothead, m.unwatched, rv);
    Reported(m.interest, SockOf(m.clients), Registered(m.tothead, m.unwatched, rv), evs);
    PointersMove(m, AtBatch(evs, 0));
    BatchMoves(m, rv, ev, AtBatch(evs, 0), o);
  }

  // ----- unlinking

  lemma UnlinkTot(m: Memory, rv: RegView, ev: EpView, o: OpState)
    requires MemInv(m, rv, ev, o) && ev.Locked? && ev.c in m.tothead
    requires !rv.OnTot? && !rv.OnBoth? && o.pc !in {OScan, OUnTot}
    ensures MemInv(m.(tothead := Remove(m.tothead, ev.c)), rv, OffTot(ev.evs, ev.i, ev.c, ev.k, IndexOf(m.tothead, ev.c)), o)
  {
    hide NoDup, Partition, ClassesCounted, NamesDistinct, ClientsClassed, NoneNamed, RegClass, EpPointers, ListInv, CountInv,
         Table, BatchInv, UnwatchedInv, CommandInv, BetweenClasses, InsideClass, Selecting, KlassOf, Names, SockOf, SslOf;
    var tothead := Remove(m.tothead, ev.c);
    var ev' := OffTot(ev.evs, ev.i, ev.c, ev.k, IndexOf(m.tothead, ev.c));
    Ownership(m, rv, ev);
    MembersRemove(m.tothead, ev.c);
    PartitionLeave(m.clients.Keys, Members(m.tothead), RegOwn(rv), ev.c);
    UnlinkTotClients(m, rv, ev, o);
    UnlinkTotView(m.tothead, rv, ev);
    UnlinkTotWatch(m.tothead, m.unwatched, rv, ev);
    hide SockOwners, SslOwners, Watched, Linked, Registered, ClassView, Remove;
  }

  /** The client at hand sent an event, so it is watched; and the events still to come are for others. */
  lemma UnlinkTotWatch(tothead: seq<ClientId>, unwatched: set<ClientId>, rv: RegView, ev: EpView)
    requires ev.Locked? && ev.c in tothead && NoDup(tothead) && !rv.OnTot? && !rv.OnBoth?
    requires BatchInv(ev, Registered(tothead, unwatched, rv)) && UnwatchedInv(unwatched, Linked(tothead, rv))
    ensures var tothead' := Remove(tothead, ev.c); var ev' := OffTot(ev.evs, ev.i, ev.c, ev.k, IndexOf(tothead, ev.c));
            && SockOwners(tothead', rv, ev') == SockOwners(tothead, rv, ev)
            && SslOwners(tothead', rv, ev') == SslOwners(tothead, rv, ev)
            && Watched(tothead', unwatched, rv, ev') == Watched(tothead, unwatched, rv, ev)
            && BatchInv(ev', Registered(tothead', unwatched, rv)) && UnwatchedInv(unwatched, Linked(tothead', rv))
  {
    hide BatchInv, UnwatchedInv, Remove;
    var tothead' := Remove(tothead, ev.c);
    var ev' := OffTot(ev.evs, ev.i, ev.c, ev.k, IndexOf(tothead, ev.c));
    AtHandWatched(unwatched, Registered(tothead, unwatched, rv), ev);
    UnlinkTotOwners(tothead, unwatched, rv, ev);
    UnwatchedStays(unwatched, Linked(tothead, rv), ev.c, Linked(tothead', rv));
    BatchShrinks(ev, Registered(tothead, unwatched, rv), ev', Registered(tothead', unwatched, rv));
  }

  lemma UnlinkTotView(tothead: seq<ClientId>, rv: RegView, ev: EpView)
    requires ev.Locked? && ev.c in tothead && !rv.OnTot?
    ensures ClassView(Remove(tothead, ev.c), rv, OffTot(ev.evs, ev.i, ev.c, ev.k, IndexOf(tothead, ev.c))) == tothead
  {
    RemoveInsert(tothead, ev.c);
    hide Remove;
  }

  lemma AtHandWatched(unwatched: set<ClientId>, registered: set<ClientId>, ev: EpView)
    requires BatchInv(ev, registered) && registered !! unwatched && ev.Locked?
    ensures ev.c !in unwatched
  {
  }

  lemma UnwatchedStays(unwatched: set<ClientId>, linked: set<ClientId>, c: ClientId, linked': set<ClientId>)
    requires UnwatchedInv(unwatched, linked) && c !in unwatched && linked' == linked - {c}
    ensures UnwatchedInv(unwatched, linked')
  {
  }

  lemma UnlinkTotOwners(tothead: seq<ClientId>, unwatched: set<ClientId>, rv: RegView, ev: EpView)
    requires ev.Locked? && ev.c in tothead && ev.c !in unwatched && NoDup(tothead) && !rv.OnTot? && !rv.OnBoth?
    ensures var tothead' := Remove(tothead, ev.c); var ev' := OffTot(ev.evs, ev.i, ev.c, ev.k, IndexOf(tothead, ev.c));
            && SockOwners(tothead', rv, ev') == SockOwners(tothead, rv, ev)
            && SslOwners(tothead', rv, ev') == SslOwners(tothead, rv, ev)
            && Watched(tothead', unwatched, rv, ev') == Watched(tothead, unwatched, rv, ev)
            && Linked(tothead', rv) == Linked(tothead, rv) - {ev.c}
            && Registered(tothead', unwatched, rv) == Registered(tothead, unwatched, rv) - {ev.c}
  {
    MembersRemove(tothead, ev.c);
    hide Remove;
  }

  lemma UnlinkTotClients(m: Memory, rv: RegView, ev: EpView, o: OpState)
    requires ev.Locked? && ev.c in m.tothead && NoDup(m.tothead) && !rv.OnTot? && !rv.OnBoth? && o.pc !in {OScan, OUnTot}
    requires ClientsClassed(Names(m.classes), m.classhead, m.clients, m.tothead)
    requires RegClient(m.clients, m.tothead, rv) && EpPointers(Names(m.classes), m.classhead, m.clients, |m.tothead|, ev)
    ensures var tothead' := Remove(m.tothead, ev.c); var ev' := OffTot(ev.evs, ev.i, ev.c, ev.k, IndexOf(m.tothead, ev.c));
            && ClientsClassed(Names(m.classes), m.classhead, m.clients, tothead')
            && RegClient(m.clients, tothead', rv)
            && EpPointers(Names(m.classes), m.classhead, m.clients, |tothead'|, ev')
            && Selecting(tothead', m.clients, o)
  {
    RemoveNoDup(m.tothead, ev.c);
  }

  lemma BatchShrinks(ev: EpView, registered: set<ClientId>, ev': EpView, registered': set<ClientId>)
    requires BatchInv(ev, registered) && ev.Locked? && ev'.OffTot? && ev'.evs == ev.evs && ev'.i == ev.i && ev'.c == ev.c
    requires registered' == registered - {ev.c}
    ensures BatchInv(ev', registered')
  {
  }

  lemma BatchStays(ev: EpView, ev': EpView, registered: set<ClientId>)
    requires BatchInv(ev, registered) && !ev.Waiting? && !InBatch(ev')
    requires !ev.AtBatch? && ev'.evs == ev.evs && ev'.i == ev.i && ev'.c == ev.c
    ensures BatchInv(ev', registered)
  {
  }

  lemma UnlinkClass(m: Memory, rv: RegView, ev: EpView, o: OpState)
    requires MemInv(m, rv, ev, o) && ev.OffTot? && !rv.OnTot? && !(InClass(o) && o.k == ev.k) && ev.k in m.classes
    ensures ev.c in m.classes[ev.k].clilist
    ensures MemInv(m.(classes := m.classes[ev.k := m.classes[ev.k].(clilist := Remove(m.classes[ev.k].clilist, ev.c))]),
                   rv, OffCls(ev.evs, ev.i, ev.c, ev.k), o)
  {
    hide NoDup, Partition, ClassesCounted, NamesDistinct, ClientsClassed, NoneNamed, RegClass, EpPointers, ListInv, CountInv,
         Table, BatchInv, UnwatchedInv, CommandInv, BetweenClasses, InsideClass, Selecting, KlassOf, Names, SockOf, SslOf;
    hide ClassView;
    var ev' := OffCls(ev.evs, ev.i, ev.c, ev.k);
    Ownership(m, rv, ev);
    UnlinkClassLists(m, rv, ev);
    var c := m.classes[ev.k].(clilist := Remove(m.classes[ev.k].clilist, ev.c));
    var classes := m.classes[ev.k := c];
    NamesSame(m.classes, ev.k, c);
    TraversalFrame(m, classes, o);
    SameCounts(m.classes, classes, m.classhead);
    BatchStays(ev, ev', Registered(m.tothead, m.unwatched, rv));
    PointersStay(m, ev, ev');
  }

  lemma PointersStay(m: Memory, ev: EpView, ev': EpView)
    requires EpPointers(Names(m.classes), m.classhead, m.clients, |m.tothead|, ev)
    requires (ev.OffTot? && ev'.OffCls?) || (ev.OffCls? && ev'.OffEp?)
    requires ev'.c == ev.c && ev'.k == ev.k
    ensures EpPointers(Names(m.classes), m.classhead, m.clients, |m.tothead|, ev')
  {
  }

  lemma UnlinkClassLists(m: Memory, rv: RegView, ev: EpView)
    requires ev.OffTot? && !rv.OnTot? && ev.k in m.classes && ev.c !in m.tothead
    requires EpPointers(Names(m.classes), m.classhead, m.clients, |m.tothead|, ev)
    requires ListInv(m.classes, KlassOf(m.clients), ClassView(m.tothead, rv, ev)) && CountInv(m.classes, InFlight(rv), {})
    ensures ev.c in m.classes[ev.k].clilist
    ensures var classes := m.classes[ev.k := m.classes[ev.k].(clilist := Remove(m.classes[ev.k].clilist, ev.c))];
            var ev' := OffCls(ev.evs, ev.i, ev.c, ev.k);
            ListInv(classes, KlassOf(m.clients), ClassView(m.tothead, rv, ev')) && CountInv(classes, InFlight(rv), {ev.k})
  {
    hide Remove, ByClass;
    var a, b := m.tothead[..ev.pos], m.tothead[ev.pos..];
    assert a + b == m.tothead;
    forall k | k in m.classes {
      ByClassRemove(a, ev.c, b, KlassOf(m.clients), k);
    }
  }

  lemma Unwatch(m: Memory, rv: RegView, ev: EpView, o: OpState)
    requires MemInv(m, rv, ev, o) && ev.OffCls? && ev.c in m.clients
    ensures MemInv(m.(interest := m.interest - {m.clients[ev.c].sock}), rv, OffEp(ev.evs, ev.i, ev.c, ev.k), o)
  {
    hide NoDup, Partition, ClassesCounted, NamesDistinct, ClientsClassed, NoneNamed, RegClass, EpPointers, ListInv, CountInv,
         Table, BatchInv, UnwatchedInv, CommandInv, BetweenClasses, InsideClass, Selecting, KlassOf, Names, SockOf, SslOf;
    var ev' := OffEp(ev.evs, ev.i, ev.c, ev.k);
    Ownership(m, rv, ev);
    NumbersOf(m.clients, ev.c);
    TableRemove(m.interest, SockOf(m.clients), Watched(m.tothead, m.unwatched, rv, ev), ev.c);
    assert Watched(m.tothead, m.unwatched, rv, ev') == Watched(m.tothead, m.unwatched, rv, ev) - {ev.c};
    BatchStays(ev, ev', Registered(m.tothead, m.unwatched, rv));
    PointersStay(m, ev, ev');
  }

  // ----- putclass

  lemma Put(m: Memory, rv: RegView, ev: EpView, o: OpState)
    requires MemInv(m, rv, ev, o) && ev.OffEp? && ev.k in m.classes && m.classes[ev.k].count != 1
    ensures MemInv(m.(classes := m.classes[ev.k := m.classes[ev.k].(count := m.classes[ev.k].count - 1)]),
                   rv, Given(ev.evs, ev.i, ev.c, ev.k, false), o)
  {
    hide NoDup, Partition, ClassesCounted, NamesDistinct, ClientsClassed, NoneNamed, RegClass, EpPointers, ListInv, CountInv,
         Table, BatchInv, UnwatchedInv, CommandInv, BetweenClasses, InsideClass, Selecting, KlassOf, Names, SockOf, SslOf;
    var ev' := Given(ev.evs, ev.i, ev.c, ev.k, false);
    var c := m.classes[ev.k].(count := m.classes[ev.k].count - 1);
    var classes := m.classes[ev.k := c];
    Ownership(m, rv, ev);
    NamesSame(m.classes, ev.k, c);
    TraversalFrame(m, classes, o);
    SameLists(m.classes, classes, KlassOf(m.clients), ClassView(m.tothead, rv, ev));
    PutCounts(m.classes, classes, InFlight(rv), ev.k);
    PutCounted(m, classes, InFlight(rv), ev.k);
    BatchStays(ev, ev', Registered(m.tothead, m.unwatched, rv));
    PutPointers(m, ev, ev');
  }

  lemma PutPointers(m: Memory, ev: EpView, ev': EpView)
    requires EpPointers(Names(m.classes), m.classhead, m.clients, |m.tothead|, ev)
    requires ev.OffEp? && ev'.Given? && ev'.c == ev.c && ev'.k == ev.k
    ensures forall classhead :: EpPointers(Names(m.classes), classhead, m.clients, |m.tothead|, ev')
  {
  }

  lemma PutCounts(classes: map<ClassId, Class>, classes': map<ClassId, Class>, inFlight: set<ClassId>, k: ClassId)
    requires CountInv(classes, inFlight, {k}) && k in classes
    requires classes' == classes[k := classes[k].(count := classes[k].count - 1)]
    ensures CountInv(classes', inFlight, {})
  {
  }

  lemma PutCounted(m: Memory, classes': map<ClassId, Class>, inFlight: set<ClassId>, k: ClassId)
    requires CountInv(m.classes, inFlight, {k}) && ClassesCounted(m.classes, m.classhead)
    requires k in m.classes && m.classes[k].count != 1
    requires classes' == m.classes[k := m.classes[k].(count := m.classes[k].count - 1)]
    ensures ClassesCounted(classes', m.classhead)
  {
  }

  /** The last reference: no client and no registration refers to the class any more, so it can leave the class list. */
  lemma PutLast(m: Memory, rv: RegView, ev: EpView, o: OpState)
    requires MemInv(m, rv, ev, o) && ev.OffEp? && ev.k in m.classhead && ev.k in m.classes && m.classes[ev.k].count == 1
    requires !rv.Looking? && !rv.Found? && !rv.Built? && !rv.OnTot? && !rv.OnBoth? && !Traversing(o)
    ensures MemInv(m.(classes := m.classes[ev.k := m.classes[ev.k].(count := m.classes[ev.k].count - 1)],
                      classhead := Remove(m.classhead, ev.k)), rv, Given(ev.evs, ev.i, ev.c, ev.k, true), o)
  {
    hide NoDup, Partition, ClassesCounted, NamesDistinct, ClientsClassed, NoneNamed, RegClass, EpPointers, ListInv, CountInv,
         Table, BatchInv, UnwatchedInv, CommandInv, BetweenClasses, InsideClass, Selecting, KlassOf, Names, SockOf, SslOf;
    var ev' := Given(ev.evs, ev.i, ev.c, ev.k, true);
    var c := m.classes[ev.k].(count := m.classes[ev.k].count - 1);
    var classes := m.classes[ev.k := c];
    var classhead := Remove(m.classhead, ev.k);
    NamesSame(m.classes, ev.k, c);
    MembersRemove(m.classhead, ev.k);
    PartitionLeave(m.classes.Keys, Members(m.classhead), {}, ev.k);
    NoTraversal(classes, Names(classes), classhead, o);
    SameLists(m.classes, classes, KlassOf(m.clients), ClassView(m.tothead, rv, ev));
    PutCounts(m.classes, classes, InFlight(rv), ev.k);
    BatchStays(ev, ev', Registered(m.tothead, m.unwatched, rv));
    PutPointers(m, ev, ev');
    PutLastClasses(m, rv, ev, classes);
    PutLastClients(m, rv, ev);
  }

  lemma PutLastClasses(m: Memory, rv: RegView, ev: EpView, classes: map<ClassId, Class>)
    requires ev.OffEp? && NoDup(m.classhead) && ev.k in m.classhead && ev.k in m.classes && m.classes[ev.k].count == 1
    requires !rv.Looking? && !rv.Found? && !rv.Built? && !rv.OnTot? && !rv.OnBoth?
    requires classes == m.classes[ev.k := m.classes[ev.k].(count := m.classes[ev.k].count - 1)]
    requires NamesDistinct(Names(m.classes), m.classhead) && ClassesCounted(m.classes, m.classhead)
    requires RegClass(Names(m.classes), m.classhead, rv) && CountInv(m.classes, InFlight(rv), {ev.k})
    ensures var classhead := Remove(m.classhead, ev.k);
            && NamesDistinct(Names(m.classes), classhead) && ClassesCounted(classes, classhead)
            && RegClass(Names(m.classes), classhead, rv)
  {
    RemoveNoDup(m.classhead, ev.k);
    assert ev.k !in InFlight(rv);
  }

  lemma PutLastClients(m: Memory, rv: RegView, ev: EpView)
    requires ev.OffEp? && NoDup(m.classhead) && ev.k in m.classhead && ev.k in m.classes && m.classes[ev.k].count == 1 && !rv.OnTot?
    requires ClientsClassed(Names(m.classes), m.classhead, m.clients, m.tothead)
    requires ListInv(m.classes, KlassOf(m.clients), ClassView(m.tothead, rv, ev)) && CountInv(m.classes, InFlight(rv), {ev.k})
    ensures ClientsClassed(Names(m.classes), Remove(m.classhead, ev.k), m.clients, m.tothead)
  {
    RemoveNoDup(m.classhead, ev.k);
    hide Remove, ByClass;
    assert m.classes[ev.k].clilist == [];
    forall c | c in m.tothead
      ensures m.clients[c].klass != ev.k
    {
      ByClassMember(m.tothead, KlassOf(m.clients), ev.k, c);
    }
  }

  lemma Keep(m: Memory, rv: RegView, ev: EpView, o: OpState)
    requires MemInv(m, rv, ev, o) && ev.Given? && !ev.dying
    ensures MemInv(m, rv, Loose(ev.evs, ev.i, ev.c), o)
  {
    hide NoDup, Partition, ClassesCounted, NamesDistinct, ClientsClassed, NoneNamed, RegClass, EpPointers, ListInv, CountInv,
         Table, BatchInv, UnwatchedInv, CommandInv, BetweenClasses, InsideClass, Selecting, KlassOf, Names, SockOf, SslOf;
    var ev' := Loose(ev.evs, ev.i, ev.c);
    BatchStays(ev, ev', Registered(m.tothead, m.unwatched, rv));
    PointersMove(m, ev');
  }

  /** The class is freed: nothing refers to it. */
  lemma FreeClass(m: Memory, rv: RegView, ev: EpView, o: OpState)
    requires MemInv(m, rv, ev, o) && ev.Given? && ev.dying && !(rv.Done? && rv.k == ev.k) && !Traversing(o)
    ensures MemInv(m.(classes := m.classes - {ev.k}), rv, Loose(ev.evs, ev.i, ev.c), o)
  {
    hide NoDup, Partition, ClassesCounted, NamesDistinct, ClientsClassed, NoneNamed, RegClass, EpPointers, ListInv, CountInv,
         Table, BatchInv, UnwatchedInv, CommandInv, BetweenClasses, InsideClass, Selecting, KlassOf, Names, SockOf, SslOf;
    var ev' := Loose(ev.evs, ev.i, ev.c);
    var classes := m.classes - {ev.k};
    Ownership(m, rv, ev);
    PartitionDrop(m.classes.Keys, Members(m.classhead), Building(rv), ev.k);
    assert classes.Keys == m.classes.Keys - {ev.k};
    NamesFrame(m, classes, rv, o);
    NoTraversal(classes, Names(classes), m.classhead, o);
    SameLists(m.classes, classes, KlassOf(m.clients), ClassView(m.tothead, rv, ev));
    FreeClassCounts(m, classes, rv, ev);
    BatchStays(ev, ev', Registered(m.tothead, m.unwatched, rv));
    PointersMove(m.(classes := classes), ev');
  }

  lemma FreeClassCounts(m: Memory, classes: map<ClassId, Class>, rv: RegView, ev: EpView)
    requires ev.Given? && classes == m.classes - {ev.k} && ev.k !in m.classhead && ev.k !in Building(rv)
    requires CountInv(m.classes, InFlight(rv), {}) && RegClass(Names(m.classes), m.classhead, rv) && !(rv.Done? && rv.k == ev.k)
    ensures CountInv(classes, InFlight(rv), {}) && RegClass(Names(classes), m.classhead, rv)
  {
  }

  // ----- the rest of cli_free

  lemma Shut(m: Memory, rv: RegView, ev: EpView, o: OpState)
    requires MemInv(m, rv, ev, o) && ev.Loose? && ev.c in m.clients
    ensures MemInv(FreeSsl(m, ev.c), rv, NoSsl(ev.evs, ev.i, ev.c), o)
  {
    hide NoDup, Partition, ClassesCounted, NamesDistinct, ClientsClassed, NoneNamed, RegClass, EpPointers, ListInv, CountInv,
         Table, BatchInv, UnwatchedInv, CommandInv, BetweenClasses, InsideClass, Selecting, KlassOf, Names, SockOf, SslOf;
    var ev' := NoSsl(ev.evs, ev.i, ev.c);
    Ownership(m, rv, ev);
    NumbersOf(m.clients, ev.c);
    TableRemove(m.ssls, SslOf(m.clients), SslOwners(m.tothead, rv, ev), ev.c);
    assert SslOwners(m.tothead, rv, ev') == SslOwners(m.tothead, rv, ev) - {ev.c};
    BatchStays(ev, ev', Registered(m.tothead, m.unwatched, rv));
    PointersMove(m, ev');
  }

  lemma Close(m: Memory, rv: RegView, ev: EpView, o: OpState)
    requires MemInv(m, rv, ev, o) && ev.NoSsl? && ev.c in m.clients
    ensures MemInv(CloseSock(m, ev.c), rv, NoSock(ev.evs, ev.i, ev.c), o)
  {
    hide NoDup, Partition, ClassesCounted, NamesDistinct, ClientsClassed, NoneNamed, RegClass, EpPointers, ListInv, CountInv,
         Table, BatchInv, UnwatchedInv, CommandInv, BetweenClasses, InsideClass, Selecting, KlassOf, Names, SockOf, SslOf;
    var ev' := NoSock(ev.evs, ev.i, ev.c);
    Ownership(m, rv, ev);
    NumbersOf(m.clients, ev.c);
    var owners := SockOwners(m.tothead, rv, ev);
    NotWatched(m.socks, m.interest, SockOf(m.clients), owners, Watched(m.tothead, m.unwatched, rv, ev), ev.c);
    TableRemove(m.socks, SockOf(m.clients), owners, ev.c);
    assert SockOwners(m.tothead, rv, ev') == owners - {ev.c};
    assert m.interest - {m.clients[ev.c].sock} == m.interest;
    BatchStays(ev, ev', Registered(m.tothead, m.unwatched, rv));
    PointersMove(m, ev');
  }

  lemma DestroyLock(m: Memory, rv: RegView, ev: EpView, o: OpState)
    requires MemInv(m, rv, ev, o) && ev.NoSock?
    ensures MemInv(m, rv, NoLock(ev.evs, ev.i, ev.c), o)
  {
    hide NoDup, Partition, ClassesCounted, NamesDistinct, ClientsClassed, NoneNamed, RegClass, EpPointers, ListInv, CountInv,
         Table, BatchInv, UnwatchedInv, CommandInv, BetweenClasses, InsideClass, Selecting, KlassOf, Names, SockOf, SslOf;
    var ev' := NoLock(ev.evs, ev.i, ev.c);
    BatchStays(ev, ev', Registered(m.tothead, m.unwatched, rv));
    PointersMove(m, ev');
  }

  lemma FreeClient(m: Memory, rv: RegView, ev: EpView, o: OpState, brk: bool)
    requires MemInv(m, rv, ev, o) && ev.NoLock?
    ensures MemInv(m.(clients := m.clients - {ev.c}), rv,
                   if brk then Waiting else AtBatch(ev.evs, ev.i + 1), o)
  {
    hide NoDup, Partition, ClassesCounted, NamesDistinct, ClientsClassed, NoneNamed, RegClass, EpPointers, ListInv, CountInv,
         Table, BatchInv, UnwatchedInv, CommandInv, BetweenClasses, InsideClass, Selecting, KlassOf, Names, SockOf, SslOf;
    hide OnlyAt;
    var ev' := if brk then Waiting else AtBatch(ev.evs, ev.i + 1);
    var clients := m.clients - {ev.c};
    Ownership(m, rv, ev);
    Freed(m.clients, ev.c);
    ClientGone(m, rv, ev, o, clients);
    PartitionDrop(m.clients.Keys, Members(m.tothead), RegOwn(rv), ev.c);
    LastOfEvent(ev, ev', Registered(m.tothead, m.unwatched, rv));
    PointersMove(m.(clients := clients), ev');
    GoneOwners(m.tothead, m.unwatched, rv, ev, ev');
    hide SockOwners, SslOwners, Watched, Registered, Linked;
  }

  lemma GoneOwners(tothead: seq<ClientId>, unwatched: set<ClientId>, rv: RegView, ev: EpView, ev': EpView)
    requires ev.NoLock? && (ev'.Waiting? || ev'.AtBatch?)
    ensures SockOwners(tothead, rv, ev') == SockOwners(tothead, rv, ev)
    ensures SslOwners(tothead, rv, ev') == SslOwners(tothead, rv, ev)
    ensures Watched(tothead, unwatched, rv, ev') == Watched(tothead, unwatched, rv, ev)
  {
  }

  lemma ClientGone(m: Memory, rv: RegView, ev: EpView, o: OpState, clients: map<ClientId, Client>)
    requires MemInv(m, rv, ev, o) && ev.NoLock? && OnlyAt(m.clients, clients, ev.c)
    ensures ClientsClassed(Names(m.classes), m.classhead, clients, m.tothead) && Selecting(m.tothead, clients, o)
    ensures RegClient(clients, m.tothead, rv)
    ensures ListInv(m.classes, KlassOf(clients), ClassView(m.tothead, rv, ev))
    ensures Table(m.socks, SockOf(clients), SockOwners(m.tothead, rv, ev))
    ensures Table(m.ssls, SslOf(clients), SslOwners(m.tothead, rv, ev))
    ensures Table(m.interest, SockOf(clients), Watched(m.tothead, m.unwatched, rv, ev))
  {
    hide NoDup, Partition, ClassesCounted, NamesDistinct, ClientsClassed, NoneNamed, RegClass, EpPointers, ListInv, CountInv,
         Table, BatchInv, UnwatchedInv, CommandInv, BetweenClasses, InsideClass, Selecting, KlassOf, Names, SockOf, SslOf;
    Ownership(m, rv, ev);
    ViewMembers(m.tothead, rv, ev);
    ClientsFrame(m, clients, o, ev.c);
    ListFrame(m.classes, m.clients, clients, ClassView(m.tothead, rv, ev), ev.c);
    SockFrame(m.socks, m.clients, clients, SockOwners(m.tothead, rv, ev), ev.c);
    SslFrame(m.ssls, m.clients, clients, SslOwners(m.tothead, rv, ev), ev.c);
    SockFrame(m.interest, m.clients, clients, Watched(m.tothead, m.unwatched, rv, ev), ev.c);
  }

  lemma LastOfEvent(ev: EpView, ev': EpView, registered: set<ClientId>)
    requires BatchInv(ev, registered) && !ev.Waiting? && !ev.AtBatch?
    requires ev'.Waiting? || ev' == AtBatch(ev.evs, ev.i + 1)
    ensures BatchInv(ev', registered)
  {
  }
}
