/**
 Every step of the registration thread keeps the memory part of the invariant. Each lemma is one change of
 the shared memory; parts of the invariant it does not touch stay hidden and carry over as they are.
 */
module RegistrationProof {
  import opened Sequences
  import opened Registration
  import opened LogPath
  import opened Registry
  import opened RegistryInvariant
  import opened RegistryLemmas

  /** The thread moves on without touching memory. */
  lemma RegMoves(m: Memory, rv: RegView, rv': RegView, ev: EpView, o: OpState)
    requires MemInv(m, rv, ev, o)
    requires RegOwn(rv') == RegOwn(rv) && RegSock(rv') == RegSock(rv) && RegSsl(rv') == RegSsl(rv)
    requires Linking(rv') == Linking(rv) && Building(rv') == Building(rv) && InFlight(rv') == InFlight(rv)
    requires !rv.OnTot? && !rv'.OnTot?
    requires RegClass(Names(m.classes), m.classhead, rv') && RegClient(m.clients, m.tothead, rv')
    ensures MemInv(m, rv', ev, o)
  {
    hide NoDup, Partition, ClassesCounted, NamesDistinct, ClientsClassed, NoneNamed, EpPointers, ListInv, CountInv, Table,
         BatchInv, UnwatchedInv, CommandInv, BetweenClasses, InsideClass, Selecting, KlassOf, Names, SockOf, SslOf;
  }

  /** A client on no list is allocated, written or freed; its numbers stay while they are in use. */
  lemma ClientChanged(m: Memory, rv: RegView, ev: EpView, o: OpState, n: ClientId, clients: map<ClientId, Client>)
    requires MemInv(m, rv, ev, o) && !rv.OnTot? && n !in m.tothead && n !in EpOwn(ev) && OnlyAt(m.clients, clients, n)
    requires n in RegSock(rv) ==> n in m.clients && n in clients && clients[n].sock == m.clients[n].sock
    requires n in RegSsl(rv) ==> n in m.clients && n in clients && clients[n].ssl == m.clients[n].ssl
    ensures ClientsClassed(Names(m.classes), m.classhead, clients, m.tothead)
    ensures EpPointers(Names(m.classes), m.classhead, clients, |m.tothead|, ev)
    ensures ListInv(m.classes, KlassOf(clients), ClassView(m.tothead, rv, ev))
    ensures Selecting(m.tothead, clients, o)
    ensures Table(m.socks, SockOf(clients), SockOwners(m.tothead, rv, ev))
    ensures Table(m.ssls, SslOf(clients), SslOwners(m.tothead, rv, ev))
    ensures Table(m.interest, SockOf(clients), Watched(m.tothead, m.unwatched, rv, ev))
  {
    hide NoDup, Partition, ClassesCounted, NamesDistinct, ClientsClassed, NoneNamed, EpPointers, ListInv, CountInv, Table,
         BatchInv, UnwatchedInv, CommandInv, BetweenClasses, InsideClass, Selecting, KlassOf, Names, SockOf, SslOf;
    hide OnlyAt;
    Ownership(m, rv, ev);
    ViewMembers(m.tothead, rv, ev);
    ClientsFrame(m, clients, o, n);
    EpFrame(Names(m.classes), m.classhead, m.tothead, m.unwatched, m.clients, clients, rv, ev, n);
    ListFrame(m.classes, m.clients, clients, ClassView(m.tothead, rv, ev), n);
    SockFrame(m.socks, m.clients, clients, SockOwners(m.tothead, rv, ev), n);
    SslFrame(m.ssls, m.clients, clients, SslOwners(m.tothead, rv, ev), n);
    SockFrame(m.interest, m.clients, clients, Watched(m.tothead, m.unwatched, rv, ev), n);
  }

  lemma Malloc(m: Memory, rv: RegView, ev: EpView, o: OpState, n: ClientId, cl: Client)
    requires MemInv(m, rv, ev, o) && rv.NoReg? && n !in m.clients
    ensures MemInv(m.(clients := m.clients[n := cl]), Fresh(n), ev, o)
  {
    hide NoDup, Partition, ClassesCounted, NamesDistinct, ClientsClassed, NoneNamed, EpPointers, ListInv, CountInv, Table,
         BatchInv, UnwatchedInv, CommandInv, BetweenClasses, InsideClass, Selecting, KlassOf, Names, SockOf, SslOf;
    Ownership(m, rv, ev);
    hide OnlyAt;
    Written(m.clients, n, cl);
    ClientChanged(m, rv, ev, o, n, m.clients[n := cl]);
    PartitionEnter(m.clients.Keys, Members(m.tothead), EpOwn(ev), n);
  }

  lemma GotSock(m: Memory, rv: RegView, ev: EpView, o: OpState, f: Fd, a: Address)
    requires MemInv(m, rv, ev, o) && rv.Fresh? && f !in m.socks && rv.n in m.clients
    ensures MemInv(m.(clients := m.clients[rv.n := m.clients[rv.n].(sock := f, ip := a)], socks := m.socks[f := rv.n]),
                   WithSock(rv.n), ev, o)
  {
    hide NoDup, Partition, ClassesCounted, NamesDistinct, ClientsClassed, NoneNamed, EpPointers, ListInv, CountInv, Table,
         BatchInv, UnwatchedInv, CommandInv, BetweenClasses, InsideClass, Selecting, KlassOf, Names, SockOf, SslOf;
    var cl := m.clients[rv.n].(sock := f, ip := a);
    hide OnlyAt;
    var clients := m.clients[rv.n := cl];
    Written(m.clients, rv.n, cl);
    Ownership(m, rv, ev);
    ClientChanged(m, rv, ev, o, rv.n, clients);
    NumbersOf(clients, rv.n);
    TableAdd(m.socks, SockOf(clients), SockOwners(m.tothead, rv, ev), f, rv.n);
    assert SockOwners(m.tothead, WithSock(rv.n), ev) == SockOwners(m.tothead, rv, ev) + {rv.n};
  }

  lemma GotSsl(m: Memory, rv: RegView, ev: EpView, o: OpState, x: SslId)
    requires MemInv(m, rv, ev, o) && rv.WithSock? && x !in m.ssls && rv.n in m.clients
    ensures MemInv(m.(clients := m.clients[rv.n := m.clients[rv.n].(ssl := x)], ssls := m.ssls[x := rv.n]),
                   WithSsl(rv.n), ev, o)
  {
    hide NoDup, Partition, ClassesCounted, NamesDistinct, ClientsClassed, NoneNamed, EpPointers, ListInv, CountInv, Table,
         BatchInv, UnwatchedInv, CommandInv, BetweenClasses, InsideClass, Selecting, KlassOf, Names, SockOf, SslOf;
    var cl := m.clients[rv.n].(ssl := x);
    hide OnlyAt;
    var clients := m.clients[rv.n := cl];
    Written(m.clients, rv.n, cl);
    Ownership(m, rv, ev);
    ClientChanged(m, rv, ev, o, rv.n, clients);
    NumbersOf(clients, rv.n);
    TableAdd(m.ssls, SslOf(clients), SslOwners(m.tothead, rv, ev), x, rv.n);
    assert SslOwners(m.tothead, WithSsl(rv.n), ev) == SslOwners(m.tothead, rv, ev) + {rv.n};
  }

  lemma DropSsl(m: Memory, rv: RegView, ev: EpView, o: OpState)
    requires MemInv(m, rv, ev, o) && rv.WithSsl? && rv.n in m.clients
    ensures MemInv(FreeSsl(m, rv.n), WithSock(rv.n), ev, o)
  {
    hide NoDup, Partition, ClassesCounted, NamesDistinct, ClientsClassed, NoneNamed, EpPointers, ListInv, CountInv, Table,
         BatchInv, UnwatchedInv, CommandInv, BetweenClasses, InsideClass, Selecting, KlassOf, Names, SockOf, SslOf;
    Ownership(m, rv, ev);
    NumbersOf(m.clients, rv.n);
    TableRemove(m.ssls, SslOf(m.clients), SslOwners(m.tothead, rv, ev), rv.n);
    assert SslOwners(m.tothead, WithSock(rv.n), ev) == SslOwners(m.tothead, rv, ev) - {rv.n};
  }

  lemma DropSock(m: Memory, rv: RegView, ev: EpView, o: OpState)
    requires MemInv(m, rv, ev, o) && rv.WithSock? && rv.n in m.clients
    ensures MemInv(CloseSock(m, rv.n), Fresh(rv.n), ev, o)
  {
    hide NoDup, Partition, ClassesCounted, NamesDistinct, ClientsClassed, NoneNamed, EpPointers, ListInv, CountInv, Table,
         BatchInv, UnwatchedInv, CommandInv, BetweenClasses, InsideClass, Selecting, KlassOf, Names, SockOf, SslOf;
    Ownership(m, rv, ev);
    NumbersOf(m.clients, rv.n);
    var owners := SockOwners(m.tothead, rv, ev);
    NotWatched(m.socks, m.interest, SockOf(m.clients), owners, Watched(m.tothead, m.unwatched, rv, ev), rv.n);
    TableRemove(m.socks, SockOf(m.clients), owners, rv.n);
    assert SockOwners(m.tothead, Fresh(rv.n), ev) == owners - {rv.n};
    assert m.interest - {m.clients[rv.n].sock} == m.interest;
  }

  lemma DropClient(m: Memory, rv: RegView, ev: EpView, o: OpState)
    requires MemInv(m, rv, ev, o) && rv.Fresh?
    ensures MemInv(m.(clients := m.clients - {rv.n}), NoReg, ev, o)
  {
    hide NoDup, Partition, ClassesCounted, NamesDistinct, ClientsClassed, NoneNamed, EpPointers, ListInv, CountInv, Table,
         BatchInv, UnwatchedInv, CommandInv, BetweenClasses, InsideClass, Selecting, KlassOf, Names, SockOf, SslOf;
    hide OnlyAt;
    var clients := m.clients - {rv.n};
    Freed(m.clients, rv.n);
    Ownership(m, rv, ev);
    ClientChanged(m, rv, ev, o, rv.n, clients);
    PartitionQuit(m.clients.Keys, Members(m.tothead), EpOwn(ev), rv.n);
  }

  // ----- newclass

  lemma StartScan(m: Memory, rv: RegView, ev: EpView, o: OpState, who: Text)
    requires MemInv(m, rv, ev, o) && rv.WithSsl?
    ensures MemInv(m, Looking(rv.n, who, 0), ev, o)
  {
    hide NoDup, Partition, ClassesCounted, NamesDistinct, ClientsClassed, NoneNamed, EpPointers, ListInv, CountInv, Table,
         BatchInv, UnwatchedInv, CommandInv, BetweenClasses, InsideClass, Selecting, KlassOf, Names, SockOf, SslOf;
    NoneNamedStart(Names(m.classes), m.classhead, who);
    RegMoves(m, rv, Looking(rv.n, who, 0), ev, o);
  }

  /** One more class of the list is known to have another name. */
  lemma ScanOn(m: Memory, rv: RegView, ev: EpView, o: OpState)
    requires MemInv(m, rv, ev, o) && rv.Looking? && rv.i < |m.classhead|
    requires m.classhead[rv.i] in m.classes && m.classes[m.classhead[rv.i]].name != rv.who
    ensures MemInv(m, Looking(rv.n, rv.who, rv.i + 1), ev, o)
  {
    hide NoDup, Partition, ClassesCounted, NamesDistinct, ClientsClassed, NoneNamed, EpPointers, ListInv, CountInv, Table,
         BatchInv, UnwatchedInv, CommandInv, BetweenClasses, InsideClass, Selecting, KlassOf, Names, SockOf, SslOf;
    NewName(m.classes, m.classhead[rv.i]);
    NoneNamedNext(Names(m.classes), m.classhead, rv.i, rv.who);
    RegMoves(m, rv, Looking(rv.n, rv.who, rv.i + 1), ev, o);
  }

  lemma NoneNamedStart(names: map<ClassId, Text>, classhead: seq<ClassId>, who: Text)
    ensures NoneNamed(names, classhead, 0, who)
  {
  }

  lemma NoneNamedNext(names: map<ClassId, Text>, classhead: seq<ClassId>, i: nat, who: Text)
    requires i < |classhead| && NoneNamed(names, classhead, i, who) && classhead[i] in names && names[classhead[i]] != who
    ensures NoneNamed(names, classhead, i + 1, who)
  {
  }

  lemma ScanHit(m: Memory, rv: RegView, ev: EpView, o: OpState)
    requires MemInv(m, rv, ev, o) && rv.Looking? && rv.i < |m.classhead|
    requires m.classhead[rv.i] in m.classes && m.classes[m.classhead[rv.i]].name == rv.who
    ensures MemInv(m, Found(rv.n, rv.who, m.classhead[rv.i]), ev, o)
  {
    hide NoDup, Partition, ClassesCounted, NamesDistinct, ClientsClassed, NoneNamed, EpPointers, ListInv, CountInv, Table,
         BatchInv, UnwatchedInv, CommandInv, BetweenClasses, InsideClass, Selecting, KlassOf, Names, SockOf, SslOf;
    NewName(m.classes, m.classhead[rv.i]);
    RegMoves(m, rv, Found(rv.n, rv.who, m.classhead[rv.i]), ev, o);
  }

  lemma GiveUp(m: Memory, rv: RegView, ev: EpView, o: OpState)
    requires MemInv(m, rv, ev, o) && rv.Looking?
    ensures MemInv(m, WithSsl(rv.n), ev, o)
  {
    hide NoDup, Partition, ClassesCounted, NamesDistinct, ClientsClassed, NoneNamed, EpPointers, ListInv, CountInv, Table,
         BatchInv, UnwatchedInv, CommandInv, BetweenClasses, InsideClass, Selecting, KlassOf, Names, SockOf, SslOf;
    RegMoves(m, rv, WithSsl(rv.n), ev, o);
  }

  lemma ScanBound(m: Memory, rv: RegView, ev: EpView, o: OpState)
    requires MemInv(m, rv, ev, o) && rv.Looking?
    ensures rv.i <= |m.classhead|
  {
    hide Partition, Table, ListInv, BatchInv, UnwatchedInv, BetweenClasses, InsideClass;
  }

  lemma Build(m: Memory, rv: RegView, ev: EpView, o: OpState, k: ClassId)
    requires MemInv(m, rv, ev, o) && rv.Looking? && rv.i == |m.classhead| && k !in m.classes
    ensures MemInv(m.(classes := m.classes[k := Class(rv.who, 0, [])]), Built(rv.n, rv.who, k, false), ev, o)
  {
    hide NoDup, Partition, ClassesCounted, NamesDistinct, ClientsClassed, NoneNamed, EpPointers, ListInv, CountInv, Table,
         BatchInv, UnwatchedInv, CommandInv, BetweenClasses, InsideClass, Selecting, KlassOf, Names, SockOf, SslOf;
    var classes := m.classes[k := Class(rv.who, 0, [])];
    Ownership(m, rv, ev);
    NamesFrame(m, classes, rv, o);
    TraversalFrame(m, classes, o);
    EpNamesFrame(m, classes, ev);
    PartitionEnter(m.classes.Keys, Members(m.classhead), Dying(ev), k);
    assert classes.Keys == m.classes.Keys + {k};
    assert ListInv(classes, KlassOf(m.clients), ClassView(m.tothead, rv, ev)) by {
      UnlistedClassEmpty(m, rv, ev, k);
      NewClassLists(m, classes, ClassView(m.tothead, rv, ev), k);
    }
    assert CountInv(classes, {}, Unlinked(ev)) by {
      NewClassCounts(m, classes, ev, k);
    }
    NewName(classes, k);
  }

  lemma NewClassLists(m: Memory, classes: map<ClassId, Class>, view: seq<ClientId>, k: ClassId)
    requires ListInv(m.classes, KlassOf(m.clients), view) && ByClass(view, KlassOf(m.clients), k) == []
    requires k in classes && classes == m.classes[k := classes[k]] && classes[k].clilist == []
    ensures ListInv(classes, KlassOf(m.clients), view)
  {
  }

  lemma NewClassCounts(m: Memory, classes: map<ClassId, Class>, ev: EpView, k: ClassId)
    requires CountInv(m.classes, {}, Unlinked(ev)) && EpPointers(Names(m.classes), m.classhead, m.clients, |m.tothead|, ev)
    requires k !in m.classes && k in classes && classes == m.classes[k := classes[k]]
    requires classes[k].clilist == [] && classes[k].count == 0
    ensures CountInv(classes, {}, Unlinked(ev))
  {
  }

  lemma NewName(classes: map<ClassId, Class>, k: ClassId)
    requires k in classes
    ensures k in Names(classes) && Names(classes)[k] == classes[k].name
  {
  }

  /** `getclass`: the reference taken is counted although its client is on no list yet. */
  lemma Get(m: Memory, rv: RegView, rv': RegView, ev: EpView, o: OpState)
    requires MemInv(m, rv, ev, o) && (rv.Found? || (rv.Built? && !rv.counted)) && rv.k in m.classes
    requires rv' == if rv.Found? then Counted(rv.n, rv.who, rv.k) else Built(rv.n, rv.who, rv.k, true)
    ensures MemInv(m.(classes := m.classes[rv.k := m.classes[rv.k].(count := m.classes[rv.k].count + 1)]), rv', ev, o)
  {
    hide NoDup, Partition, ClassesCounted, NamesDistinct, ClientsClassed, NoneNamed, EpPointers, ListInv, CountInv, Table,
         BatchInv, UnwatchedInv, CommandInv, BetweenClasses, InsideClass, Selecting, KlassOf, Names, SockOf, SslOf;
    var c := m.classes[rv.k].(count := m.classes[rv.k].count + 1);
    var classes := m.classes[rv.k := c];
    Ownership(m, rv, ev);
    NamesSame(m.classes, rv.k, c);
    TraversalFrame(m, classes, o);
    assert ListInv(classes, KlassOf(m.clients), ClassView(m.tothead, rv, ev)) by {
      SameLists(m.classes, classes, KlassOf(m.clients), ClassView(m.tothead, rv, ev));
    }
    assert CountInv(classes, {rv.k}, Unlinked(ev)) && ClassesCounted(classes, m.classhead) by {
      CountOneMore(m.classes, classes, m.classhead, Unlinked(ev), rv.k);
    }
  }

  lemma CountOneMore(classes: map<ClassId, Class>, classes': map<ClassId, Class>,
                     classhead: seq<ClassId>, unlinked: set<ClassId>, k: ClassId)
    requires CountInv(classes, {}, unlinked) && ClassesCounted(classes, classhead) && k in classes
    requires classes' == classes[k := classes[k].(count := classes[k].count + 1)]
    ensures CountInv(classes', {k}, unlinked) && ClassesCounted(classes', classhead)
  {
  }

  /** The class built goes to the end of the class list, on which no class has its name. */
  lemma Publish(m: Memory, rv: RegView, ev: EpView, o: OpState)
    requires MemInv(m, rv, ev, o) && rv.Built? && rv.counted && !Traversing(o)
    ensures MemInv(m.(classhead := m.classhead + [rv.k]), Counted(rv.n, rv.who, rv.k), ev, o)
  {
    hide NoDup, Partition, ClassesCounted, NamesDistinct, ClientsClassed, NoneNamed, EpPointers, ListInv, CountInv, Table,
         BatchInv, UnwatchedInv, CommandInv, BetweenClasses, InsideClass, Selecting, KlassOf, Names, SockOf, SslOf;
    var classhead := m.classhead + [rv.k];
    Ownership(m, rv, ev);
    MembersAppend(m.classhead, rv.k);
    PartitionJoin(m.classes.Keys, Members(m.classhead), Dying(ev), rv.k);
    NoTraversal(m.classes, Names(m.classes), classhead, o);
    PublishNames(m, rv, ev);
  }

  lemma PublishNames(m: Memory, rv: RegView, ev: EpView)
    requires rv.Built? && rv.counted && rv.k in m.classes
    requires NamesDistinct(Names(m.classes), m.classhead) && ClassesCounted(m.classes, m.classhead)
    requires ClientsClassed(Names(m.classes), m.classhead, m.clients, m.tothead) && RegClass(Names(m.classes), m.classhead, rv)
    requires EpPointers(Names(m.classes), m.classhead, m.clients, |m.tothead|, ev)
    requires CountInv(m.classes, InFlight(rv), Unlinked(ev))
    ensures var classhead := m.classhead + [rv.k];
            && NamesDistinct(Names(m.classes), classhead) && ClassesCounted(m.classes, classhead)
            && ClientsClassed(Names(m.classes), classhead, m.clients, m.tothead)
            && EpPointers(Names(m.classes), classhead, m.clients, |m.tothead|, ev)
  {
  }

  // ----- linking

  /** The client object is completed; its lock comes into being. */
  lemma SetUp(m: Memory, rv: RegView, ev: EpView, o: OpState, mac: Mac)
    requires MemInv(m, rv, ev, o) && rv.Counted? && rv.n in m.clients
    ensures MemInv(m.(clients := m.clients[rv.n := m.clients[rv.n].(klass := rv.k, who := rv.who, mac := mac)]),
                   Ready(rv.n, rv.who, rv.k), ev, o)
  {
    hide NoDup, Partition, ClassesCounted, NamesDistinct, ClientsClassed, NoneNamed, EpPointers, ListInv, CountInv, Table,
         BatchInv, UnwatchedInv, CommandInv, BetweenClasses, InsideClass, Selecting, KlassOf, Names, SockOf, SslOf;
    hide OnlyAt;
    var clients := m.clients[rv.n := m.clients[rv.n].(klass := rv.k, who := rv.who, mac := mac)];
    Ownership(m, rv, ev);
    Written(m.clients, rv.n, clients[rv.n]);
    ClientChanged(m, rv, ev, o, rv.n, clients);
  }

  lemma LinkTot(m: Memory, rv: RegView, ev: EpView, o: OpState)
    requires MemInv(m, rv, ev, o) && rv.Ready? && !ev.OffTot? && o.pc !in {OScan, OUnTot}
    ensures MemInv(m.(tothead := m.tothead + [rv.n]), OnTot(rv.n, rv.who, rv.k), ev, o)
  {
    hide NoDup, Partition, ClassesCounted, NamesDistinct, ClientsClassed, NoneNamed, EpPointers, ListInv, CountInv, Table,
         BatchInv, UnwatchedInv, CommandInv, BetweenClasses, InsideClass, Selecting, KlassOf, Names, SockOf, SslOf;
    var tothead := m.tothead + [rv.n];
    var rv' := OnTot(rv.n, rv.who, rv.k);
    Ownership(m, rv, ev);
    MembersAppend(m.tothead, rv.n);
    PartitionJoin(m.clients.Keys, Members(m.tothead), EpOwn(ev), rv.n);
    assert ClassView(tothead, rv', ev) == ClassView(m.tothead, rv, ev);
    LinkTotOwners(m.tothead, m.unwatched, rv, ev);
    hide SockOwners, SslOwners, Registered, Linked;
    LinkTotClients(m, rv, ev, o);
  }

  lemma LinkTotOwners(tothead: seq<ClientId>, unwatched: set<ClientId>, rv: RegView, ev: EpView)
    requires rv.Ready? && rv.n !in tothead
    ensures var tothead' := tothead + [rv.n]; var rv' := OnTot(rv.n, rv.who, rv.k);
            && SockOwners(tothead', rv', ev) == SockOwners(tothead, rv, ev)
            && SslOwners(tothead', rv', ev) == SslOwners(tothead, rv, ev)
            && Linked(tothead', rv') == Linked(tothead, rv)
            && Registered(tothead', unwatched, rv') == Registered(tothead, unwatched, rv)
  {
    MembersAppend(tothead, rv.n);
  }

  lemma LinkTotClients(m: Memory, rv: RegView, ev: EpView, o: OpState)
    requires rv.Ready? && !ev.OffTot? && o.pc !in {OScan, OUnTot}
    requires ClientsClassed(Names(m.classes), m.classhead, m.clients, m.tothead) && RegClass(Names(m.classes), m.classhead, rv)
    requires RegClient(m.clients, m.tothead, rv) && EpPointers(Names(m.classes), m.classhead, m.clients, |m.tothead|, ev)
    ensures var tothead := m.tothead + [rv.n];
            && ClientsClassed(Names(m.classes), m.classhead, m.clients, tothead)
            && EpPointers(Names(m.classes), m.classhead, m.clients, |tothead|, ev)
            && Selecting(tothead, m.clients, o)
  {
  }

  lemma LinkClass(m: Memory, rv: RegView, ev: EpView, o: OpState)
    requires MemInv(m, rv, ev, o) && rv.OnTot? && !ev.OffTot? && !(InClass(o) && o.k == rv.k) && rv.k in m.classes
    ensures MemInv(m.(classes := m.classes[rv.k := m.classes[rv.k].(clilist := m.classes[rv.k].clilist + [rv.n])]),
                   OnBoth(rv.n, rv.who, rv.k), ev, o)
  {
    hide NoDup, Partition, ClassesCounted, NamesDistinct, ClientsClassed, NoneNamed, EpPointers, ListInv, CountInv, Table,
         BatchInv, UnwatchedInv, CommandInv, BetweenClasses, InsideClass, Selecting, KlassOf, Names, SockOf, SslOf;
    var c := m.classes[rv.k].(clilist := m.classes[rv.k].clilist + [rv.n]);
    var classes := m.classes[rv.k := c];
    Ownership(m, rv, ev);
    NamesSame(m.classes, rv.k, c);
    TraversalFrame(m, classes, o);
    assert ClassesCounted(classes, m.classhead) by {
      SameCounts(m.classes, classes, m.classhead);
    }
    LinkClassLists(m, classes, rv, ev);
  }

  lemma LinkClassLists(m: Memory, classes: map<ClassId, Class>, rv: RegView, ev: EpView)
    requires rv.OnTot? && !ev.OffTot? && rv.k in m.classes && RegClient(m.clients, m.tothead, rv)
    requires classes == m.classes[rv.k := m.classes[rv.k].(clilist := m.classes[rv.k].clilist + [rv.n])]
    requires ListInv(m.classes, KlassOf(m.clients), m.tothead[..|m.tothead| - 1]) && CountInv(m.classes, {rv.k}, Unlinked(ev))
    ensures ListInv(classes, KlassOf(m.clients), m.tothead) && CountInv(classes, {}, Unlinked(ev))
  {
  }

  /** The descriptor is new to the epoll set, so nothing but the kernel's limits keeps it out. */
  lemma Watch(m: Memory, rv: RegView, ev: EpView, o: OpState)
    requires MemInv(m, rv, ev, o) && rv.OnBoth? && rv.n in m.clients
    ensures m.clients[rv.n].sock !in m.interest
    ensures MemInv(m.(interest := m.interest[m.clients[rv.n].sock := rv.n]), Done(rv.k), ev, o)
  {
    hide NoDup, Partition, ClassesCounted, NamesDistinct, ClientsClassed, NoneNamed, EpPointers, ListInv, CountInv, Table,
         BatchInv, UnwatchedInv, CommandInv, BetweenClasses, InsideClass, Selecting, KlassOf, Names, SockOf, SslOf;
    Ownership(m, rv, ev);
    NumbersOf(m.clients, rv.n);
    hide SockOwners, SslOwners, Watched, Registered, Linked;
    var watched := Watched(m.tothead, m.unwatched, rv, ev);
    WatchOwners(m.tothead, m.unwatched, rv, ev);
    UnwatchedGrows(m.unwatched, Linked(m.tothead, rv), m.unwatched, Linked(m.tothead, Done(rv.k)));
    NotWatched(m.socks, m.interest, SockOf(m.clients), SockOwners(m.tothead, rv, ev), watched, rv.n);
    TableAdd(m.interest, SockOf(m.clients), watched, m.clients[rv.n].sock, rv.n);
    BatchGrows(ev, Registered(m.tothead, m.unwatched, rv), Registered(m.tothead, m.unwatched, Done(rv.k)));
  }

  /** The kernel refuses the descriptor, and the client goes unwatched. */
  lemma Refuse(m: Memory, rv: RegView, ev: EpView, o: OpState)
    requires MemInv(m, rv, ev, o) && rv.OnBoth?
    ensures MemInv(m.(unwatched := m.unwatched + {rv.n}), Done(rv.k), ev, o)
  {
    hide NoDup, Partition, ClassesCounted, NamesDistinct, ClientsClassed, NoneNamed, EpPointers, ListInv, CountInv, Table,
         BatchInv, UnwatchedInv, CommandInv, BetweenClasses, InsideClass, Selecting, KlassOf, Names, SockOf, SslOf;
    Ownership(m, rv, ev);
    RefuseOwners(m.tothead, m.unwatched, rv, ev);
    UnwatchedGrows(m.unwatched, Linked(m.tothead, rv), m.unwatched + {rv.n}, Linked(m.tothead, Done(rv.k)));
    hide SockOwners, SslOwners, Watched, Registered, Linked;
  }

  lemma RefuseOwners(tothead: seq<ClientId>, unwatched: set<ClientId>, rv: RegView, ev: EpView)
    requires rv.OnBoth? && rv.n in tothead && rv.n !in EpOwn(ev)
    ensures Watched(tothead, unwatched + {rv.n}, Done(rv.k), ev) == Watched(tothead, unwatched, rv, ev)
    ensures SockOwners(tothead, Done(rv.k), ev) == SockOwners(tothead, rv, ev)
    ensures SslOwners(tothead, Done(rv.k), ev) == SslOwners(tothead, rv, ev)
    ensures Registered(tothead, unwatched + {rv.n}, Done(rv.k)) == Registered(tothead, unwatched, rv)
    ensures Linked(tothead, Done(rv.k)) == Linked(tothead, rv) + {rv.n}
  {
  }

  lemma UnwatchedGrows(unwatched: set<ClientId>, linked: set<ClientId>, unwatched': set<ClientId>, linked': set<ClientId>)
    requires UnwatchedInv(unwatched, linked) && linked <= linked' && unwatched' <= unwatched + (linked' - linked)
    ensures UnwatchedInv(unwatched', linked')
  {
  }

  lemma WatchOwners(tothead: seq<ClientId>, unwatched: set<ClientId>, rv: RegView, ev: EpView)
    requires rv.OnBoth? && rv.n in tothead && rv.n !in EpOwn(ev) && UnwatchedInv(unwatched, Linked(tothead, rv))
    ensures Watched(tothead, unwatched, rv, ev) <= SockOwners(tothead, rv, ev)
    ensures rv.n in SockOwners(tothead, rv, ev) && rv.n !in Watched(tothead, unwatched, rv, ev)
    ensures Watched(tothead, unwatched, Done(rv.k), ev) == Watched(tothead, unwatched, rv, ev) + {rv.n}
    ensures SockOwners(tothead, Done(rv.k), ev) == SockOwners(tothead, rv, ev)
    ensures SslOwners(tothead, Done(rv.k), ev) == SslOwners(tothead, rv, ev)
    ensures Registered(tothead, unwatched, rv) <= Registered(tothead, unwatched, Done(rv.k))
    ensures Linked(tothead, rv) <= Linked(tothead, Done(rv.k))
  {
  }

  lemma Finish(m: Memory, rv: RegView, ev: EpView, o: OpState)
    requires MemInv(m, rv, ev, o) && rv.Done?
    ensures MemInv(m, NoReg, ev, o)
  {
    hide NoDup, Partition, ClassesCounted, NamesDistinct, ClientsClassed, NoneNamed, EpPointers, ListInv, CountInv, Table,
         BatchInv, UnwatchedInv, CommandInv, BetweenClasses, InsideClass, Selecting, KlassOf, Names, SockOf, SslOf;
    RegMoves(m, rv, NoReg, ev, o);
  }

  lemma BatchGrows(ev: EpView, registered: set<ClientId>, registered': set<ClientId>)
    requires BatchInv(ev, registered) && registered <= registered'
    ensures BatchInv(ev, registered')
  {
  }
}
