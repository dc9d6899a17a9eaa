/** How each part of the invariant changes with the lists, objects and tables it is about. */
module RegistryLemmas {
  import opened Sequences
  import opened Registration
  import opened LogPath
  import opened Registry
  import opened RegistryInvariant

  // ----- sets of members

  lemma MembersAppend(xs: seq<nat>, x: nat)
    ensures Members(xs + [x]) == Members(xs) + {x}
    ensures x !in xs && NoDup(xs) ==> NoDup(xs + [x])
  {
  }

  lemma MembersRemove(xs: seq<nat>, x: nat)
    requires NoDup(xs) && x in xs
    ensures NoDup(Remove(xs, x)) && Members(Remove(xs, x)) == Members(xs) - {x}
  {
    RemoveNoDup(xs, x);
  }

  lemma PartitionEnter<T>(all: set<T>, a: set<T>, c: set<T>, x: T)
    requires Partition(all, a, {}, c) && x !in all
    ensures Partition(all + {x}, a, {x}, c)
  {
  }

  lemma PartitionJoin<T>(all: set<T>, a: set<T>, c: set<T>, x: T)
    requires Partition(all, a, {x}, c)
    ensures Partition(all, a + {x}, {}, c)
  {
  }

  lemma PartitionQuit<T>(all: set<T>, a: set<T>, c: set<T>, x: T)
    requires Partition(all, a, {x}, c)
    ensures Partition(all - {x}, a, {}, c)
  {
  }

  lemma PartitionLeave<T>(all: set<T>, a: set<T>, b: set<T>, x: T)
    requires Partition(all, a, b, {}) && x in a
    ensures Partition(all, a - {x}, b, {x})
  {
  }

  lemma PartitionDrop<T>(all: set<T>, a: set<T>, b: set<T>, x: T)
    requires Partition(all, a, b, {x})
    ensures Partition(all - {x}, a, b, {})
  {
  }

  /** The clients and classes the threads hold are alive and on no list. */
  lemma Ownership(m: Memory, rv: RegView, ev: EpView)
    requires Partition(m.clients.Keys, Members(m.tothead), RegOwn(rv), EpOwn(ev))
    requires Partition(m.classes.Keys, Members(m.classhead), Building(rv), Dying(ev))
    ensures forall c :: c in m.tothead ==> c in m.clients
    ensures forall c :: c in RegOwn(rv) ==> c in m.clients && c !in m.tothead && c !in EpOwn(ev)
    ensures forall c :: c in EpOwn(ev) ==> c in m.clients && c !in m.tothead
    ensures forall k :: k in m.classhead ==> k in m.classes
    ensures forall k :: k in Building(rv) ==> k in m.classes && k !in m.classhead && k !in Dying(ev)
    ensures forall k :: k in Dying(ev) ==> k in m.classes && k !in m.classhead
  {
  }

  // ----- number tables

  lemma TableAdd(t: map<nat, ClientId>, number: map<ClientId, nat>, owners: set<ClientId>, x: nat, c: ClientId)
    requires Table(t, number, owners) && x !in t && c !in owners
    requires c in number && number[c] == x
    ensures Table(t[x := c], number, owners + {c})
  {
  }

  lemma TableRemove(t: map<nat, ClientId>, number: map<ClientId, nat>, owners: set<ClientId>, c: ClientId)
    requires Table(t, number, owners) && c in owners
    ensures c in number && Table(t - {number[c]}, number, owners - {c})
  {
  }

  /** Distinct owners have distinct descriptors, so two tables over the same numbers agree. */
  lemma TablesAgree(socks: map<nat, ClientId>, interest: map<nat, ClientId>, number: map<ClientId, nat>,
                    owners: set<ClientId>, watched: set<ClientId>)
    requires Table(socks, number, owners) && Table(interest, number, watched) && watched <= owners
    ensures forall f :: f in interest ==> f in socks && socks[f] == interest[f] && interest[f] in watched
  {
  }

  /** A descriptor whose client is not watched is not in the epoll set. */
  lemma NotWatched(socks: map<nat, ClientId>, interest: map<nat, ClientId>, number: map<ClientId, nat>,
                   owners: set<ClientId>, watched: set<ClientId>, c: ClientId)
    requires Table(socks, number, owners) && Table(interest, number, watched) && watched <= owners
    requires c in owners && c !in watched
    ensures c in number && number[c] !in interest
  {
    TablesAgree(socks, interest, number, owners, watched);
  }

  // ----- class lists

  lemma {:induction false} ByClassFrame(xs: seq<ClientId>, klass: map<ClientId, ClassId>, klass': map<ClientId, ClassId>, k: ClassId)
    requires forall c :: c in xs ==> (c in klass <==> c in klass') && (c in klass ==> klass[c] == klass'[c])
    ensures ByClass(xs, klass, k) == ByClass(xs, klass', k)
  {
    if xs != [] {
      assert xs[|xs| - 1] in xs;
      ByClassFrame(xs[..|xs| - 1], klass, klass', k);
    }
  }

  lemma {:induction false} ByClassConcat(xs: seq<ClientId>, ys: seq<ClientId>, klass: map<ClientId, ClassId>, k: ClassId)
    ensures ByClass(xs + ys, klass, k) == ByClass(xs, klass, k) + ByClass(ys, klass, k)
  {
    if ys == [] {
      assert xs + ys == xs;
    } else {
      assert (xs + ys)[..|xs + ys| - 1] == xs + ys[..|ys| - 1];
      ByClassConcat(xs, ys[..|ys| - 1], klass, k);
    }
  }

  lemma {:induction false} ByClassMember(xs: seq<ClientId>, klass: map<ClientId, ClassId>, k: ClassId, c: ClientId)
    ensures c in ByClass(xs, klass, k) <==> c in xs && c in klass && klass[c] == k
  {
    if xs != [] {
      assert c in xs <==> c in xs[..|xs| - 1] || c == xs[|xs| - 1];
      ByClassMember(xs[..|xs| - 1], klass, k, c);
    }
  }

  lemma {:induction false} ByClassNone(xs: seq<ClientId>, klass: map<ClientId, ClassId>, k: ClassId)
    requires forall c :: c in xs && c in klass ==> klass[c] != k
    ensures ByClass(xs, klass, k) == []
  {
    if xs != [] {
      assert xs[|xs| - 1] in xs;
      ByClassNone(xs[..|xs| - 1], klass, k);
    }
  }

  lemma {:induction false} ByClassNoDup(xs: seq<ClientId>, klass: map<ClientId, ClassId>, k: ClassId)
    requires NoDup(xs)
    ensures NoDup(ByClass(xs, klass, k))
  {
    if xs != [] {
      ByClassNoDup(xs[..|xs| - 1], klass, k);
      ByClassMember(xs[..|xs| - 1], klass, k, xs[|xs| - 1]);
    }
  }

  lemma ByClassSplit(a: seq<ClientId>, c: ClientId, b: seq<ClientId>, klass: map<ClientId, ClassId>, k: ClassId)
    ensures ByClass(a + [c] + b, klass, k) ==
            ByClass(a, klass, k) + (if c in klass && klass[c] == k then [c] else []) + ByClass(b, klass, k)
  {
    ByClassConcat(a + [c], b, klass, k);
    assert (a + [c])[..|a|] == a;
  }

  lemma RemoveMiddle<T>(a: seq<T>, x: T, b: seq<T>)
    requires x !in a
    ensures Remove(a + [x] + b, x) == a + b
  {
    var xs := a + [x] + b;
    var i := IndexOf(xs, x);
    assert xs[|a|] == x;
    assert forall j :: 0 <= j < |a| ==> xs[j] == a[j];
  }

  /** Taking a client out of the list of all clients takes it out of its class's list, and out of no other. */
  lemma ByClassRemove(a: seq<ClientId>, c: ClientId, b: seq<ClientId>, klass: map<ClientId, ClassId>, k: ClassId)
    requires c !in a
    ensures var list := ByClass(a + [c] + b, klass, k);
            if c in klass && klass[c] == k then c in list && ByClass(a + b, klass, k) == Remove(list, c)
            else ByClass(a + b, klass, k) == list
  {
    ByClassSplit(a, c, b, klass, k);
    ByClassConcat(a, b, klass, k);
    ByClassMember(a, klass, k, c);
    hide ByClass;
    if c in klass && klass[c] == k {
      RemoveMiddle(ByClass(a, klass, k), c, ByClass(b, klass, k));
    }
  }

  // ----- objects

  /** Changing a class object but not its name leaves the names alone. */
  lemma NamesSame(classes: map<ClassId, Class>, k: ClassId, c: Class)
    requires k in classes && c.name == classes[k].name
    ensures Names(classes[k := c]) == Names(classes)
    ensures classes[k := c].Keys == classes.Keys
  {
  }

  /** The two heaps differ at most in the object at `n`. */
  ghost predicate OnlyAt(clients: map<ClientId, Client>, clients': map<ClientId, Client>, n: ClientId) {
    forall c :: c in clients && c != n ==> c in clients' && clients'[c] == clients[c]
  }

  lemma Written(clients: map<ClientId, Client>, n: ClientId, cl: Client)
    ensures OnlyAt(clients, clients[n := cl], n)
    ensures clients[n := cl].Keys == if n in clients then clients.Keys else clients.Keys + {n}
  {
  }

  lemma Freed(clients: map<ClientId, Client>, n: ClientId)
    ensures OnlyAt(clients, clients - {n}, n) && (clients - {n}).Keys == clients.Keys - {n}
  {
  }

  /** The lists of registered clients do not depend on the object of another client. */
  lemma ClientsFrame(m: Memory, clients: map<ClientId, Client>, o: OpState, n: ClientId)
    requires OnlyAt(m.clients, clients, n) && n !in m.tothead && forall c :: c in m.tothead ==> c in m.clients
    requires ClientsClassed(Names(m.classes), m.classhead, m.clients, m.tothead) && Selecting(m.tothead, m.clients, o)
    ensures ClientsClassed(Names(m.classes), m.classhead, clients, m.tothead)
    ensures Selecting(m.tothead, clients, o)
  {
    assert forall i :: 0 <= i < |m.tothead| ==> clients[m.tothead[i]] == m.clients[m.tothead[i]];
  }

  lemma EpFrame(names: map<ClassId, Text>, classhead: seq<ClassId>, tothead: seq<ClientId>, unwatched: set<ClientId>,
                clients: map<ClientId, Client>, clients': map<ClientId, Client>, rv: RegView, ev: EpView, n: ClientId)
    requires EpPointers(names, classhead, clients, |tothead|, ev) && BatchInv(ev, Registered(tothead, unwatched, rv))
    requires OnlyAt(clients, clients', n) && n !in tothead && n !in EpOwn(ev)
    ensures EpPointers(names, classhead, clients', |tothead|, ev)
  {
  }

  lemma ViewMembers(tothead: seq<ClientId>, rv: RegView, ev: EpView)
    ensures forall c :: c in ClassView(tothead, rv, ev) ==> c in tothead || c in EpOwn(ev)
  {
  }

  lemma ListFrame(classes: map<ClassId, Class>, clients: map<ClientId, Client>, clients': map<ClientId, Client>,
                  view: seq<ClientId>, n: ClientId)
    requires ListInv(classes, KlassOf(clients), view)
    requires OnlyAt(clients, clients', n) && n !in view && forall c :: c in view ==> c in clients
    ensures ListInv(classes, KlassOf(clients'), view)
  {
    forall k | k in classes
      ensures classes[k].clilist == ByClass(view, KlassOf(clients'), k)
    {
      ByClassFrame(view, KlassOf(clients), KlassOf(clients'), k);
    }
  }

  /** A table does not depend on the object of a client that owns no number in it, or whose number stays. */
  lemma SockFrame(t: map<nat, ClientId>, clients: map<ClientId, Client>, clients': map<ClientId, Client>,
                  owners: set<ClientId>, n: ClientId)
    requires Table(t, SockOf(clients), owners) && OnlyAt(clients, clients', n)
    requires n !in owners || (n in clients && n in clients' && clients'[n].sock == clients[n].sock)
    ensures Table(t, SockOf(clients'), owners)
  {
  }

  lemma SslFrame(t: map<nat, ClientId>, clients: map<ClientId, Client>, clients': map<ClientId, Client>,
                 owners: set<ClientId>, n: ClientId)
    requires Table(t, SslOf(clients), owners) && OnlyAt(clients, clients', n)
    requires n !in owners || (n in clients && n in clients' && clients'[n].ssl == clients[n].ssl)
    ensures Table(t, SslOf(clients'), owners)
  {
  }

  lemma NumbersOf(clients: map<ClientId, Client>, c: ClientId)
    requires c in clients
    ensures c in SockOf(clients) && SockOf(clients)[c] == clients[c].sock
    ensures c in SslOf(clients) && SslOf(clients)[c] == clients[c].ssl
  {
  }

  lemma SameLists(classes: map<ClassId, Class>, classes': map<ClassId, Class>, klass: map<ClientId, ClassId>, view: seq<ClientId>)
    requires ListInv(classes, klass, view)
    requires forall k :: k in classes' ==> k in classes && classes'[k].clilist == classes[k].clilist
    ensures ListInv(classes', klass, view)
  {
  }

  lemma SameCounts(classes: map<ClassId, Class>, classes': map<ClassId, Class>, classhead: seq<ClassId>)
    requires ClassesCounted(classes, classhead)
    requires forall k :: k in classes ==> k in classes' && classes'[k].count == classes[k].count
    ensures ClassesCounted(classes', classhead)
  {
  }

  // ----- class names

  lemma {:induction false} EnteredFrame(cmd: Command, ks: seq<ClassId>, names: map<ClassId, Text>, names': map<ClassId, Text>)
    requires forall k :: k in ks ==> k in names && k in names' && names[k] == names'[k]
    ensures Entered(cmd, ks, names) == Entered(cmd, ks, names')
  {
    if ks != [] {
      assert ks[|ks| - 1] in ks;
      EnteredFrame(cmd, ks[..|ks| - 1], names, names');
    }
  }

  /** Only the names and lists of the classes on the class list matter. */
  lemma NamesFrame(m: Memory, classes': map<ClassId, Class>, rv: RegView, o: OpState)
    requires NamesDistinct(Names(m.classes), m.classhead)
    requires forall k :: k in m.classhead ==> k in classes' && classes'[k] == m.classes[k]
    ensures NamesDistinct(Names(classes'), m.classhead)
    ensures ClientsClassed(Names(m.classes), m.classhead, m.clients, m.tothead) ==>
              ClientsClassed(Names(classes'), m.classhead, m.clients, m.tothead)
    ensures forall i, who :: NoneNamed(Names(m.classes), m.classhead, i, who) ==> NoneNamed(Names(classes'), m.classhead, i, who)
    ensures ClassesCounted(m.classes, m.classhead) ==> ClassesCounted(classes', m.classhead)
  {
  }

  lemma EpNamesFrame(m: Memory, classes': map<ClassId, Class>, ev: EpView)
    requires EpPointers(Names(m.classes), m.classhead, m.clients, |m.tothead|, ev)
    requires forall k :: k in m.classes ==> k in classes'
    ensures EpPointers(Names(classes'), m.classhead, m.clients, |m.tothead|, ev)
  {
  }

  /** No client the class lists reflect belongs to a class that is not on the class list. */
  lemma UnlistedClassEmpty(m: Memory, rv: RegView, ev: EpView, k: ClassId)
    requires ClientsClassed(Names(m.classes), m.classhead, m.clients, m.tothead)
    requires EpPointers(Names(m.classes), m.classhead, m.clients, |m.tothead|, ev)
    requires k !in m.classhead
    ensures ByClass(ClassView(m.tothead, rv, ev), KlassOf(m.clients), k) == []
  {
    ByClassNone(ClassView(m.tothead, rv, ev), KlassOf(m.clients), k);
  }

  lemma TraversalFrame(m: Memory, classes': map<ClassId, Class>, o: OpState)
    requires NamesDistinct(Names(m.classes), m.classhead)
    requires forall k :: k in m.classhead ==> k in classes' && classes'[k].name == m.classes[k].name
    requires InClass(o) && o.k in m.classhead ==> classes'[o.k].clilist == m.classes[o.k].clilist
    requires BetweenClasses(Names(m.classes), m.classhead, o) && InsideClass(m.classes, Names(m.classes), m.classhead, o)
    ensures BetweenClasses(Names(classes'), m.classhead, o) && InsideClass(classes', Names(classes'), m.classhead, o)
  {
    if o.i < |m.classhead| {
      EnteredFrame(o.cmd, m.classhead[..o.i + 1], Names(m.classes), Names(classes'));
    }
    if o.i <= |m.classhead| {
      EnteredFrame(o.cmd, m.classhead[..o.i], Names(m.classes), Names(classes'));
    }
    EnteredFrame(o.cmd, m.classhead, Names(m.classes), Names(classes'));
  }

  /** The operator is between taking and releasing the lock of the class list. */
  predicate Traversing(o: OpState) {
    o.pc in {OClasses, OWantCls, OUnList} || InClass(o)
  }

  lemma NoTraversal(classes: map<ClassId, Class>, names: map<ClassId, Text>, classhead: seq<ClassId>, o: OpState)
    requires !Traversing(o)
    ensures BetweenClasses(names, classhead, o) && InsideClass(classes, names, classhead, o)
  {
  }

  /** The client the operator is at is registered, or just being taken off the list of all clients. */
  lemma OpClientListed(m: Memory, rv: RegView, ev: EpView, o: OpState)
    requires InsideClass(m.classes, Names(m.classes), m.classhead, o)
    requires ListInv(m.classes, KlassOf(m.clients), ClassView(m.tothead, rv, ev))
    ensures o.pc in {OWantCli, ORecord, OUnCli, OSend} ==> o.c in m.tothead || (ev.OffTot? && o.c == ev.c)
  {
    if o.pc in {OWantCli, ORecord, OUnCli, OSend} {
      ByClassMember(ClassView(m.tothead, rv, ev), KlassOf(m.clients), o.k, o.c);
    }
  }

  /** Nothing in the invariant depends on the log files. */
  lemma FilesFrame(m: Memory, rv: RegView, ev: EpView, o: OpState, files: map<FileName, Log>)
    requires MemInv(m, rv, ev, o)
    ensures MemInv(m.(files := files), rv, ev, o)
  {
    hide NoDup, Partition, ClassesCounted, NamesDistinct, ClientsClassed, RegClass, RegClient, EpPointers, ListInv, CountInv,
         Table, BatchInv, UnwatchedInv, CommandInv, BetweenClasses, InsideClass, Selecting, KlassOf, Names, SockOf, SslOf;
  }

  // ----- what every program point relies on

  /** Everything the threads can reach is alive. */
  lemma Reach(m: Memory, rv: RegView, ev: EpView, o: OpState)
    requires MemInv(m, rv, ev, o)
    ensures AllAlive(m.tothead, m.clients) && AllAlive(m.classhead, m.classes)
    ensures forall k :: k in m.classes ==> AllAlive(m.classes[k].clilist, m.clients)
    ensures forall c :: c in m.tothead ==> LogAlive(m, c) && m.clients[c].klass in m.classhead
    ensures forall c :: c in RegOwn(rv) ==> c in m.clients && c !in m.tothead
    ensures forall c :: c in EpOwn(ev) ==> c in m.clients && c !in m.tothead
    ensures !rv.NoReg? && !rv.Done? ==> rv.n in m.clients
    ensures rv.OnTot? || rv.OnBoth? ==> rv.n in m.tothead
    ensures rv.Found? || rv.Built? || rv.Counted? || rv.Ready? || rv.OnTot? || rv.OnBoth? || rv.Done? ==> rv.k in m.classes
    ensures !ev.Waiting? && !ev.AtBatch? ==> ev.c in m.clients
    ensures ev.Locked? || ev.OffTot? || ev.OffCls? || ev.OffEp? || ev.Given? ==>
              ev.k == m.clients[ev.c].klass && ev.k in m.classes && m.clients[ev.c].klass in m.classes
    ensures ev.Serving? ==> ev.c in m.tothead && m.clients[ev.c].klass in m.classhead
    ensures ev.Locked? ==> ev.c in m.tothead
    ensures ev.OffEp? ==> ev.k in m.classhead
  {
    hide NoDup, ClassesCounted, NamesDistinct, NoneNamed, CountInv, Table, CommandInv, BetweenClasses, InsideClass, Selecting;
    Ownership(m, rv, ev);
    ViewMembers(m.tothead, rv, ev);
    forall k, c | k in m.classes && c in m.classes[k].clilist
      ensures c in m.clients
    {
      ByClassMember(ClassView(m.tothead, rv, ev), KlassOf(m.clients), k, c);
    }
  }

  /** The descriptors and SSL objects of registered clients, and of those a thread has not released, are open. */
  lemma ReachKernel(m: Memory, rv: RegView, ev: EpView, o: OpState)
    requires MemInv(m, rv, ev, o)
    ensures forall c :: c in m.tothead || c in RegSock(rv) || c in EpSock(ev) ==> SockOpen(m, c)
    ensures forall c :: c in m.tothead || c in RegSsl(rv) || c in EpSsl(ev) ==> SslAlive(m, c)
  {
    hide NoDup, Partition, ClassesCounted, NamesDistinct, ClientsClassed, RegClass, RegClient, EpPointers, ListInv, CountInv,
         BatchInv, UnwatchedInv, CommandInv, BetweenClasses, InsideClass, Selecting, KlassOf, Names;
  }

  lemma SameLocks(locks: map<LockId, Mutex>, l: LockId, x: Mutex)
    requires l in locks
    ensures locks[l := x].Keys == locks.Keys
  {
  }
}
