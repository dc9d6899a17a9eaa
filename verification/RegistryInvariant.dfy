/**
 The inductive invariant of the server: what every reachable state satisfies, whatever the interleaving.

 The part about memory is stated over a view of each thread, which keeps of its program point only
 what the memory depends on: how far a registration or a removal has come.
 */
module RegistryInvariant {
  import opened Wrappers
  import opened Sequences
  import opened Registration
  import opened Registry

  // ----- views of the threads

  /** How far the registration in progress has come. */
  datatype RegView =
    | NoReg
    | Fresh(n: ClientId) | WithSock(n: ClientId) | WithSsl(n: ClientId)
    | Looking(n: ClientId, who: Text, i: nat)
    | Found(n: ClientId, who: Text, k: ClassId)
    | Built(n: ClientId, who: Text, k: ClassId, counted: bool)
    | Counted(n: ClientId, who: Text, k: ClassId)
    | Ready(n: ClientId, who: Text, k: ClassId)
    | OnTot(n: ClientId, who: Text, k: ClassId)
    | OnBoth(n: ClientId, who: Text, k: ClassId)
    | Done(k: ClassId)

  function RegV(r: RegState): RegView {
    match r.pc
    case RIdle => NoReg
    case RAccept | RClean1 => Fresh(r.n)
    case RSslNew | RClean2 => WithSock(r.n)
    case RSslAccept | RRead | RWantList | RNoMem | RClean4 | RClean3 => WithSsl(r.n)
    case RScan => Looking(r.n, r.who, r.i)
    case RWant | RGet => if r.isNew then Built(r.n, r.who, r.k, false) else Found(r.n, r.who, r.k)
    case RDrop => if r.isNew then Built(r.n, r.who, r.k, true) else Counted(r.n, r.who, r.k)
    case RPublish => Built(r.n, r.who, r.k, true)
    case RUnList | RSetUp => Counted(r.n, r.who, r.k)
    case RWantLink | RWantTot | RAddTot => Ready(r.n, r.who, r.k)
    case RAddCls => OnTot(r.n, r.who, r.k)
    case RInsert => OnBoth(r.n, r.who, r.k)
    case RUnTot | RUnCls => Done(r.k)
  }

  /** How far the handling of the current event has come; up to `Locked` the client is still registered. */
  datatype EpView =
    | Waiting
    | AtBatch(evs: seq<Event>, i: nat)
    | Serving(evs: seq<Event>, i: nat, c: ClientId)
    | Locked(evs: seq<Event>, i: nat, c: ClientId, k: ClassId)
    | OffTot(evs: seq<Event>, i: nat, c: ClientId, k: ClassId, pos: nat)
    | OffCls(evs: seq<Event>, i: nat, c: ClientId, k: ClassId)
    | OffEp(evs: seq<Event>, i: nat, c: ClientId, k: ClassId)
    | Given(evs: seq<Event>, i: nat, c: ClientId, k: ClassId, dying: bool)
    | Loose(evs: seq<Event>, i: nat, c: ClientId)
    | NoSsl(evs: seq<Event>, i: nat, c: ClientId)
    | NoSock(evs: seq<Event>, i: nat, c: ClientId)
    | NoLock(evs: seq<Event>, i: nat, c: ClientId)

  function EpV(e: EpState): EpView {
    match e.pc
    case EWait => Waiting
    case EBatch => AtBatch(e.evs, e.i)
    case EWantCli | EWrite | EUnCli | EWantList | EWantCls => Serving(e.evs, e.i, e.c)
    case EWantTot | EDelTot => Locked(e.evs, e.i, e.c, e.k)
    case EDelCls => OffTot(e.evs, e.i, e.c, e.k, e.pos)
    case EDelEp => OffCls(e.evs, e.i, e.c, e.k)
    case EPut => OffEp(e.evs, e.i, e.c, e.k)
    case EUnTot | EUnCls => Given(e.evs, e.i, e.c, e.k, e.dying)
    case EUnList | EShut => Loose(e.evs, e.i, e.c)
    case EClose => NoSsl(e.evs, e.i, e.c)
    case EDestroy => NoSock(e.evs, e.i, e.c)
    case EFree => NoLock(e.evs, e.i, e.c)
  }

  // What each thread contributes to the sets below: at most one client or class.

  /** The client being registered, not yet on the list of all clients. */
  function RegOwn(rv: RegView): set<ClientId> {
    if rv.NoReg? || rv.OnTot? || rv.OnBoth? || rv.Done? then {} else {rv.n}
  }

  function RegSock(rv: RegView): set<ClientId> {
    if rv.Fresh? then {} else RegOwn(rv)
  }

  function RegSsl(rv: RegView): set<ClientId> {
    if rv.WithSock? then {} else RegSock(rv)
  }

  /** The client whose own lock is initialised but which is not yet linked. */
  function RegReady(rv: RegView): set<ClientId> {
    if rv.Ready? then {rv.n} else {}
  }

  /** The client on the list of all clients whose descriptor is not yet watched. */
  function Linking(rv: RegView): set<ClientId> {
    if rv.OnTot? || rv.OnBoth? then {rv.n} else {}
  }

  /** The client being removed, already off the list of all clients. */
  function EpOwn(ev: EpView): set<ClientId> {
    if ev.NoLock? then {ev.c} else EpReady(ev)
  }

  /** The client being removed, while its own lock exists. */
  function EpReady(ev: EpView): set<ClientId> {
    if ev.NoSock? then {ev.c} else EpSock(ev)
  }

  function EpSock(ev: EpView): set<ClientId> {
    if ev.NoSsl? then {ev.c} else EpSsl(ev)
  }

  function EpSsl(ev: EpView): set<ClientId> {
    if ev.OffEp? || ev.Given? || ev.Loose? then {ev.c} else EpWatched(ev)
  }

  function EpWatched(ev: EpView): set<ClientId> {
    if ev.OffTot? || ev.OffCls? then {ev.c} else {}
  }

  /** The class `newclass` has built and not yet put on the class list. */
  function Building(rv: RegView): set<ClassId> {
    if rv.Built? then {rv.k} else {}
  }

  /** The class `putclass` has taken off the class list and is about to free. */
  function Dying(ev: EpView): set<ClassId> {
    if ev.Given? && ev.dying then {ev.k} else {}
  }

  /** The class to which a registration holds a counted reference while its client is not linked to it yet. */
  function InFlight(rv: RegView): set<ClassId> {
    if (rv.Built? && rv.counted) || rv.Counted? || rv.Ready? || rv.OnTot? then {rv.k} else {}
  }

  /** The class from which a removal has unlinked the client without having given its reference back. */
  function Unlinked(ev: EpView): set<ClassId> {
    if ev.OffCls? || ev.OffEp? then {ev.k} else {}
  }

  function Members(xs: seq<nat>): (r: set<nat>)
    ensures forall x :: x in r <==> x in xs
  {
    set x | x in xs
  }

  ghost predicate Partition<T>(all: set<T>, a: set<T>, b: set<T>, c: set<T>) {
    all == a + b + c && a !! b && a !! c && b !! c
  }

  // ----- objects

  /** The part of the class and client objects the lists refer to. */
  function Names(classes: map<ClassId, Class>): map<ClassId, Text> {
    map k | k in classes :: classes[k].name
  }

  function KlassOf(clients: map<ClientId, Client>): map<ClientId, ClassId> {
    map c | c in clients :: clients[c].klass
  }

  ghost predicate ClassesCounted(classes: map<ClassId, Class>, classhead: seq<ClassId>) {
    forall k :: k in classhead ==> k in classes && classes[k].count >= 1
  }

  ghost predicate NamesDistinct(names: map<ClassId, Text>, classhead: seq<ClassId>) {
    && (forall k :: k in classhead ==> k in names)
    && (forall i, j :: 0 <= i < j < |classhead| ==> names[classhead[i]] != names[classhead[j]])
  }

  /** Every registered client points to a class on the class list that bears the name it registered under. */
  ghost predicate ClientsClassed(
    names: map<ClassId, Text>, classhead: seq<ClassId>, clients: map<ClientId, Client>, tothead: seq<ClientId>)
  {
    forall c :: c in tothead ==>
      c in clients && clients[c].klass in classhead && clients[c].klass in names && names[clients[c].klass] == clients[c].who
  }

  /** None of the first `i` classes of the list has the name. */
  ghost predicate NoneNamed(names: map<ClassId, Text>, classhead: seq<ClassId>, i: nat, who: Text) {
    i <= |classhead| && forall j :: 0 <= j < i ==> classhead[j] in names && names[classhead[j]] != who
  }

  /** The class the registration found or built has the name that was sent, and no other listed class has it. */
  ghost predicate RegClass(names: map<ClassId, Text>, classhead: seq<ClassId>, rv: RegView) {
    && (rv.Looking? ==> NoneNamed(names, classhead, rv.i, rv.who))
    && (rv.Built? ==> NoneNamed(names, classhead, |classhead|, rv.who))
    && (rv.Found? || rv.Counted? || rv.Ready? || rv.OnTot? || rv.OnBoth? ==> rv.k in classhead)
    && (rv.Found? || rv.Built? || rv.Counted? || rv.Ready? || rv.OnTot? || rv.OnBoth? ==> rv.k in names && names[rv.k] == rv.who)
    && (rv.Done? ==> rv.k in names)
  }

  ghost predicate RegClient(clients: map<ClientId, Client>, tothead: seq<ClientId>, rv: RegView) {
    && (rv.OnTot? || rv.OnBoth? ==> rv.n in tothead)
    && (rv.OnTot? ==> tothead[|tothead| - 1] == rv.n)
    && (rv.Ready? || rv.OnTot? || rv.OnBoth? ==>
          rv.n in clients && clients[rv.n].klass == rv.k && clients[rv.n].who == rv.who)
  }

  ghost predicate EpPointers(
    names: map<ClassId, Text>, classhead: seq<ClassId>, clients: map<ClientId, Client>, total: nat, ev: EpView)
  {
    && (ev.Locked? || ev.OffTot? || ev.OffCls? || ev.OffEp? || ev.Given? ==>
          ev.c in clients && ev.k == clients[ev.c].klass && ev.k in names)
    && (ev.Locked? || ev.OffTot? || ev.OffCls? || ev.OffEp? ==> ev.k in classhead)
    && (ev.OffTot? ==> ev.pos <= total)
  }

  // ----- class lists and counts

  /** The members of `xs` that belong to class `k`, in their order. */
  function ByClass(xs: seq<ClientId>, klass: map<ClientId, ClassId>, k: ClassId): seq<ClientId> {
    if xs == [] then []
    else
      var c := xs[|xs| - 1];
      ByClass(xs[..|xs| - 1], klass, k) + (if c in klass && klass[c] == k then [c] else [])
  }

  /** The list of all clients as the class lists reflect it: between the two link operations of a
      registration, and between the two unlink operations of a removal, they differ by one client. */
  function ClassView(tothead: seq<ClientId>, rv: RegView, ev: EpView): seq<ClientId> {
    if rv.OnTot? && tothead != [] then tothead[..|tothead| - 1]
    else if ev.OffTot? && ev.pos <= |tothead| then tothead[..ev.pos] + [ev.c] + tothead[ev.pos..]
    else tothead
  }

  ghost predicate ListInv(classes: map<ClassId, Class>, klass: map<ClientId, ClassId>, view: seq<ClientId>) {
    forall k :: k in classes ==> classes[k].clilist == ByClass(view, klass, k)
  }

  function One(b: bool): nat { if b then 1 else 0 }

  ghost predicate CountInv(classes: map<ClassId, Class>, inFlight: set<ClassId>, unlinked: set<ClassId>) {
    forall k :: k in classes ==>
      classes[k].count == |classes[k].clilist| + One(k in inFlight) + One(k in unlinked)
  }

  // ----- kernel tables

  /** `table` maps exactly the numbers of `owners` back to their owners. */
  ghost predicate Table(table: map<nat, ClientId>, number: map<ClientId, nat>, owners: set<ClientId>) {
    && (forall x :: x in table ==> table[x] in owners && table[x] in number && number[table[x]] == x)
    && (forall c :: c in owners ==> c in number && number[c] in table && table[number[c]] == c)
  }

  function SockOf(clients: map<ClientId, Client>): map<ClientId, nat> {
    map c | c in clients :: clients[c].sock
  }

  function SslOf(clients: map<ClientId, Client>): map<ClientId, nat> {
    map c | c in clients :: clients[c].ssl
  }

  function SockOwners(tothead: seq<ClientId>, rv: RegView, ev: EpView): set<ClientId> {
    Members(tothead) + RegSock(rv) + EpSock(ev)
  }

  function SslOwners(tothead: seq<ClientId>, rv: RegView, ev: EpView): set<ClientId> {
    Members(tothead) + RegSsl(rv) + EpSsl(ev)
  }

  function Watched(tothead: seq<ClientId>, unwatched: set<ClientId>, rv: RegView, ev: EpView): set<ClientId> {
    Registered(tothead, unwatched, rv) + EpWatched(ev)
  }

  /** Whoever could not be watched is registered all the same. */
  ghost predicate UnwatchedInv(unwatched: set<ClientId>, linked: set<ClientId>) {
    unwatched <= linked
  }

  // ----- epoll thread

  /** The clients linked, whether or not the epoll set took them. */
  function Linked(tothead: seq<ClientId>, rv: RegView): set<ClientId> {
    Members(tothead) - Linking(rv)
  }

  /** The clients linked and in the epoll set. */
  function Registered(tothead: seq<ClientId>, unwatched: set<ClientId>, rv: RegView): set<ClientId> {
    Linked(tothead, rv) - unwatched
  }

  ghost predicate BatchInv(ev: EpView, registered: set<ClientId>) {
    && (!ev.Waiting? ==> forall i, j :: 0 <= i < j < |ev.evs| ==> ev.evs[i].cli != ev.evs[j].cli)
    && (ev.AtBatch? ==> forall j :: ev.i <= j < |ev.evs| ==> ev.evs[j].cli in registered)
    && (!ev.Waiting? && !ev.AtBatch? ==>
          && ev.i < |ev.evs| && ev.c == ev.evs[ev.i].cli
          && forall j :: ev.i < j < |ev.evs| ==> ev.evs[j].cli in registered)
    && (ev.Serving? || ev.Locked? ==> ev.c in registered)
  }

  // ----- operator thread

  /** The classes among `ks` the command enters. */
  function Entered(cmd: Command, ks: seq<ClassId>, names: map<ClassId, Text>): seq<ClassId> {
    if ks == [] then []
    else
      var k := ks[|ks| - 1];
      Entered(cmd, ks[..|ks| - 1], names) + (if k in names && Visits(cmd, names[k]) then [k] else [])
  }

  function Snapshots(taken: seq<(ClassId, seq<ClientId>)>): (r: seq<seq<ClientId>>)
    ensures |r| == |taken|
  {
    seq(|taken|, i requires 0 <= i < |taken| => taken[i].1)
  }

  function Keys(taken: seq<(ClassId, seq<ClientId>)>): (r: seq<ClassId>)
    ensures |r| == |taken|
  {
    seq(|taken|, i requires 0 <= i < |taken| => taken[i].0)
  }

  /** The operator is inside a class: it holds the class's lock. */
  predicate InClass(o: OpState) {
    o.pc in {OClients, OWantCli, ORecord, OUnCli, OSend, OUnCls}
  }

  predicate CommandInv(o: OpState) {
    && (o.pc !in {OIdle, OWantTot, OScan, OUnTot} ==> !o.cmd.BashTo?)
    && (o.pc in {OWantTot, OScan, OUnTot} ==> o.cmd.BashTo?)
    && (o.pc in {OWantCli, ORecord, OUnCli, OSend} ==> o.cmd.Send?)
  }

  /** Every class list entered so far has been gone through completely. */
  ghost predicate BetweenClasses(names: map<ClassId, Text>, classhead: seq<ClassId>, o: OpState) {
    && (o.pc in {OClasses, OWantCls} ==>
          o.i <= |classhead|
          && o.done == Flatten(Snapshots(o.taken)) && Keys(o.taken) == Entered(o.cmd, classhead[..o.i], names))
    && (o.pc == OUnList ==>
          o.done == Flatten(Snapshots(o.taken)) && Keys(o.taken) == Entered(o.cmd, classhead, names))
    && (o.pc == OWantCls || InClass(o) ==>
          o.i < |classhead| && o.k == classhead[o.i] && o.k in names && Visits(o.cmd, names[o.k]))
  }

  /** The current class list is still the one found when its lock was taken, and has been gone through up to the cursor. */
  ghost predicate InsideClass(classes: map<ClassId, Class>, names: map<ClassId, Text>, classhead: seq<ClassId>, o: OpState) {
    InClass(o) ==>
      && o.taken != []
      && o.k in classes && o.taken[|o.taken| - 1] == (o.k, classes[o.k].clilist)
      && o.i < |classhead| && Keys(o.taken) == Entered(o.cmd, classhead[..o.i + 1], names)
      && o.j <= |classes[o.k].clilist|
      && o.done == Flatten(Snapshots(o.taken[..|o.taken| - 1])) + classes[o.k].clilist[..o.j]
      && (o.pc in {OWantCli, ORecord, OUnCli, OSend} ==>
            o.j < |classes[o.k].clilist| && o.c == classes[o.k].clilist[o.j])
      && (o.pc == OUnCls ==> o.j == |classes[o.k].clilist|)
  }

  predicate MacIs(clients: map<ClientId, Client>, c: ClientId, mac: Mac) {
    c in clients && clients[c].mac == mac
  }

  ghost predicate Selecting(tothead: seq<ClientId>, clients: map<ClientId, Client>, o: OpState) {
    o.pc in {OScan, OUnTot} && o.cmd.BashTo? ==>
      && o.i <= |tothead| && (forall i :: 0 <= i < o.i ==> !MacIs(clients, tothead[i], o.cmd.mac))
      && (o.pc == OUnTot ==>
            match o.found
            case None => o.i == |tothead|
            case Some(c) => o.i < |tothead| && c == tothead[o.i] && MacIs(clients, c, o.cmd.mac))
  }

  ghost predicate MemInv(m: Memory, rv: RegView, ev: EpView, o: OpState) {
    // live classes are those on the class list, the one being built and the one being freed
    && NoDup(m.classhead) && Partition(m.classes.Keys, Members(m.classhead), Building(rv), Dying(ev))
    // live clients are those on the list of all clients, the one being registered and the one being removed
    && NoDup(m.tothead) && Partition(m.clients.Keys, Members(m.tothead), RegOwn(rv), EpOwn(ev))
    && ClassesCounted(m.classes, m.classhead)
    && NamesDistinct(Names(m.classes), m.classhead)
    && ClientsClassed(Names(m.classes), m.classhead, m.clients, m.tothead)
    && RegClass(Names(m.classes), m.classhead, rv)
    && RegClient(m.clients, m.tothead, rv)
    && EpPointers(Names(m.classes), m.classhead, m.clients, |m.tothead|, ev)
    && ListInv(m.classes, KlassOf(m.clients), ClassView(m.tothead, rv, ev))
    && CountInv(m.classes, InFlight(rv), Unlinked(ev))
    && Table(m.socks, SockOf(m.clients), SockOwners(m.tothead, rv, ev))
    && Table(m.ssls, SslOf(m.clients), SslOwners(m.tothead, rv, ev))
    && UnwatchedInv(m.unwatched, Linked(m.tothead, rv))
    && Table(m.interest, SockOf(m.clients), Watched(m.tothead, m.unwatched, rv, ev))
    && BatchInv(ev, Registered(m.tothead, m.unwatched, rv))
    && CommandInv(o)
    && BetweenClasses(Names(m.classes), m.classhead, o)
    && InsideClass(m.classes, Names(m.classes), m.classhead, o)
    && Selecting(m.tothead, m.clients, o)
  }

  // ----- locks

  /** What a thread holds: the class-list lock, the lock of all clients, one class's lock, one client's lock. */
  datatype Holdings = Holdings(list: bool, tot: bool, cls: Option<ClassId>, cli: Option<ClientId>) {
    predicate Has(l: LockId) {
      match l
      case ClassListLock => list
      case TotLock => tot
      case ClassLock(k) => cls == Some(k)
      case CliLock(c) => cli == Some(c)
    }

    function Plus(l: LockId): Holdings {
      match l
      case ClassListLock => this.(list := true)
      case TotLock => this.(tot := true)
      case ClassLock(k) => this.(cls := Some(k))
      case CliLock(c) => this.(cli := Some(c))
    }

    function Minus(l: LockId): Holdings {
      match l
      case ClassListLock => this.(list := false)
      case TotLock => this.(tot := false)
      case ClassLock(_) => this.(cls := None)
      case CliLock(_) => this.(cli := None)
    }
  }

  function RegHolds(r: RegState): Holdings {
    Holdings(r.pc in {RScan, RNoMem, RWant, RGet, RDrop, RPublish, RUnList},
             r.pc in {RAddTot, RAddCls, RInsert, RUnTot},
             if r.pc in {RGet, RDrop, RWantTot, RAddTot, RAddCls, RInsert, RUnTot, RUnCls} then Some(r.k) else None,
             None)
  }

  function EpHolds(e: EpState): Holdings {
    Holdings(e.pc in {EWantCls, EWantTot, EDelTot, EDelCls, EDelEp, EPut, EUnTot, EUnCls, EUnList},
             e.pc in {EDelTot, EDelCls, EDelEp, EPut, EUnTot},
             if e.pc in {EWantTot, EDelTot, EDelCls, EDelEp, EPut, EUnTot, EUnCls} then Some(e.k) else None,
             if e.pc in {EWrite, EUnCli} then Some(e.c) else None)
  }

  function OpHolds(o: OpState): Holdings {
    Holdings(o.pc in {OClasses, OWantCls, OUnList} || InClass(o),
             o.pc in {OScan, OUnTot},
             if InClass(o) then Some(o.k) else None,
             if o.pc in {ORecord, OUnCli} then Some(o.c) else None)
  }

  datatype AllHoldings = AllHoldings(reg: Holdings, ep: Holdings, op: Holdings) {
    function Of(t: Thread): Holdings {
      match t
      case Reg => reg
      case Ep => ep
      case Op => op
    }

    function With(t: Thread, h: Holdings): AllHoldings {
      match t
      case Reg => this.(reg := h)
      case Ep => this.(ep := h)
      case Op => this.(op := h)
    }
  }

  function HoldingsOf(s: State): AllHoldings {
    AllHoldings(RegHolds(s.reg), EpHolds(s.ep), OpHolds(s.op))
  }

  predicate Has(s: State, t: Thread, l: LockId) {
    HoldingsOf(s).Of(t).Has(l)
  }

  /** The lock a program point is about to take. */
  function Wants(s: State, t: Thread): Option<LockId> {
    match t
    case Reg => (
      match s.reg.pc
      case RWantList => Some(ClassListLock)
      case RWant | RWantLink => Some(ClassLock(s.reg.k))
      case RWantTot => Some(TotLock)
      case _ => None)
    case Ep => (
      match s.ep.pc
      case EWantCli => Some(CliLock(s.ep.c))
      case EWantList => Some(ClassListLock)
      case EWantCls => if s.ep.c in s.mem.clients then Some(ClassLock(s.mem.clients[s.ep.c].klass)) else None
      case EWantTot => Some(TotLock)
      case _ => None)
    case Op => (
      match s.op.pc
      case OWantList => Some(ClassListLock)
      case OWantCls => Some(ClassLock(s.op.k))
      case OWantCli => Some(CliLock(s.op.c))
      case OWantTot => Some(TotLock)
      case _ => None)
  }

  predicate Agrees(x: Mutex, byReg: bool, byEp: bool, byOp: bool) {
    (x == Held(Reg) <==> byReg) && (x == Held(Ep) <==> byEp) && (x == Held(Op) <==> byOp)
  }

  /** A lock is held by a thread exactly at the program points that say so; a lock that does not exist is held by none. */
  ghost predicate HoldInv(locks: map<LockId, Mutex>, hs: AllHoldings) {
    forall l :: Agrees(if l in locks then locks[l] else Free, hs.reg.Has(l), hs.ep.Has(l), hs.op.Has(l))
  }

  /** The clients whose own lock has been initialised and not yet destroyed. */
  function LockReady(tothead: seq<ClientId>, rv: RegView, ev: EpView): set<ClientId> {
    Members(tothead) + RegReady(rv) + EpReady(ev)
  }

  /** Exactly the locks of live classes and of clients between their init and destroy exist. */
  ghost predicate LiveLocks(locks: set<LockId>, classes: set<ClassId>, ready: set<ClientId>) {
    && ClassListLock in locks && TotLock in locks
    && (forall k :: ClassLock(k) in locks <==> k in classes)
    && (forall c :: CliLock(c) in locks <==> c in ready)
  }

  ghost predicate Inv(s: State) {
    && HoldInv(s.locks, HoldingsOf(s))
    && LiveLocks(s.locks.Keys, s.mem.classes.Keys, LockReady(s.mem.tothead, RegV(s.reg), EpV(s.ep)))
    && MemInv(s.mem, RegV(s.reg), EpV(s.ep), s.op)
  }
}
