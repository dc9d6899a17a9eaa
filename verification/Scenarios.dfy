/** Runs that exist: what the threads can be made to do from a given state. */
module Scenarios {
  import opened Sequences
  import opened Registration
  import opened LogPath
  import opened Registry
  import opened RegistryInvariant
  import opened LockProof
  import opened ServerTheorems
  import opened Progress
  import opened Arrivals

  // ----- paths

  /** Which threads move along a path, and at which program points the epoll thread does not. */
  datatype Scope = Scope(threads: set<Thread>, avoid: set<EpPc>)

  ghost predicate Moves(w: Scope, s: State, s': State) {
    exists t: Thread, ch: Choice :: t in w.threads && (t == Ep ==> s.ep.pc !in w.avoid) && Allowed(s, t, ch) && Step(s, t, ch) == Ok(s')
  }

  ghost predicate Chain(w: Scope, tr: seq<State>) {
    |tr| > 0 && forall i :: 0 <= i < |tr| - 1 ==> Moves(w, tr[i], tr[i + 1])
  }

  ghost predicate Leads(w: Scope, s: State, s': State) {
    exists tr: seq<State> :: Chain(w, tr) && tr[0] == s && tr[|tr| - 1] == s'
  }

  lemma LeadsHere(w: Scope, s: State)
    ensures Leads(w, s, s)
  {
    assert Chain(w, [s]) && [s][|[s]| - 1] == s;
  }

  /** A path can be prolonged by a step. */
  lemma LeadsOn(w: Scope, s: State, s': State, t: Thread, ch: Choice, s'': State)
    requires Leads(w, s, s') && t in w.threads && (t == Ep ==> s'.ep.pc !in w.avoid) && Allowed(s', t, ch) && Step(s', t, ch) == Ok(s'')
    ensures Leads(w, s, s'')
  {
    hide Step, Allowed;
    var tr: seq<State> :| Chain(w, tr) && tr[0] == s && tr[|tr| - 1] == s';
    assert Moves(w, s', s'');
    var tr' := tr + [s''];
    forall i | 0 <= i < |tr'| - 1
      ensures Moves(w, tr'[i], tr'[i + 1])
    {
      assert i < |tr| - 1 ==> Moves(w, tr[i], tr[i + 1]);
    }
    assert Chain(w, tr') && tr'[0] == s && tr'[|tr'| - 1] == s'';
  }

  lemma {:induction false} LeadsThrough(w: Scope, s: State, s': State, s'': State)
    requires Leads(w, s, s') && Leads(w, s', s'')
    ensures Leads(w, s, s'')
  {
    hide Moves;
    var tr: seq<State> :| Chain(w, tr) && tr[0] == s && tr[|tr| - 1] == s';
    var tr': seq<State> :| Chain(w, tr') && tr'[0] == s' && tr'[|tr'| - 1] == s'';
    var all := tr + tr'[1..];
    forall i | 0 <= i < |all| - 1
      ensures Moves(w, all[i], all[i + 1])
    {
      if i < |tr| - 1 {
        assert Moves(w, tr[i], tr[i + 1]);
      } else {
        assert Moves(w, tr'[i - |tr| + 1], tr'[i - |tr| + 1 + 1]);
      }
    }
    assert Chain(w, all) && all[0] == s && all[|all| - 1] == s'';
  }

  lemma Reaches(s: State, t: Thread, ch: Choice, s': State)
    requires Reachable(s) && Allowed(s, t, ch) && Step(s, t, ch) == Ok(s')
    ensures Reachable(s')
  {
    hide Step, Allowed;
    var tr: seq<State> :| Run(tr) && tr[|tr| - 1] == s;
    assert Next(s, s');
    var tr' := tr + [s'];
    forall i | 0 <= i < |tr'| - 1
      ensures Next(tr'[i], tr'[i + 1])
    {
      assert i < |tr| - 1 ==> Next(tr[i], tr[i + 1]);
    }
    assert Run(tr') && tr'[|tr'| - 1] == s';
  }

  lemma {:induction false} ChainReachable(w: Scope, tr: seq<State>, i: nat)
    requires Chain(w, tr) && Reachable(tr[0]) && i < |tr|
    ensures Reachable(tr[i])
  {
    hide Reachable, Step, Allowed;
    if i > 0 {
      ChainReachable(w, tr, i - 1);
      assert Moves(w, tr[i - 1], tr[i - 1 + 1]);
      var t: Thread, ch: Choice :| Allowed(tr[i - 1], t, ch) && Step(tr[i - 1], t, ch) == Ok(tr[i]);
      Reaches(tr[i - 1], t, ch, tr[i]);
    }
  }

  lemma LeadsReachable(w: Scope, s: State, s': State)
    requires Reachable(s) && Leads(w, s, s')
    ensures Reachable(s')
  {
    hide Reachable, Moves;
    var tr: seq<State> :| Chain(w, tr) && tr[0] == s && tr[|tr| - 1] == s';
    ChainReachable(w, tr, |tr| - 1);
  }

  // ----- a thread whose lock nobody holds can step

  lemma HoldsNone(s: State, t: Thread)
    requires !HoldsLock(s, t)
    ensures forall l :: !Has(s, t, l)
  {
  }

  lemma Unopposed(s: State, t: Thread)
    requires Inv(s) && forall u: Thread :: u != t && Wants(s, t).Some? ==> !Has(s, u, Wants(s, t).value)
    ensures !IsBlocked(s, t)
  {
    hide Inv, Wants;
    if IsBlocked(s, t) {
      var u := HolderOf(s, t);
      LockOrder(s, t, Wants(s, t).value, Wants(s, t).value);
    }
  }

  /** When no other thread holds the lock the thread wants, its step succeeds. */
  lemma CanStep(s: State, t: Thread, ch: Choice)
    requires Reachable(s) && Allowed(s, t, ch)
    requires forall u: Thread :: u != t && Wants(s, t).Some? ==> !Has(s, u, Wants(s, t).value)
    ensures Step(s, t, ch).Ok?
  {
    hide Inv, Step, Allowed, Reachable, Wants, Has;
    ReachableInv(s);
    NeverFaults(s, t, ch);
    BlockedMeans(s, t, ch);
    Unopposed(s, t);
  }

  lemma CanStepAlone(s: State, t: Thread, ch: Choice)
    requires Reachable(s) && Allowed(s, t, ch) && forall u: Thread :: u != t ==> !HoldsLock(s, u)
    ensures Step(s, t, ch).Ok?
  {
    hide Step, Allowed, Reachable, HoldsLock, Wants, Has;
    if t != Reg {
      HoldsNone(s, Reg);
    }
    if t != Ep {
      HoldsNone(s, Ep);
    }
    if t != Op {
      HoldsNone(s, Op);
    }
    CanStep(s, t, ch);
  }

  // ----- a registration can succeed

  /** How far a registration that meets no failure is from its end. */
  function Remaining(r: RegState): nat {
    match r.pc
    case RAccept => 19
    case RSslNew => 18
    case RSslAccept => 17
    case RRead => 16
    case RWantList => 15
    case RScan => 14
    case RWant => 13
    case RGet => 12
    case RDrop => 11
    case RPublish => 10
    case RUnList => 9
    case RSetUp => 8
    case RWantLink => 7
    case RWantTot => 6
    case RAddTot => 5
    case RAddCls => 4
    case RInsert => 3
    case RUnTot => 2
    case RUnCls => 1
    case _ => 0
  }

  predicate UnderWay(s: State) {
    Remaining(s.reg) > 0 && (s.reg.pc in {RAddCls, RInsert, RUnTot, RUnCls} ==> s.reg.n in s.mem.tothead)
  }

  /** What one successful step of the registration achieves. */
  predicate Advanced(s: State, s': State) {
    && s'.reg.n == s.reg.n && s'.ep == s.ep && s'.op == s.op
    && (Remaining(s'.reg) < Remaining(s.reg)
        || (Remaining(s'.reg) == Remaining(s.reg) && Minus(|s'.mem.classhead|, s'.reg.i) < Minus(|s.mem.classhead|, s.reg.i)))
    && (s'.reg.pc == RIdle <==> s.reg.pc == RUnCls) && (s'.reg.pc in {RUnTot, RUnCls} <==> s.reg.pc in {RInsert, RUnTot})
    && (if s'.reg.pc == RIdle then s'.reg.n in s'.mem.tothead else UnderWay(s'))
  }

  lemma Advances(s: State, ch: Choice, s': State)
    requires UnderWay(s) && Allowed(s, Reg, ch) && (ch.ok || s.reg.pc == RInsert) && Step(s, Reg, ch) == Ok(s')
    ensures Advanced(s, s')
  {
    hide AcceptStep, NewClassStep, LinkStep, CleanStep, Advanced;
    if s.reg.pc in {RIdle, RAccept, RSslNew, RSslAccept, RRead} {
      AcceptAdvances(s, ch, s');
    } else if s.reg.pc in {RWantList, RScan, RNoMem, RWant, RGet, RDrop, RPublish, RUnList} {
      NewClassAdvances(s, ch, s');
    } else {
      LinkAdvances(s, ch, s');
    }
  }

  lemma AcceptAdvances(s: State, ch: Choice, s': State)
    requires s.reg.pc in {RAccept, RSslNew, RSslAccept, RRead} && Allowed(s, Reg, ch) && ch.ok && AcceptStep(s, ch) == Ok(s')
    ensures Advanced(s, s')
  {
  }

  lemma NewClassAdvances(s: State, ch: Choice, s': State)
    requires s.reg.pc in {RWantList, RScan, RWant, RGet, RDrop, RPublish, RUnList} && ch.ok && NewClassStep(s, ch) == Ok(s')
    ensures Advanced(s, s')
  {
    hide AllAlive;
  }

  lemma LinkAdvances(s: State, ch: Choice, s': State)
    requires UnderWay(s) && s.reg.pc in {RSetUp, RWantLink, RWantTot, RAddTot, RAddCls, RInsert, RUnTot, RUnCls}
    requires LinkStep(s, ch) == Ok(s')
    ensures Advanced(s, s')
  {
    hide AllAlive, SockOpen;
  }

  /** What registers a client with this record from this address, once it is in the client or the thread's variables. */
  ghost predicate Fits(s: State, rec: Registration.Record, ip: Address)
    requires rec.Valid()
  {
    && (s.reg.pc in {RSslNew, RSslAccept, RRead} ==> s.reg.n in s.mem.clients && s.mem.clients[s.reg.n].ip == ip)
    && (Registering(s) ==> Carried(s, s.reg.n, ServerName(rec), rec.mac, ip))
  }

  lemma FitsOn(s: State, ch: Choice, s': State, rec: Registration.Record, ip: Address)
    requires rec.Valid() && Fits(s, rec, ip) && UnderWay(s) && Allowed(s, Reg, ch) && (ch.ok || s.reg.pc == RInsert)
    requires ch.rec == rec && ch.ip == ip
    requires Step(s, Reg, ch) == Ok(s')
    ensures if s'.reg.pc == RIdle then ListedAs(s', s.reg.n, ServerName(rec), rec.mac, ip) else Fits(s', rec, ip)
  {
    hide AcceptStep, NewClassStep, LinkStep, CleanStep, Carried, ListedAs, Allowed, ServerName;
    Advances(s, ch, s');
    if s.reg.pc in {RAccept, RSslNew, RSslAccept, RRead} {
      AcceptFits(s, ch, s', rec, ip);
    } else {
      RegCarries(s, ch, s', s.reg.n, ServerName(rec), rec.mac, ip);
    }
  }

  lemma AcceptFits(s: State, ch: Choice, s': State, rec: Registration.Record, ip: Address)
    requires rec.Valid() && Fits(s, rec, ip) && s.reg.pc in {RAccept, RSslNew, RSslAccept, RRead} && Allowed(s, Reg, ch)
    requires ch.ok && ch.rec == rec && ch.ip == ip && AcceptStep(s, ch) == Ok(s')
    ensures Fits(s', rec, ip) && s'.reg.pc != RIdle
  {
    hide ServerName;
  }

  const REG := Scope({Reg}, {})

  /** What a registration leaves alone. */
  ghost predicate Beside(s: State, s': State) {
    && s'.ep == s.ep && s'.op == s.op && s'.mem.files == s.mem.files
    && (s'.mem.tothead == s.mem.tothead || s'.mem.tothead == s.mem.tothead + [s'.reg.n])
    && forall c :: c in s.mem.tothead ==>
         c in s.mem.clients && c in s'.mem.tothead && c in s'.mem.clients && s'.mem.clients[c] == s.mem.clients[c]
  }

  lemma RegBeside(s: State, ch: Choice, s': State)
    requires Inv(s) && Allowed(s, Reg, ch) && Step(s, Reg, ch) == Ok(s')
    ensures Beside(s, s')
  {
    hide Inv, Step, Allowed;
    RegWrites(s, ch, s');
  }

  lemma BesideBoth(s: State, s': State, s'': State)
    requires Reachable(s) && Leads(REG, s, s'') && Beside(s, s') && Beside(s', s'') && s''.reg.n == s'.reg.n
    ensures Beside(s, s'')
  {
    hide Inv, Reachable, Leads, NoDup;
    LeadsReachable(REG, s, s'');
    ReachableInv(s'');
    ListsNoDup(s'', false);
    NotTwice(s.mem.tothead, s'.reg.n);
  }

  lemma NotTwice(xs: seq<nat>, x: nat)
    ensures !NoDup(xs + [x] + [x])
  {
    assert (xs + [x] + [x])[|xs|] == (xs + [x] + [x])[|xs| + 1];
  }

  /** A choice under which every call of the registration succeeds, but perhaps the insertion into the epoll set. */
  lemma Success(s: State, rec: Registration.Record, ip: Address, watched: bool) returns (ch: Choice)
    requires rec.Valid()
    ensures (ch.ok <==> watched || s.reg.pc != RInsert) && ch.rec == rec && ch.ip == ip && Allowed(s, Reg, ch)
  {
    var b := Bound(s.mem.clients.Keys + s.mem.socks.Keys + s.mem.ssls.Keys + s.mem.classes.Keys);
    ch := Choice(watched || s.reg.pc != RInsert, b, ip, rec, [], 1, [], ListClass);
  }

  /** While the other two threads hold no lock, a registration whose calls all succeed runs to its end and leaves the client listed,
      and watched unless the insertion into the epoll set fails. */
  lemma {:induction false} RegistrationCompletes(s: State, rec: Registration.Record, ip: Address, watched: bool) returns (s': State)
    requires Reachable(s) && UnderWay(s) && !HoldsLock(s, Ep) && !HoldsLock(s, Op) && rec.Valid()
    ensures Leads(REG, s, s') && Beside(s, s') && s'.reg.pc == RIdle && s'.reg.n == s.reg.n && s.reg.n in s'.mem.tothead
    ensures Fits(s, rec, ip) ==> ListedAs(s', s.reg.n, ServerName(rec), rec.mac, ip)
    ensures s'.mem.unwatched == if watched || s.reg.pc in {RUnTot, RUnCls} then s.mem.unwatched else s.mem.unwatched + {s.reg.n}
    decreases Remaining(s.reg), Minus(|s.mem.classhead|, s.reg.i)
  {
    hide Inv, Step, Allowed, Reachable, UnderWay, Remaining, Fits, ListedAs, Leads;
    var ch := Success(s, rec, ip, watched);
    CanStepAlone(s, Reg, ch);
    var next := Step(s, Reg, ch).next;
    ReachableInv(s);
    Advances(s, ch, next);
    RegWrites(s, ch, next);
    RegBeside(s, ch, next);
    Reaches(s, Reg, ch, next);
    LeadsHere(REG, s);
    LeadsOn(REG, s, s, Reg, ch, next);
    if Fits(s, rec, ip) {
      FitsOn(s, ch, next, rec, ip);
    }
    if next.reg.pc == RIdle {
      s' := next;
    } else {
      s' := RegistrationCompletes(next, rec, ip, watched);
      LeadsThrough(REG, s, next, s');
      BesideBoth(s, next, s');
    }
  }

  lemma StartReachable()
    ensures Reachable(INIT)
  {
    assert Run([INIT]) && [INIT][|[INIT]| - 1] == INIT;
  }

  /** A device connects while the others hold no lock, and is registered. */
  lemma Connects(s: State, rec: Registration.Record, ip: Address, watched: bool) returns (s': State)
    requires Reachable(s) && s.reg.pc == RIdle && !HoldsLock(s, Ep) && !HoldsLock(s, Op) && rec.Valid()
    ensures Leads(REG, s, s') && Beside(s, s') && s'.reg.pc == RIdle
    ensures s'.reg.n !in s.mem.tothead && ListedAs(s', s'.reg.n, ServerName(rec), rec.mac, ip)
    ensures s'.mem.tothead == s.mem.tothead + [s'.reg.n]
    ensures s'.mem.unwatched == if watched then s.mem.unwatched else s.mem.unwatched + {s'.reg.n}
  {
    hide Inv, Reachable, Leads;
    var ch := Success(s, rec, ip, watched);
    var next := Step(s, Reg, ch).next;
    assert Fits(next, rec, ip) && UnderWay(next);
    ReachableInv(s);
    OwnClient(s);
    RegWrites(s, ch, next);
    RegBeside(s, ch, next);
    Reaches(s, Reg, ch, next);
    LeadsHere(REG, s);
    LeadsOn(REG, s, s, Reg, ch, next);
    s' := RegistrationCompletes(next, rec, ip, watched);
    LeadsThrough(REG, s, next, s');
    BesideBoth(s, next, s');
  }

  /** So the statements about registered clients are about something: for every record and address some run leads to a client with them. */
  lemma ClientsGetListed(rec: Registration.Record, ip: Address) returns (s: State)
    requires rec.Valid()
    ensures Reachable(s) && s.reg.pc == RIdle && ListedAs(s, s.reg.n, ServerName(rec), rec.mac, ip)
  {
    hide Inv, Reachable, Leads;
    StartReachable();
    s := Connects(INIT, rec, ip, true);
    LeadsReachable(REG, INIT, s);
  }

  /** An input on which a registered client goes unwatched: its insertion into the epoll set fails. */
  lemma ListedUnwatched(rec: Registration.Record, ip: Address) returns (s: State)
    requires rec.Valid()
    ensures Reachable(s) && IsFree(s, TotLock) && ListedAs(s, s.reg.n, ServerName(rec), rec.mac, ip)
    ensures s.reg.n in s.mem.unwatched && s.mem.interest.Values == {}
  {
    hide Inv, Reachable, Leads;
    StartReachable();
    s := Connects(INIT, rec, ip, false);
    LeadsReachable(REG, INIT, s);
    ReachableInv(s);
    NobodyHolds(s, TotLock);
    InterestAgrees(s);
  }

  // ----- a device hangs up

  /** One more step of a thread that no other one opposes. */
  lemma Go(w: Scope, s: State, s': State, t: Thread, ch: Choice) returns (next: State)
    requires Reachable(s') && Leads(w, s, s') && t in w.threads && (t == Ep ==> s'.ep.pc !in w.avoid) && Allowed(s', t, ch)
    requires forall u: Thread :: u != t ==> !HoldsLock(s', u)
    ensures Step(s', t, ch) == Ok(next) && Leads(w, s, next) && Reachable(next)
  {
    hide Step, Allowed, Reachable, Leads, HoldsLock;
    CanStepAlone(s', t, ch);
    next := Step(s', t, ch).next;
    LeadsOn(w, s, s', t, ch, next);
    Reaches(s', t, ch, next);
  }

  /** Nobody holds a lock but, perhaps, the epoll thread. */
  predicate EpAlone(s: State) {
    !HoldsLock(s, Reg) && !HoldsLock(s, Op)
  }

  lemma ListIsWatched(s: State, c: ClientId)
    requires Reachable(s) && s.ep.pc == EWait && EpAlone(s) && c in s.mem.tothead && c !in s.mem.unwatched
    ensures c in s.mem.clients && c in s.mem.interest.Values
  {
    hide Inv, Reachable, HoldsLock, Has;
    ReachableInv(s);
    HoldsNone(s, Reg);
    HoldsNone(s, Op);
    NobodyHolds(s, TotLock);
    InterestAgrees(s);
  }

  lemma NobodyHolds(s: State, l: LockId)
    requires Inv(s) && s.ep.pc == EWait && !Has(s, Reg, l) && !Has(s, Op, l) && (l == TotLock || l == ClassListLock)
    ensures IsFree(s, l)
  {
    hide MemInv, HoldInv, LockReady;
    FreeIfUnheld(s, l);
  }

  /** The steps of a removal before `putclass`: the epoll thread alone, and short of the points that free a class. */
  const REMOVAL := Scope({Ep}, {EPut, EUnCls})

  const NO_RECORD := Registration.Record(Zeros(DEVID_LEN), NO_MAC)

  /** What removes a client: its connection is reported closed or without data, or the read fails. */
  predicate Removes(rdhup: bool, input: bool, ok: bool) { rdhup || !input || !ok }

  lemma Dispatch(s: State, c: ClientId, rdhup: bool, input: bool, ok: bool) returns (s': State)
    requires Reachable(s) && s.ep.pc == EWait && EpAlone(s) && c in s.mem.tothead && c !in s.mem.unwatched
    requires Removes(rdhup, input, ok)
    ensures Leads(REMOVAL, s, s') && Reachable(s')
    ensures s'.ep.pc == EWantList && s'.ep.c == c && s'.ep.dying == s.ep.dying
    ensures s'.mem == s.mem && s'.reg == s.reg && s'.op == s.op
  {
    hide Reachable, Leads;
    ListIsWatched(s, c);
    LeadsHere(REMOVAL, s);
    var ch := Choice(ok, 0, NO_ADDRESS, NO_RECORD, ['x'], 1, [Event(c, rdhup, input)], ListClass);
    assert EventClients(ch.evs) == [c];
    s' := Go(REMOVAL, s, s, Ep, ch);
    s' := Go(REMOVAL, s, s', Ep, ch);
  }

  lemma TakeLocks(w: State, s: State) returns (s': State)
    requires Reachable(s) && Leads(REMOVAL, w, s) && s.ep.pc == EWantList && EpAlone(s)
    ensures Leads(REMOVAL, w, s') && Reachable(s')
    ensures s'.ep.pc == EDelTot && s'.ep.c == s.ep.c && s'.ep.dying == s.ep.dying
    ensures s'.mem == s.mem && s'.reg == s.reg && s'.op == s.op
  {
    hide Reachable, Leads;
    var ch := Choice(true, 0, NO_ADDRESS, NO_RECORD, [], 1, [], ListClass);
    s' := Go(REMOVAL, w, s, Ep, ch);
    s' := Go(REMOVAL, w, s', Ep, ch);
    s' := Go(REMOVAL, w, s', Ep, ch);
  }

  /** While the other threads hold no lock, every event that removes a client that is watched leads to its removal. */
  lemma HangUp(s: State, c: ClientId, rdhup: bool, input: bool, ok: bool) returns (s': State)
    requires Reachable(s) && s.ep.pc == EWait && EpAlone(s) && c in s.mem.tothead && c !in s.mem.unwatched
    requires Removes(rdhup, input, ok)
    ensures Leads(REMOVAL, s, s') && Reachable(s')
    ensures s'.ep.pc == EDelTot && s'.ep.c == c && s'.ep.dying == s.ep.dying
    ensures s'.mem == s.mem && s'.reg == s.reg && s'.op == s.op
  {
    hide Reachable, Leads;
    s' := Dispatch(s, c, rdhup, input, ok);
    s' := TakeLocks(s, s');
  }
}
