/** Who is admitted: a client comes onto the lists only if every call of its registration succeeded, and a registration in which a call
    fails leaves nothing behind. */
module Admission {
  import opened Wrappers
  import opened Sequences
  import opened Registration
  import opened LogPath
  import opened Registry
  import opened RegistryInvariant
  import opened RegistryLemmas
  import opened StepProof
  import opened ServerTheorems
  import opened Progress
  import opened Arrivals
  import opened Scenarios
  import opened Traces

  // ----- only who succeeds is listed

  /** How many calls of the registration under way have succeeded, up to the listing of its client: memory, connection, SSL object,
      handshake and the read of the record. */
  function Stage(pc: RegPc): nat {
    match pc
    case RAccept => 1
    case RSslNew => 2
    case RSslAccept => 3
    case RRead => 4
    case RWantList | RScan | RWant | RGet | RDrop | RPublish | RUnList | RSetUp | RWantLink | RWantTot | RAddTot | RAddCls => 5
    case _ => 0
  }

  lemma StageStep(s: State, a: Act, s': State)
    requires Takes(s, a, s')
    ensures a.t != Reg ==> s'.reg == s.reg
    ensures Stage(s'.reg.pc) > Stage(s.reg.pc) ==> Stage(s'.reg.pc) == Stage(s.reg.pc) + 1 && a.t == Reg && a.ch.ok
    ensures Stage(s'.reg.pc) > 0 && s.reg.pc == RIdle ==> s'.reg.n == a.ch.id
    ensures Stage(s'.reg.pc) > 0 && Stage(s.reg.pc) == 0 ==> s.reg.pc == RIdle
    ensures Stage(s.reg.pc) > 0 ==> s'.reg.n == s.reg.n
  {
    hide AcceptStep, NewClassStep, LinkStep, CleanStep, Allowed;
    if a.t == Reg {
      match s.reg.pc
      case RIdle | RAccept | RSslNew | RSslAccept | RRead => AcceptStage(s, a.ch, s');
      case RWantList | RScan | RNoMem | RWant | RGet | RDrop | RPublish | RUnList => NewClassStage(s, a.ch, s');
      case RClean4 | RClean3 | RClean2 | RClean1 => CleanStage(s, s');
      case _ => LinkStage(s, a.ch, s');
    } else {
      hide Step;
      Others(s, a.t, a.ch, s');
    }
  }

  lemma AcceptStage(s: State, ch: Choice, s': State)
    requires s.reg.pc in {RIdle, RAccept, RSslNew, RSslAccept, RRead} && Allowed(s, Reg, ch) && AcceptStep(s, ch) == Ok(s')
    ensures Stage(s'.reg.pc) == if ch.ok then Stage(s.reg.pc) + 1 else 0
    ensures s'.reg.n == if s.reg.pc == RIdle && ch.ok then ch.id else s.reg.n
  {
    hide SockOpen, SslAlive, ServerName;
  }

  lemma NewClassStage(s: State, ch: Choice, s': State)
    requires s.reg.pc in {RWantList, RScan, RNoMem, RWant, RGet, RDrop, RPublish, RUnList} && NewClassStep(s, ch) == Ok(s')
    ensures Stage(s'.reg.pc) <= Stage(s.reg.pc) && s'.reg.n == s.reg.n
  {
    hide AllAlive;
  }

  lemma LinkStage(s: State, ch: Choice, s': State)
    requires s.reg.pc in {RSetUp, RWantLink, RWantTot, RAddTot, RAddCls, RInsert, RUnTot, RUnCls} && LinkStep(s, ch) == Ok(s')
    ensures Stage(s'.reg.pc) <= Stage(s.reg.pc) && s'.reg.n == s.reg.n
  {
    hide AllAlive, SockOpen;
  }

  lemma CleanStage(s: State, s': State)
    requires s.reg.pc in {RClean4, RClean3, RClean2, RClean1} && CleanStep(s) == Ok(s')
    ensures Stage(s'.reg.pc) == 0 && s'.reg.n == s.reg.n
  {
    hide SockOpen, SslAlive;
  }

  /** The call that brought the registration past stage `q`: it was made by this registration, and it succeeded. */
  lemma {:induction false} Came(tr: seq<State>, acts: seq<Act>, m: nat, q: nat) returns (j: nat)
    requires Trace(tr, acts) && Stage(tr[0].reg.pc) == 0 && m <= |acts| && q < Stage(tr[m].reg.pc)
    ensures j < m && acts[j].t == Reg && acts[j].ch.ok && Stage(tr[j].reg.pc) == q
    ensures forall l :: j < l <= m ==> Stage(tr[l].reg.pc) > q && tr[l].reg.n == tr[m].reg.n
    ensures if q == 0 then tr[j].reg.pc == RIdle && acts[j].ch.id == tr[m].reg.n else tr[j].reg.n == tr[m].reg.n
  {
    hide Takes, Reachable;
    assert Takes(tr[m - 1], acts[m - 1], tr[m - 1 + 1]);
    StageStep(tr[m - 1], acts[m - 1], tr[m]);
    if Stage(tr[m - 1].reg.pc) > q {
      j := Came(tr, acts, m - 1, q);
    } else {
      j := m - 1;
    }
  }

  /** Connection, address and, once made, SSL object of the client do not change. */
  lemma FieldsStay(s: State, a: Act, s': State)
    requires Inv(s) && Takes(s, a, s') && Stage(s.reg.pc) >= 2 && Stage(s'.reg.pc) >= 2
    ensures var n := s.reg.n;
            && s'.reg.n == n && n in s.mem.clients && n in s'.mem.clients
            && s'.mem.clients[n].sock == s.mem.clients[n].sock && s'.mem.clients[n].ip == s.mem.clients[n].ip
            && (Stage(s.reg.pc) >= 3 ==> s'.mem.clients[n].ssl == s.mem.clients[n].ssl)
  {
    hide Inv, Allowed, TraverseStep, SelectStep;
    OwnObject(s);
    StageStep(s, a, s');
    match a.t
    case Reg =>
      RegFields(s, a.ch, s');
    case Ep =>
      hide Step;
      EpLeaves(s, a.ch, s');
      NotRemoved(s);
    case Op =>
      if s.op.pc in {OWantTot, OScan, OUnTot} {
        SelectLeaves(s, s');
      } else {
        TraverseLeaves(s, a.ch, s');
      }
  }

  lemma OwnObject(s: State)
    requires Inv(s) && Stage(s.reg.pc) > 0
    ensures s.reg.n in s.mem.clients && (s.reg.n in s.mem.tothead || s.reg.n in RegOwn(RegV(s.reg)))
  {
    hide MemInv, HoldInv, LiveLocks, LockReady;
    Reach(s.mem, RegV(s.reg), EpV(s.ep), s.op);
  }

  lemma RegFields(s: State, ch: Choice, s': State)
    requires Stage(s.reg.pc) >= 2 && s.reg.n in s.mem.clients && Allowed(s, Reg, ch) && Step(s, Reg, ch) == Ok(s')
    requires Stage(s'.reg.pc) >= 2
    ensures var n := s.reg.n;
            && n in s'.mem.clients
            && s'.mem.clients[n].sock == s.mem.clients[n].sock && s'.mem.clients[n].ip == s.mem.clients[n].ip
            && (Stage(s.reg.pc) >= 3 ==> s'.mem.clients[n].ssl == s.mem.clients[n].ssl)
  {
    hide AcceptStep, NewClassStep, LinkStep, CleanStep, Allowed;
    match s.reg.pc
    case RSslNew | RSslAccept | RRead => AcceptFields(s, ch, s');
    case RWantList | RScan | RWant | RGet | RDrop | RPublish | RUnList => NewClassWrites(s, ch, s');
    case _ => LinkFields(s, ch, s');
  }

  lemma AcceptFields(s: State, ch: Choice, s': State)
    requires s.reg.pc in {RSslNew, RSslAccept, RRead} && s.reg.n in s.mem.clients && Allowed(s, Reg, ch) && AcceptStep(s, ch) == Ok(s')
    ensures var n := s.reg.n;
            && n in s'.mem.clients
            && s'.mem.clients[n].sock == s.mem.clients[n].sock && s'.mem.clients[n].ip == s.mem.clients[n].ip
            && (s.reg.pc != RSslNew ==> s'.mem.clients[n].ssl == s.mem.clients[n].ssl)
  {
    hide ServerName;
  }

  lemma LinkFields(s: State, ch: Choice, s': State)
    requires s.reg.pc in {RSetUp, RWantLink, RWantTot, RAddTot, RAddCls} && s.reg.n in s.mem.clients && LinkStep(s, ch) == Ok(s')
    ensures var n := s.reg.n;
            && n in s'.mem.clients && s'.mem.clients[n].sock == s.mem.clients[n].sock && s'.mem.clients[n].ip == s.mem.clients[n].ip
            && s'.mem.clients[n].ssl == s.mem.clients[n].ssl
  {
    hide AllAlive;
  }

  lemma {:induction false} FieldsKept(tr: seq<State>, acts: seq<Act>, i: nat, m: nat)
    requires Trace(tr, acts) && i <= m <= |acts| && forall l :: i <= l <= m ==> Stage(tr[l].reg.pc) >= 2
    ensures var n, clients, clients' := tr[i].reg.n, tr[i].mem.clients, tr[m].mem.clients;
            && tr[m].reg.n == n && n in clients && n in clients' && clients'[n].sock == clients[n].sock && clients'[n].ip == clients[n].ip
            && (Stage(tr[i].reg.pc) >= 3 && (forall l :: i <= l <= m ==> Stage(tr[l].reg.pc) >= 3) ==> clients'[n].ssl == clients[n].ssl)
    decreases m - i
  {
    hide Takes, Reachable, Inv;
    TraceReachable(tr, acts, i);
    ReachableInv(tr[i]);
    OwnObject(tr[i]);
    if i < m {
      FieldsKept(tr, acts, i, m - 1);
      TraceReachable(tr, acts, m - 1);
      ReachableInv(tr[m - 1]);
      assert Takes(tr[m - 1], acts[m - 1], tr[m - 1 + 1]);
      FieldsStay(tr[m - 1], acts[m - 1], tr[m]);
    }
  }

  /** Whoever reads the record carries it to the client. */
  lemma {:induction false} RecordCarried(tr: seq<State>, acts: seq<Act>, e: nat, m: nat)
    requires Trace(tr, acts) && e < m <= |acts| && tr[e].reg.pc == RRead && acts[e].t == Reg && acts[e].ch.ok
    requires forall l :: e < l <= m ==> Stage(tr[l].reg.pc) == 5
    ensures acts[e].ch.rec.Valid()
    ensures var n, rec := tr[e].reg.n, acts[e].ch.rec; Carried(tr[m], n, ServerName(rec), rec.mac, AddressOf(tr[e], n))
    decreases m
  {
    hide Reachable, Inv, Step, Allowed, Carried;
    var n, rec := tr[e].reg.n, acts[e].ch.rec;
    assert Takes(tr[e], acts[e], tr[e + 1]);
    ReadValid(tr[e], acts[e].ch);
    if m == e + 1 {
      ReadsOn(tr[e], acts[e].ch, tr[m]);
      ReadCarries(tr[e], acts[e].ch, tr[m]);
    } else {
      RecordCarried(tr, acts, e, m - 1);
      TraceReachable(tr, acts, m - 1);
      ReachableInv(tr[m - 1]);
      assert Takes(tr[m - 1], acts[m - 1], tr[m - 1 + 1]);
      var who, mac, ip := ServerName(rec), rec.mac, AddressOf(tr[e], n);
      match acts[m - 1].t
      case Reg => RegCarries(tr[m - 1], acts[m - 1].ch, tr[m], n, who, mac, ip);
      case Ep => EpCarries(tr[m - 1], acts[m - 1].ch, tr[m], n, who, mac, ip);
      case Op => OpCarries(tr[m - 1], acts[m - 1].ch, tr[m], n, who, mac, ip);
    }
  }

  lemma ReadsOn(s: State, ch: Choice, s': State)
    requires s.reg.pc == RRead && Allowed(s, Reg, ch) && Step(s, Reg, ch) == Ok(s') && Stage(s'.reg.pc) == 5
    ensures s'.reg.pc == RWantList
  {
    hide ServerName;
  }

  /** Only the registration thread lists clients, and only when it comes to that with a registration. */
  lemma ListedByRegistration(s: State, a: Act, s': State, n: ClientId)
    requires Reachable(s) && Takes(s, a, s') && n in s'.mem.tothead && n !in s.mem.tothead
    ensures a.t == Reg && s.reg.pc == RAddTot && s'.reg.pc == RAddCls && n == s.reg.n == s'.reg.n
  {
    hide Reachable, Inv, Allowed, Step;
    ReachableInv(s);
    if a.t != Reg {
      OnlyLeave(s, a.t, a.ch, s');
    } else {
      ListsGuarded(s, Reg, a.ch, s');
      RegWrites(s, a.ch, s');
      UnderTotLock(s, a.ch, s');
    }
  }

  lemma UnderTotLock(s: State, ch: Choice, s': State)
    requires Allowed(s, Reg, ch) && Step(s, Reg, ch) == Ok(s') && Has(s, Reg, TotLock) && s'.mem.tothead != s.mem.tothead
    ensures s.reg.pc == RAddTot && s'.reg.pc == RAddCls
  {
    hide AllAlive, SockOpen;
  }

  /** A call of the registration thread at program point `pc` that succeeded. */
  predicate Succeeded(tr: seq<State>, acts: seq<Act>, i: nat, pc: RegPc)
    requires i < |acts| < |tr|
  {
    acts[i].t == Reg && acts[i].ch.ok && tr[i].reg.pc == pc
  }

  /** Where the five calls of the registration of client `n` were made. */
  datatype Calls = Calls(alloc: nat, accept: nat, ssl: nat, handshake: nat, read: nat)

  /** The calls were made in this order before step `k`, all succeeded, and no other registration came between. */
  ghost predicate AllMade(tr: seq<State>, acts: seq<Act>, k: nat, n: ClientId, c: Calls) {
    && c.alloc < c.accept < c.ssl < c.handshake < c.read < k < |acts| < |tr|
    && Succeeded(tr, acts, c.alloc, RIdle) && Succeeded(tr, acts, c.accept, RAccept) && Succeeded(tr, acts, c.ssl, RSslNew)
    && Succeeded(tr, acts, c.handshake, RSslAccept) && Succeeded(tr, acts, c.read, RRead)
    && n == acts[c.alloc].ch.id && forall l :: c.alloc < l <= k ==> tr[l].reg.n == n && tr[l].reg.pc != RIdle
  }

  /** The client holds what the calls returned. */
  predicate HoldsResults(s: State, n: ClientId, accept: Choice, ssl: Choice, read: Choice) {
    && n in s.mem.clients && read.rec.Valid()
    && s.mem.clients[n].sock == accept.id && s.mem.clients[n].ip == accept.ip && s.mem.clients[n].ssl == ssl.id
    && s.mem.clients[n].who == ServerName(read.rec) && s.mem.clients[n].mac == read.rec.mac
  }

  /** In every run a client comes onto the list of all clients only if, in this order, its memory was allocated, its connection
      accepted, its SSL object made, its handshake completed and its record read, each by a call of the registration thread that
      succeeded, with no other registration in between; and it is listed with the connection, the address and the SSL object those
      calls returned and the name and MAC of that record. */
  lemma AdmittedOnly(tr: seq<State>, acts: seq<Act>, k: nat, n: ClientId) returns (c: Calls)
    requires Trace(tr, acts) && tr[0] == INIT && k < |acts| && n in tr[k + 1].mem.tothead && n !in tr[k].mem.tothead
    ensures AllMade(tr, acts, k, n, c)
    ensures HoldsResults(tr[k + 1], n, acts[c.accept].ch, acts[c.ssl].ch, acts[c.read].ch)
  {
    hide Takes, Reachable, Carried, Stage, ServerName, ClientIs;
    TraceReachable(tr, acts, k);
    assert Takes(tr[k], acts[k], tr[k + 1]);
    ListedByRegistration(tr[k], acts[k], tr[k + 1], n);
    Stages();
    c := CallsMade(tr, acts, k);
    Given(tr, acts, c.accept, c.ssl, k);
    RecordCarried(tr, acts, c.read, k + 1);
    CarriedTo(tr[k + 1], n, acts[c.read].ch.rec, AddressOf(tr[c.read], n));
  }

  lemma CallsMade(tr: seq<State>, acts: seq<Act>, k: nat) returns (calls: Calls)
    requires Trace(tr, acts) && Stage(tr[0].reg.pc) == 0 && k < |acts|
    requires tr[k].reg.pc == RAddTot && tr[k + 1].reg.pc == RAddCls && tr[k + 1].reg.n == tr[k].reg.n
    ensures AllMade(tr, acts, k, tr[k].reg.n, calls)
    ensures forall l :: calls.accept < l <= k + 1 ==> Stage(tr[l].reg.pc) >= 2
    ensures forall l :: calls.ssl < l <= k + 1 ==> Stage(tr[l].reg.pc) >= 3
    ensures forall l :: calls.read < l <= k + 1 ==> Stage(tr[l].reg.pc) == 5
  {
    hide Takes, Reachable, Stage;
    Stages();
    var e := Came(tr, acts, k, 4);
    var d := Came(tr, acts, e, 3);
    var c := Came(tr, acts, d, 2);
    var b := Came(tr, acts, c, 1);
    var a := Came(tr, acts, b, 0);
    StageIs(tr[e].reg.pc);
    StageIs(tr[d].reg.pc);
    StageIs(tr[c].reg.pc);
    StageIs(tr[b].reg.pc);
    StaysPast(tr, acts, a, b, c, d, e, k);
    calls := Calls(a, b, c, d, e);
  }

  lemma Stages()
    ensures Stage(RIdle) == 0 && Stage(RAddTot) == 5 && Stage(RAddCls) == 5
  {
  }

  lemma StageIs(pc: RegPc)
    ensures Stage(pc) == 1 ==> pc == RAccept
    ensures Stage(pc) == 2 ==> pc == RSslNew
    ensures Stage(pc) == 3 ==> pc == RSslAccept
    ensures Stage(pc) == 4 ==> pc == RRead
    ensures Stage(pc) > 0 ==> pc != RIdle
    ensures Stage(pc) <= 5
  {
  }

  /** What the stages say between the calls. */
  lemma StaysPast(tr: seq<State>, acts: seq<Act>, a: nat, b: nat, c: nat, d: nat, e: nat, k: nat)
    requires a < b < c < d < e < k < |acts| < |tr|
    requires tr[k].reg.pc == RAddTot && tr[k + 1].reg.pc == RAddCls && tr[k + 1].reg.n == tr[k].reg.n
    requires forall l :: a < l <= b ==> Stage(tr[l].reg.pc) > 0 && tr[l].reg.n == tr[b].reg.n
    requires forall l :: b < l <= c ==> Stage(tr[l].reg.pc) > 1 && tr[l].reg.n == tr[c].reg.n
    requires forall l :: c < l <= d ==> Stage(tr[l].reg.pc) > 2 && tr[l].reg.n == tr[d].reg.n
    requires forall l :: d < l <= e ==> Stage(tr[l].reg.pc) > 3 && tr[l].reg.n == tr[e].reg.n
    requires forall l :: e < l <= k ==> Stage(tr[l].reg.pc) > 4 && tr[l].reg.n == tr[k].reg.n
    requires tr[b].reg.n == tr[c].reg.n == tr[d].reg.n == tr[e].reg.n == tr[k].reg.n
    ensures forall l :: a < l <= k ==> tr[l].reg.n == tr[k].reg.n && tr[l].reg.pc != RIdle
    ensures forall l :: b < l <= k + 1 ==> Stage(tr[l].reg.pc) >= 2
    ensures forall l :: c < l <= k + 1 ==> Stage(tr[l].reg.pc) >= 3
    ensures forall l :: e < l <= k + 1 ==> Stage(tr[l].reg.pc) == 5
  {
    hide Stage;
    Stages();
    forall l | a < l <= k
      ensures tr[l].reg.pc != RIdle
    {
      StageIs(tr[l].reg.pc);
    }
    forall l | e < l <= k + 1
      ensures Stage(tr[l].reg.pc) == 5
    {
      StageIs(tr[l].reg.pc);
    }
  }

  lemma CarriedTo(s: State, n: ClientId, rec: Registration.Record, ip: Address)
    requires rec.Valid() && Carried(s, n, ServerName(rec), rec.mac, ip) && s.reg.pc == RAddCls
    ensures n in s.mem.clients && s.mem.clients[n].who == ServerName(rec) && s.mem.clients[n].mac == rec.mac
  {
  }

  /** What the accepted connection and the SSL object gave is still in the client. */
  lemma Given(tr: seq<State>, acts: seq<Act>, b: nat, c: nat, k: nat)
    requires Trace(tr, acts) && b < c < k < |acts| && tr[b].reg.pc == RAccept && tr[c].reg.pc == RSslNew
    requires acts[b].t == Reg && acts[b].ch.ok && acts[c].t == Reg && acts[c].ch.ok
    requires tr[b].reg.n == tr[c].reg.n == tr[k].reg.n == tr[k + 1].reg.n
    requires forall l :: b < l <= k + 1 ==> Stage(tr[l].reg.pc) >= 2
    requires forall l :: c < l <= k + 1 ==> Stage(tr[l].reg.pc) >= 3
    ensures var n := tr[k + 1].reg.n;
            && n in tr[k + 1].mem.clients && tr[k + 1].mem.clients[n].sock == acts[b].ch.id
            && tr[k + 1].mem.clients[n].ip == acts[b].ch.ip && tr[k + 1].mem.clients[n].ssl == acts[c].ch.id
  {
    hide Reachable, Stage, Step, Allowed;
    assert Takes(tr[b], acts[b], tr[b + 1]) && Takes(tr[c], acts[c], tr[c + 1]);
    Accepted(tr[b], acts[b].ch, tr[b + 1]);
    SslMade(tr[c], acts[c].ch, tr[c + 1]);
    FieldsKept(tr, acts, b + 1, k + 1);
    FieldsKept(tr, acts, c + 1, k + 1);
  }

  lemma Accepted(s: State, ch: Choice, s': State)
    requires s.reg.pc == RAccept && ch.ok && Allowed(s, Reg, ch) && Step(s, Reg, ch) == Ok(s')
    ensures s'.reg.n == s.reg.n && s.reg.n in s'.mem.clients
    ensures s'.mem.clients[s.reg.n].sock == ch.id && s'.mem.clients[s.reg.n].ip == ch.ip
  {
  }

  lemma SslMade(s: State, ch: Choice, s': State)
    requires s.reg.pc == RSslNew && ch.ok && Allowed(s, Reg, ch) && Step(s, Reg, ch) == Ok(s')
    ensures s'.reg.n == s.reg.n && s.reg.n in s'.mem.clients && s'.mem.clients[s.reg.n].ssl == ch.id
  {
  }

  // ----- who fails leaves nothing behind

  /** The registration has a descriptor open; likewise an SSL object. */
  predicate HasSock(pc: RegPc) { pc == RSslNew || pc == RClean2 || HasSsl(pc) }

  predicate HasSsl(pc: RegPc) { pc in {RSslAccept, RRead, RScan, RNoMem, RClean4, RClean3} }

  /** The state without the registration under way: its client, descriptor and SSL object are gone, the lock of the class list is
      released if it was held, and all else is as it is. */
  function Without(s: State): State {
    var m, r := s.mem, s.reg;
    s.(mem := m.(clients := m.clients - {r.n},
                 socks := if HasSock(r.pc) && r.n in m.clients then m.socks - {m.clients[r.n].sock} else m.socks,
                 ssls := if HasSsl(r.pc) && r.n in m.clients then m.ssls - {m.clients[r.n].ssl} else m.ssls),
       locks := if r.pc in {RScan, RNoMem} then s.locks[ClassListLock := Free] else s.locks,
       reg := r.(pc := RIdle))
  }

  function Rung(pc: RegPc): nat {
    match pc
    case RNoMem => 5
    case RClean4 => 4
    case RClean3 => 3
    case RClean2 => 2
    case RClean1 => 1
    case _ => 0
  }

  lemma Climbs(s: State, ch: Choice, s': State)
    requires Inv(s) && Rung(s.reg.pc) > 0 && Allowed(s, Reg, ch) && Step(s, Reg, ch) == Ok(s')
    ensures Rung(s'.reg.pc) < Rung(s.reg.pc)
    ensures if s'.reg.pc == RIdle then s' == Without(s) else Rung(s'.reg.pc) > 0 && Without(s') == Without(s)
  {
    hide Inv, Allowed, NewClassStep, CleanStep, Without;
    OwnOnLadder(s);
    if HasSock(s.reg.pc) {
      Unwatchable(s);
    }
    if s.reg.pc == RNoMem {
      ReleasesList(s, ch, s');
    } else {
      LadderStep(s, s');
    }
  }

  lemma ReleasesList(s: State, ch: Choice, s': State)
    requires s.reg.pc == RNoMem && NewClassStep(s, ch) == Ok(s')
    ensures s'.reg.pc == RClean4 && Without(s') == Without(s)
  {
  }

  lemma LadderStep(s: State, s': State)
    requires s.reg.pc in {RClean4, RClean3, RClean2, RClean1} && CleanStep(s) == Ok(s') && s.reg.n in s.mem.clients
    requires HasSock(s.reg.pc) ==> s.mem.clients[s.reg.n].sock !in s.mem.interest
    ensures Rung(s'.reg.pc) < Rung(s.reg.pc)
    ensures if s'.reg.pc == RIdle then s' == Without(s) else Rung(s'.reg.pc) > 0 && Without(s') == Without(s)
  {
    hide CleanStep, Without;
    match s.reg.pc
    case RClean4 | RClean3 => SslRung(s, s');
    case RClean2 => SockRung(s, s');
    case RClean1 => ClientRung(s, s');
  }

  lemma SslRung(s: State, s': State)
    requires s.reg.pc in {RClean4, RClean3} && CleanStep(s) == Ok(s') && s.reg.n in s.mem.clients
    ensures 0 < Rung(s'.reg.pc) < Rung(s.reg.pc) && Without(s') == Without(s)
  {
  }

  lemma SockRung(s: State, s': State)
    requires s.reg.pc == RClean2 && CleanStep(s) == Ok(s') && s.reg.n in s.mem.clients
    requires s.mem.clients[s.reg.n].sock !in s.mem.interest
    ensures s'.reg.pc == RClean1 && Without(s') == Without(s)
  {
    assert s.mem.interest - {s.mem.clients[s.reg.n].sock} == s.mem.interest;
  }

  lemma ClientRung(s: State, s': State)
    requires s.reg.pc == RClean1 && CleanStep(s) == Ok(s')
    ensures s' == Without(s) && s'.reg.pc == RIdle
  {
  }

  lemma OwnOnLadder(s: State)
    requires Inv(s) && Rung(s.reg.pc) > 0
    ensures s.reg.n in s.mem.clients
  {
    hide MemInv, HoldInv, LiveLocks, LockReady;
    RegNotEp(s.mem, RegV(s.reg), EpV(s.ep), s.op);
  }

  /** Its descriptor is not in the epoll set. */
  lemma Unwatchable(s: State)
    requires Inv(s) && Rung(s.reg.pc) > 0 && HasSock(s.reg.pc)
    ensures s.reg.n in s.mem.clients && s.mem.clients[s.reg.n].sock !in s.mem.interest
  {
    hide MemInv, HoldInv, LiveLocks, LockReady;
    var m, rv, ev := s.mem, RegV(s.reg), EpV(s.ep);
    RegNotEp(m, rv, ev, s.op);
    TablePart(m, rv, ev, s.op);
    var owners, watched := SockOwners(m.tothead, rv, ev), Watched(m.tothead, m.unwatched, rv, ev);
    NotWatched(m.socks, m.interest, SockOf(m.clients), owners, watched, s.reg.n);
  }

  lemma TablePart(m: Memory, rv: RegView, ev: EpView, o: OpState)
    requires MemInv(m, rv, ev, o)
    ensures Table(m.socks, SockOf(m.clients), SockOwners(m.tothead, rv, ev))
    ensures Table(m.interest, SockOf(m.clients), Watched(m.tothead, m.unwatched, rv, ev))
  {
    hide NoDup, Partition, ClassesCounted, NamesDistinct, ClientsClassed, RegClass, RegClient, EpPointers, ListInv, CountInv,
         Table, BatchInv, UnwatchedInv, CommandInv, BetweenClasses, InsideClass, Selecting, KlassOf, Names, SockOf, SslOf;
  }

  /** The registration thread takes its next step whatever the others hold. */
  lemma StepsFreely(s: State, ch: Choice) returns (s': State)
    requires Reachable(s) && Wants(s, Reg) == None && Allowed(s, Reg, ch)
    ensures Step(s, Reg, ch) == Ok(s') && Reachable(s')
  {
    hide Reachable, Inv, Step, Allowed;
    ReachableInv(s);
    NeverFaults(s, Reg, ch);
    BlockedMeans(s, Reg, ch);
    s' := Step(s, Reg, ch).next;
    Reaches(s, Reg, ch, s');
  }

  ghost predicate ByRegistration(acts: seq<Act>) {
    forall i :: 0 <= i < |acts| ==> acts[i].t == Reg
  }

  /** The cleanup ladder runs to its end, whatever the others hold. */
  lemma {:induction false} CleansUp(s: State) returns (tr: seq<State>, acts: seq<Act>)
    requires Reachable(s) && Rung(s.reg.pc) > 0
    ensures Trace(tr, acts) && tr[0] == s && ByRegistration(acts) && tr[|acts|] == Without(s)
    decreases Rung(s.reg.pc)
  {
    hide Reachable, Inv, Step, Takes, Without;
    var ch := Choice(true, 0, NO_ADDRESS, NO_RECORD, [], 0, [], ListClass);
    var next := StepsFreely(s, ch);
    ReachableInv(s);
    Climbs(s, ch, next);
    assert Takes(s, Act(Reg, ch), next) by {
      DidTake(s, Reg, ch, next);
    }
    if next.reg.pc == RIdle {
      tr, acts := [s, next], [Act(Reg, ch)];
    } else {
      tr, acts := CleansUp(next);
      tr, acts := Prepended(s, Act(Reg, ch), tr, acts);
    }
  }

  lemma DidTake(s: State, t: Thread, ch: Choice, s': State)
    requires Allowed(s, t, ch) && Step(s, t, ch) == Ok(s')
    ensures Takes(s, Act(t, ch), s')
  {
  }

  /** A call of `accept_newcli` is about to be made: the connection, the SSL object, the handshake, the record or a new class. */
  predicate AtCall(s: State) {
    s.reg.pc in {RAccept, RSslNew, RSslAccept, RRead} || (s.reg.pc == RScan && s.reg.i >= |s.mem.classhead|)
  }

  lemma Fails(s: State, ch: Choice, s': State)
    requires AtCall(s) && !ch.ok && Allowed(s, Reg, ch) && Step(s, Reg, ch) == Ok(s')
    ensures Rung(s'.reg.pc) > 0 && Without(s') == Without(s)
  {
    hide AcceptStep, NewClassStep, Without;
    if s.reg.pc == RScan {
      ScanFails(s, ch, s');
    } else {
      AcceptFails(s, ch, s');
    }
  }

  lemma ScanFails(s: State, ch: Choice, s': State)
    requires s.reg.pc == RScan && s.reg.i >= |s.mem.classhead| && !ch.ok && NewClassStep(s, ch) == Ok(s')
    ensures Rung(s'.reg.pc) > 0 && Without(s') == Without(s)
  {
  }

  lemma AcceptFails(s: State, ch: Choice, s': State)
    requires s.reg.pc in {RAccept, RSslNew, RSslAccept, RRead} && !ch.ok && Allowed(s, Reg, ch) && AcceptStep(s, ch) == Ok(s')
    ensures Rung(s'.reg.pc) > 0 && Without(s') == Without(s)
  {
    hide SockOpen, SslAlive, Allowed;
    assert s' == s.(reg := s'.reg) && s'.reg == s.reg.(pc := s'.reg.pc);
  }

  /** From every reachable state in which one of the calls of a registration fails, the thread alone, whatever the others hold, comes
      back to waiting with the client, its descriptor and its SSL object gone and everything else as it was. */
  lemma FailureUndone(s: State, ch: Choice) returns (tr: seq<State>, acts: seq<Act>)
    requires Reachable(s) && AtCall(s) && !ch.ok && Allowed(s, Reg, ch)
    ensures Trace(tr, acts) && tr[0] == s && acts != [] && acts[0] == Act(Reg, ch) && ByRegistration(acts) && tr[|acts|] == Without(s)
  {
    hide Reachable, Step, Allowed, Takes, Without;
    var next := StepsFreely(s, ch);
    Fails(s, ch, next);
    DidTake(s, Reg, ch, next);
    tr, acts := CleansUp(next);
    tr, acts := Prepended(s, Act(Reg, ch), tr, acts);
  }
}
