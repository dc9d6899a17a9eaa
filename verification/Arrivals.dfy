/** What a registration leaves behind, and the order of the lists: who came first stays first. */
module Arrivals {
  import opened Sequences
  import opened Registration
  import opened LogPath
  import opened Registry
  import opened RegistryInvariant
  import opened RegistryLemmas
  import opened RegistrationProof
  import opened OperatorProof
  import opened StepProof
  import opened ServerTheorems
  import opened Progress

  // ----- steps that touch no list

  lemma BatchLeaves(s: State, ch: Choice, s': State)
    requires s.ep.pc in {EWait, EBatch, EWantCli, EWrite, EUnCli} && BatchStep(s, ch) == Ok(s')
    ensures s'.reg == s.reg && s'.mem.clients == s.mem.clients && s'.mem.classhead == s.mem.classhead && s'.mem.tothead == s.mem.tothead
    ensures s'.mem.unwatched == s.mem.unwatched
  {
    hide SslAlive, LogAlive;
  }

  lemma SelectLeaves(s: State, s': State)
    requires s.op.pc in {OWantTot, OScan, OUnTot} && SelectStep(s) == Ok(s')
    ensures s'.reg == s.reg && s'.mem.clients == s.mem.clients && s'.mem.classhead == s.mem.classhead && s'.mem.tothead == s.mem.tothead
    ensures s'.mem.unwatched == s.mem.unwatched
  {
  }

  lemma TraverseLeaves(s: State, ch: Choice, s': State)
    requires s.op.pc !in {OWantTot, OScan, OUnTot} && TraverseStep(s, ch) == Ok(s')
    ensures s'.reg == s.reg && s'.mem.clients == s.mem.clients && s'.mem.classhead == s.mem.classhead && s'.mem.tothead == s.mem.tothead
    ensures s'.mem.unwatched == s.mem.unwatched
  {
    hide TraverseStep;
    TraverseFrame(s, ch, s');
  }

  // ----- order

  /** One step of a list: nothing, a newcomer at the end, or one member gone. */
  ghost predicate Evolves(xs: seq<nat>, ys: seq<nat>) {
    ys == xs || (ys != [] && ys == xs + [ys[|ys| - 1]]) || exists x :: x in xs && ys == Remove(xs, x)
  }

  /** The list of all clients, or the list of classes. */
  function Listing(s: State, ofClasses: bool): seq<nat> {
    if ofClasses then s.mem.classhead else s.mem.tothead
  }

  lemma StepEvolves(s: State, t: Thread, ch: Choice, s': State, ofClasses: bool)
    requires Allowed(s, t, ch) && Step(s, t, ch) == Ok(s')
    ensures Evolves(Listing(s, ofClasses), Listing(s', ofClasses))
  {
    hide AcceptStep, NewClassStep, LinkStep, CleanStep, BatchStep, UnlinkStep, ReleaseStep, TraverseStep, SelectStep, Evolves;
    match t
    case Reg =>
      if s.reg.pc in {RIdle, RAccept, RSslNew, RSslAccept, RRead} {
        AcceptEvolves(s, ch, s');
      } else if s.reg.pc in {RWantList, RScan, RNoMem, RWant, RGet, RDrop, RPublish, RUnList} {
        NewClassEvolves(s, ch, s', ofClasses);
      } else if s.reg.pc in {RClean4, RClean3, RClean2, RClean1} {
        CleanEvolves(s, s');
      } else {
        LinkEvolves(s, ch, s', ofClasses);
      }
      Unchanged(Listing(s, ofClasses));
    case Ep =>
      if s.ep.pc in {EWait, EBatch, EWantCli, EWrite, EUnCli} {
        BatchLeaves(s, ch, s');
      } else if s.ep.pc in {EWantList, EWantCls, EWantTot, EDelTot, EDelCls, EDelEp, EPut} {
        UnlinkEvolves(s, s', ofClasses);
      } else {
        ReleaseEvolves(s, s');
      }
      Unchanged(Listing(s, ofClasses));
    case Op =>
      if s.op.pc in {OWantTot, OScan, OUnTot} {
        SelectLeaves(s, s');
      } else {
        TraverseLeaves(s, ch, s');
      }
      Unchanged(Listing(s, ofClasses));
  }

  lemma Unchanged(xs: seq<nat>)
    ensures Evolves(xs, xs)
  {
  }

  lemma AcceptEvolves(s: State, ch: Choice, s': State)
    requires s.reg.pc in {RIdle, RAccept, RSslNew, RSslAccept, RRead} && Allowed(s, Reg, ch) && AcceptStep(s, ch) == Ok(s')
    ensures s'.mem.classhead == s.mem.classhead && s'.mem.tothead == s.mem.tothead
  {
    hide SockOpen, SslAlive;
  }

  lemma NewClassEvolves(s: State, ch: Choice, s': State, ofClasses: bool)
    requires s.reg.pc in {RWantList, RScan, RNoMem, RWant, RGet, RDrop, RPublish, RUnList} && NewClassStep(s, ch) == Ok(s')
    ensures Evolves(Listing(s, ofClasses), Listing(s', ofClasses))
  {
    hide AllAlive;
  }

  lemma CleanEvolves(s: State, s': State)
    requires s.reg.pc in {RClean4, RClean3, RClean2, RClean1} && CleanStep(s) == Ok(s')
    ensures s'.mem.classhead == s.mem.classhead && s'.mem.tothead == s.mem.tothead
  {
    hide SockOpen, SslAlive;
  }

  lemma LinkEvolves(s: State, ch: Choice, s': State, ofClasses: bool)
    requires s.reg.pc in {RSetUp, RWantLink, RWantTot, RAddTot, RAddCls, RInsert, RUnTot, RUnCls} && LinkStep(s, ch) == Ok(s')
    ensures Evolves(Listing(s, ofClasses), Listing(s', ofClasses))
  {
    hide AllAlive, SockOpen;
  }

  lemma UnlinkEvolves(s: State, s': State, ofClasses: bool)
    requires s.ep.pc in {EWantList, EWantCls, EWantTot, EDelTot, EDelCls, EDelEp, EPut} && UnlinkStep(s) == Ok(s')
    ensures Evolves(Listing(s, ofClasses), Listing(s', ofClasses))
  {
    hide AllAlive, Remove;
  }

  lemma ReleaseEvolves(s: State, s': State)
    requires s.ep.pc in {EUnTot, EUnCls, EUnList, EShut, EClose, EDestroy, EFree} && ReleaseStep(s) == Ok(s')
    ensures s'.mem.classhead == s.mem.classhead && s'.mem.tothead == s.mem.tothead
  {
    hide SockOpen, SslAlive;
  }

  /** Where a member stands after another one has gone. */
  lemma RemoveShifts(xs: seq<nat>, z: nat, x: nat)
    requires NoDup(xs) && z in xs && x in xs && x != z
    ensures x in Remove(xs, z)
    ensures IndexOf(Remove(xs, z), x) == if IndexOf(xs, x) < IndexOf(xs, z) then IndexOf(xs, x) else IndexOf(xs, x) - 1
  {
    var i, k := IndexOf(xs, x), IndexOf(xs, z);
    RemoveNoDup(xs, z);
    NoDupIndex(Remove(xs, z), if i < k then i else i - 1);
  }

  lemma AppendStays(xs: seq<nat>, z: nat, x: nat)
    requires NoDup(xs + [z]) && x in xs
    ensures IndexOf(xs + [z], x) == IndexOf(xs, x)
  {
    NoDupIndex(xs + [z], IndexOf(xs, x));
  }

  lemma OrderStays(xs: seq<nat>, ys: seq<nat>, x: nat, y: nat)
    requires Evolves(xs, ys) && NoDup(xs) && NoDup(ys) && x in xs && y in xs && x in ys && y in ys
    requires IndexOf(xs, x) < IndexOf(xs, y)
    ensures IndexOf(ys, x) < IndexOf(ys, y)
  {
    hide NoDup, IndexOf, Remove;
    if ys != [] && ys == xs + [ys[|ys| - 1]] {
      AppendStays(xs, ys[|ys| - 1], x);
      AppendStays(xs, ys[|ys| - 1], y);
    } else if z :| z in xs && ys == Remove(xs, z) {
      RemoveNoDup(xs, z);
      RemoveShifts(xs, z, x);
      RemoveShifts(xs, z, y);
    }
  }

  lemma ListsNoDup(s: State, ofClasses: bool)
    requires Inv(s)
    ensures NoDup(Listing(s, ofClasses))
  {
    hide NoDup, Partition, NamesDistinct, ClassesCounted, ClientsClassed, RegClass, RegClient, EpPointers, ListInv, BatchInv,
         UnwatchedInv, CountInv, Table, CommandInv, BetweenClasses, InsideClass, Selecting, HoldInv, LiveLocks, LockReady;
  }

  /** Of two clients that stay registered, or two classes that stay listed, the one that comes first goes on coming first. */
  lemma {:induction false} OrderKept(tr: seq<State>, i: nat, j: nat, ofClasses: bool, x: nat, y: nat)
    requires Run(tr) && i <= j < |tr|
    requires forall k :: i <= k <= j ==> x in Listing(tr[k], ofClasses) && y in Listing(tr[k], ofClasses)
    requires IndexOf(Listing(tr[i], ofClasses), x) < IndexOf(Listing(tr[i], ofClasses), y)
    ensures IndexOf(Listing(tr[j], ofClasses), x) < IndexOf(Listing(tr[j], ofClasses), y)
    decreases j - i
  {
    hide Inv, Step, Evolves, Listing, NoDup, Allowed;
    if i < j {
      OrderKept(tr, i, j - 1, ofClasses, x, y);
      assert Next(tr[j - 1], tr[j - 1 + 1]);
      var t: Thread, ch: Choice :| Allowed(tr[j - 1], t, ch) && Step(tr[j - 1], t, ch) == Ok(tr[j]);
      StepEvolves(tr[j - 1], t, ch, tr[j], ofClasses);
      RunInv(tr, j - 1);
      RunInv(tr, j);
      ListsNoDup(tr[j - 1], ofClasses);
      ListsNoDup(tr[j], ofClasses);
      OrderStays(Listing(tr[j - 1], ofClasses), Listing(tr[j], ofClasses), x, y);
    }
  }

  /** A newcomer is last. */
  lemma NewcomerLast(s: State, t: Thread, ch: Choice, s': State, ofClasses: bool, x: nat)
    requires Allowed(s, t, ch) && Step(s, t, ch) == Ok(s')
    requires x in Listing(s', ofClasses) && x !in Listing(s, ofClasses)
    ensures Listing(s', ofClasses) == Listing(s, ofClasses) + [x]
  {
    hide Step, Listing, Allowed;
    StepEvolves(s, t, ch, s', ofClasses);
    var xs, ys := Listing(s, ofClasses), Listing(s', ofClasses);
    forall z | z in xs
      ensures forall y :: y in Remove(xs, z) ==> y in xs
    {
      RemoveWithin(xs, z);
    }
    hide Remove;
  }

  lemma RemoveWithin(xs: seq<nat>, z: nat)
    requires z in xs
    ensures forall y :: y in Remove(xs, z) ==> y in xs
  {
  }

  // ----- what a registration stores

  /** A registration is between its record being read and its end, failures aside. */
  predicate Registering(s: State) {
    s.reg.pc in {RWantList, RScan, RWant, RGet, RDrop, RPublish, RUnList, RSetUp} || Stored(s)
  }

  predicate Stored(s: State) {
    s.reg.pc in {RWantLink, RWantTot, RAddTot, RAddCls, RInsert, RUnTot, RUnCls}
  }

  predicate ClientIs(s: State, n: ClientId, who: Text, mac: Mac, ip: Address) {
    n in s.mem.clients && s.mem.clients[n].who == who && s.mem.clients[n].mac == mac && s.mem.clients[n].ip == ip
  }

  /** The registration of client `n` carries the name and MAC along, first in its variables, then in the client. */
  ghost predicate Carried(s: State, n: ClientId, who: Text, mac: Mac, ip: Address) {
    && Registering(s) && s.reg.n == n && n in s.mem.clients && s.mem.clients[n].ip == ip
    && (!Stored(s) ==> s.reg.who == who && s.reg.mac == mac)
    && (Stored(s) ==> ClientIs(s, n, who, mac, ip) && s.mem.clients[n].klass == s.reg.k)
    && (s.reg.pc in {RAddCls, RInsert, RUnTot, RUnCls} ==> n in s.mem.tothead)
  }

  ghost predicate ListedAs(s: State, n: ClientId, who: Text, mac: Mac, ip: Address) {
    ClientIs(s, n, who, mac, ip) && n in s.mem.tothead
  }

  lemma RegCarries(s: State, ch: Choice, s': State, n: ClientId, who: Text, mac: Mac, ip: Address)
    requires Carried(s, n, who, mac, ip) && Allowed(s, Reg, ch) && Step(s, Reg, ch) == Ok(s') && s'.reg.pc != RNoMem
    ensures if s'.reg.pc == RIdle then ListedAs(s', n, who, mac, ip) else Carried(s', n, who, mac, ip)
  {
    hide AcceptStep, NewClassStep, LinkStep, CleanStep, ListedAs;
    assert Registering(s);
    hide Carried;
    if s.reg.pc in {RWantList, RScan, RWant, RGet, RDrop, RPublish, RUnList} {
      NewClassCarries(s, ch, s', n, who, mac, ip);
    } else {
      LinkCarries(s, ch, s', n, who, mac, ip);
    }
  }

  lemma NewClassCarries(s: State, ch: Choice, s': State, n: ClientId, who: Text, mac: Mac, ip: Address)
    requires s.reg.pc in {RWantList, RScan, RWant, RGet, RDrop, RPublish, RUnList} && NewClassStep(s, ch) == Ok(s') && s'.reg.pc != RNoMem
    requires Carried(s, n, who, mac, ip)
    ensures Carried(s', n, who, mac, ip) && s'.reg.pc != RIdle
  {
    hide AllAlive;
  }

  lemma LinkCarries(s: State, ch: Choice, s': State, n: ClientId, who: Text, mac: Mac, ip: Address)
    requires s.reg.pc in {RSetUp, RWantLink, RWantTot, RAddTot, RAddCls, RInsert, RUnTot, RUnCls} && LinkStep(s, ch) == Ok(s')
    requires Carried(s, n, who, mac, ip)
    ensures if s'.reg.pc == RIdle then ListedAs(s', n, who, mac, ip) else Carried(s', n, who, mac, ip)
  {
    hide AllAlive, SockOpen;
  }

  /** The epoll thread leaves every client alone but the one it frees, and takes off the list only one whose class it has locked. */
  lemma EpLeaves(s: State, ch: Choice, s': State)
    requires Inv(s) && Allowed(s, Ep, ch) && Step(s, Ep, ch) == Ok(s')
    ensures s'.reg == s.reg && s'.mem.unwatched == s.mem.unwatched
    ensures forall c :: c in s.mem.clients && c !in EpOwn(EpV(s.ep)) ==> c in s'.mem.clients && s'.mem.clients[c] == s.mem.clients[c]
    ensures forall c :: c in s.mem.tothead && c !in s'.mem.tothead ==>
              c in s.mem.clients && Has(s, Ep, ClassLock(s.mem.clients[c].klass))
  {
    hide Inv, BatchStep, UnlinkStep, ReleaseStep;
    if s.ep.pc in {EWait, EBatch, EWantCli, EWrite, EUnCli} {
      BatchLeaves(s, ch, s');
    } else if s.ep.pc in {EWantList, EWantCls, EWantTot, EDelTot, EDelCls, EDelEp, EPut} {
      if s.ep.pc == EDelTot {
        ClassAtHand(s);
      }
      UnlinkLeaves(s, s');
    } else {
      ReleaseLeaves(s, s');
    }
  }

  lemma UnlinkLeaves(s: State, s': State)
    requires s.ep.pc in {EWantList, EWantCls, EWantTot, EDelTot, EDelCls, EDelEp, EPut} && UnlinkStep(s) == Ok(s')
    requires s.ep.pc == EDelTot && s.ep.c in s.mem.clients ==> s.mem.clients[s.ep.c].klass == s.ep.k
    ensures s'.mem.unwatched == s.mem.unwatched
    ensures s'.reg == s.reg && s'.mem.clients == s.mem.clients
    ensures forall c :: c in s.mem.tothead && c !in s'.mem.tothead ==>
              c in s.mem.clients && Has(s, Ep, ClassLock(s.mem.clients[c].klass))
  {
    if s.ep.pc == EDelTot {
      OthersStay(s.mem.tothead, s.ep.c);
    }
    hide Remove;
  }

  lemma OthersStay(xs: seq<nat>, x: nat)
    requires x in xs
    ensures forall y :: y in xs && y != x ==> y in Remove(xs, x)
  {
    var i := IndexOf(xs, x);
    assert xs == xs[..i] + [x] + xs[i + 1..];
  }

  lemma ReleaseLeaves(s: State, s': State)
    requires s.ep.pc in {EUnTot, EUnCls, EUnList, EShut, EClose, EDestroy, EFree} && ReleaseStep(s) == Ok(s')
    ensures s'.mem.unwatched == s.mem.unwatched
    ensures s'.reg == s.reg && s'.mem.tothead == s.mem.tothead
    ensures forall c :: c in s.mem.clients && c !in EpOwn(EpV(s.ep)) ==> c in s'.mem.clients && s'.mem.clients[c] == s.mem.clients[c]
  {
    hide SockOpen, SslAlive;
  }

  lemma EpCarries(s: State, ch: Choice, s': State, n: ClientId, who: Text, mac: Mac, ip: Address)
    requires Inv(s) && Carried(s, n, who, mac, ip) && Allowed(s, Ep, ch) && Step(s, Ep, ch) == Ok(s')
    ensures Carried(s', n, who, mac, ip) && s'.reg == s.reg
  {
    hide Inv, Step;
    EpLeaves(s, ch, s');
    NotRemoved(s);
    Excluded(s, Reg, Ep);
  }

  /** The epoll thread is not removing the client being registered. */
  lemma NotRemoved(s: State)
    requires Inv(s)
    ensures forall c :: c in EpOwn(EpV(s.ep)) ==> c !in s.mem.tothead && c !in RegOwn(RegV(s.reg))
  {
    hide MemInv, HoldInv, LiveLocks, LockReady;
    RegNotEp(s.mem, RegV(s.reg), EpV(s.ep), s.op);
  }

  lemma OpCarries(s: State, ch: Choice, s': State, n: ClientId, who: Text, mac: Mac, ip: Address)
    requires Carried(s, n, who, mac, ip) && Allowed(s, Op, ch) && Step(s, Op, ch) == Ok(s')
    ensures Carried(s', n, who, mac, ip) && s'.reg == s.reg
  {
    hide Carried, TraverseStep, SelectStep;
    if s.op.pc in {OWantTot, OScan, OUnTot} {
      SelectLeaves(s, s');
    } else {
      TraverseLeaves(s, ch, s');
    }
    Same(s, s', n, who, mac, ip);
  }

  lemma Same(s: State, s': State, n: ClientId, who: Text, mac: Mac, ip: Address)
    requires Carried(s, n, who, mac, ip) && s'.reg == s.reg && s'.mem.clients == s.mem.clients && s'.mem.tothead == s.mem.tothead
    ensures Carried(s', n, who, mac, ip)
  {
  }

  /** The address a client connected from. */
  function AddressOf(s: State, n: ClientId): Address {
    if n in s.mem.clients then s.mem.clients[n].ip else NO_ADDRESS
  }

  lemma ReadValid(s: State, ch: Choice)
    requires s.reg.pc == RRead && Allowed(s, Reg, ch)
    ensures ch.rec.Valid()
  {
  }

  lemma ReadCarries(s: State, ch: Choice, s': State)
    requires s.reg.pc == RRead && s'.reg.pc == RWantList && Allowed(s, Reg, ch) && Step(s, Reg, ch) == Ok(s')
    ensures Carried(s', s.reg.n, ServerName(ch.rec), ch.rec.mac, AddressOf(s, s.reg.n))
  {
    hide ServerName;
  }

  /** From the step that reads the record on, through any interleaving, the registration carries what it read. */
  lemma {:induction false} RunCarries(tr: seq<State>, i: nat, j: nat, ch: Choice)
    requires Run(tr) && i < j < |tr| && tr[i].reg.pc == RRead && tr[i + 1].reg.pc == RWantList
    requires Allowed(tr[i], Reg, ch) && Step(tr[i], Reg, ch) == Ok(tr[i + 1])
    requires forall k :: i < k < j ==> Registering(tr[k])
    requires Registering(tr[j]) || tr[j].reg.pc == RIdle
    ensures if tr[j].reg.pc == RIdle then ListedAs(tr[j], tr[i].reg.n, ServerName(ch.rec), ch.rec.mac, AddressOf(tr[i], tr[i].reg.n))
            else Carried(tr[j], tr[i].reg.n, ServerName(ch.rec), ch.rec.mac, AddressOf(tr[i], tr[i].reg.n))
    decreases j - i
  {
    hide Inv, Step, Allowed, Carried, ListedAs;
    ReadValid(tr[i], ch);
    var n, who, mac, ip := tr[i].reg.n, ServerName(ch.rec), ch.rec.mac, AddressOf(tr[i], tr[i].reg.n);
    if j == i + 1 {
      ReadCarries(tr[i], ch, tr[j]);
    } else {
      RunCarries(tr, i, j - 1, ch);
      assert Next(tr[j - 1], tr[j - 1 + 1]);
      var t: Thread, c: Choice :| Allowed(tr[j - 1], t, c) && Step(tr[j - 1], t, c) == Ok(tr[j]);
      RunInv(tr, j - 1);
      match t
      case Reg => RegCarries(tr[j - 1], c, tr[j], n, who, mac, ip);
      case Ep => EpCarries(tr[j - 1], c, tr[j], n, who, mac, ip);
      case Op => OpCarries(tr[j - 1], c, tr[j], n, who, mac, ip);
    }
  }

  /** In the run a registration reads the record at `i`, meets no failure and completes at `j`. */
  ghost predicate Registers(tr: seq<State>, i: nat, j: nat, ch: Choice) {
    && Run(tr) && i < j < |tr| && tr[i].reg.pc == RRead && tr[i + 1].reg.pc == RWantList
    && Allowed(tr[i], Reg, ch) && Step(tr[i], Reg, ch) == Ok(tr[i + 1])
    && (forall k :: i < k < j ==> Registering(tr[k])) && tr[j].reg.pc == RIdle
  }

  lemma RunPrefix(tr: seq<State>, j: nat)
    requires Run(tr) && j < |tr|
    ensures Reachable(tr[j])
  {
    hide Next;
    assert Run(tr[..j + 1]) && tr[..j + 1][|tr[..j + 1]| - 1] == tr[j];
  }

  /** A registration that completes has listed the client with the address it connected from and the MAC its device sent,
      in a live listed class named by the first 32 characters of the device id it sent, whatever the other threads did meanwhile. */
  lemma RegistrationStores(tr: seq<State>, i: nat, j: nat, ch: Choice, devid: Text, mac: Mac)
    requires Registers(tr, i, j, ch) && ch.rec == ClientRecord(devid, mac) && '\0' !in devid
    ensures var m, n := tr[j].mem, tr[i].reg.n;
            && n in m.tothead && n in m.clients && m.clients[n].mac == mac && m.clients[n].ip == AddressOf(tr[i], n)
            && m.clients[n].klass in m.classes && m.clients[n].klass in m.classhead
            && m.classes[m.clients[n].klass].name == devid[..Min(|devid|, 32)]
  {
    hide Step, Allowed, Inv, Next;
    RunCarries(tr, i, j, ch);
    RegistrationRoundTrip(devid, mac);
    RunPrefix(tr, j);
    RegisteredClassAlive(tr[j], tr[i].reg.n);
  }

  /** Only a registration lists clients. */
  lemma OnlyLeave(s: State, t: Thread, ch: Choice, s': State)
    requires Inv(s) && t != Reg && Allowed(s, t, ch) && Step(s, t, ch) == Ok(s')
    ensures forall c :: c in s'.mem.tothead ==> c in s.mem.tothead
  {
    hide Inv, Allowed, BatchStep, UnlinkStep, ReleaseStep, TraverseStep, SelectStep;
    if t == Op {
      if s.op.pc in {OWantTot, OScan, OUnTot} {
        SelectLeaves(s, s');
      } else {
        TraverseLeaves(s, ch, s');
      }
    } else {
      match s.ep.pc {
      case EWait | EBatch | EWantCli | EWrite | EUnCli => BatchLeaves(s, ch, s');
      case EWantList | EWantCls | EWantTot | EDelTot | EDelCls | EDelEp | EPut => UnlinkOnlyLeaves(s, s');
      case _ => ReleaseEvolves(s, s');
      }
    }
  }

  lemma UnlinkOnlyLeaves(s: State, s': State)
    requires s.ep.pc in {EWantList, EWantCls, EWantTot, EDelTot, EDelCls, EDelEp, EPut} && UnlinkStep(s) == Ok(s')
    ensures forall c :: c in s'.mem.tothead ==> c in s.mem.tothead
  {
    if s.ep.pc == EDelTot && s.ep.c in s.mem.tothead {
      RemoveWithin(s.mem.tothead, s.ep.c);
    }
    hide Remove, AllAlive;
  }

  // ----- a registered client's record

  /** The registration thread writes only the client it has not listed yet. */
  lemma RegWrites(s: State, ch: Choice, s': State)
    requires Inv(s) && Allowed(s, Reg, ch) && Step(s, Reg, ch) == Ok(s')
    ensures s'.mem.unwatched == if s.reg.pc == RInsert && !ch.ok then s.mem.unwatched + {s.reg.n} else s.mem.unwatched
    ensures s'.ep == s.ep && s'.op == s.op && s'.mem.files == s.mem.files
    ensures s'.mem.tothead == s.mem.tothead || (s'.reg.n == s.reg.n && s'.mem.tothead == s.mem.tothead + [s.reg.n])
    ensures forall c :: c in s.mem.tothead ==>
              c in s.mem.clients && c in s'.mem.clients && s'.mem.clients[c] == s.mem.clients[c]
  {
    hide Inv, AcceptStep, NewClassStep, LinkStep, CleanStep;
    OwnClient(s);
    OwnAlive(s);
    if s.reg.pc in {RIdle, RAccept, RSslNew, RSslAccept, RRead} {
      AcceptWrites(s, ch, s');
    } else if s.reg.pc in {RWantList, RScan, RNoMem, RWant, RGet, RDrop, RPublish, RUnList} {
      NewClassWrites(s, ch, s');
    } else if s.reg.pc in {RClean4, RClean3, RClean2, RClean1} {
      CleanWrites(s, s');
    } else {
      if s.reg.pc == RInsert {
        CanWatch(s);
      }
      LinkWrites(s, ch, s');
    }
  }

  /** Its descriptor is not in the epoll set yet. */
  lemma CanWatch(s: State)
    requires Inv(s) && s.reg.pc == RInsert && s.reg.n in s.mem.clients
    ensures s.mem.clients[s.reg.n].sock !in s.mem.interest
  {
    hide MemInv, HoldInv, LiveLocks, LockReady;
    Watch(s.mem, RegV(s.reg), EpV(s.ep), s.op);
  }

  lemma OwnClient(s: State)
    requires Inv(s)
    ensures forall c :: c in s.mem.tothead ==> c in s.mem.clients
    ensures s.reg.pc !in {RIdle, RAddCls, RInsert, RUnTot, RUnCls} ==> s.reg.n !in s.mem.tothead
  {
    hide MemInv, HoldInv, LiveLocks, LockReady;
    RegNotEp(s.mem, RegV(s.reg), EpV(s.ep), s.op);
    Reach(s.mem, RegV(s.reg), EpV(s.ep), s.op);
  }

  lemma OwnAlive(s: State)
    requires Inv(s)
    ensures s.reg.pc == RInsert ==> s.reg.n in s.mem.clients
  {
    hide MemInv, HoldInv, LiveLocks, LockReady;
    Reach(s.mem, RegV(s.reg), EpV(s.ep), s.op);
  }

  lemma AcceptWrites(s: State, ch: Choice, s': State)
    requires s.reg.pc in {RIdle, RAccept, RSslNew, RSslAccept, RRead} && Allowed(s, Reg, ch) && AcceptStep(s, ch) == Ok(s')
    ensures s'.mem.unwatched == s.mem.unwatched
    ensures s'.ep == s.ep && s'.op == s.op && s'.mem.files == s.mem.files
    ensures s'.mem.tothead == s.mem.tothead || (s'.reg.n == s.reg.n && s'.mem.tothead == s.mem.tothead + [s.reg.n])
    ensures forall c :: c in s.mem.clients && (c != s.reg.n || s.reg.pc == RIdle) ==>
              c in s'.mem.clients && s'.mem.clients[c] == s.mem.clients[c]
  {
    hide SockOpen, SslAlive, ServerName;
  }

  lemma NewClassWrites(s: State, ch: Choice, s': State)
    requires s.reg.pc in {RWantList, RScan, RNoMem, RWant, RGet, RDrop, RPublish, RUnList} && NewClassStep(s, ch) == Ok(s')
    ensures s'.mem.unwatched == s.mem.unwatched
    ensures s'.ep == s.ep && s'.op == s.op && s'.mem.files == s.mem.files
    ensures s'.mem.tothead == s.mem.tothead || (s'.reg.n == s.reg.n && s'.mem.tothead == s.mem.tothead + [s.reg.n])
    ensures s'.mem.clients == s.mem.clients
  {
    hide AllAlive;
  }

  lemma CleanWrites(s: State, s': State)
    requires s.reg.pc in {RClean4, RClean3, RClean2, RClean1} && CleanStep(s) == Ok(s')
    ensures s'.mem.unwatched == s.mem.unwatched
    ensures s'.ep == s.ep && s'.op == s.op && s'.mem.files == s.mem.files
    ensures s'.mem.tothead == s.mem.tothead || (s'.reg.n == s.reg.n && s'.mem.tothead == s.mem.tothead + [s.reg.n])
    ensures forall c :: c in s.mem.clients && c != s.reg.n ==> c in s'.mem.clients && s'.mem.clients[c] == s.mem.clients[c]
  {
    hide SockOpen, SslAlive;
  }

  lemma LinkWrites(s: State, ch: Choice, s': State)
    requires s.reg.pc in {RSetUp, RWantLink, RWantTot, RAddTot, RAddCls, RInsert, RUnTot, RUnCls} && LinkStep(s, ch) == Ok(s')
    requires s.reg.pc == RInsert && s.reg.n in s.mem.clients ==> s.mem.clients[s.reg.n].sock !in s.mem.interest
    ensures s'.mem.unwatched == if s.reg.pc == RInsert && !ch.ok then s.mem.unwatched + {s.reg.n} else s.mem.unwatched
    ensures s'.ep == s.ep && s'.op == s.op && s'.mem.files == s.mem.files
    ensures s'.mem.tothead == s.mem.tothead || (s'.reg.n == s.reg.n && s'.mem.tothead == s.mem.tothead + [s.reg.n])
    ensures forall c :: c in s.mem.clients && (c != s.reg.n || s.reg.pc != RSetUp) ==>
              c in s'.mem.clients && s'.mem.clients[c] == s.mem.clients[c]
  {
    hide AllAlive;
  }

  /** No step changes the record of a client that stays registered. */
  lemma RecordStays(s: State, t: Thread, ch: Choice, s': State)
    requires Inv(s) && Allowed(s, t, ch) && Step(s, t, ch) == Ok(s')
    ensures forall c :: c in s.mem.tothead ==> c in s.mem.clients && c in s'.mem.clients && s'.mem.clients[c] == s.mem.clients[c]
  {
    hide Inv, Allowed, TraverseStep, SelectStep;
    OwnClient(s);
    match t
    case Reg =>
      hide Step;
      RegWrites(s, ch, s');
    case Ep =>
      hide Step;
      EpLeaves(s, ch, s');
      NotRemoved(s);
    case Op =>
      if s.op.pc in {OWantTot, OScan, OUnTot} {
        SelectLeaves(s, s');
      } else {
        TraverseLeaves(s, ch, s');
      }
  }

  /** A client that could not be watched goes unwatched as long as the server runs, and stays registered: only an event
      could lead to its removal. */
  lemma {:induction false} UnwatchedForEver(tr: seq<State>, i: nat, j: nat, c: ClientId)
    requires Run(tr) && i <= j < |tr| && c in tr[i].mem.unwatched
    ensures c in tr[j].mem.unwatched && c in tr[j].mem.tothead
    decreases j - i
  {
    hide Inv, Step, Allowed;
    RunInv(tr, j);
    StillListed(tr[j]);
    if i < j {
      UnwatchedForEver(tr, i, j - 1, c);
      assert Next(tr[j - 1], tr[j - 1 + 1]);
      var t: Thread, ch: Choice :| Allowed(tr[j - 1], t, ch) && Step(tr[j - 1], t, ch) == Ok(tr[j]);
      RunInv(tr, j - 1);
      UnwatchedGrow(tr[j - 1], t, ch, tr[j]);
    }
  }

  lemma StillListed(s: State)
    requires Inv(s)
    ensures forall c :: c in s.mem.unwatched ==> c in s.mem.tothead
  {
    hide NoDup, Partition, NamesDistinct, ClassesCounted, ClientsClassed, RegClass, RegClient, EpPointers, ListInv, BatchInv,
         CountInv, Table, CommandInv, BetweenClasses, InsideClass, Selecting, KlassOf, Names, SockOf, SslOf, HoldInv,
         LiveLocks, LockReady;
  }

  lemma UnwatchedGrow(s: State, t: Thread, ch: Choice, s': State)
    requires Inv(s) && Allowed(s, t, ch) && Step(s, t, ch) == Ok(s')
    ensures s.mem.unwatched <= s'.mem.unwatched
  {
    hide Inv, Allowed, TraverseStep, SelectStep;
    match t
    case Reg =>
      hide Step;
      RegWrites(s, ch, s');
    case Ep =>
      hide Step;
      EpLeaves(s, ch, s');
    case Op =>
      if s.op.pc in {OWantTot, OScan, OUnTot} {
        SelectLeaves(s, s');
      } else {
        TraverseLeaves(s, ch, s');
      }
  }

  lemma {:induction false} RecordKept(tr: seq<State>, i: nat, j: nat, c: ClientId)
    requires Run(tr) && i <= j < |tr| && forall k :: i <= k <= j ==> c in tr[k].mem.tothead
    ensures c in tr[i].mem.clients && c in tr[j].mem.clients && tr[j].mem.clients[c] == tr[i].mem.clients[c]
    decreases j - i
  {
    hide Inv, Step, Allowed;
    RunInv(tr, i);
    OwnClient(tr[i]);
    if i < j {
      RecordKept(tr, i, j - 1, c);
      assert Next(tr[j - 1], tr[j - 1 + 1]);
      var t: Thread, ch: Choice :| Allowed(tr[j - 1], t, ch) && Step(tr[j - 1], t, ch) == Ok(tr[j]);
      RunInv(tr, j - 1);
      RecordStays(tr[j - 1], t, ch, tr[j]);
    }
  }

  /** Two devices that registered in a run and stay registered share a class object if and only if the first 32 characters of
      the device ids they sent agree. */
  lemma SharedClassByDevid(tr: seq<State>, i: nat, j: nat, ch: Choice, devid: Text, mac: Mac,
                           i': nat, j': nat, ch': Choice, devid': Text, mac': Mac, m: nat)
    requires Registers(tr, i, j, ch) && ch.rec == ClientRecord(devid, mac) && '\0' !in devid
    requires Registers(tr, i', j', ch') && ch'.rec == ClientRecord(devid', mac') && '\0' !in devid'
    requires j <= m < |tr| && j' <= m
    requires forall k :: j <= k <= m ==> tr[i].reg.n in tr[k].mem.tothead
    requires forall k :: j' <= k <= m ==> tr[i'].reg.n in tr[k].mem.tothead
    ensures var clients, c, d := tr[m].mem.clients, tr[i].reg.n, tr[i'].reg.n;
            && c in clients && d in clients
            && (clients[c].klass == clients[d].klass <==> devid[..Min(|devid|, 32)] == devid'[..Min(|devid'|, 32)])
  {
    hide Step, Allowed, Inv, Next, Run;
    RunCarries(tr, i, j, ch);
    RunCarries(tr, i', j', ch');
    RegistrationRoundTrip(devid, mac);
    RegistrationRoundTrip(devid', mac');
    RecordKept(tr, j, m, tr[i].reg.n);
    RecordKept(tr, j', m, tr[i'].reg.n);
    RunPrefix(tr, m);
    SharedClass(tr[m], tr[i].reg.n, tr[i'].reg.n);
  }
}
