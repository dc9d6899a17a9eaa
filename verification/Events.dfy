/** What the epoll thread does with the events it is reported: which clients they remove and where the batch ends. */
module Events {
  import opened Sequences
  import opened LogPath
  import opened Registry
  import opened RegistryInvariant
  import opened SafetyProof
  import opened ServerTheorems
  import opened Progress
  import opened Scenarios
  import opened Traces

  /** The device has closed its connection, or the event is not about data. */
  predicate Hung(e: Event) { e.rdhup || !e.input }

  /** The thread is between events. */
  predicate Between(s: State) { s.ep.pc in {EWait, EBatch} }

  predicate Pending(s: State) { s.ep.pc == EBatch && s.ep.i < |s.ep.evs| }

  /** The thread is at the event: removing its client, or logging what was read. */
  predicate Handling(s: State, evs: seq<Event>, i: nat, removed: bool) {
    && i < |evs| && s.ep.evs == evs && s.ep.i == i && s.ep.c == evs[i].cli
    && (removed ==> !Between(s) && s.ep.pc !in {EWantCli, EWrite, EUnCli} && (s.ep.brk <==> Hung(evs[i])))
    && (!removed ==> s.ep.pc in {EWantCli, EWrite, EUnCli} && !Hung(evs[i]))
  }

  /** The client is neither listed nor watched nor alive; or all three. */
  predicate Gone(s: State, c: ClientId) {
    c !in s.mem.tothead && c !in s.mem.interest.Values && c !in s.mem.clients
  }

  predicate Stays(s: State, c: ClientId) {
    c in s.mem.tothead && c in s.mem.interest.Values && c in s.mem.clients
  }

  /** How the handling of an event ends. */
  predicate Handled(s: State, evs: seq<Event>, i: nat, removed: bool)
    requires i < |evs|
  {
    && (if removed then Gone(s, evs[i].cli) else Stays(s, evs[i].cli))
    && (if Hung(evs[i]) then s.ep.pc == EWait else s.ep.pc == EBatch && s.ep.evs == evs && s.ep.i == i + 1)
  }

  lemma Dispatched(s: State, ch: Choice, s': State)
    requires Pending(s) && BatchStep(s, ch) == Ok(s')
    ensures Handling(s', s.ep.evs, s.ep.i, Hung(s.ep.evs[s.ep.i]) || !ch.ok)
  {
    hide SslAlive, File;
  }

  lemma EpGoesOn(s: State, ch: Choice, s': State, evs: seq<Event>, i: nat, removed: bool)
    requires Reachable(s) && Handling(s, evs, i, removed) && Allowed(s, Ep, ch) && Step(s, Ep, ch) == Ok(s')
    ensures if Between(s') then Handled(s', evs, i, removed) else Handling(s', evs, i, removed)
  {
    hide Reachable, Allowed, BatchStep, UnlinkStep, ReleaseStep, Handled;
    match s.ep.pc
    case EWantCli | EWrite => Writing(s, ch, s', evs, i);
    case EUnCli => Written(s, ch, s', evs, i);
    case EWantList | EWantCls | EWantTot | EDelTot | EDelCls | EDelEp | EPut => Unlinking(s, s', evs, i);
    case EFree =>
      hide Handling;
      Freed(s, ch, s', evs, i);
    case _ => Releasing(s, s', evs, i);
  }

  lemma Writing(s: State, ch: Choice, s': State, evs: seq<Event>, i: nat)
    requires Handling(s, evs, i, false) && s.ep.pc in {EWantCli, EWrite} && BatchStep(s, ch) == Ok(s')
    ensures Handling(s', evs, i, false)
  {
    hide LogAlive, LogFile;
  }

  /** The chunk is written and the client stays. */
  lemma Written(s: State, ch: Choice, s': State, evs: seq<Event>, i: nat)
    requires Reachable(s) && Handling(s, evs, i, false) && s.ep.pc == EUnCli && BatchStep(s, ch) == Ok(s')
    ensures Between(s') && Handled(s', evs, i, false)
  {
    hide Reachable, MemInv, HoldInv, LiveLocks, LockReady;
    ReachableInv(s);
    var m, rv, ev := s.mem, RegV(s.reg), EpV(s.ep);
    BatchPart(m, rv, ev, s.op);
    ReachEvent(m, rv, ev, s.op);
    assert ev.c in Watched(m.tothead, m.unwatched, rv, ev);
    assert m.interest[SockOf(m.clients)[ev.c]] == ev.c;
  }

  lemma Unlinking(s: State, s': State, evs: seq<Event>, i: nat)
    requires Handling(s, evs, i, true) && s.ep.pc in {EWantList, EWantCls, EWantTot, EDelTot, EDelCls, EDelEp, EPut}
    requires UnlinkStep(s) == Ok(s')
    ensures Handling(s', evs, i, true)
  {
    hide AllAlive, Remove;
  }

  lemma Releasing(s: State, s': State, evs: seq<Event>, i: nat)
    requires Handling(s, evs, i, true) && s.ep.pc in {EUnTot, EUnCls, EUnList, EShut, EClose, EDestroy} && ReleaseStep(s) == Ok(s')
    ensures Handling(s', evs, i, true)
  {
    hide SockOpen, SslAlive;
  }

  /** The client is gone. */
  lemma Freed(s: State, ch: Choice, s': State, evs: seq<Event>, i: nat)
    requires Reachable(s) && Handling(s, evs, i, true) && s.ep.pc == EFree && Allowed(s, Ep, ch) && Step(s, Ep, ch) == Ok(s')
    ensures Between(s') && Handled(s', evs, i, true)
  {
    hide Reachable, Inv, Step, Allowed, ReleaseStep;
    Reaches(s, Ep, ch, s');
    ReachableInv(s');
    FreesIt(s, ch, s');
    Nowhere(s', evs[i].cli);
  }

  lemma FreesIt(s: State, ch: Choice, s': State)
    requires s.ep.pc == EFree && Allowed(s, Ep, ch) && Step(s, Ep, ch) == Ok(s')
    ensures s.ep.c !in s'.mem.clients
    ensures s'.ep == if s.ep.brk then s.ep.(pc := EWait) else s.ep.(pc := EBatch, i := s.ep.i + 1)
  {
  }

  lemma Nowhere(s: State, c: ClientId)
    requires Inv(s) && Between(s) && c !in s.mem.clients
    ensures c !in s.mem.tothead && c !in s.mem.interest.Values
  {
    WatchedOnly(s);
    OnlyLive(s);
    hide Inv;
  }

  lemma OnlyLive(s: State)
    requires Inv(s)
    ensures forall c :: c in s.mem.tothead ==> c in s.mem.clients
  {
    hide NoDup, NamesDistinct, ClassesCounted, ClientsClassed, RegClass, RegClient, EpPointers, ListInv, BatchInv, UnwatchedInv,
         CountInv, Table, CommandInv, BetweenClasses, InsideClass, Selecting, KlassOf, Names, SockOf, SslOf, HoldInv, LiveLocks,
         LockReady;
  }

  /** One step of any thread. */
  lemma GoesOn(s: State, a: Act, s': State, evs: seq<Event>, i: nat, removed: bool)
    requires Reachable(s) && Handling(s, evs, i, removed) && Takes(s, a, s')
    ensures if Between(s') then Handled(s', evs, i, removed) else Handling(s', evs, i, removed)
  {
    hide Reachable, Allowed, Step, Handled;
    if a.t == Ep {
      EpGoesOn(s, a.ch, s', evs, i, removed);
    } else {
      Others(s, a.t, a.ch, s');
    }
  }

  /** The stretch is the handling of one event: it begins with the dispatch and ends when the thread is between events again. */
  ghost predicate HandlesEvent(tr: seq<State>, acts: seq<Act>) {
    && Trace(tr, acts) && acts != [] && Pending(tr[0]) && acts[0].t == Ep
    && Between(tr[|acts|]) && forall k :: 0 < k < |acts| ==> !Between(tr[k])
  }

  /** However the other threads interleave, from every reachable state, for every event and at every place in the batch: the
      client is gone from all lists, tables and memory when the event has been handled if and only if it hung up, had no data or
      its read failed; and the batch ends there if and only if it hung up or had no data. */
  lemma EventHandled(tr: seq<State>, acts: seq<Act>)
    requires HandlesEvent(tr, acts)
    ensures var evs, i, s := tr[0].ep.evs, tr[0].ep.i, tr[|acts|];
            && (if Hung(evs[i]) || !acts[0].ch.ok then Gone(s, evs[i].cli) else Stays(s, evs[i].cli))
            && (if Hung(evs[i]) then s.ep.pc == EWait else s.ep.pc == EBatch && s.ep.evs == evs && s.ep.i == i + 1)
  {
    hide Takes, Reachable, Handling;
    HandlingAt(tr, acts, |acts|);
  }

  lemma {:induction false} HandlingAt(tr: seq<State>, acts: seq<Act>, k: nat)
    requires Trace(tr, acts) && 0 < k <= |acts| && Pending(tr[0]) && acts[0].t == Ep && forall m :: 0 < m < k ==> !Between(tr[m])
    ensures var evs, i := tr[0].ep.evs, tr[0].ep.i; var removed := Hung(evs[i]) || !acts[0].ch.ok;
            if Between(tr[k]) then Handled(tr[k], evs, i, removed) else Handling(tr[k], evs, i, removed)
  {
    hide Reachable, Allowed, BatchStep, Handled;
    var evs, i := tr[0].ep.evs, tr[0].ep.i;
    assert Takes(tr[k - 1], acts[k - 1], tr[k - 1 + 1]);
    if k == 1 {
      Dispatched(tr[0], acts[0].ch, tr[1]);
    } else {
      hide Takes, Handling;
      HandlingAt(tr, acts, k - 1);
      TraceReachable(tr, acts, k - 1);
      GoesOn(tr[k - 1], acts[k - 1], tr[k], evs, i, Hung(evs[i]) || !acts[0].ch.ok);
    }
  }

  // ----- a whole batch

  /** The events the first `n` steps dispatch, in order. */
  function Dispatches(tr: seq<State>, acts: seq<Act>, n: nat): seq<Event>
    requires n <= |acts| < |tr|
  {
    if n == 0 then []
    else
      var s := tr[n - 1];
      Dispatches(tr, acts, n - 1) + (if acts[n - 1].t == Ep && Pending(s) then [s.ep.evs[s.ep.i]] else [])
  }

  /** Within a batch the events before the cursor are dispatched and none of them had hung up. */
  ghost predicate Walking(s: State, evs: seq<Event>, dispatched: seq<Event>) {
    && s.ep.pc != EWait && s.ep.evs == evs && s.ep.i <= |evs| && (forall j :: 0 <= j < s.ep.i ==> !Hung(evs[j]))
    && (if s.ep.pc == EBatch then dispatched == evs[..s.ep.i]
        else s.ep.i < |evs| && dispatched == evs[..s.ep.i + 1] && exists removed :: Handling(s, evs, s.ep.i, removed))
  }

  /** What a batch may have dispatched at its end: all events, or those up to the first that hung up. */
  ghost predicate Ended(evs: seq<Event>, dispatched: seq<Event>) {
    && dispatched <= evs && (forall j :: 0 <= j < |dispatched| - 1 ==> !Hung(evs[j]))
    && (dispatched == evs || (dispatched != [] && Hung(dispatched[|dispatched| - 1])))
  }

  lemma Walks(s: State, a: Act, s': State, evs: seq<Event>, dispatched: seq<Event>)
    requires Reachable(s) && Takes(s, a, s') && Walking(s, evs, dispatched)
    ensures var dispatched' := dispatched + (if a.t == Ep && Pending(s) then [s.ep.evs[s.ep.i]] else []);
            if s'.ep.pc == EWait then Ended(evs, dispatched') else Walking(s', evs, dispatched')
  {
    hide Reachable, Allowed, BatchStep, Step, Handling, Gone, Stays;
    assert dispatched + [] == dispatched && evs[..|evs|] == evs;
    if a.t != Ep {
      Others(s, a.t, a.ch, s');
      SameHandling(s, s', evs);
    } else if s.ep.pc == EBatch {
      AtEvent(s, a.ch, s');
      if Pending(s) {
        Dispatched(s, a.ch, s');
        assert evs[..s.ep.i] + [evs[s.ep.i]] == evs[..s.ep.i + 1];
      }
    } else {
      var removed :| Handling(s, evs, s.ep.i, removed);
      EpGoesOn(s, a.ch, s', evs, s.ep.i, removed);
      StaysAt(s', evs, s.ep.i, removed);
    }
  }

  lemma AtEvent(s: State, ch: Choice, s': State)
    requires s.ep.pc == EBatch && Allowed(s, Ep, ch) && Step(s, Ep, ch) == Ok(s')
    ensures BatchStep(s, ch) == Ok(s') && (!Pending(s) ==> s'.ep.pc == EWait)
    ensures Pending(s) ==> s'.ep.evs == s.ep.evs && s'.ep.i == s.ep.i && !Between(s')
  {
    hide SslAlive, File;
  }

  lemma SameHandling(s: State, s': State, evs: seq<Event>)
    requires s'.ep == s.ep
    ensures forall i, removed :: Handling(s, evs, i, removed) ==> Handling(s', evs, i, removed)
  {
  }

  lemma StaysAt(s: State, evs: seq<Event>, i: nat, removed: bool)
    requires Between(s) || Handling(s, evs, i, removed)
    ensures !Between(s) ==> s.ep.evs == evs && s.ep.i == i
  {
  }

  /** From one wait to the next the thread dispatches the events reported, in order: all of them, or those up to and including the
      first that hung up or had no data. */
  lemma BatchDispatched(tr: seq<State>, acts: seq<Act>)
    requires Trace(tr, acts) && acts != [] && tr[0].ep.pc == EWait && acts[0].t == Ep
    requires tr[|acts|].ep.pc == EWait && forall k :: 0 < k < |acts| ==> tr[k].ep.pc != EWait
    ensures Ended(acts[0].ch.evs, Dispatches(tr, acts, |acts|))
  {
    hide Takes, Reachable, Walking, Ended;
    WalkingAt(tr, acts, |acts|);
    Started(tr, acts);
  }

  lemma Started(tr: seq<State>, acts: seq<Act>)
    requires Trace(tr, acts) && acts != [] && tr[0].ep.pc == EWait && acts[0].t == Ep
    ensures tr[1].ep.pc == EBatch && tr[1].ep.evs == acts[0].ch.evs && tr[1].ep.i == 0
  {
    hide Reachable;
    assert Takes(tr[0], acts[0], tr[0 + 1]);
  }

  lemma {:induction false} WalkingAt(tr: seq<State>, acts: seq<Act>, k: nat)
    requires Trace(tr, acts) && 0 < k <= |acts| && tr[0].ep.pc == EWait && acts[0].t == Ep && forall m :: 0 < m < k ==> tr[m].ep.pc != EWait
    ensures var evs, dispatched := acts[0].ch.evs, Dispatches(tr, acts, k);
            if tr[k].ep.pc == EWait then Ended(evs, dispatched) else Walking(tr[k], evs, dispatched)
    decreases k
  {
    hide Takes, Reachable, Handling, Ended;
    if k == 1 {
      Started(tr, acts);
      assert Dispatches(tr, acts, 0) == [];
    } else {
      hide Walking;
      WalkingAt(tr, acts, k - 1);
      TraceReachable(tr, acts, k - 1);
      assert Takes(tr[k - 1], acts[k - 1], tr[k - 1 + 1]);
      Walks(tr[k - 1], acts[k - 1], tr[k], acts[0].ch.evs, Dispatches(tr, acts, k - 1));
    }
  }

  // ----- the handling comes to an end

  /** How many steps the thread has before it at most until it is between events. */
  function StepsLeft(pc: EpPc): nat {
    match pc
    case EWait | EBatch => 0
    case EWantCli => 3
    case EWrite => 2
    case EUnCli => 1
    case EWantList => 14
    case EWantCls => 13
    case EWantTot => 12
    case EDelTot => 11
    case EDelCls => 10
    case EDelEp => 9
    case EPut => 8
    case EUnTot => 7
    case EUnCls => 6
    case EUnList => 5
    case EShut => 4
    case EClose => 3
    case EDestroy => 2
    case EFree => 1
  }

  lemma Shortens(s: State, ch: Choice, s': State)
    requires !Between(s) && Allowed(s, Ep, ch) && Step(s, Ep, ch) == Ok(s')
    ensures StepsLeft(s'.ep.pc) < StepsLeft(s.ep.pc)
  {
    hide BatchStep, UnlinkStep, ReleaseStep;
    match s.ep.pc
    case EWantCli | EWrite | EUnCli => BatchShortens(s, ch, s');
    case EWantList | EWantCls | EWantTot | EDelTot | EDelCls | EDelEp | EPut => UnlinkShortens(s, s');
    case _ => ReleaseShortens(s, s');
  }

  lemma BatchShortens(s: State, ch: Choice, s': State)
    requires s.ep.pc in {EWantCli, EWrite, EUnCli} && BatchStep(s, ch) == Ok(s')
    ensures StepsLeft(s'.ep.pc) < StepsLeft(s.ep.pc)
  {
    hide LogAlive, LogFile;
  }

  lemma UnlinkShortens(s: State, s': State)
    requires s.ep.pc in {EWantList, EWantCls, EWantTot, EDelTot, EDelCls, EDelEp, EPut} && UnlinkStep(s) == Ok(s')
    ensures StepsLeft(s'.ep.pc) < StepsLeft(s.ep.pc)
  {
    hide AllAlive, Remove;
  }

  lemma ReleaseShortens(s: State, s': State)
    requires s.ep.pc in {EUnTot, EUnCls, EUnList, EShut, EClose, EDestroy, EFree} && ReleaseStep(s) == Ok(s')
    ensures StepsLeft(s'.ep.pc) < StepsLeft(s.ep.pc)
  {
    hide SockOpen, SslAlive;
  }

  /** While the other threads hold no lock the thread alone comes to its end with the event. */
  lemma {:induction false} Finishes(s: State) returns (tr: seq<State>, acts: seq<Act>)
    requires Reachable(s) && EpAlone(s)
    ensures Trace(tr, acts) && tr[0] == s && Between(tr[|acts|]) && forall k :: 0 <= k < |acts| ==> !Between(tr[k])
    decreases StepsLeft(s.ep.pc)
  {
    hide Reachable, Step, Allowed, HoldsLock;
    if Between(s) {
      tr, acts := [s], [];
    } else {
      var ch := Choice(true, 0, NO_ADDRESS, NO_RECORD, [], 0, [], ListClass);
      Permitted(s, ch);
      CanStepAlone(s, Ep, ch);
      var next := Step(s, Ep, ch).next;
      Reaches(s, Ep, ch, next);
      Others(s, Ep, ch, next);
      StillAlone(s, next);
      Shortens(s, ch, next);
      tr, acts := Finishes(next);
      tr, acts := Prepended(s, Act(Ep, ch), tr, acts);
    }
  }

  lemma Permitted(s: State, ch: Choice)
    requires !Between(s)
    ensures Allowed(s, Ep, ch)
  {
  }

  lemma StillAlone(s: State, s': State)
    requires EpAlone(s) && s'.reg == s.reg && s'.op == s.op
    ensures EpAlone(s')
  {
  }

  /** So every pending event can be handled, whatever its read returns. */
  lemma CanBeHandled(s: State, ch: Choice) returns (tr: seq<State>, acts: seq<Act>)
    requires Reachable(s) && EpAlone(s) && Pending(s) && Allowed(s, Ep, ch)
    ensures HandlesEvent(tr, acts) && tr[0] == s && acts[0] == Act(Ep, ch)
  {
    hide Reachable, Step, Allowed, HoldsLock;
    CanStepAlone(s, Ep, ch);
    var next := Step(s, Ep, ch).next;
    Reaches(s, Ep, ch, next);
    Others(s, Ep, ch, next);
    StillAlone(s, next);
    tr, acts := Finishes(next);
    tr, acts := Prepended(s, Act(Ep, ch), tr, acts);
  }
}
