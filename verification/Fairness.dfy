/** Endless runs: no thread that goes on stays inside its locks for ever, and under fair scheduling none waits for ever. */
module Fairness {
  import opened Wrappers
  import opened Registry
  import opened RegistryInvariant
  import opened SafetyProof
  import opened LockProof
  import opened ServerTheorems
  import opened Progress
  import opened Arrivals
  import opened Scenarios

  ghost predicate Moved(s: State, t: Thread, s': State) {
    exists ch: Choice :: Allowed(s, t, ch) && Step(s, t, ch) == Ok(s')
  }

  /** A run without end, and which thread takes each step. */
  ghost predicate Endless(f: nat -> State, w: nat -> Thread) {
    f(0) == INIT && forall i: nat :: Moved(f(i), w(i), f(i + 1))
  }

  lemma {:induction false} Visited(f: nat -> State, w: nat -> Thread, i: nat)
    requires Endless(f, w)
    ensures Reachable(f(i))
  {
    hide Reachable, Step, Allowed, INIT;
    if i == 0 {
      StartReachable();
    } else {
      Visited(f, w, i - 1);
      assert Moved(f(i - 1), w(i - 1), f(i - 1 + 1));
      var ch: Choice :| Allowed(f(i - 1), w(i - 1), ch) && Step(f(i - 1), w(i - 1), ch) == Ok(f(i));
      Reaches(f(i - 1), w(i - 1), ch, f(i));
    }
  }

  /** The thread takes a step at `i` or later. */
  ghost predicate StepsAgain(w: nat -> Thread, t: Thread, i: nat) {
    exists j: nat :: j >= i && w(j) == t
  }

  lemma {:induction false} FirstStep(w: nat -> Thread, t: Thread, i: nat, j: nat) returns (k: nat)
    requires i <= j && w(j) == t
    ensures i <= k <= j && w(k) == t && forall m: nat :: i <= m < k ==> w(m) != t
    decreases j - i
  {
    if w(i) == t {
      k := i;
    } else {
      k := FirstStep(w, t, i + 1, j);
    }
  }

  // ----- between its steps a thread stays where it is

  /** Nothing a thread holds, wants or has to do changes. */
  ghost predicate Idle(s: State, s': State, t: Thread) {
    && HoldingsOf(s').Of(t) == HoldingsOf(s).Of(t) && Wants(s', t) == Wants(s, t)
    && (HoldsLock(s, t) ==> WorkOf(s', t) == WorkOf(s, t))
  }

  lemma OthersIdle(s: State, u: Thread, ch: Choice, s': State, t: Thread)
    requires Reachable(s) && u != t && Allowed(s, u, ch) && Step(s, u, ch) == Ok(s')
    ensures Idle(s, s', t)
  {
    hide Reachable, Inv, Allowed, Step, WorkOf, HoldsLock;
    if HoldsLock(s, t) {
      OtherStepNeutral(s, t, u, ch, s');
    }
    Others(s, u, ch, s');
    ReachableInv(s);
    AtHandAlive(s);
    RecordStays(s, u, ch, s');
  }

  lemma AtHandAlive(s: State)
    requires Inv(s)
    ensures s.ep.pc == EWantCls ==> s.ep.c in s.mem.tothead
  {
    hide MemInv, HoldInv, LiveLocks, LockReady;
    ReachEvent(s.mem, RegV(s.reg), EpV(s.ep), s.op);
  }

  lemma {:induction false} StaysIdle(f: nat -> State, w: nat -> Thread, t: Thread, i: nat, k: nat)
    requires Endless(f, w) && i <= k && forall m: nat :: i <= m < k ==> w(m) != t
    ensures Idle(f(i), f(k), t)
    decreases k - i
  {
    hide Reachable, Step, Allowed, INIT, WorkOf, Wants, HoldsLock;
    if i < k {
      StaysIdle(f, w, t, i, k - 1);
      Visited(f, w, k - 1);
      assert Moved(f(k - 1), w(k - 1), f(k - 1 + 1));
      var ch: Choice :| Allowed(f(k - 1), w(k - 1), ch) && Step(f(k - 1), w(k - 1), ch) == Ok(f(k));
      OthersIdle(f(k - 1), w(k - 1), ch, f(k), t);
      SameHoldings(f(i), f(k - 1), t);
    }
  }

  lemma SameHoldings(s: State, s': State, t: Thread)
    requires HoldingsOf(s').Of(t) == HoldingsOf(s).Of(t)
    ensures HoldsLock(s', t) <==> HoldsLock(s, t)
    ensures forall l :: Has(s', t, l) <==> Has(s, t, l)
  {
  }

  lemma OwnStep(f: nat -> State, w: nat -> Thread, k: nat)
    requires Endless(f, w) && HoldsLock(f(k), w(k))
    ensures HoldsLock(f(k + 1), w(k)) ==> Less(WorkOf(f(k + 1), w(k)), WorkOf(f(k), w(k)))
  {
    hide Reachable, Step, Allowed, INIT, WorkOf, HoldsLock, Less;
    Visited(f, w, k);
    assert Moved(f(k), w(k), f(k + 1));
    var ch: Choice :| Allowed(f(k), w(k), ch) && Step(f(k), w(k), ch) == Ok(f(k + 1));
    OwnStepProgress(f(k), w(k), ch, f(k + 1));
  }

  /** The next step of a thread with a lock held brings it nearer to holding none. */
  lemma NextStep(f: nat -> State, w: nat -> Thread, t: Thread, i: nat) returns (k: nat)
    requires Endless(f, w) && HoldsLock(f(i), t) && StepsAgain(w, t, i)
    ensures k >= i && w(k) == t && Idle(f(i), f(k), t) && forall m: nat :: i <= m < k ==> w(m) != t
    ensures HoldsLock(f(k + 1), t) ==> Less(WorkOf(f(k + 1), t), WorkOf(f(i), t))
  {
    hide Endless, WorkOf, Wants, HoldsLock, Less, Has;
    var n: nat :| n >= i && w(n) == t;
    k := FirstStep(w, t, i, n);
    StaysIdle(f, w, t, i, k);
    SameHoldings(f(i), f(k), t);
    OwnStep(f, w, k);
  }

  /** A thread that always steps again while it holds a lock comes to hold none, again and again. */
  lemma {:induction false} LetsGo(f: nat -> State, w: nat -> Thread, t: Thread, i: nat) returns (j: nat)
    requires Endless(f, w) && forall k: nat :: k >= i && HoldsLock(f(k), t) ==> StepsAgain(w, t, k)
    ensures j >= i && !HoldsLock(f(j), t)
    decreases WorkOf(f(i), t).outer, WorkOf(f(i), t).phase, WorkOf(f(i), t).inner, WorkOf(f(i), t).place, WorkOf(f(i), t).chars
  {
    hide Endless, WorkOf, Wants, HoldsLock, StepsAgain, Has;
    if !HoldsLock(f(i), t) {
      j := i;
    } else {
      var k := NextStep(f, w, t, i);
      if HoldsLock(f(k + 1), t) {
        j := LetsGo(f, w, t, k + 1);
      } else {
        j := k + 1;
      }
    }
  }

  /** So no thread that takes steps for ever stays inside its locks for ever. */
  lemma NotInsideForEver(f: nat -> State, w: nat -> Thread, t: Thread, i: nat) returns (j: nat)
    requires Endless(f, w) && forall k: nat :: StepsAgain(w, t, k)
    ensures j >= i && !HoldsLock(f(j), t)
  {
    hide Endless, HoldsLock, StepsAgain;
    j := LetsGo(f, w, t, i);
  }

  // ----- fairness

  /** The thread is inside its locks or at one. */
  predicate Busy(s: State, t: Thread) {
    HoldsLock(s, t) || Wants(s, t).Some?
  }

  /** ... and nothing stops it. */
  predicate Ready(s: State, t: Thread) {
    Busy(s, t) && !IsBlocked(s, t)
  }

  ghost predicate ReadyAgain(f: nat -> State, t: Thread, i: nat) {
    exists k: nat :: k >= i && Ready(f(k), t)
  }

  /** A thread that is ready again and again takes a step: whoever can have a mutex infinitely often gets it once. Nothing is asked
      for a thread outside all locks, which may wait for its input for ever. */
  ghost predicate Fair(f: nat -> State, w: nat -> Thread) {
    forall t: Thread, i: nat :: (forall j: nat :: j >= i ==> ReadyAgain(f, t, j)) ==> StepsAgain(w, t, i)
  }

  function Height(wanted: Option<LockId>): nat {
    match wanted
    case None => 0
    case Some(l) => 3 - Rank(l)
  }

  /** Whoever has given a lock up leaves it free for the one that waits. */
  lemma Freed(s: State, u: Thread, ch: Choice, s': State, t: Thread, l: LockId)
    requires Reachable(s) && Reachable(s') && u != t && Allowed(s, u, ch) && Step(s, u, ch) == Ok(s')
    requires Has(s, u, l) && !Has(s', u, l) && Wants(s', t) == Some(l)
    ensures !IsBlocked(s', t)
  {
    hide Reachable, MemInv, HoldInv, LiveLocks, LockReady, Allowed, Step, Wants;
    ReachableInv(s);
    ReachableInv(s');
    if IsBlocked(s', t) {
      var v := HolderOf(s', t);
      if v == t {
        LockOrder(s', t, l, l);
      }
      OthersIdle(s, u, ch, s', v);
      SameHoldings(s, s', v);
      Exclusion(s, u, l);
      assert false;
    }
  }

  lemma HasHolds(s: State, t: Thread, l: LockId)
    requires Has(s, t, l)
    ensures HoldsLock(s, t)
    ensures Height(Wants(s, t)) < Height(Some(l))
  {
    match Wants(s, t)
    case None =>
    case Some(l') => LockOrder(s, t, l, l');
  }

  /** In a fair run a thread inside its locks, or at one, takes a step. */
  lemma {:induction false} Steps(f: nat -> State, w: nat -> Thread, t: Thread, i: nat)
    requires Endless(f, w) && Fair(f, w) && Busy(f(i), t)
    ensures StepsAgain(w, t, i)
    decreases Height(Wants(f(i), t)), 2, 0, 0, 0, 0, 0
  {
    hide Endless, Busy, Wants, WorkOf, Has, ReadyAgain;
    if !StepsAgain(w, t, i) {
      forall j: nat | j >= i
        ensures ReadyAgain(f, t, j)
      {
        StaysIdle(f, w, t, i, j);
        StaysBusy(f(i), f(j), t);
        BecomesReady(f, w, t, j);
      }
      assert false;
    }
  }

  lemma StaysBusy(s: State, s': State, t: Thread)
    requires Idle(s, s', t) && Busy(s, t)
    ensures Busy(s', t)
  {
  }

  /** A thread that takes no more steps is not blocked for ever: whom it is blocked by gives way. */
  lemma {:induction false} BecomesReady(f: nat -> State, w: nat -> Thread, t: Thread, b: nat)
    requires Endless(f, w) && Fair(f, w) && Busy(f(b), t) && !StepsAgain(w, t, b)
    ensures ReadyAgain(f, t, b)
    decreases Height(Wants(f(b), t)), 1, 0, 0, 0, 0, 0
  {
    hide Endless, Busy, Wants, WorkOf, Has, Fair, Inv;
    var n: nat := b;
    if IsBlocked(f(b), t) {
      Visited(f, w, b);
      ReachableInv(f(b));
      var l := Wants(f(b), t).value;
      var u := HolderOf(f(b), t);
      NotItself(f(b), t, u, l);
      n := GivesUp(f, w, t, u, l, b);
      StaysIdle(f, w, t, b, n);
      StaysBusy(f(b), f(n), t);
    }
    assert Ready(f(n), t);
  }

  lemma NotItself(s: State, t: Thread, u: Thread, l: LockId)
    requires Wants(s, t) == Some(l) && Has(s, u, l)
    ensures u != t
  {
    if u == t {
      LockOrder(s, t, l, l);
    }
  }

  lemma {:induction false} GivesUp(f: nat -> State, w: nat -> Thread, t: Thread, u: Thread, l: LockId, b: nat) returns (n: nat)
    requires Endless(f, w) && Fair(f, w) && u != t && Wants(f(b), t) == Some(l) && Has(f(b), u, l) && !StepsAgain(w, t, b)
    ensures n >= b && !IsBlocked(f(n), t)
    decreases Height(Some(l)), 0, WorkOf(f(b), u).outer, WorkOf(f(b), u).phase, WorkOf(f(b), u).inner, WorkOf(f(b), u).place,
              WorkOf(f(b), u).chars
  {
    hide Endless, HoldsLock, Wants, IsBlocked, WorkOf, Has, Fair;
    HasHolds(f(b), u, l);
    Steps(f, w, u, b);
    var k := NextStep(f, w, u, b);
    SameHoldings(f(b), f(k), u);
    StaysIdle(f, w, t, b, k + 1);
    if Has(f(k + 1), u, l) {
      HasHolds(f(k + 1), u, l);
      n := GivesUp(f, w, t, u, l, k + 1);
    } else {
      n := k + 1;
      FreedAt(f, w, u, k, t, l);
    }
  }

  lemma FreedAt(f: nat -> State, w: nat -> Thread, u: Thread, k: nat, t: Thread, l: LockId)
    requires Endless(f, w) && w(k) == u && u != t && Has(f(k), u, l) && !Has(f(k + 1), u, l) && Wants(f(k + 1), t) == Some(l)
    ensures !IsBlocked(f(k + 1), t)
  {
    hide Reachable, Step, Allowed, INIT, Wants, Has, IsBlocked;
    Visited(f, w, k);
    Visited(f, w, k + 1);
    assert Moved(f(k), w(k), f(k + 1));
    var ch: Choice :| Allowed(f(k), w(k), ch) && Step(f(k), w(k), ch) == Ok(f(k + 1));
    Freed(f(k), u, ch, f(k + 1), t, l);
  }

  /** So in a fair run every thread that waits for a lock gets it ... */
  lemma NoStarvation(f: nat -> State, w: nat -> Thread, t: Thread, i: nat, l: LockId) returns (j: nat)
    requires Endless(f, w) && Fair(f, w) && Wants(f(i), t) == Some(l)
    ensures j >= i && Wants(f(j), t) == Some(l) && w(j) == t && Has(f(j + 1), t, l)
  {
    hide Endless, Fair, HoldsLock, Wants, Has;
    Steps(f, w, t, i);
    var n: nat :| n >= i && w(n) == t;
    j := FirstStep(w, t, i, n);
    StaysIdle(f, w, t, i, j);
    Takes(f, w, j, l);
  }

  lemma Takes(f: nat -> State, w: nat -> Thread, k: nat, l: LockId)
    requires Endless(f, w) && Wants(f(k), w(k)) == Some(l)
    ensures Has(f(k + 1), w(k), l)
  {
    hide Reachable, Step, Allowed, INIT, Wants, Has;
    assert Moved(f(k), w(k), f(k + 1));
    var ch: Choice :| Allowed(f(k), w(k), ch) && Step(f(k), w(k), ch) == Ok(f(k + 1));
    Visited(f, w, k);
    ReachableInv(f(k));
    Acquires(f(k), w(k), ch, f(k + 1), l);
  }

  lemma Acquires(s: State, t: Thread, ch: Choice, s': State, l: LockId)
    requires Allowed(s, t, ch) && Step(s, t, ch) == Ok(s') && Wants(s, t) == Some(l)
    ensures Has(s', t, l)
  {
    hide LogAlive, LogFile, RecordText;
  }

  /** ... and every thread comes to hold none, again and again. */
  lemma FairLetsGo(f: nat -> State, w: nat -> Thread, t: Thread, i: nat) returns (j: nat)
    requires Endless(f, w) && Fair(f, w)
    ensures j >= i && !HoldsLock(f(j), t)
  {
    hide Endless, Fair, HoldsLock, Wants, StepsAgain;
    forall k: nat | k >= i && HoldsLock(f(k), t)
      ensures StepsAgain(w, t, k)
    {
      Steps(f, w, t, k);
    }
    j := LetsGo(f, w, t, i);
  }
}
