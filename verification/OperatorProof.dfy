/** Every step of the operator thread keeps the memory part of the invariant. */
module OperatorProof {
  import opened Sequences
  import opened Registration
  import opened LogPath
  import opened Registry
  import opened RegistryInvariant
  import opened RegistryLemmas

  /** The thread touches no memory but the log files. */
  lemma OpMoves(m: Memory, rv: RegView, ev: EpView, o: OpState, o': OpState, files: map<FileName, Log>)
    requires MemInv(m, rv, ev, o)
    requires CommandInv(o') && Selecting(m.tothead, m.clients, o')
    requires BetweenClasses(Names(m.classes), m.classhead, o') && InsideClass(m.classes, Names(m.classes), m.classhead, o')
    ensures MemInv(m.(files := files), rv, ev, o')
  {
    hide NoDup, Partition, ClassesCounted, NamesDistinct, ClientsClassed, RegClass, RegClient, EpPointers, ListInv, CountInv,
         Table, BatchInv, UnwatchedInv, CommandInv, BetweenClasses, InsideClass, Selecting, KlassOf, Names, SockOf, SslOf;
  }

  // ----- the traversal

  lemma EnteredNext(cmd: Command, classhead: seq<ClassId>, i: nat, names: map<ClassId, Text>)
    requires i < |classhead|
    ensures Entered(cmd, classhead[..i + 1], names) ==
            Entered(cmd, classhead[..i], names) + (if classhead[i] in names && Visits(cmd, names[classhead[i]]) then [classhead[i]] else [])
  {
    assert classhead[..i + 1][..i] == classhead[..i];
  }

  lemma TakenAppend(taken: seq<(ClassId, seq<ClientId>)>, k: ClassId, list: seq<ClientId>)
    ensures Keys(taken + [(k, list)]) == Keys(taken) + [k]
    ensures Flatten(Snapshots(taken + [(k, list)])) == Flatten(Snapshots(taken)) + list
  {
    assert Snapshots(taken + [(k, list)]) == Snapshots(taken) + [list];
    FlattenAppend(Snapshots(taken), list);
  }

  /** Starting, and moving past a class the command does not enter. */
  lemma Skip(classes: map<ClassId, Class>, classhead: seq<ClassId>, o: OpState, o': OpState)
    requires BetweenClasses(Names(classes), classhead, o) && InsideClass(classes, Names(classes), classhead, o)
    requires (o.pc == OWantList && o' == o.(pc := OClasses, i := 0, taken := [], done := [], sent := []))
             || (o.pc == OClasses && o.i < |classhead| && classhead[o.i] in classes && !Visits(o.cmd, classes[classhead[o.i]].name)
                 && o' == o.(i := o.i + 1))
             || (o.pc == OClasses && o.i == |classhead| && o' == o.(pc := OUnList))
    ensures BetweenClasses(Names(classes), classhead, o') && InsideClass(classes, Names(classes), classhead, o')
  {
    if o.pc == OClasses && o.i < |classhead| {
      EnteredNext(o.cmd, classhead, o.i, Names(classes));
    }
    assert classhead[..|classhead|] == classhead;
  }

  lemma Enter(classes: map<ClassId, Class>, classhead: seq<ClassId>, o: OpState, o': OpState)
    requires BetweenClasses(Names(classes), classhead, o) && InsideClass(classes, Names(classes), classhead, o)
    requires o.pc == OWantCls && o.k in classes
    requires o' == o.(pc := OClients, j := 0, taken := o.taken + [(o.k, classes[o.k].clilist)])
    ensures BetweenClasses(Names(classes), classhead, o') && InsideClass(classes, Names(classes), classhead, o')
  {
    EnteredNext(o.cmd, classhead, o.i, Names(classes));
    TakenAppend(o.taken, o.k, classes[o.k].clilist);
    assert o'.taken[..|o'.taken| - 1] == o.taken;
  }

  /** One more client of the class has been attempted. */
  lemma Advance(classes: map<ClassId, Class>, classhead: seq<ClassId>, o: OpState, o': OpState)
    requires BetweenClasses(Names(classes), classhead, o) && InsideClass(classes, Names(classes), classhead, o)
    requires InClass(o) && o.j < |classes[o.k].clilist|
    requires o' == o.(pc := OClients, j := o.j + 1, done := o.done + [classes[o.k].clilist[o.j]], sent := o'.sent)
    ensures BetweenClasses(Names(classes), classhead, o') && InsideClass(classes, Names(classes), classhead, o')
  {
    var list := classes[o.k].clilist;
    assert list[..o.j + 1] == list[..o.j] + [list[o.j]];
  }

  lemma Exit(classes: map<ClassId, Class>, classhead: seq<ClassId>, o: OpState, o': OpState)
    requires BetweenClasses(Names(classes), classhead, o) && InsideClass(classes, Names(classes), classhead, o)
    requires o.pc == OUnCls && o' == o.(pc := OClasses, i := o.i + 1)
    ensures BetweenClasses(Names(classes), classhead, o') && InsideClass(classes, Names(classes), classhead, o')
  {
    var taken, list := o.taken[..|o.taken| - 1], classes[o.k].clilist;
    TakenAppend(taken, o.k, list);
    assert o.taken == taken + [(o.k, list)];
    assert list[..o.j] == list;
  }

  /** Moving between the points inside a class or the points before entering one. */
  lemma Walk(classes: map<ClassId, Class>, classhead: seq<ClassId>, o: OpState, o': OpState)
    requires BetweenClasses(Names(classes), classhead, o) && InsideClass(classes, Names(classes), classhead, o)
    requires o'.cmd == o.cmd && o'.i == o.i && o'.j == o.j && o'.taken == o.taken && o'.done == o.done
    requires (o.pc == OClasses && o'.pc == OWantCls && o.i < |classhead| && o'.k == classhead[o.i] && o'.k in classes
              && Visits(o.cmd, classes[o'.k].name))
             || (o.pc == OClients && o'.pc == OWantCli && o'.k == o.k && o.j < |classes[o.k].clilist| && o'.c == classes[o.k].clilist[o.j])
             || (o.pc == OClients && o'.pc == OUnCls && o'.k == o.k && o.j >= |classes[o.k].clilist|)
             || (o.pc in {OWantCli, ORecord, OUnCli} && o'.pc in {ORecord, OUnCli, OSend} && o'.k == o.k && o'.c == o.c)
    ensures BetweenClasses(Names(classes), classhead, o') && InsideClass(classes, Names(classes), classhead, o')
  {
  }

  // ----- the steps

  lemma TraverseFrame(s: State, ch: Choice, s': State)
    requires s.op.pc !in {OWantTot, OScan, OUnTot} && TraverseStep(s, ch) == Ok(s')
    ensures s'.mem == s.mem.(files := s'.mem.files) && s'.reg == s.reg && s'.ep == s.ep && s'.op.pc !in {OScan, OUnTot}
    ensures s.op.pc !in {OWantCli, ORecord} ==> s'.mem == s.mem && s'.op.pc != ORecord
  {
    hide TraverseStep;
    if s.op.pc in {OWantCli, ORecord, OUnCli, OSend} {
      ClientFrame(s, ch, s');
    } else {
      ClassFrame(s, ch, s');
    }
  }

  lemma ClassFrame(s: State, ch: Choice, s': State)
    requires s.op.pc !in {OWantTot, OScan, OUnTot, OWantCli, ORecord, OUnCli, OSend} && TraverseStep(s, ch) == Ok(s')
    ensures s'.mem == s.mem && s'.reg == s.reg && s'.ep == s.ep && s'.op.pc !in {OScan, OUnTot, ORecord}
  {
    hide File, LogFile, RecordText, SslAlive, LogAlive, Visits;
  }

  lemma ClientFrame(s: State, ch: Choice, s': State)
    requires s.op.pc in {OWantCli, ORecord, OUnCli, OSend} && TraverseStep(s, ch) == Ok(s')
    ensures s'.mem == s.mem.(files := s'.mem.files) && s'.reg == s.reg && s'.ep == s.ep && s'.op.pc !in {OScan, OUnTot}
    ensures s.op.pc in {OUnCli, OSend} ==> s'.mem == s.mem && s'.op.pc != ORecord
  {
    hide File, LogFile, RecordText, SslAlive, LogAlive, Visits;
  }

  /** A step of the traversal. */
  lemma TraverseMem(s: State, ch: Choice, s': State)
    requires Inv(s) && s.op.pc !in {OWantTot, OScan, OUnTot} && TraverseStep(s, ch) == Ok(s')
    ensures MemInv(s'.mem, RegV(s'.reg), EpV(s'.ep), s'.op)
  {
    hide MemInv, HoldInv, LiveLocks, LockReady, TraverseStep, CommandInv, BetweenClasses, InsideClass, Selecting;
    var m, rv, ev, o, o' := s.mem, RegV(s.reg), EpV(s.ep), s.op, s'.op;
    TraverseFrame(s, ch, s');
    OpPart(m, rv, ev, o);
    NotSelecting(m.tothead, m.clients, o');
    TraverseOp(s, ch, s');
    OpMoves(m, rv, ev, o, o', s'.mem.files);
  }

  /** What the invariant says about the operator. */
  lemma OpPart(m: Memory, rv: RegView, ev: EpView, o: OpState)
    requires MemInv(m, rv, ev, o)
    ensures CommandInv(o) && Selecting(m.tothead, m.clients, o)
    ensures BetweenClasses(Names(m.classes), m.classhead, o) && InsideClass(m.classes, Names(m.classes), m.classhead, o)
  {
    hide NoDup, Partition, ClassesCounted, NamesDistinct, ClientsClassed, RegClass, RegClient, EpPointers, ListInv, CountInv,
         Table, BatchInv, UnwatchedInv, CommandInv, BetweenClasses, InsideClass, Selecting, KlassOf, Names, SockOf, SslOf;
  }

  lemma NotSelecting(tothead: seq<ClientId>, clients: map<ClientId, Client>, o: OpState)
    requires o.pc !in {OScan, OUnTot}
    ensures Selecting(tothead, clients, o)
  {
  }

  lemma TraverseOp(s: State, ch: Choice, s': State)
    requires s.op.pc !in {OWantTot, OScan, OUnTot} && TraverseStep(s, ch) == Ok(s')
    requires var m, o := s.mem, s.op;
             CommandInv(o) && BetweenClasses(Names(m.classes), m.classhead, o) && InsideClass(m.classes, Names(m.classes), m.classhead, o)
    ensures var m, o := s.mem, s'.op;
            CommandInv(o) && BetweenClasses(Names(m.classes), m.classhead, o) && InsideClass(m.classes, Names(m.classes), m.classhead, o)
  {
    hide BetweenClasses, InsideClass, Names, TraverseStep, CommandInv;
    match s.op.pc
    case OIdle | OWantList | OClasses | OWantCls | OUnList => ClassesOp(s, ch, s');
    case _ => ClientsOp(s, ch, s');
  }

  lemma ClassesOp(s: State, ch: Choice, s': State)
    requires s.op.pc in {OIdle, OWantList, OClasses, OWantCls, OUnList} && TraverseStep(s, ch) == Ok(s')
    requires var m, o := s.mem, s.op;
             CommandInv(o) && BetweenClasses(Names(m.classes), m.classhead, o) && InsideClass(m.classes, Names(m.classes), m.classhead, o)
    ensures var m, o := s.mem, s'.op;
            CommandInv(o) && BetweenClasses(Names(m.classes), m.classhead, o) && InsideClass(m.classes, Names(m.classes), m.classhead, o)
  {
    hide BetweenClasses, InsideClass, Names;
    var m, o, o' := s.mem, s.op, s'.op;
    Cursors(m.classes, Names(m.classes), m.classhead, o);
    match o.pc
    case OIdle | OUnList => NoTraversal(m.classes, Names(m.classes), m.classhead, o');
    case OWantList => Skip(m.classes, m.classhead, o, o');
    case OClasses =>
      if o'.pc == OWantCls {
        Walk(m.classes, m.classhead, o, o');
      } else {
        Skip(m.classes, m.classhead, o, o');
      }
    case OWantCls => Enter(m.classes, m.classhead, o, o');
  }

  lemma ClientsOp(s: State, ch: Choice, s': State)
    requires InClass(s.op) && TraverseStep(s, ch) == Ok(s')
    requires var m, o := s.mem, s.op;
             CommandInv(o) && BetweenClasses(Names(m.classes), m.classhead, o) && InsideClass(m.classes, Names(m.classes), m.classhead, o)
    ensures var m, o := s.mem, s'.op;
            CommandInv(o) && BetweenClasses(Names(m.classes), m.classhead, o) && InsideClass(m.classes, Names(m.classes), m.classhead, o)
  {
    hide BetweenClasses, InsideClass, Names, TraverseStep, CommandInv;
    if s.op.pc in {OClients, OUnCls} {
      ClassOp(s, ch, s');
    } else {
      ClientOp(s, ch, s');
    }
  }

  lemma ClassOp(s: State, ch: Choice, s': State)
    requires s.op.pc in {OClients, OUnCls} && TraverseStep(s, ch) == Ok(s')
    requires var m, o := s.mem, s.op;
             CommandInv(o) && BetweenClasses(Names(m.classes), m.classhead, o) && InsideClass(m.classes, Names(m.classes), m.classhead, o)
    ensures var m, o := s.mem, s'.op;
            CommandInv(o) && BetweenClasses(Names(m.classes), m.classhead, o) && InsideClass(m.classes, Names(m.classes), m.classhead, o)
  {
    hide BetweenClasses, InsideClass, Names;
    var m, o, o' := s.mem, s.op, s'.op;
    Cursors(m.classes, Names(m.classes), m.classhead, o);
    if o.pc == OUnCls {
      Exit(m.classes, m.classhead, o, o');
    } else if o'.pc == OClients {
      Advance(m.classes, m.classhead, o, o');
    } else {
      Walk(m.classes, m.classhead, o, o');
    }
  }

  lemma ClientOp(s: State, ch: Choice, s': State)
    requires s.op.pc in {OWantCli, ORecord, OUnCli, OSend} && TraverseStep(s, ch) == Ok(s')
    requires var m, o := s.mem, s.op;
             CommandInv(o) && BetweenClasses(Names(m.classes), m.classhead, o) && InsideClass(m.classes, Names(m.classes), m.classhead, o)
    ensures var m, o := s.mem, s'.op;
            CommandInv(o) && BetweenClasses(Names(m.classes), m.classhead, o) && InsideClass(m.classes, Names(m.classes), m.classhead, o)
  {
    hide BetweenClasses, InsideClass, Names, LogFile, RecordText, Extended;
    var m, o, o' := s.mem, s.op, s'.op;
    Cursors(m.classes, Names(m.classes), m.classhead, o);
    if o.pc == OSend {
      Advance(m.classes, m.classhead, o, o');
    } else {
      Walk(m.classes, m.classhead, o, o');
    }
  }

  lemma Cursors(classes: map<ClassId, Class>, names: map<ClassId, Text>, classhead: seq<ClassId>, o: OpState)
    requires BetweenClasses(names, classhead, o) && InsideClass(classes, names, classhead, o)
    ensures o.pc == OClasses ==> o.i <= |classhead|
    ensures o.pc == OWantCls || InClass(o) ==> o.k in names
    ensures InClass(o) ==> o.k in classes && o.k in classhead && o.j <= |classes[o.k].clilist|
    ensures o.pc in {OWantCli, ORecord, OUnCli, OSend} ==> o.j < |classes[o.k].clilist| && o.c == classes[o.k].clilist[o.j]
  {
  }

  /** A step of the selection by MAC. */
  lemma SelectMem(s: State, s': State)
    requires Inv(s) && s.op.pc in {OWantTot, OScan, OUnTot} && SelectStep(s) == Ok(s')
    ensures MemInv(s'.mem, RegV(s'.reg), EpV(s'.ep), s'.op)
  {
    hide MemInv, HoldInv, LiveLocks, LockReady, CommandInv, BetweenClasses, InsideClass, Selecting;
    var m, rv, ev, o, o' := s.mem, RegV(s.reg), EpV(s.ep), s.op, s'.op;
    OpPart(m, rv, ev, o);
    NoTraversal(m.classes, Names(m.classes), m.classhead, o');
    SelectOp(s, s');
    OpMoves(m, rv, ev, o, o', m.files);
  }

  lemma SelectOp(s: State, s': State)
    requires s.op.pc in {OWantTot, OScan, OUnTot} && SelectStep(s) == Ok(s')
    requires CommandInv(s.op) && Selecting(s.mem.tothead, s.mem.clients, s.op)
    ensures CommandInv(s'.op) && Selecting(s.mem.tothead, s.mem.clients, s'.op)
  {
  }
}
