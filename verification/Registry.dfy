/**
 The server's shared state and the steps its three threads take on it: registration
 (`accept_newcli`, `newclass`), the epoll thread (`epoll_loop`, `epoll_recv`, `cli_free`)
 and the operator (`cmd_listclass`, `cmd_listcli`, `cmd_sendcmd`, `cmd_bashto`).

 One step is one lock operation, one unlock, or one access between them. Every access to an
 object checks that the object is alive and every release that it is held; a violation is the
 outcome `Fault`. The history fields that no branch reads are marked "history".
 */
module Registry {
  import opened Wrappers
  import opened Sequences
  import opened Registration
  import opened LogPath

  const PARA_NUM := 10

  type ClassId = nat
  type ClientId = nat
  type Fd = nat
  type SslId = nat

  datatype Thread = Reg | Ep | Op

  /** The four kinds of mutex. A mutex is in `State.locks` from its init to its destroy. */
  datatype LockId = ClassListLock | TotLock | ClassLock(k: ClassId) | CliLock(c: ClientId)
  datatype Mutex = Free | Held(holder: Thread)

  /** `struct cliclass_t`. */
  datatype Class = Class(name: Text, count: int, clilist: seq<ClientId>)

  /** The fields of `struct client_t` that are fixed before it is published; `who` is the name it registered (history). */
  datatype Client = Client(klass: ClassId, who: Text, mac: Mac, ip: Address, sock: Fd, ssl: SslId)

  /** One entry of a log, a chunk of output received or the record of a command sent: the whole of it, and what of it has
      been appended. */
  datatype Entry = Chunk(text: Text, data: Text) | CmdRecord(text: Text, data: Text)

  /** What the server has appended to a log file: the characters, the entries in the order in which they were begun and
      (history) the chunks received from the clients whose file it is. */
  datatype Log = Log(bytes: Text, entries: seq<Entry>, received: seq<Text>)

  datatype Event = Event(cli: ClientId, rdhup: bool, input: bool)

  datatype Command = ListClass | ListCli | Send(name: Text, text: Text) | BashTo(mac: Mac)

  datatype RegPc =
    | RIdle | RAccept | RSslNew | RSslAccept | RRead
    | RWantList | RScan | RNoMem | RWant | RGet | RDrop | RPublish | RUnList
    | RSetUp | RWantLink | RWantTot | RAddTot | RAddCls | RInsert | RUnTot | RUnCls
    | RClean4 | RClean3 | RClean2 | RClean1

  /** Registration thread: the new client, what it sent, the class found or built, the scan cursor. */
  datatype RegState = RegState(pc: RegPc, n: ClientId, who: Text, mac: Mac, k: ClassId, i: nat, isNew: bool)

  datatype EpPc =
    | EWait | EBatch | EWantCli | EWrite | EUnCli
    | EWantList | EWantCls | EWantTot | EDelTot | EDelCls | EDelEp | EPut
    | EUnTot | EUnCls | EUnList | EShut | EClose | EDestroy | EFree

  /** Epoll thread: the batch and its cursor, the client at hand, the log file it has open, the chunk
      still to write, whether the batch is abandoned after this removal, whether its class is to be freed;
      `k` and `pos` (its class and its former index in the list of all clients) are history. */
  datatype EpState = EpState(pc: EpPc, evs: seq<Event>, i: nat, c: ClientId, file: FileName, rest: Text,
                             brk: bool, dying: bool, k: ClassId, pos: nat)

  datatype OpPc =
    | OIdle | OWantList | OClasses | OWantCls | OClients | OWantCli | ORecord | OUnCli | OSend
    | OUnCls | OUnList | OWantTot | OScan | OUnTot

  /** Operator thread: the command, the two cursors, the class and client at hand, the log file it has
      open, what of the record is still to be appended and whether any of it was, the client selected for a
      shell; `taken` (each class list as it stood when its lock was taken), `done` (the clients attempted, in
      order) and `sent` (what was written to whose connection) are history. */
  datatype OpState = OpState(pc: OpPc, cmd: Command, i: nat, j: nat, k: ClassId, c: ClientId,
                             file: FileName, rest: Text, begun: bool, found: Option<ClientId>,
                             taken: seq<(ClassId, seq<ClientId>)>, done: seq<ClientId>, sent: seq<(ClientId, Text)>)

  /** The shared lists and objects, the log files and the kernel's tables. A file outlives the clients that
      wrote it, and several may write one. `socks` and `ssls` map each open descriptor and SSL object to the
      client it was made for; `interest` is the epoll set, and `unwatched` (history) the clients that could not be put in it. */
  datatype Memory = Memory(
    classes: map<ClassId, Class>, clients: map<ClientId, Client>, files: map<FileName, Log>,
    classhead: seq<ClassId>, tothead: seq<ClientId>,
    interest: map<Fd, ClientId>, unwatched: set<ClientId>, socks: map<Fd, ClientId>, ssls: map<SslId, ClientId>)

  datatype State = State(mem: Memory, locks: map<LockId, Mutex>, reg: RegState, ep: EpState, op: OpState)

  datatype Outcome = Ok(next: State) | Blocked | Fault

  /** What the environment supplies to a step: whether the call succeeds, the address or number it
      returns, the peer's address, the data read, how many characters a write appends, the events reported, the
      operator's command. */
  datatype Choice = Choice(
    ok: bool, id: nat, ip: Address, rec: Registration.Record, text: Text, n: nat, evs: seq<Event>, cmd: Command)

  const NO_MAC: Mac := [0, 0, 0, 0, 0, 0]
  const NO_ADDRESS: Address := [0, 0, 0, 0]

  const INIT := State(
    Memory(map[], map[], map[], [], [], map[], {}, map[], map[]),
    map[ClassListLock := Free, TotLock := Free],
    RegState(RIdle, 0, [], NO_MAC, 0, 0, false),
    EpState(EWait, [], 0, 0, [], [], false, false, 0, 0),
    OpState(OIdle, ListClass, 0, 0, 0, 0, [], [], false, None, [], [], []))

  // ----- the environment

  function EventClients(evs: seq<Event>): (r: seq<ClientId>)
    ensures |r| == |evs| && forall i :: 0 <= i < |evs| ==> r[i] == evs[i].cli
  {
    seq(|evs|, i requires 0 <= i < |evs| => evs[i].cli)
  }

  /** What the environment guarantees: the allocator and the kernel hand out unused addresses and
      numbers, a read returns at most a buffer full, epoll reports clients of the interest set, each once. */
  predicate Allowed(s: State, t: Thread, ch: Choice) {
    var m := s.mem;
    match t
    case Reg => (
      match s.reg.pc
      case RIdle => ch.id !in m.clients
      case RAccept => ch.id !in m.socks
      case RSslNew => ch.id !in m.ssls
      case RRead => ch.rec.Valid()
      case RScan => ch.id !in m.classes
      case _ => true)
    case Ep => (
      match s.ep.pc
      case EWait => 1 <= |ch.evs| <= PARA_NUM && NoDup(EventClients(ch.evs))
                    && (forall e :: e in ch.evs ==> e.cli in m.interest.Values)
      case EBatch => 1 <= |ch.text| <= BUFLEN
      case _ => true)
    case Op => true
  }

  // ----- locks and checked accesses

  function Lock(s: State, t: Thread, l: LockId, next: State): Outcome {
    if l !in s.locks then Fault
    else if s.locks[l] != Free then Blocked
    else Ok(next.(locks := s.locks[l := Held(t)]))
  }

  function Unlock(s: State, t: Thread, l: LockId, next: State): Outcome {
    if l in s.locks && s.locks[l] == Held(t) then Ok(next.(locks := s.locks[l := Free])) else Fault
  }

  function Check(ok: bool, next: State): Outcome {
    if ok then Ok(next) else Fault
  }

  /** Linking and unlinking write to neighbouring nodes, so every member must be alive. */
  predicate AllAlive<V>(xs: seq<nat>, heap: map<nat, V>) {
    forall x :: x in xs ==> x in heap
  }

  /** The client is alive and its descriptor is open. */
  predicate SockOpen(m: Memory, c: ClientId) {
    c in m.clients && m.clients[c].sock in m.socks
  }

  /** The client is alive and so is the SSL object it points to. */
  predicate SslAlive(m: Memory, c: ClientId) {
    c in m.clients && m.clients[c].ssl in m.ssls
  }

  /** Opening the client's log reads the client and the name of its class. */
  predicate LogAlive(m: Memory, c: ClientId) {
    c in m.clients && m.clients[c].klass in m.classes
  }

  /** The file `open_outfd` opens for the client. */
  function LogFile(m: Memory, c: ClientId): FileName
    requires LogAlive(m, c)
  {
    File(Device(m.classes[m.clients[c].klass].name, m.clients[c].ip, m.clients[c].mac))
  }

  /** The file of the device a client registered as; for a registered client it is the one opened (history). */
  function ClientFile(cl: Client): FileName {
    File(Device(cl.who, cl.ip, cl.mac))
  }

  function FileAt(m: Memory, f: FileName): Log {
    if f in m.files then m.files[f] else Log([], [], [])
  }

  /** Closing a descriptor also takes it out of the epoll set. */
  function CloseSock(m: Memory, c: ClientId): Memory
    requires c in m.clients
  {
    m.(socks := m.socks - {m.clients[c].sock}, interest := m.interest - {m.clients[c].sock})
  }

  function FreeSsl(m: Memory, c: ClientId): Memory
    requires c in m.clients
  {
    m.(ssls := m.ssls - {m.clients[c].ssl})
  }

  // ----- registration thread

  /** `accept_newcli` up to the record read. */
  function AcceptStep(s: State, ch: Choice): Outcome
    requires s.reg.pc in {RIdle, RAccept, RSslNew, RSslAccept, RRead} && Allowed(s, Reg, ch)
  {
    var m, r := s.mem, s.reg;
    match r.pc
    case RIdle =>
      if !ch.ok then Ok(s)
      else Ok(s.(mem := m.(clients := m.clients[ch.id := Client(0, [], NO_MAC, NO_ADDRESS, 0, 0)]), reg := r.(pc := RAccept, n := ch.id)))
    case RAccept =>
      if r.n !in m.clients then Fault
      else if !ch.ok then Ok(s.(reg := r.(pc := RClean1)))
      else Ok(s.(mem := m.(clients := m.clients[r.n := m.clients[r.n].(sock := ch.id, ip := ch.ip)], socks := m.socks[ch.id := r.n]),
                 reg := r.(pc := RSslNew)))
    case RSslNew =>
      if !SockOpen(m, r.n) then Fault
      else if !ch.ok then Ok(s.(reg := r.(pc := RClean2)))
      else Ok(s.(mem := m.(clients := m.clients[r.n := m.clients[r.n].(ssl := ch.id)], ssls := m.ssls[ch.id := r.n]),
                 reg := r.(pc := RSslAccept)))
    case RSslAccept => Check(SslAlive(m, r.n), s.(reg := r.(pc := if ch.ok then RRead else RClean3)))
    case RRead =>
      Check(SslAlive(m, r.n),
            s.(reg := if ch.ok then r.(pc := RWantList, who := ServerName(ch.rec), mac := ch.rec.mac) else r.(pc := RClean4)))
  }

  /** `newclass`: search the class list under its lock, take a reference to the class found or build one. */
  function NewClassStep(s: State, ch: Choice): Outcome
    requires s.reg.pc in {RWantList, RScan, RNoMem, RWant, RGet, RDrop, RPublish, RUnList}
  {
    var m, r := s.mem, s.reg;
    match r.pc
    case RWantList => Lock(s, Reg, ClassListLock, s.(reg := r.(pc := RScan, i := 0)))
    case RScan =>
      if r.i < |m.classhead| then
        var k := m.classhead[r.i];
        if k !in m.classes then Fault
        else if m.classes[k].name == r.who then Ok(s.(reg := r.(pc := RWant, k := k, isNew := false)))
        else Ok(s.(reg := r.(i := r.i + 1)))
      else if !ch.ok then Ok(s.(reg := r.(pc := RNoMem)))
      else Ok(s.(mem := m.(classes := m.classes[ch.id := Class(r.who, 0, [])]), locks := s.locks[ClassLock(ch.id) := Free],
                 reg := r.(pc := RWant, k := ch.id, isNew := true)))
    case RNoMem => Unlock(s, Reg, ClassListLock, s.(reg := r.(pc := RClean4)))
    case RWant => Lock(s, Reg, ClassLock(r.k), s.(reg := r.(pc := RGet)))
    case RGet =>
      if r.k !in m.classes then Fault
      else Ok(s.(mem := m.(classes := m.classes[r.k := m.classes[r.k].(count := m.classes[r.k].count + 1)]),
                 reg := r.(pc := RDrop)))
    case RDrop => Unlock(s, Reg, ClassLock(r.k), s.(reg := r.(pc := if r.isNew then RPublish else RUnList)))
    case RPublish =>
      Check(AllAlive(m.classhead, m.classes) && r.k in m.classes,
            s.(mem := m.(classhead := m.classhead + [r.k]), reg := r.(pc := RUnList)))
    case RUnList => Unlock(s, Reg, ClassListLock, s.(reg := r.(pc := RSetUp)))
  }

  /** The end of `accept_newcli`: fill in the client, link it into both lists and watch its descriptor. */
  function LinkStep(s: State, ch: Choice): Outcome
    requires s.reg.pc in {RSetUp, RWantLink, RWantTot, RAddTot, RAddCls, RInsert, RUnTot, RUnCls}
  {
    var m, r := s.mem, s.reg;
    match r.pc
    case RSetUp =>
      if r.n !in m.clients then Fault
      else Ok(s.(mem := m.(clients := m.clients[r.n := m.clients[r.n].(klass := r.k, who := r.who, mac := r.mac)]),
                 locks := s.locks[CliLock(r.n) := Free], reg := r.(pc := RWantLink)))
    case RWantLink => Lock(s, Reg, ClassLock(r.k), s.(reg := r.(pc := RWantTot)))
    case RWantTot => Lock(s, Reg, TotLock, s.(reg := r.(pc := RAddTot)))
    case RAddTot =>
      Check(AllAlive(m.tothead, m.clients) && r.n in m.clients,
            s.(mem := m.(tothead := m.tothead + [r.n]), reg := r.(pc := RAddCls)))
    case RAddCls =>
      if r.k !in m.classes || !AllAlive(m.classes[r.k].clilist, m.clients) || r.n !in m.clients then Fault
      else Ok(s.(mem := m.(classes := m.classes[r.k := m.classes[r.k].(clilist := m.classes[r.k].clilist + [r.n])]),
                 reg := r.(pc := RInsert)))
    case RInsert =>
      if !SockOpen(m, r.n) then Fault
      else
        // `epoll_insert` lets a failure pass: its test, `< -1`, is never true
        var fd := m.clients[r.n].sock;
        Ok(s.(mem := if ch.ok && fd !in m.interest then m.(interest := m.interest[fd := r.n])
                     else m.(unwatched := m.unwatched + {r.n}),
              reg := r.(pc := RUnTot)))
    case RUnTot => Unlock(s, Reg, TotLock, s.(reg := r.(pc := RUnCls)))
    case RUnCls => Unlock(s, Reg, ClassLock(r.k), s.(reg := r.(pc := RIdle)))
  }

  /** The cleanup ladder of `accept_newcli`. */
  function CleanStep(s: State): Outcome
    requires s.reg.pc in {RClean4, RClean3, RClean2, RClean1}
  {
    var m, r := s.mem, s.reg;
    match r.pc
    case RClean4 => Check(SslAlive(m, r.n), s.(reg := r.(pc := RClean3)))
    case RClean3 => if SslAlive(m, r.n) then Ok(s.(mem := FreeSsl(m, r.n), reg := r.(pc := RClean2))) else Fault
    case RClean2 => if SockOpen(m, r.n) then Ok(s.(mem := CloseSock(m, r.n), reg := r.(pc := RClean1))) else Fault
    case RClean1 => Check(r.n in m.clients, s.(mem := m.(clients := m.clients - {r.n}), reg := r.(pc := RIdle)))
  }

  // ----- epoll thread

  /** An entry is begun: its first characters are appended. */
  function Begin(m: Memory, f: FileName, e: Entry): Memory {
    var log := FileAt(m, f);
    m.(files := m.files[f := log.(bytes := log.bytes + e.data, entries := log.entries + [e])])
  }

  /** The record begun last is continued. */
  function Continue(m: Memory, f: FileName, data: Text): Memory {
    var log := FileAt(m, f);
    m.(files := m.files[f := log.(bytes := log.bytes + data, entries := Extended(log.entries, data))])
  }

  function Extended(es: seq<Entry>, data: Text): (r: seq<Entry>)
    ensures |r| == |es|
  {
    if es == [] then []
    else
      var front, e := es[..|es| - 1], es[|es| - 1];
      if e.CmdRecord? then front + [e.(data := e.data + data)] else Extended(front, data) + [e]
  }

  function AddReceived(m: Memory, f: FileName, data: Text): Memory {
    m.(files := m.files[f := FileAt(m, f).(received := FileAt(m, f).received + [data])])
  }

  /** `epoll_loop`, `epoll_recv` and `write_outfd`. The one `write` of a chunk appends what it appends in one piece
      (section 2.9.7 of POSIX.1-2017, System Interfaces). It may be short; its count is ignored and the rest is lost. */
  function BatchStep(s: State, ch: Choice): Outcome
    requires s.ep.pc in {EWait, EBatch, EWantCli, EWrite, EUnCli}
  {
    var m, e := s.mem, s.ep;
    match e.pc
    case EWait => Ok(s.(ep := e.(pc := EBatch, evs := ch.evs, i := 0)))
    case EBatch =>
      if e.i >= |e.evs| then Ok(s.(ep := e.(pc := EWait)))
      else
        var c := e.evs[e.i].cli;
        if e.evs[e.i].rdhup || !e.evs[e.i].input then Ok(s.(ep := e.(pc := EWantList, c := c, brk := true)))
        else if !SslAlive(m, c) then Fault
        else if !ch.ok then Ok(s.(ep := e.(pc := EWantList, c := c, brk := false)))
        else Ok(s.(mem := AddReceived(m, ClientFile(m.clients[c]), ch.text), ep := e.(pc := EWantCli, c := c, rest := ch.text)))
    case EWantCli =>
      if !LogAlive(m, e.c) then Fault
      else Lock(s, Ep, CliLock(e.c), s.(ep := e.(pc := EWrite, file := LogFile(m, e.c))))
    case EWrite =>
      if e.c !in m.clients then Fault
      else Ok(s.(mem := Begin(m, e.file, Chunk(e.rest, e.rest[..Min(ch.n, |e.rest|)])), ep := e.(pc := EUnCli)))
    case EUnCli => Unlock(s, Ep, CliLock(e.c), s.(ep := e.(pc := EBatch, i := e.i + 1)))
  }

  /** `cli_free` up to `putclass`, under all three locks. */
  function UnlinkStep(s: State): Outcome
    requires s.ep.pc in {EWantList, EWantCls, EWantTot, EDelTot, EDelCls, EDelEp, EPut}
  {
    var m, e := s.mem, s.ep;
    match e.pc
    case EWantList => Lock(s, Ep, ClassListLock, s.(ep := e.(pc := EWantCls)))
    case EWantCls =>
      if e.c !in m.clients then Fault
      else Lock(s, Ep, ClassLock(m.clients[e.c].klass), s.(ep := e.(pc := EWantTot, k := m.clients[e.c].klass)))
    case EWantTot => Lock(s, Ep, TotLock, s.(ep := e.(pc := EDelTot)))
    case EDelTot =>
      if e.c !in m.tothead || !AllAlive(m.tothead, m.clients) then Fault
      else Ok(s.(mem := m.(tothead := Remove(m.tothead, e.c)), ep := e.(pc := EDelCls, pos := IndexOf(m.tothead, e.c))))
    case EDelCls =>
      if e.c !in m.clients || m.clients[e.c].klass !in m.classes then Fault
      else
        var k := m.clients[e.c].klass;
        var list := m.classes[k].clilist;
        if e.c !in list || !AllAlive(list, m.clients) then Fault
        else Ok(s.(mem := m.(classes := m.classes[k := m.classes[k].(clilist := Remove(list, e.c))]), ep := e.(pc := EDelEp)))
    case EDelEp =>
      if e.c !in m.clients then Fault
      else Ok(s.(mem := m.(interest := m.interest - {m.clients[e.c].sock}), ep := e.(pc := EPut)))
    case EPut =>
      if e.c !in m.clients || m.clients[e.c].klass !in m.classes then Fault
      else
        var k := m.clients[e.c].klass;
        var left := m.classes[k].count - 1;
        var classes := m.classes[k := m.classes[k].(count := left)];
        if left != 0 then Ok(s.(mem := m.(classes := classes), ep := e.(pc := EUnTot, dying := false)))
        else if k !in m.classhead || !AllAlive(m.classhead, m.classes) then Fault
        else Ok(s.(mem := m.(classes := classes, classhead := Remove(m.classhead, k)), ep := e.(pc := EUnTot, dying := true)))
  }

  /** The rest of `cli_free`. The class that `putclass` frees is gone after the last use of its lock. */
  function ReleaseStep(s: State): Outcome
    requires s.ep.pc in {EUnTot, EUnCls, EUnList, EShut, EClose, EDestroy, EFree}
  {
    var m, e := s.mem, s.ep;
    match e.pc
    case EUnTot => Unlock(s, Ep, TotLock, s.(ep := e.(pc := EUnCls)))
    case EUnCls =>
      if e.c !in m.clients then Fault
      else
        var k := m.clients[e.c].klass;
        var o := Unlock(s, Ep, ClassLock(k), s.(ep := e.(pc := EUnList)));
        if o.Ok? && e.dying then
          Check(k in m.classes, o.next.(mem := m.(classes := m.classes - {k}), locks := s.locks - {ClassLock(k)}))
        else o
    case EUnList => Unlock(s, Ep, ClassListLock, s.(ep := e.(pc := EShut)))
    case EShut => if SslAlive(m, e.c) then Ok(s.(mem := FreeSsl(m, e.c), ep := e.(pc := EClose))) else Fault
    case EClose => if SockOpen(m, e.c) then Ok(s.(mem := CloseSock(m, e.c), ep := e.(pc := EDestroy))) else Fault
    case EDestroy =>
      Check(CliLock(e.c) in s.locks && s.locks[CliLock(e.c)] == Free,
            s.(locks := s.locks - {CliLock(e.c)}, ep := e.(pc := EFree)))
    case EFree =>
      Check(e.c in m.clients,
            s.(mem := m.(clients := m.clients - {e.c}),
               ep := if e.brk then e.(pc := EWait) else e.(pc := EBatch, i := e.i + 1)))
  }

  // ----- operator thread

  /** Whether a traversal enters the class: the listing enters each, the broadcast the one with the given name. */
  predicate Visits(cmd: Command, name: Text) {
    cmd.ListCli? || (cmd.Send? && cmd.name == name)
  }

  function RecordText(time: Text, text: Text): Text {
    "[" + time + "] '" + text + "'\n"
  }

  /** `cmd_listclass`, `cmd_listcli` and `cmd_sendcmd`: the two nested traversals. The stream passes a record on in as many
      pieces as it likes, and may give up, which is ignored. */
  function TraverseStep(s: State, ch: Choice): Outcome
    requires s.op.pc !in {OWantTot, OScan, OUnTot}
  {
    var m, o := s.mem, s.op;
    match o.pc
    case OIdle => Ok(s.(op := o.(pc := if ch.cmd.BashTo? then OWantTot else OWantList, cmd := ch.cmd)))
    case OWantList => Lock(s, Op, ClassListLock, s.(op := o.(pc := OClasses, i := 0, taken := [], done := [], sent := [])))
    case OClasses =>
      if o.i >= |m.classhead| then Ok(s.(op := o.(pc := OUnList)))
      else
        var k := m.classhead[o.i];
        if k !in m.classes then Fault
        else if Visits(o.cmd, m.classes[k].name) then Ok(s.(op := o.(pc := OWantCls, k := k)))
        else Ok(s.(op := o.(i := o.i + 1)))
    case OWantCls =>
      if o.k !in m.classes then Fault
      else Lock(s, Op, ClassLock(o.k),
                s.(op := o.(pc := OClients, j := 0, taken := o.taken + [(o.k, m.classes[o.k].clilist)])))
    case OClients =>
      if o.k !in m.classes then Fault
      else if o.j >= |m.classes[o.k].clilist| then Ok(s.(op := o.(pc := OUnCls)))
      else
        var c := m.classes[o.k].clilist[o.j];
        if c !in m.clients then Fault
        else if o.cmd.Send? then Ok(s.(op := o.(pc := OWantCli, c := c)))
        else Ok(s.(op := o.(j := o.j + 1, done := o.done + [c])))
    case OWantCli =>
      if !LogAlive(m, o.c) || !o.cmd.Send? then Fault
      else
        Lock(s, Op, CliLock(o.c),
             if ch.ok then
               s.(op := o.(pc := ORecord, file := LogFile(m, o.c), rest := RecordText(ch.text, o.cmd.text), begun := false))
             else s.(op := o.(pc := OUnCli)))
    case ORecord =>
      if o.c !in m.clients then Fault
      else if o.rest == [] then Ok(s.(op := o.(pc := OUnCli)))
      else
        var n := Min(ch.n, |o.rest|);
        if n == 0 then Ok(s.(op := o.(rest := [])))
        else
          Ok(s.(mem := if o.begun then Continue(m, o.file, o.rest[..n]) else Begin(m, o.file, CmdRecord(o.rest, o.rest[..n])),
                op := o.(rest := o.rest[n..], begun := true)))
    case OUnCli => Unlock(s, Op, CliLock(o.c), s.(op := o.(pc := OSend)))
    case OSend =>
      if !SslAlive(m, o.c) || !o.cmd.Send? then Fault
      else
        Ok(s.(op := o.(pc := OClients, j := o.j + 1, done := o.done + [o.c],
                       sent := if ch.ok then o.sent + [(o.c, o.cmd.text)] else o.sent)))
    case OUnCls => Unlock(s, Op, ClassLock(o.k), s.(op := o.(pc := OClasses, i := o.i + 1)))
    case OUnList => Unlock(s, Op, ClassListLock, s.(op := o.(pc := OIdle)))
  }

  /** `cmd_bashto` up to the selection of the client. */
  function SelectStep(s: State): Outcome
    requires s.op.pc in {OWantTot, OScan, OUnTot}
  {
    var m, o := s.mem, s.op;
    match o.pc
    case OWantTot => Lock(s, Op, TotLock, s.(op := o.(pc := OScan, i := 0)))
    case OScan =>
      if o.i >= |m.tothead| then Ok(s.(op := o.(pc := OUnTot, found := None)))
      else
        var c := m.tothead[o.i];
        if c !in m.clients || !o.cmd.BashTo? then Fault
        else if m.clients[c].mac == o.cmd.mac then Ok(s.(op := o.(pc := OUnTot, found := Some(c))))
        else Ok(s.(op := o.(i := o.i + 1)))
    case OUnTot => Unlock(s, Op, TotLock, s.(op := o.(pc := OIdle)))
  }

  // ----- runs

  function Step(s: State, t: Thread, ch: Choice): Outcome
    requires Allowed(s, t, ch)
  {
    match t
    case Reg =>
      if s.reg.pc in {RIdle, RAccept, RSslNew, RSslAccept, RRead} then AcceptStep(s, ch)
      else if s.reg.pc in {RWantList, RScan, RNoMem, RWant, RGet, RDrop, RPublish, RUnList} then NewClassStep(s, ch)
      else if s.reg.pc in {RClean4, RClean3, RClean2, RClean1} then CleanStep(s)
      else LinkStep(s, ch)
    case Ep =>
      if s.ep.pc in {EWait, EBatch, EWantCli, EWrite, EUnCli} then BatchStep(s, ch)
      else if s.ep.pc in {EWantList, EWantCls, EWantTot, EDelTot, EDelCls, EDelEp, EPut} then UnlinkStep(s)
      else ReleaseStep(s)
    case Op =>
      if s.op.pc in {OWantTot, OScan, OUnTot} then SelectStep(s) else TraverseStep(s, ch)
  }

  ghost predicate Next(s: State, s': State) {
    exists t: Thread, ch: Choice :: Allowed(s, t, ch) && Step(s, t, ch) == Ok(s')
  }

  /** A run of the server: it starts with empty lists and each state follows from the one before by one step of one thread. */
  ghost predicate Run(tr: seq<State>) {
    |tr| > 0 && tr[0] == INIT && forall i :: 0 <= i < |tr| - 1 ==> Next(tr[i], tr[i + 1])
  }

  ghost predicate Reachable(s: State) {
    exists tr: seq<State> :: Run(tr) && tr[|tr| - 1] == s
  }
}
