/** How the client sends the output of a command to the server. */
module OutputRelay {
  import opened Sequences
  import opened Registration
  import opened Wrappers

  const CMDLEN := 2048
  const RCTLBASH := "rctlbash"

  /** The stream `popen` returns: what the command has still to say. */
  class Pipe {
    var rest: Text

    constructor (output: Text)
      ensures rest == output
    {
      rest := output;
    }

    /** `fread(buf, 1, n, fp)`: short only at the end of the output (section 7.19.8.1 of ISO/IEC 9899:1999). */
    method Fread(buf: array<char>, n: nat) returns (size: nat)
      requires n <= buf.Length
      modifies this, buf
      ensures size == Min(n, |old(rest)|)
      ensures buf[..size] == old(rest[..size]) && rest == old(rest[size..])
    {
      size := Min(n, |rest|);
      forall i | 0 <= i < size {
        buf[i] := rest[i];
      }
      rest := rest[size..];
    }
  }

  /** The connection to the server: the pieces written so far; it breaks after `limit` of them. */
  class Connection {
    var sent: seq<Text>
    const limit: nat

    constructor (n: nat)
      ensures sent == [] && limit == n
    {
      sent, limit := [], n;
    }

    /** `ssltcp_write`: the whole piece is written, or the write fails. */
    method Write(data: Text) returns (ret: int)
      modifies this
      ensures if |old(sent)| < limit then ret == |data| && sent == old(sent) + [data] else ret == -1 && sent == old(sent)
    {
      if |sent| < limit {
        sent := sent + [data];
        ret := |data|;
      } else {
        ret := -1;
      }
    }
  }

  /** The command as the shell gets it: ` 2>&1` is added as far as there is room. */
  function Redirected(cmd: Text): Text
    requires |cmd| <= CMDLEN
  {
    cmd + " 2>&1"[..Min(5, CMDLEN - |cmd|)]
  }

  /** The shell gets the command, and the redirection whole if it fits in the buffer. */
  lemma RedirectedIs(cmd: Text)
    requires |cmd| <= CMDLEN
    ensures var line := Redirected(cmd);
            && cmd <= line && |line| <= CMDLEN && line[|cmd|..] <= " 2>&1"
            && (|cmd| + 5 <= CMDLEN ==> line == cmd + " 2>&1") && (|cmd| + 5 > CMDLEN ==> |line| == CMDLEN)
  {
    var line := Redirected(cmd);
    assert line[|cmd|..] == " 2>&1"[..Min(5, CMDLEN - |cmd|)] && " 2>&1"[..5] == " 2>&1";
  }

  function Notice(cmd: Text): Text { "exec success: " + cmd + "\n" }

  function Failure(cmd: Text): Text { "exec fail: " + cmd + "\n" }

  /** The pieces are full buffers but for the last, which may be shorter but is not empty. */
  predicate Pieces(ps: seq<Text>) {
    && (forall i :: 0 <= i < |ps| ==> 0 < |ps[i]| <= BUFLEN)
    && (forall i :: 0 <= i < |ps| - 1 ==> |ps[i]| == BUFLEN)
  }

  /** While it lasts: full buffers were sent, and they and the rest are the output. */
  predicate Sending(ps: seq<Text>, rest: Text, output: Text) {
    && Flatten(ps) + rest == output
    && (forall i :: 0 <= i < |ps| ==> |ps[i]| == BUFLEN)
  }

  lemma SentPiece(ps: seq<Text>, piece: Text, rest: Text, output: Text)
    requires Sending(ps, piece + rest, output) && 0 < |piece| <= BUFLEN
    ensures Pieces(ps + [piece]) && Flatten(ps + [piece]) + rest == output
    ensures |piece| == BUFLEN ==> Sending(ps + [piece], rest, output)
  {
    FlattenAppend(ps, piece);
    assert Flatten(ps) + (piece + rest) == Flatten(ps) + piece + rest;
  }

  /** What is sent for an output: the notice when there is none, else pieces that concatenate to it. */
  predicate Carries(ps: seq<Text>, output: Text, cmd: Text) {
    if output == [] then ps == [Notice(cmd)] else Pieces(ps) && Flatten(ps) == output
  }

  /** Nothing but the output decides what is sent. */
  lemma {:induction false} PiecesUnique(ps: seq<Text>, qs: seq<Text>)
    requires Pieces(ps) && Pieces(qs) && Flatten(ps) == Flatten(qs)
    ensures ps == qs
  {
    if ps != [] && qs != [] {
      LengthOf(ps);
      LengthOf(qs);
      assert |ps| == |qs|;
      var p, q := ps[..|ps| - 1], qs[..|qs| - 1];
      LengthOf(p);
      LengthOf(q);
      assert Flatten(ps) == Flatten(p) + ps[|ps| - 1];
      assert Flatten(qs) == Flatten(q) + qs[|qs| - 1];
      assert |ps[|ps| - 1]| == |qs[|qs| - 1]|;
      assert Flatten(p) == Flatten(ps)[..|Flatten(p)|] == Flatten(q);
      PiecesUnique(p, q);
    } 
  }

  lemma {:induction false} LengthOf(ps: seq<Text>)
    requires Pieces(ps)
    ensures ps == [] ==> Flatten(ps) == []
    ensures ps != [] ==> |Flatten(ps)| == BUFLEN * (|ps| - 1) + |ps[|ps| - 1]|
  {
    if |ps| > 1 {
      LengthOf(ps[..|ps| - 1]);
    } else if |ps| == 1 {
      assert ps[..0] == [];
    }
  }

  /** The loop of `rctl` after `popen` succeeded. It ends; if the connection lasts, what it sent carries the output, and
      otherwise what it sent is a beginning of it. */
  method SendOutput(fp: Pipe, conn: Connection, buf: array<char>, cmd: Text) returns (ok: bool)
    requires buf.Length == BUFLEN
    modifies fp, conn, buf
    ensures old(conn.sent) <= conn.sent
    ensures var added := conn.sent[|old(conn.sent)|..];
            if ok then Carries(added, old(fp.rest), cmd) else Pieces(added) && Flatten(added) <= old(fp.rest)
    ensures !ok ==> |conn.sent| >= conn.limit
  {
    var isFirst := true;
    var more := true;
    ghost var base, output := conn.sent, fp.rest;
    ghost var ps: seq<Text> := [];
    while more
      invariant conn.sent == base + ps
      invariant more ==> (isFirst <==> ps == []) && Sending(ps, fp.rest, output)
      invariant !more ==> Carries(ps, output, cmd)
      decreases |fp.rest|, more
    {
      var size := fp.Fread(buf, CMDLEN);
      ghost var was := ps;
      if isFirst && size == 0 {
        var ret := conn.Write(Notice(cmd));
        if ret <= 0 {
          return false;
        }
        ps := ps + [Notice(cmd)];
      }
      isFirst := false;
      if size > 0 {
        var ret := conn.Write(buf[..size]);
        if ret <= 0 {
          return false;
        }
        ps := ps + [buf[..size]];
        SentPiece(was, buf[..size], fp.rest, output);
      }
      more := size == BUFLEN;
    }
    ok := true;
  }

  /** What the client sends for one command; `output` is what the command says, none when `popen` fails. The command
      that opens a shell is not answered. */
  predicate Answers(ps: seq<Text>, output: Option<Text>, cmd: Text)
    requires |cmd| <= CMDLEN
  {
    if cmd == RCTLBASH then ps == []
    else
      match output
      case None => ps == [Failure(Redirected(cmd))]
      case Some(text) => Carries(ps, text, Redirected(cmd))
  }

  /** What has been sent when the connection breaks: nothing of a message, or a beginning of the output. */
  predicate Breaks(ps: seq<Text>, output: Option<Text>) {
    match output
    case None => ps == []
    case Some(text) => Pieces(ps) && Flatten(ps) <= text
  }

  /** One command of the loop of `rctl`: the pieces sent answer the command, or, if the connection breaks, begin to. */
  method RunCommand(conn: Connection, buf: array<char>, cmd: Text, output: Option<Text>) returns (ok: bool)
    requires buf.Length == BUFLEN && |cmd| <= CMDLEN
    modifies conn, buf
    ensures old(conn.sent) <= conn.sent
    ensures ok ==> Answers(conn.sent[|old(conn.sent)|..], output, cmd)
    ensures !ok ==> cmd != RCTLBASH && Breaks(conn.sent[|old(conn.sent)|..], output)
    ensures !ok ==> |conn.sent| >= conn.limit
  {
    if cmd == RCTLBASH {
      return true;
    }
    var line := Redirected(cmd);
    match output
    case None =>
      var ret := conn.Write(Failure(line));
      ok := ret > 0;
    case Some(text) =>
      var fp := new Pipe(text);
      ok := SendOutput(fp, conn, buf, line);
  }
}
