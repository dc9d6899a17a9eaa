/** The two links embedded in a client: one object on the list of all clients and on the list of its class at once. */
module ClientLists {
  import opened Sequences
  import opened Registration
  import opened LinkedLists

  /** `struct client_t`: its two links and the MAC it is looked up by. */
  class Client {
    const totlist: ListHead
    const classlist: ListHead
    var mac: Mac

    constructor (m: Mac)
      ensures fresh(totlist) && fresh(classlist) && totlist != classlist && mac == m
    {
      totlist := new ListHead();
      classlist := new ListHead();
      mac := m;
    }
  }

  /** The nodes by which the clients are on the list of all clients, and on their class list. */
  function TotNodes(cs: seq<Client>): (r: seq<ListHead>)
    ensures |r| == |cs| && forall i :: 0 <= i < |cs| ==> r[i] == cs[i].totlist
  {
    seq(|cs|, i requires 0 <= i < |cs| => cs[i].totlist)
  }

  function ClassNodes(cs: seq<Client>): (r: seq<ListHead>)
    ensures |r| == |cs| && forall i :: 0 <= i < |cs| ==> r[i] == cs[i].classlist
  {
    seq(|cs|, i requires 0 <= i < |cs| => cs[i].classlist)
  }

  /** The node is on none of the list headed by `h` with entries `xs`. */
  predicate Off(x: ListHead, h: ListHead, xs: seq<ListHead>) {
    x != h && x !in xs
  }

  lemma RemoveNodes(cs: seq<Client>, c: Client)
    requires c in cs
    requires NoDup(TotNodes(cs)) || NoDup(ClassNodes(cs))
    ensures c.totlist in TotNodes(cs) && c.classlist in ClassNodes(cs)
    ensures NoDup(TotNodes(cs)) ==> Remove(TotNodes(cs), c.totlist) == TotNodes(Remove(cs, c))
    ensures NoDup(ClassNodes(cs)) ==> Remove(ClassNodes(cs), c.classlist) == ClassNodes(Remove(cs, c))
  {
    var i := IndexOf(cs, c);
    assert TotNodes(cs)[i] == c.totlist && ClassNodes(cs)[i] == c.classlist;
    if NoDup(TotNodes(cs)) {
      NoDupIndex(TotNodes(cs), i);
    }
    if NoDup(ClassNodes(cs)) {
      NoDupIndex(ClassNodes(cs), i);
    }
  }

  /** `accept_newcli` links a client into both lists; each grows by it at the end and any other list is untouched. */
  method LinkClient(cli: Client, tothead: ListHead, clilist: ListHead,
                    ghost ts: seq<Client>, ghost cs: seq<Client>, ghost g: ListHead, ghost zs: seq<ListHead>)
    requires Ring(tothead, TotNodes(ts)) && Ring(clilist, ClassNodes(cs)) && Ring(g, zs)
    requires Off(clilist, tothead, TotNodes(ts)) && Off(g, tothead, TotNodes(ts)) && Off(g, clilist, ClassNodes(cs))
    requires cli.totlist != cli.classlist
    requires Off(cli.totlist, tothead, TotNodes(ts)) && Off(cli.totlist, clilist, ClassNodes(cs)) && Off(cli.totlist, g, zs)
    requires Off(cli.classlist, tothead, TotNodes(ts)) && Off(cli.classlist, clilist, ClassNodes(cs)) && Off(cli.classlist, g, zs)
    modifies cli.totlist, cli.classlist, tothead, clilist, TotNodes(ts), ClassNodes(cs)
    ensures Ring(tothead, TotNodes(ts + [cli])) && Ring(clilist, ClassNodes(cs + [cli])) && Ring(g, zs)
  {
    RingsApart(tothead, TotNodes(ts), clilist, ClassNodes(cs));
    RingsApart(tothead, TotNodes(ts), g, zs);
    RingsApart(clilist, ClassNodes(cs), g, zs);
    hide Ring;
    Neighbours(tothead, TotNodes(ts), tothead);
    Neighbours(clilist, ClassNodes(cs), clilist);
    assert TotNodes(ts + [cli]) == TotNodes(ts) + [cli.totlist];
    assert ClassNodes(cs + [cli]) == ClassNodes(cs) + [cli.classlist];
    AddTail(cli.totlist, tothead, TotNodes(ts));
    AddTail(cli.classlist, clilist, ClassNodes(cs));
  }

  /** `cli_free` takes a client off both lists; each loses it alone and any other list is untouched. */
  method UnlinkClient(cli: Client, ghost tothead: ListHead, ghost clilist: ListHead,
                      ghost ts: seq<Client>, ghost cs: seq<Client>, ghost g: ListHead, ghost zs: seq<ListHead>)
    requires Ring(tothead, TotNodes(ts)) && Ring(clilist, ClassNodes(cs)) && Ring(g, zs) && cli in ts && cli in cs
    requires Off(clilist, tothead, TotNodes(ts)) && Off(g, tothead, TotNodes(ts)) && Off(g, clilist, ClassNodes(cs))
    modifies tothead, clilist, TotNodes(ts), ClassNodes(cs)
    ensures Ring(tothead, TotNodes(Remove(ts, cli))) && Ring(clilist, ClassNodes(Remove(cs, cli))) && Ring(g, zs)
    ensures cli.totlist.next == null && cli.classlist.next == null
  {
    hide Ring, NoDup, Remove, Succ, Pred;
    RingsApart(tothead, TotNodes(ts), clilist, ClassNodes(cs));
    RingsApart(tothead, TotNodes(ts), g, zs);
    RingsApart(clilist, ClassNodes(cs), g, zs);
    Entries(tothead, TotNodes(ts));
    Entries(clilist, ClassNodes(cs));
    RemoveNodes(ts, cli);
    RemoveNodes(cs, cli);
    RemoveNoDup(TotNodes(ts), cli.totlist);
    Neighbours(tothead, TotNodes(ts), cli.totlist);
    Neighbours(clilist, ClassNodes(cs), cli.classlist);
    Del(cli.totlist, tothead, TotNodes(ts));
    assert Ring(tothead, TotNodes(Remove(ts, cli)));
    Del(cli.classlist, clilist, ClassNodes(cs));
  }

  /** The search of `cmd_bashto`: the first client on the list with the MAC, or none. `owner` gives the client a node is part of. */
  method FindByMac(tothead: ListHead, mac: Mac, owner: map<ListHead, Client>, ghost ts: seq<Client>) returns (found: Client?)
    requires Ring(tothead, TotNodes(ts))
    requires forall c :: c in ts ==> c.totlist in owner && owner[c.totlist] == c
    ensures found == null ==> forall c :: c in ts ==> c.mac != mac
    ensures found != null ==> exists i :: 0 <= i < |ts| && ts[i] == found && found.mac == mac && forall j :: 0 <= j < i ==> ts[j].mac != mac
  {
    var pos := tothead.next;
    ghost var i := 0;
    while pos != tothead
      invariant i <= |ts| && pos == After(tothead, TotNodes(ts), i - 1)
      invariant forall j :: 0 <= j < i ==> ts[j].mac != mac
      decreases |ts| - i
    {
      var cli := owner[pos];
      if cli.mac == mac {
        return cli;
      }
      pos := pos.next;
      i := i + 1;
    }
    found := null;
  }
}
