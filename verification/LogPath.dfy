/** The name of a device's log file and which devices share one. */
module LogPath {
  import opened Sequences
  import opened Registration
  import opened MacAddress

  const PATH_MAX := 4096

  type FileName = seq<Text>
  type Address = a: seq<byte> | |a| == 4 witness [0, 0, 0, 0]

  function Digit(d: nat): char
    requires d < 10
  {
    ('0' as int + d) as char
  }

  /** `%u` for a byte. */
  function Decimal(b: byte): (r: Text)
    ensures 1 <= |r| <= 3 && forall i :: 0 <= i < |r| ==> '0' <= r[i] <= '9'
  {
    if b < 10 then [Digit(b)]
    else if b < 100 then [Digit(b / 10), Digit(b % 10)]
    else [Digit(b / 100), Digit(b / 10 % 10), Digit(b % 10)]
  }

  /** `inet_ntoa`. */
  function Dotted(a: Address): Text {
    Decimal(a[0]) + "." + Decimal(a[1]) + "." + Decimal(a[2]) + "." + Decimal(a[3])
  }

  /** What identifies a device: the class it registered in, its address and its MAC. */
  datatype Device = Device(name: Text, ip: Address, mac: Mac)

  /** The path `open_outfd` builds. */
  function Path(d: Device): Text {
    "/tmp/" + (d.name + "_" + Dotted(d.ip) + "_" + GetMacStr(d.mac))
  }

  /** `snprintf(path, size, ...)` keeps what fits before the terminating NUL. */
  function Snprintf(s: Text, size: nat): (r: Text)
    requires size > 0
    ensures r <= s && |r| < size && (r == s || |r| == size - 1)
  {
    if |s| < size then s else s[..size - 1]
  }

  // ----- a text splits at its last separator in one way only

  lemma LastSeparator(a: Text, b: Text, c: Text, d: Text, sep: char)
    requires a + [sep] + b == c + [sep] + d && sep !in b && sep !in d
    ensures a == c && b == d
  {
    var s, t := a + [sep] + b, c + [sep] + d;
    assert s[|a|] == sep && t[|c|] == sep;
    assert |a| <= |c| by {
      assert forall i :: |c| < i < |t| ==> t[i] == d[i - |c| - 1];
    }
    assert |c| <= |a| by {
      assert forall i :: |a| < i < |s| ==> s[i] == b[i - |a| - 1];
    }
    assert a == s[..|a|] && c == t[..|c|];
    assert b == s[|a| + 1..] && d == t[|c| + 1..];
  }

  /** The number that up to three decimal digits denote. */
  function ValueOf(s: Text): int
    requires 1 <= |s| <= 3
  {
    if |s| == 1 then s[0] as int - '0' as int else 10 * ValueOf(s[..|s| - 1]) + s[|s| - 1] as int - '0' as int
  }

  lemma DecimalValue(b: byte)
    ensures ValueOf(Decimal(b)) == b
  {
    var s := Decimal(b);
    if b >= 100 {
      assert s[..2] == [Digit(b / 100), Digit(b / 10 % 10)];
      assert s[..2][..1] == [Digit(b / 100)];
      assert ValueOf(s[..1]) == b / 100;
      assert ValueOf(s[..2]) == 10 * (b / 100) + b / 10 % 10;
    } else if b >= 10 {
      assert s[..1] == [Digit(b / 10)];
      assert ValueOf(s[..1]) == b / 10;
    }
  }

  /** The four bytes of the address, most significant first, as decimal numbers between dots. */
  lemma DottedOctets(a: Address) returns (parts: seq<Text>)
    ensures |parts| == 4 && Dotted(a) == parts[0] + "." + parts[1] + "." + parts[2] + "." + parts[3]
    ensures forall i :: 0 <= i < 4 ==> 1 <= |parts[i]| <= 3 && '.' !in parts[i] && ValueOf(parts[i]) == a[i]
  {
    parts := [Decimal(a[0]), Decimal(a[1]), Decimal(a[2]), Decimal(a[3])];
    DecimalValue(a[0]);
    DecimalValue(a[1]);
    DecimalValue(a[2]);
    DecimalValue(a[3]);
    hide Decimal, ValueOf;
  }

  lemma DecimalInjective(a: byte, b: byte)
    requires Decimal(a) == Decimal(b)
    ensures a == b
  {
    DecimalValue(a);
    DecimalValue(b);
    hide Decimal;
  }

  lemma DottedInjective(a: Address, b: Address)
    requires Dotted(a) == Dotted(b)
    ensures a == b
  {
    hide Decimal;
    var a1, b1 := Decimal(a[0]) + "." + Decimal(a[1]), Decimal(b[0]) + "." + Decimal(b[1]);
    LastSeparator(a1 + "." + Decimal(a[2]), Decimal(a[3]), b1 + "." + Decimal(b[2]), Decimal(b[3]), '.');
    LastSeparator(a1, Decimal(a[2]), b1, Decimal(b[2]), '.');
    LastSeparator(Decimal(a[0]), Decimal(a[1]), Decimal(b[0]), Decimal(b[1]), '.');
    DecimalInjective(a[0], b[0]);
    DecimalInjective(a[1], b[1]);
    DecimalInjective(a[2], b[2]);
    DecimalInjective(a[3], b[3]);
  }

  lemma DottedPlain(a: Address)
    ensures '_' !in Dotted(a) && '/' !in Dotted(a) && |Dotted(a)| <= 15
  {
    var d0, d1, d2, d3 := Decimal(a[0]), Decimal(a[1]), Decimal(a[2]), Decimal(a[3]);
    hide Decimal;
    assert forall c :: c in Dotted(a) ==> c == '.' || c in d0 || c in d1 || c in d2 || c in d3;
  }

  lemma GetMacStrPlain(m: Mac)
    ensures '_' !in GetMacStr(m) && '/' !in GetMacStr(m)
  {
    hide Hex2;
  }

  lemma NoUnderscore(a: Address, m: Mac)
    ensures '_' !in Dotted(a) && '_' !in GetMacStr(m) && '/' !in Dotted(a) && '/' !in GetMacStr(m)
    ensures |Dotted(a)| <= 15
  {
    DottedPlain(a);
    GetMacStrPlain(m);
  }

  /** The path determines the device, even when class names contain underscores. */
  lemma PathInjective(d: Device, e: Device)
    requires Path(d) == Path(e)
    ensures d == e
  {
    hide Dotted, GetMacStr;
    NoUnderscore(d.ip, d.mac);
    NoUnderscore(e.ip, e.mac);
    assert Path(d)[5..] == Path(e)[5..];
    assert Path(d)[5..] == d.name + "_" + Dotted(d.ip) + "_" + GetMacStr(d.mac);
    assert Path(e)[5..] == e.name + "_" + Dotted(e.ip) + "_" + GetMacStr(e.mac);
    LastSeparator(d.name + "_" + Dotted(d.ip), GetMacStr(d.mac), e.name + "_" + Dotted(e.ip), GetMacStr(e.mac), '_');
    LastSeparator(d.name, Dotted(d.ip), e.name, Dotted(e.ip), '_');
    DottedInjective(d.ip, e.ip);
    GetMacStrInjective(d.mac, e.mac);
  }

  /** Where the parts of a path stand. */
  lemma PathParts(d: Device)
    ensures var p, n, k := Path(d), |d.name|, |Dotted(d.ip)|;
            && |p| == 24 + n + k && p[..5] == "/tmp/" && p[5..5 + n] == d.name && p[5 + n] == '_'
            && p[6 + n..6 + n + k] == Dotted(d.ip) && p[6 + n + k] == '_' && p[7 + n + k..] == GetMacStr(d.mac)
  {
    GetMacStrJoined(d.mac);
    hide Dotted, Joined;
    var p, n, k := Path(d), |d.name|, |Dotted(d.ip)|;
    assert |GetMacStr(d.mac)| == 17;
    hide GetMacStr;
    assert p == "/tmp/" + d.name + "_" + Dotted(d.ip) + "_" + GetMacStr(d.mac);
    assert p[5..5 + n] == d.name && p[6 + n..6 + n + k] == Dotted(d.ip) && p[7 + n + k..] == GetMacStr(d.mac);
  }

  /** The path of a device the server admitted is never cut off. */
  lemma PathComplete(rec: Record, ip: Address, mac: Mac)
    requires rec.Valid()
    ensures var p := Path(Device(ServerName(rec), ip, mac)); |p| <= 71 && Snprintf(p, PATH_MAX) == p
  {
    ServerNameFits(rec);
    NoUnderscore(ip, mac);
    GetMacStrJoined(mac);
  }

  // ----- the file a path names

  /** The components of a path between slashes. */
  function Split(p: Text): (r: seq<Text>)
    ensures |r| > 0
  {
    if p == [] then [[]]
    else
      var rest := Split(p[1..]);
      if p[0] == '/' then [[]] + rest else [[p[0]] + rest[0]] + rest[1..]
  }

  /** Following the components from the root: an empty one and `.` stay, `..` goes up. */
  function Resolved(cs: seq<Text>): seq<Text> {
    if cs == [] then []
    else
      var up, c := Resolved(cs[..|cs| - 1]), cs[|cs| - 1];
      if c == [] || c == "." then up
      else if c == ".." then if up == [] then [] else up[..|up| - 1]
      else up + [c]
  }

  function File(d: Device): FileName { Resolved(Split(Path(d))) }

  lemma {:induction false} SplitOne(p: Text)
    requires '/' !in p
    ensures Split(p) == [p]
  {
    if p != [] {
      SplitOne(p[1..]);
      assert [p[0]] + p[1..] == p;
    }
  }

  lemma SplitStep(p: Text)
    ensures if p == [] then Split(p) == [[]]
            else
              var rest := Split(p[1..]);
              Split(p) == if p[0] == '/' then [[]] + rest else [[p[0]] + rest[0]] + rest[1..]
  {
  }

  /** After a slash a name without one is the last component. */
  lemma {:induction false} SplitLeaf(p: Text, leaf: Text)
    requires p != [] && p[|p| - 1] == '/' && '/' !in leaf
    ensures var cs := Split(p); |cs| > 1 && cs[|cs| - 1] == [] && Split(p + leaf) == cs[..|cs| - 1] + [leaf]
  {
    hide Split;
    var rest := p[1..];
    assert (p + leaf)[0] == p[0] && (p + leaf)[1..] == rest + leaf;
    SplitStep(p);
    SplitStep(p + leaf);
    if rest == [] {
      assert rest + leaf == leaf;
      SplitStep(rest);
      SplitOne(leaf);
    } else {
      SplitLeaf(rest, leaf);
      var cs := Split(rest);
      assert cs[1..][..|cs| - 2] + [leaf] == Split(rest + leaf)[1..];
    }
  }

  /** No component contains a slash. */
  lemma {:induction false} SplitPlain(p: Text)
    ensures forall c :: c in Split(p) ==> '/' !in c
  {
    if p != [] {
      SplitPlain(p[1..]);
    }
  }

  /** The components with a slash between each two. */
  function Slashed(cs: seq<Text>): Text {
    if cs == [] then [] else if |cs| == 1 then cs[0] else cs[0] + "/" + Slashed(cs[1..])
  }

  /** The components are the path again; as none contains a slash, nothing else is. */
  lemma {:induction false} SplitSlashed(p: Text)
    ensures Slashed(Split(p)) == p
  {
    if p != [] {
      SplitSlashed(p[1..]);
      SplitStep(p);
      hide Split;
      var rest := Split(p[1..]);
      assert [p[0]] + p[1..] == p;
      if p[0] == '/' {
        assert ([[]] + rest)[1..] == rest;
        assert [] + "/" + Slashed(rest) == ['/'] + Slashed(rest);
      } else {
        FirstLonger(rest, p[0]);
      }
    }
  }

  lemma FirstLonger(cs: seq<Text>, c: char)
    requires cs != []
    ensures Slashed([[c] + cs[0]] + cs[1..]) == [c] + Slashed(cs)
  {
    assert ([[c] + cs[0]] + cs[1..])[1..] == cs[1..];
    if |cs| > 1 {
      assert [c] + cs[0] + "/" + Slashed(cs[1..]) == [c] + (cs[0] + "/" + Slashed(cs[1..]));
    }
  }

  lemma {:induction false} ResolvedFrom(cs: seq<Text>)
    ensures forall c :: c in Resolved(cs) ==> c in cs
  {
    if cs != [] {
      ResolvedFrom(cs[..|cs| - 1]);
    }
  }

  /** What follows is resolved from where the path has come to. */
  lemma {:induction false} ResolvedOn(xs: seq<Text>, ys: seq<Text>, after: seq<Text>)
    requires Resolved(xs) == Resolved(ys)
    ensures Resolved(xs + after) == Resolved(ys + after)
  {
    if after == [] {
      assert xs + after == xs && ys + after == ys;
    } else {
      var front := after[..|after| - 1];
      ResolvedOn(xs, ys, front);
      assert (xs + after)[..|xs + after| - 1] == xs + front && (ys + after)[..|ys + after| - 1] == ys + front;
    }
  }

  lemma ResolvedStep(xs: seq<Text>, c: Text)
    ensures var up := Resolved(xs);
            Resolved(xs + [c]) ==
            if c == [] || c == "." then up else if c == ".." then if up == [] then [] else up[..|up| - 1] else up + [c]
  {
    assert (xs + [c])[..|xs|] == xs;
  }

  /** A plain component followed by `..` goes nowhere, nor does `.`, an empty component, or `..` at the root. */
  lemma GoesNowhere(before: seq<Text>, c: Text, after: seq<Text>)
    ensures c !in {[], ".", ".."} ==> Resolved(before + [c] + [".."] + after) == Resolved(before + after)
    ensures c in {[], "."} ==> Resolved(before + [c] + after) == Resolved(before + after)
    ensures Resolved([".."] + after) == Resolved(after)
  {
    ResolvedStep(before, c);
    ResolvedStep(before + [c], "..");
    ResolvedStep([], "..");
    assert [] + [".."] == [".."] && [] + after == after;
    hide Resolved;
    if c !in {[], ".", ".."} {
      assert (Resolved(before) + [c])[..|Resolved(before)|] == Resolved(before);
      ResolvedOn(before + [c] + [".."], before, after);
    }
    if c in {[], "."} {
      ResolvedOn(before + [c], before, after);
    }
    ResolvedOn([".."], [], after) by {
      ResolvedNone();
    }
  }

  lemma ResolvedNone()
    ensures Resolved([]) == []
  {
  }

  /** The last component of a class name, and what comes before it. */
  function Base(name: Text): (r: Text)
    ensures |r| <= |name| && '/' !in r && name[|name| - |r|..] == r
    ensures |r| < |name| ==> name[|name| - |r| - 1] == '/'
  {
    if name == [] || name[|name| - 1] == '/' then [] else Base(name[..|name| - 1]) + [name[|name| - 1]]
  }

  function Directory(name: Text): Text { name[..|name| - |Base(name)|] }

  /** The directory in which the logs of a class are, and a device's log in it. */
  function Folder(name: Text): seq<Text> { Resolved(Split("/tmp/" + Directory(name))) }

  function Leaf(d: Device): Text { Base(d.name) + "_" + Dotted(d.ip) + "_" + GetMacStr(d.mac) }

  lemma FileInFolder(d: Device)
    ensures File(d) == Folder(d.name) + [Leaf(d)]
  {
    NoUnderscore(d.ip, d.mac);
    hide Base, Folder, Resolved, Split, Dotted, GetMacStr;
    var suffix := "_" + Dotted(d.ip) + "_" + GetMacStr(d.mac);
    assert Path(d) == "/tmp/" + (d.name + suffix) && Leaf(d) == Base(d.name) + suffix;
    PathInFolder(d.name, suffix);
  }

  lemma PathInFolder(name: Text, suffix: Text)
    requires '/' !in suffix && suffix != [] && suffix[0] == '_'
    ensures Resolved(Split("/tmp/" + (name + suffix))) == Folder(name) + [Base(name) + suffix]
  {
    hide Base, Directory, Resolved, Split;
    var base, dir := Base(name), Directory(name);
    Apart(name);
    Rejoined("/tmp/", dir, base, suffix);
    SplitLeaf("/tmp/" + dir, base + suffix);
    assert (base + suffix)[|base|] == '_';
    ResolvedLeaf(Split("/tmp/" + dir), base + suffix);
  }

  lemma Apart(name: Text)
    ensures name == Directory(name) + Base(name) && '/' !in Base(name)
    ensures ("/tmp/" + Directory(name))[|"/tmp/" + Directory(name)| - 1] == '/'
  {
  }

  lemma Rejoined(a: Text, b: Text, c: Text, d: Text)
    ensures a + (b + c + d) == a + b + (c + d)
  {
  }

  lemma ResolvedLeaf(cs: seq<Text>, leaf: Text)
    requires cs != [] && cs[|cs| - 1] == [] && '_' in leaf
    ensures Resolved(cs[..|cs| - 1] + [leaf]) == Resolved(cs) + [leaf]
  {
    assert (cs[..|cs| - 1] + [leaf])[..|cs| - 1] == cs[..|cs| - 1];
  }

  /** Two devices share a log file if and only if their addresses, their MACs and the last components of their class names agree and
      the directories before them are one. */
  lemma SameFileExactly(d: Device, e: Device)
    ensures File(d) == File(e) <==> d.ip == e.ip && d.mac == e.mac && Base(d.name) == Base(e.name) && Folder(d.name) == Folder(e.name)
  {
    FileInFolder(d);
    FileInFolder(e);
    if File(d) == File(e) {
      LastOf(Folder(d.name), Leaf(d), Folder(e.name), Leaf(e));
      NoUnderscore(d.ip, d.mac);
      NoUnderscore(e.ip, e.mac);
      hide Dotted, GetMacStr;
      LastSeparator(Base(d.name) + "_" + Dotted(d.ip), GetMacStr(d.mac), Base(e.name) + "_" + Dotted(e.ip), GetMacStr(e.mac), '_');
      LastSeparator(Base(d.name), Dotted(d.ip), Base(e.name), Dotted(e.ip), '_');
      DottedInjective(d.ip, e.ip);
      GetMacStrInjective(d.mac, e.mac);
    }
  }

  lemma LastOf(xs: seq<Text>, x: Text, ys: seq<Text>, y: Text)
    requires xs + [x] == ys + [y]
    ensures xs == ys && x == y
  {
    assert (xs + [x])[|xs|] == x && (ys + [y])[|ys|] == y;
    assert xs == (xs + [x])[..|xs|] && ys == (ys + [y])[..|ys|];
  }

  lemma PlainFolder(name: Text)
    requires '/' !in name
    ensures Base(name) == name && Folder(name) == ["tmp"]
  {
    assert Directory(name) == [];
    TmpFolder();
    assert "/tmp/" + [] == "/tmp/";
  }

  lemma TmpFolder()
    ensures Resolved(Split("/tmp/")) == ["tmp"]
  {
    var p := "/tmp/";
    assert p[4..][1..] == [] && Split(p[4..]) == [[], []];
    assert p[3..][1..] == p[4..] && Split(p[3..]) == [['p'] + [], []] && ['p'] + [] == "p";
    assert p[2..][1..] == p[3..] && Split(p[2..]) == [['m'] + "p", []] && ['m'] + "p" == "mp";
    assert p[1..][1..] == p[2..] && Split(p[1..]) == [['t'] + "mp", []] && ['t'] + "mp" == "tmp";
    var cs: seq<Text> := [[], "tmp", []];
    assert Split(p) == cs;
    ResolvesToTmp(cs);
  }

  lemma ResolvesToTmp(cs: seq<Text>)
    requires |cs| == 3 && cs[0] == [] && cs[1] == "tmp" && (cs[2] == [] || cs[2] == ".")
    ensures Resolved(cs) == ["tmp"]
  {
    assert cs[..2][..1] == cs[..1];
    assert Resolved(cs[..1]) == [];
    assert Resolved(cs[..2]) == ["tmp"];
  }

  /** The file is the one in `/tmp` that the rest of the path spells, exactly when the class name has no slash. */
  lemma FileIs(d: Device)
    ensures File(d) == ["tmp", Path(d)[5..]] <==> '/' !in d.name
  {
    hide File, Folder, Base, Dotted, GetMacStr;
    var leaf := Path(d)[5..];
    assert leaf == d.name + "_" + Dotted(d.ip) + "_" + GetMacStr(d.mac);
    if '/' in d.name {
      assert leaf[IndexOf(d.name, '/')] == '/';
      NotALeaf(d, leaf);
    } else {
      PlainFolder(d.name);
      FileInFolder(d);
    }
  }

  lemma NotALeaf(d: Device, leaf: Text)
    requires '/' in leaf
    ensures File(d) != ["tmp", leaf]
  {
    SplitPlain(Path(d));
    ResolvedFrom(Split(Path(d)));
    hide Resolved, Split, Path;
    if |File(d)| == 2 {
      assert File(d)[1] in File(d);
    }
  }

  /** Devices whose class names have no slash share a log file only if they are the same device. */
  lemma FilesDistinct(d: Device, e: Device)
    requires '/' !in d.name && '/' !in e.name
    ensures File(d) == File(e) <==> d == e
  {
    SameFileExactly(d, e);
    PlainFolder(d.name);
    PlainFolder(e.name);
  }

  /** With a slash they need not be: `.` as a first component goes nowhere. */
  lemma SlashShares(ip: Address, mac: Mac)
    ensures var d, e := Device("a", ip, mac), Device("./a", ip, mac); d != e && File(d) == File(e)
  {
    var d, e := Device("a", ip, mac), Device("./a", ip, mac);
    hide File, Folder;
    PlainFolder("a");
    DotFolder();
    SameFileExactly(d, e);
  }

  lemma DotFolder()
    ensures Base("./a") == "a" && Folder("./a") == ["tmp"]
  {
    var name := "./a";
    assert name[..2] == "./" && Base("./") == [] && [] + ['a'] == "a";
    assert Directory(name) == "./";
    assert "/tmp/" + "./" == "/tmp/./";
    DotSplit();
  }

  lemma DotSplit()
    ensures Resolved(Split("/tmp/./")) == ["tmp"]
  {
    var p := "/tmp/./";
    assert p[6..][1..] == [] && Split(p[6..]) == [[], []];
    assert p[5..][1..] == p[6..] && Split(p[5..]) == [['.'] + [], []] && ['.'] + [] == ".";
    assert p[4..][1..] == p[5..] && Split(p[4..]) == [[], ".", []];
    assert p[3..][1..] == p[4..] && Split(p[3..]) == [['p'] + [], ".", []] && ['p'] + [] == "p";
    assert p[2..][1..] == p[3..] && Split(p[2..]) == [['m'] + "p", ".", []] && ['m'] + "p" == "mp";
    assert p[1..][1..] == p[2..] && Split(p[1..]) == [['t'] + "mp", ".", []] && ['t'] + "mp" == "tmp";
    var cs: seq<Text> := [[], "tmp", ".", []];
    assert Split(p) == cs;
    assert cs[..3][..2] == cs[..2];
    ResolvesToTmp(cs[..3]);
    assert cs[3] == [];
  }
}
