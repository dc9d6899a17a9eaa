/** The registration record a client sends and the class name the server reads from it. */
module Registration {

  const BUFLEN := 2048
  const DEVID_LEN := 33
  const ETH_ALEN := 6

  type Text = seq<char>
  type byte = b: int | 0 <= b < 256
  type Mac = m: seq<byte> | |m| == ETH_ALEN witness [0, 0, 0, 0, 0, 0]

  /** `struct reg_t`: a fixed array of characters and the MAC. */
  datatype Record = Record(name: Text, mac: Mac) {
    predicate Valid() { |name| == DEVID_LEN }
  }

  function Zeros(n: nat): (r: Text)
    ensures |r| == n && forall i :: 0 <= i < n ==> r[i] == '\0'
  {
    seq(n, _ => '\0')
  }

  /** The characters of a C string: everything before the first NUL. */
  function CString(buf: Text): (r: Text)
    ensures r <= buf && '\0' !in r
    ensures |r| < |buf| ==> buf[|r|] == '\0'
    ensures forall i :: 0 <= i < |buf| && buf[i] == '\0' ==> |r| <= i
  {
    if buf == [] || buf[0] == '\0' then [] else [buf[0]] + CString(buf[1..])
  }

  function Min(a: int, b: int): int { if a < b then a else b }

  /** `strncpy(dst, src, n)`: at most `n` characters, zero padded, not terminated when `src` fills it. */
  function Strncpy(src: Text, n: nat): (r: Text)
    ensures |r| == n
  {
    src[..Min(|src|, n)] + Zeros(n - Min(|src|, n))
  }

  /** The record a client writes after connecting. */
  function ClientRecord(devid: Text, mac: Mac): Record {
    Record(Strncpy(devid, DEVID_LEN), mac)
  }

  /** The class name the server uses: the last byte of the array is overwritten by NUL first. */
  function ServerName(rec: Record): Text
    requires rec.Valid()
  {
    CString(rec.name[DEVID_LEN - 1 := '\0'])
  }

  lemma {:induction false} CStringIs(buf: Text, s: Text)
    requires s <= buf && '\0' !in s && |s| < |buf| && buf[|s|] == '\0'
    ensures CString(buf) == s
  {
    if s != [] {
      assert s[0] == buf[0];
      CStringIs(buf[1..], s[1..]);
    }
  }

  /** Whatever the device id, the server sees its first 32 characters and the same MAC. */
  lemma RegistrationRoundTrip(devid: Text, mac: Mac)
    requires '\0' !in devid
    ensures ClientRecord(devid, mac).Valid()
    ensures ServerName(ClientRecord(devid, mac)) == devid[..Min(|devid|, DEVID_LEN - 1)]
    ensures ClientRecord(devid, mac).mac == mac
  {
    var kept := devid[..Min(|devid|, DEVID_LEN - 1)];
    var buf := ClientRecord(devid, mac).name[DEVID_LEN - 1 := '\0'];
    assert buf[..|kept|] == kept;
    CStringIs(buf, kept);
  }

  /** A server name always fits the class object's array together with its terminating NUL, so it is copied whole. */
  lemma ServerNameFits(rec: Record)
    requires rec.Valid()
    ensures |ServerName(rec)| < DEVID_LEN && '\0' !in ServerName(rec)
    ensures CString(Strncpy(ServerName(rec), DEVID_LEN)) == ServerName(rec)
  {
    var name := ServerName(rec);
    assert rec.name[DEVID_LEN - 1 := '\0'][DEVID_LEN - 1] == '\0';
    var buf := Strncpy(name, DEVID_LEN);
    assert buf[..|name|] == name;
    CStringIs(buf, name);
  }
}
