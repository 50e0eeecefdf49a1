/**
 The socket address codec (src/reactor/socket.rs) on a little-endian Linux target: addresses
 written field by field into a `sockaddr_storage` and read back from what the kernel left there.
 */
module SocketAddrs {
  import opened Common

  const STORAGE_SIZE: nat := 128
  const SUN_PATH_OFFSET: nat := 2
  const UNIX_PATH_CAPACITY: nat := 108

  const AF_UNIX: nat := 1
  const AF_INET: nat := 2
  const AF_INET6: nat := 10

  datatype Errno = EINVAL | ENAMETOOLONG

  datatype Result<+T> = Ok(value: T) | Err(error: Errno)

  // ---------- Unix names ----------

  /** The `sun_path` bytes, zero padded, and how many of them are meaningful. */
  datatype UnixPath = UnixPath(bytes: seq<byte>, len: nat) {
    ghost predicate Valid() {
      && |bytes| == UNIX_PATH_CAPACITY && len <= UNIX_PATH_CAPACITY
      && forall i :: len <= i < UNIX_PATH_CAPACITY ==> bytes[i] == 0
    }

    predicate IsUnnamed() { len == 0 }

    predicate IsAbstract() requires Valid() { len > 0 && bytes[0] == 0 }

    /** A filesystem path has no NUL inside and leaves room for its terminator. */
    ghost predicate IsPath() {
      Valid() && 0 < len < UNIX_PATH_CAPACITY && forall i :: 0 <= i < len ==> bytes[i] != 0
    }

    function Encoded(): seq<byte> requires Valid() { bytes[..len] }

    /** What one of the three constructors makes. */
    ghost predicate Constructible() {
      Valid() && (IsUnnamed() || IsPath() || IsAbstract())
    }

    /** The length for `bind` and `connect`: a path counts its terminator, an abstract name has none. */
    function SockaddrLen(): nat
      requires Valid()
    {
      if len == 0 then SUN_PATH_OFFSET
      else if bytes[0] == 0 then SUN_PATH_OFFSET + len
      else SUN_PATH_OFFSET + len + 1
    }
  }

  function Zeros(n: nat): (z: seq<byte>)
    ensures |z| == n && forall i :: 0 <= i < n ==> z[i] == 0
  {
    seq(n, _ => 0)
  }

  /** Copies `from` into `to` at `at`, byte by byte. */
  method CopyInto(to: array<byte>, at: nat, from: seq<byte>)
    requires at + |from| <= to.Length
    modifies to
    ensures to[..] == old(to[..at]) + from + old(to[at + |from|..])
    ensures to[..] == Overwritten(old(to[..]), at, from)
  {
    for i := 0 to |from|
      invariant to[..at] == old(to[..at]) && to[at..at + i] == from[..i]
      invariant to[at + i..] == old(to[at + i..])
    {
      to[at + i] := from[i];
      assert to[at..at + i + 1] == to[at..at + i] + [from[i]];
    }
    assert to[..] == to[..at] + to[at..at + |from|] + to[at + |from|..];
  }

  /** `UnixPath::new`: refuses what the kernel would cut short, rather than truncating it. */
  method NewPath(path: seq<byte>) returns (r: Result<UnixPath>)
    ensures r == Err(EINVAL) <==> path == [] || 0 in path
    ensures r == Err(ENAMETOOLONG) <==> path != [] && 0 !in path && |path| > UNIX_PATH_CAPACITY - 1
    ensures r.Ok? ==> r.value.IsPath() && r.value.Encoded() == path
  {
    if |path| == 0 || 0 in path { return Err(EINVAL); }
    if |path| > UNIX_PATH_CAPACITY - 1 { return Err(ENAMETOOLONG); }
    var bytes := new byte[UNIX_PATH_CAPACITY](_ => 0);
    CopyInto(bytes, 0, path);
    r := Ok(UnixPath(bytes[..], |path|));
  }

  /** `UnixPath::abstract_name`: a leading NUL marks it, and it may contain more of them. */
  method NewAbstract(name: seq<byte>) returns (r: Result<UnixPath>)
    ensures r == Err(EINVAL) <==> name == []
    ensures r == Err(ENAMETOOLONG) <==> |name| > UNIX_PATH_CAPACITY - 1
    ensures r.Ok? ==> r.value.Valid() && r.value.IsAbstract() && r.value.Encoded() == [0] + name
  {
    if |name| == 0 { return Err(EINVAL); }
    if |name| > UNIX_PATH_CAPACITY - 1 { return Err(ENAMETOOLONG); }
    var bytes := new byte[UNIX_PATH_CAPACITY](_ => 0);
    CopyInto(bytes, 1, name);
    assert bytes[..|name| + 1] == [0] + name;
    assert forall i :: |name| < i < UNIX_PATH_CAPACITY ==> bytes[i] == 0;
    r := Ok(UnixPath(bytes[..], |name| + 1));
    assert r.value.Encoded() == bytes[..|name| + 1];
  }

  // ---------- Addresses ----------

  datatype Addr =
    | V4(octets: seq<byte>, port: nat)
    | V6(octets: seq<byte>, port: nat)
    | V6Scoped(octets: seq<byte>, port: nat, scope: nat)
    | Path(path: UnixPath)
  {
    ghost predicate Constructible() {
      match this
      case V4(octets, port) => |octets| == 4 && port < 0x1_0000
      case V6(octets, port) => |octets| == 16 && port < 0x1_0000
      case V6Scoped(octets, port, scope) => |octets| == 16 && port < 0x1_0000 && scope < 0x1_0000_0000
      case Path(path) => path.Constructible()
    }

    function Family(): nat {
      match this
      case V4(_, _) => AF_INET
      case V6(_, _) => AF_INET6
      case V6Scoped(_, _, _) => AF_INET6
      case Path(_) => AF_UNIX
    }

    /** A scope of zero is reported back as a plain address. */
    function Normal(): Addr {
      if V6Scoped? && scope == 0 then V6(octets, port) else this
    }
  }

  /** The sixteen bits of a port, most significant byte first. */
  function BigEndian16(x: nat): seq<byte> requires x < 0x1_0000 { [x / 256, x % 256] }

  function LittleEndian16(x: nat): seq<byte> requires x < 0x1_0000 { [x % 256, x / 256] }

  function LittleEndian32(x: nat): seq<byte>
    requires x < 0x1_0000_0000
  {
    LittleEndian16(x % 0x1_0000) + LittleEndian16(x / 0x1_0000)
  }

  function Big16At(s: seq<byte>, i: nat): nat requires i + 2 <= |s| { s[i] as nat * 256 + s[i + 1] as nat }

  function Little16At(s: seq<byte>, i: nat): nat requires i + 2 <= |s| { s[i] as nat + s[i + 1] as nat * 256 }

  function Little32At(s: seq<byte>, i: nat): nat
    requires i + 4 <= |s|
  {
    Little16At(s, i) + Little16At(s, i + 2) * 0x1_0000
  }

  /** `to` with `from` written over it at `at`. */
  function Overwritten(to: seq<byte>, at: nat, from: seq<byte>): (r: seq<byte>)
    requires at + |from| <= |to|
    ensures |r| == |to|
    ensures forall i :: 0 <= i < |r| ==> r[i] == if at <= i < at + |from| then from[i - at] else to[i]
  {
    to[..at] + from + to[at + |from|..]
  }

  /** `Addr::write_to`: only the fields of the address's own layout are written. */
  method WriteTo(a: Addr, storage: array<byte>) returns (len: nat)
    requires a.Constructible() && storage.Length == STORAGE_SIZE
    modifies storage
    ensures storage[..] == Written(old(storage[..]), a) && len == WrittenLen(a)
    ensures a.V4? ==> len == 16
    ensures a.V6? || a.V6Scoped? ==> len == 28
    ensures a.Path? ==> len == 2 + a.path.len + if a.path.len > 0 && a.path.bytes[0] != 0 then 1 else 0
  {
    match a
    case V4(octets, port) =>
      CopyInto(storage, 0, LittleEndian16(AF_INET));
      CopyInto(storage, 2, BigEndian16(port));
      CopyInto(storage, 4, octets);
      len := 16;
    case V6(octets, port) =>
      CopyInto(storage, 0, LittleEndian16(AF_INET6));
      CopyInto(storage, 2, BigEndian16(port));
      CopyInto(storage, 8, octets);
      CopyInto(storage, 24, LittleEndian32(0));
      len := 28;
    case V6Scoped(octets, port, scope) =>
      CopyInto(storage, 0, LittleEndian16(AF_INET6));
      CopyInto(storage, 2, BigEndian16(port));
      CopyInto(storage, 8, octets);
      CopyInto(storage, 24, LittleEndian32(scope));
      len := 28;
    case Path(path) =>
      CopyInto(storage, 0, LittleEndian16(AF_UNIX));
      CopyInto(storage, SUN_PATH_OFFSET, path.Encoded());
      len := path.SockaddrLen();
  }

  function WrittenLen(a: Addr): nat
    requires a.Constructible()
  {
    match a
    case V4(_, _) => 16
    case V6(_, _) => 28
    case V6Scoped(_, _, _) => 28
    case Path(path) => path.SockaddrLen()
  }

  /** The storage after `write_to`, as one value. */
  function Written(s: seq<byte>, a: Addr): seq<byte>
    requires a.Constructible() && |s| == STORAGE_SIZE
  {
    var family := Overwritten(s, 0, LittleEndian16(a.Family()));
    match a
    case V4(octets, port) => Overwritten(Overwritten(family, 2, BigEndian16(port)), 4, octets)
    case V6(octets, port) =>
      Overwritten(Overwritten(Overwritten(family, 2, BigEndian16(port)), 8, octets), 24, LittleEndian32(0))
    case V6Scoped(octets, port, scope) =>
      Overwritten(Overwritten(Overwritten(family, 2, BigEndian16(port)), 8, octets), 24, LittleEndian32(scope))
    case Path(path) => Overwritten(family, SUN_PATH_OFFSET, path.Encoded())
  }

  /** How many bytes before the first NUL, or all of them. */
  function FirstNul(s: seq<byte>): (n: nat)
    ensures n <= |s|
    ensures forall i :: 0 <= i < n ==> s[i] != 0
    ensures n < |s| ==> s[n] == 0
  {
    if s == [] || s[0] == 0 then 0 else 1 + FirstNul(s[1..])
  }

  /** The part of `sun_path` the kernel says it wrote, clamped to the field. */
  function Reported(len: nat): nat {
    var past := if len > SUN_PATH_OFFSET then len - SUN_PATH_OFFSET else 0;
    if past < UNIX_PATH_CAPACITY then past else UNIX_PATH_CAPACITY
  }

  /** Which of the three names `sun_path` holds, told apart by the reported length. */
  function NameLen(name: seq<byte>): nat {
    if name == [] then 0 else if name[0] == 0 then |name| else FirstNul(name)
  }

  function ReadPath(s: seq<byte>, len: nat): UnixPath
    requires |s| == STORAGE_SIZE
  {
    var name := s[SUN_PATH_OFFSET..SUN_PATH_OFFSET + Reported(len)];
    UnixPath(name[..NameLen(name)] + Zeros(UNIX_PATH_CAPACITY - NameLen(name)), NameLen(name))
  }

  /** `Addr::read_from` as one value. */
  function Read(s: seq<byte>, len: nat): Option<Addr>
    requires |s| == STORAGE_SIZE
  {
    var family := Little16At(s, 0);
    if family == AF_INET then Some(V4(s[4..8], Big16At(s, 2)))
    else if family == AF_INET6 then
      var scope := Little32At(s, 24);
      Some(if scope == 0 then V6(s[8..24], Big16At(s, 2)) else V6Scoped(s[8..24], Big16At(s, 2), scope))
    else if family == AF_UNIX then Some(Path(ReadPath(s, len)))
    else None
  }

  /** `Addr::read_from`. */
  method ReadFrom(storage: array<byte>, len: nat) returns (r: Option<Addr>)
    requires storage.Length == STORAGE_SIZE
    ensures r == Read(storage[..], len)
  {
    var family := Little16At(storage[..], 0);
    if family == AF_INET {
      return Some(V4(storage[4..8], Big16At(storage[..], 2)));
    }
    if family == AF_INET6 {
      var scope := Little32At(storage[..], 24);
      return Some(if scope == 0 then V6(storage[8..24], Big16At(storage[..], 2))
                  else V6Scoped(storage[8..24], Big16At(storage[..], 2), scope));
    }
    if family != AF_UNIX {
      return None;
    }
    var path := ReadPathFrom(storage, len);
    r := Some(Path(path));
  }

  /** The `AF_UNIX` arm: copies what was reported, finds where the name ends, clears the rest. */
  method ReadPathFrom(storage: array<byte>, len: nat) returns (path: UnixPath)
    requires storage.Length == STORAGE_SIZE
    ensures path == ReadPath(storage[..], len)
  {
    var reported := Reported(len);
    ghost var name := storage[..][SUN_PATH_OFFSET..SUN_PATH_OFFSET + reported];
    var bytes := CopyOut(storage, reported);
    var kept := NameEnd(bytes, reported);
    ghost var before := bytes[..];
    assert before[..kept] == before[..reported][..kept];
    ClearFrom(bytes, kept);
    path := UnixPath(bytes[..], kept);
  }

  /** A zeroed `sun_path` with the reported part of the kernel's copied in. */
  method CopyOut(storage: array<byte>, reported: nat) returns (bytes: array<byte>)
    requires storage.Length == STORAGE_SIZE && reported <= UNIX_PATH_CAPACITY
    ensures fresh(bytes) && bytes.Length == UNIX_PATH_CAPACITY
    ensures bytes[..reported] == storage[..][SUN_PATH_OFFSET..SUN_PATH_OFFSET + reported]
  {
    bytes := new byte[UNIX_PATH_CAPACITY](_ => 0);
    var name := storage[SUN_PATH_OFFSET..SUN_PATH_OFFSET + reported];
    assert name == storage[..][SUN_PATH_OFFSET..SUN_PATH_OFFSET + reported];
    CopyInto(bytes, 0, name);
    assert bytes[..reported] == name;
  }

  method NameEnd(bytes: array<byte>, reported: nat) returns (kept: nat)
    requires reported <= bytes.Length
    ensures kept == NameLen(bytes[..reported]) <= reported
  {
    if reported == 0 {
      kept := 0;
    } else if bytes[0] == 0 {
      kept := reported;
    } else {
      kept := Position(bytes, reported);
    }
  }

  /** Where the first NUL among the first `limit` bytes is, or `limit`. */
  method Position(bytes: array<byte>, limit: nat) returns (n: nat)
    requires limit <= bytes.Length
    ensures n == FirstNul(bytes[..limit])
  {
    n := 0;
    while n < limit && bytes[n] != 0
      invariant n <= limit && forall i :: 0 <= i < n ==> bytes[i] != 0
    {
      n := n + 1;
    }
    FirstNulIs(bytes[..limit], n);
  }

  method ClearFrom(bytes: array<byte>, kept: nat)
    requires kept <= bytes.Length
    modifies bytes
    ensures bytes[..] == old(bytes[..kept]) + Zeros(bytes.Length - kept)
  {
    for i := kept to bytes.Length
      invariant bytes[..kept] == old(bytes[..kept])
      invariant forall j :: kept <= j < i ==> bytes[j] == 0
    {
      bytes[i] := 0;
    }
    assert bytes[kept..] == Zeros(bytes.Length - kept);
    assert bytes[..] == bytes[..kept] + bytes[kept..];
  }

  lemma {:induction false} FirstNulIs(s: seq<byte>, n: nat)
    requires n <= |s| && (forall i :: 0 <= i < n ==> s[i] != 0) && (n < |s| ==> s[n] == 0)
    ensures FirstNul(s) == n
  {
    if n > 0 { FirstNulIs(s[1..], n - 1); }
  }

  // ---------- The bytes ----------

  /** `storage` starts with a family below 256 and a port in network order, whatever the host's order is. */
  ghost predicate Headed(storage: seq<byte>, family: byte, port: nat) {
    |storage| >= 4 && storage[0] == family && storage[1] == 0 && storage[2] as nat * 256 + storage[3] as nat == port
  }

  lemma WrittenV4Layout(s: seq<byte>, a: Addr)
    requires |s| == STORAGE_SIZE && a.Constructible() && a.V4?
    ensures var w := Written(s, a);
            Headed(w, 2, a.port) && w[4..8] == a.octets && w[8..] == s[8..]
  {
  }

  lemma WrittenV6Layout(s: seq<byte>, a: Addr)
    requires |s| == STORAGE_SIZE && a.Constructible() && (a.V6? || a.V6Scoped?)
    ensures var w := Written(s, a);
            && Headed(w, 10, a.port) && w[8..24] == a.octets && w[4..8] == s[4..8] && w[28..] == s[28..]
            && w[24] as nat + w[25] as nat * 0x100 + w[26] as nat * 0x1_0000 + w[27] as nat * 0x100_0000
               == if a.V6? then 0 else a.scope
  {
    var scope := if a.V6? then 0 else a.scope;
    var low, high := scope % 0x1_0000, scope / 0x1_0000;
    assert scope == low + high * 0x1_0000;
    var field, w := LittleEndian32(scope), Written(s, a);
    assert field == [low % 256, low / 256, high % 256, high / 256];
    assert forall i :: 0 <= i < 4 ==> w[24 + i] == field[i];
  }

  lemma WrittenPathLayout(s: seq<byte>, a: Addr)
    requires |s| == STORAGE_SIZE && a.Constructible() && a.Path?
    ensures var w := Written(s, a);
            && w[0] == 1 && w[1] == 0 && w[2..2 + a.path.len] == a.path.bytes[..a.path.len]
            && w[2 + a.path.len..] == s[2 + a.path.len..]
  {
  }

  /** What is read back byte by byte: the family decides, and nothing is said of families not spoken. */
  lemma ReadLayout(s: seq<byte>, len: nat)
    requires |s| == STORAGE_SIZE
    ensures s[..2] == [2, 0] ==> Read(s, len) == Some(V4(s[4..8], s[2] as nat * 256 + s[3] as nat))
    ensures s[..2] == [10, 0] ==>
              var scope := s[24] as nat + s[25] as nat * 0x100 + s[26] as nat * 0x1_0000 + s[27] as nat * 0x100_0000;
              var port := s[2] as nat * 256 + s[3] as nat;
              Read(s, len) == Some(if scope == 0 then V6(s[8..24], port) else V6Scoped(s[8..24], port, scope))
    ensures s[..2] == [1, 0] <==> Read(s, len).Some? && Read(s, len).value.Path?
    ensures s[..2] != [1, 0] && s[..2] != [2, 0] && s[..2] != [10, 0] <==> Read(s, len) == None
  {
    assert s[..2] == [s[0], s[1]];
  }

  /**
   A name read back is what the kernel reported of `sun_path`, all of it if it starts with NUL and
   up to its first NUL otherwise.
   */
  lemma ReadPathLayout(s: seq<byte>, len: nat)
    requires |s| == STORAGE_SIZE
    ensures var path, reported := ReadPath(s, len), if len <= 2 then 0 else Min(len - 2, 108);
            && path.len <= reported && path.bytes[..path.len] == s[2..2 + path.len]
            && (reported > 0 && s[2] == 0 ==> path.len == reported)
            && (reported > 0 && s[2] != 0 ==> 0 !in s[2..2 + path.len])
            && (reported > 0 && s[2] != 0 && path.len < reported ==> s[2 + path.len] == 0)
  {
    var name := s[2..2 + Reported(len)];
    assert forall i :: 0 <= i < |name| ==> name[i] == s[2 + i];
  }

  // ---------- Round trips ----------

  /** Every name read back is padded with zeros and fits, whatever the kernel reported. */
  lemma ReadNamesAreClean(s: seq<byte>, len: nat)
    requires |s| == STORAGE_SIZE && Read(s, len).Some? && Read(s, len).value.Path?
    ensures Read(s, len).value.path.Valid()
  {
  }

  lemma Endianness(x: nat, y: nat)
    requires x < 0x1_0000 && y < 0x1_0000_0000
    ensures Big16At(BigEndian16(x), 0) == x && Little16At(LittleEndian16(x), 0) == x
    ensures Little32At(LittleEndian32(y), 0) == y
  {
    assert y == y % 0x1_0000 + (y / 0x1_0000) * 0x1_0000;
  }

  lemma FamilyAt(s: seq<byte>, family: nat)
    requires |s| >= 2 && family < 0x1_0000 && s[0] == family % 256 && s[1] == family / 256
    ensures Little16At(s, 0) == family
  {
  }

  lemma PortAt(s: seq<byte>, port: nat)
    requires |s| >= 4 && port < 0x1_0000 && s[2] == port / 256 && s[3] == port % 256
    ensures Big16At(s, 2) == port
  {
  }

  lemma ScopeAt(s: seq<byte>, scope: nat)
    requires |s| >= 28 && scope < 0x1_0000_0000 && s[24..28] == LittleEndian32(scope)
    ensures Little32At(s, 24) == scope
  {
    Endianness(0, scope);
    var field := s[24..28];
    assert s[24] == field[0] && s[25] == field[1] && s[26] == field[2] && s[27] == field[3];
    assert Little32At(field, 0) == scope;
  }

  lemma RoundTripV4(s: seq<byte>, octets: seq<byte>, port: nat)
    requires |s| == STORAGE_SIZE && V4(octets, port).Constructible()
    ensures Read(Written(s, V4(octets, port)), 16) == Some(V4(octets, port))
  {
    var w := Written(s, V4(octets, port));
    FamilyAt(w, AF_INET);
    PortAt(w, port);
    assert w[4..8] == octets;
  }

  /** Both IPv6 forms are written alike, with their scope. */
  function WrittenV6(s: seq<byte>, octets: seq<byte>, port: nat, scope: nat): seq<byte>
    requires |s| == STORAGE_SIZE && |octets| == 16 && port < 0x1_0000 && scope < 0x1_0000_0000
  {
    var family := Overwritten(s, 0, LittleEndian16(AF_INET6));
    Overwritten(Overwritten(Overwritten(family, 2, BigEndian16(port)), 8, octets), 24, LittleEndian32(scope))
  }

  lemma RoundTripV6(s: seq<byte>, octets: seq<byte>, port: nat, scope: nat, len: nat)
    requires |s| == STORAGE_SIZE && |octets| == 16 && port < 0x1_0000 && scope < 0x1_0000_0000
    ensures Read(WrittenV6(s, octets, port, scope), len)
            == Some(if scope == 0 then V6(octets, port) else V6Scoped(octets, port, scope))
  {
    var w := WrittenV6(s, octets, port, scope);
    FamilyAt(w, AF_INET6);
    PortAt(w, port);
    assert w[24..28] == LittleEndian32(scope);
    ScopeAt(w, scope);
    assert w[8..24] == octets;
  }

  lemma RoundTripInternet(s: seq<byte>, a: Addr)
    requires |s| == STORAGE_SIZE && a.Constructible() && !a.Path?
    ensures Read(Written(s, a), WrittenLen(a)) == Some(a.Normal())
  {
    match a
    case V4(octets, port) => RoundTripV4(s, octets, port);
    case V6(octets, port) => RoundTripV6(s, octets, port, 0, 28);
    case V6Scoped(octets, port, scope) => RoundTripV6(s, octets, port, scope, 28);
  }

  /** What of `sun_path` is reported back: the name, and for a path the byte after it as it was. */
  ghost function Returned(s: seq<byte>, path: UnixPath): seq<byte>
    requires |s| == STORAGE_SIZE && path.Constructible()
  {
    path.Encoded() + if path.IsPath() then [s[SUN_PATH_OFFSET + path.len]] else []
  }

  lemma PathIsReadAsPath(s: seq<byte>, path: UnixPath)
    requires |s| == STORAGE_SIZE && path.Constructible()
    ensures var w, len := Written(s, Path(path)), WrittenLen(Path(path));
            Read(w, len) == Some(Path(ReadPath(w, len)))
  {
    FamilyAt(Written(s, Path(path)), AF_UNIX);
  }

  lemma ReportedLength(path: UnixPath)
    requires path.Constructible()
    ensures Reported(path.SockaddrLen()) == path.len + if path.IsPath() then 1 else 0
  {
  }

  lemma ReportedName(s: seq<byte>, path: UnixPath)
    requires |s| == STORAGE_SIZE && path.Constructible()
    ensures var w, len := Written(s, Path(path)), WrittenLen(Path(path));
            w[SUN_PATH_OFFSET..SUN_PATH_OFFSET + Reported(len)] == Returned(s, path)
  {
    var w := Written(s, Path(path));
    ReportedLength(path);
    assert w[SUN_PATH_OFFSET..SUN_PATH_OFFSET + path.len] == path.Encoded();
    if path.IsPath() {
      var n := SUN_PATH_OFFSET + path.len;
      assert w[n] == s[n];
      assert w[SUN_PATH_OFFSET..n + 1] == w[SUN_PATH_OFFSET..n] + [w[n]];
    }
  }

  lemma PaddedIsItself(path: UnixPath)
    requires path.Valid()
    ensures path == UnixPath(path.Encoded() + Zeros(UNIX_PATH_CAPACITY - path.len), path.len)
  {
    assert path.bytes == path.bytes[..path.len] + Zeros(UNIX_PATH_CAPACITY - path.len);
  }

  /**
   A Unix name comes back unless it is a filesystem path written over a storage whose byte where
   the terminator belongs was not zero: the length counts a terminator that is never written.
   */
  lemma RoundTripPath(s: seq<byte>, path: UnixPath)
    requires |s| == STORAGE_SIZE && path.Constructible()
    ensures Read(Written(s, Path(path)), WrittenLen(Path(path))) == Some(Path(path))
            <==> (path.IsPath() ==> s[SUN_PATH_OFFSET + path.len] == 0)
  {
    PathIsReadAsPath(s, path);
    ReportedName(s, path);
    ReadBack(s, path);
    PaddedIsItself(path);
  }

  /** How much of what is reported counts as the name, and that it starts as it was written. */
  lemma ReadBack(s: seq<byte>, path: UnixPath)
    requires |s| == STORAGE_SIZE && path.Constructible()
    ensures var name := Returned(s, path);
            && |name| >= path.len && name[..path.len] == path.Encoded()
            && NameLen(name) == if path.IsPath() && s[SUN_PATH_OFFSET + path.len] != 0 then path.len + 1 else path.len
  {
    var name := Returned(s, path);
    if path.IsPath() {
      assert forall i :: 0 <= i < path.len ==> name[i] == path.bytes[i];
      FirstNulIs(name, if s[SUN_PATH_OFFSET + path.len] == 0 then path.len else path.len + 1);
    }
  }

  /** On cleared storage, which is what every caller passes, each address survives the round trip. */
  lemma RoundTrip(a: Addr)
    requires a.Constructible()
    ensures Read(Written(Zeros(STORAGE_SIZE), a), WrittenLen(a)) == Some(a.Normal())
  {
    if a.Path? { RoundTripPath(Zeros(STORAGE_SIZE), a.path); } else { RoundTripInternet(Zeros(STORAGE_SIZE), a); }
  }

  /** Without clearing it can fail: the name grows by the byte left behind. */
  lemma StaleStorageExample()
    ensures var s := Zeros(STORAGE_SIZE)[3 := 98];
            var path := UnixPath([97] + Zeros(UNIX_PATH_CAPACITY - 1), 1);
            path.IsPath() && Read(Written(s, Path(path)), WrittenLen(Path(path))) != Some(Path(path))
  {
    RoundTripPath(Zeros(STORAGE_SIZE)[3 := 98], UnixPath([97] + Zeros(UNIX_PATH_CAPACITY - 1), 1));
  }
}
