/** The wire format of one package: the encoding constructors and the decoding view. */
module TcpPackage {
  import opened Seqs

  type Byte = x: int | 0 <= x < 256

  const COMMAND_OFFSET: nat := 4
  const FLAGS_OFFSET: nat := 5
  const CORRELATION_OFFSET: nat := 6
  const AUTH_OFFSET: nat := 22
  const MANDATORY_SIZE: nat := AUTH_OFFSET
  const AUTHENTICATED: Byte := 1

  datatype Credentials = Credentials(login: seq<Byte>, password: seq<Byte>)

  datatype Package = Package(
    command: Byte, flags: Byte, correlation: seq<Byte>, credentials: Option<Credentials>, message: seq<Byte>)

  // ---- integers on the wire ----

  /** A 32-bit value as a little-endian store writes it. */
  function Le32(v: nat): (b: seq<Byte>)
    requires v < TWO_TO_32
    ensures |b| == 4
  {
    [v % 0x100, v / 0x100 % 0x100, v / 0x1_0000 % 0x100, v / 0x100_0000]
  }

  function Word32(b: seq<Byte>): (v: nat)
    requires |b| == 4
    ensures v < TWO_TO_32
  {
    var b0: int, b1: int, b2: int, b3: int := b[0], b[1], b[2], b[3];
    b0 + 0x100 * b1 + 0x1_0000 * b2 + 0x100_0000 * b3
  }

  /** Four bytes as a little-endian load of an `int` reads them. */
  function Signed32(b: seq<Byte>): int
    requires |b| == 4
  {
    ToInt32(Word32(b))
  }

  lemma LoadStore(v: nat)
    requires v < TWO_TO_32
    ensures Word32(Le32(v)) == v
  {
    var q1, q2 := v / 0x100, v / 0x1_0000;
    assert v == v % 0x100 + 0x100 * q1 && q1 == q1 % 0x100 + 0x100 * q2 && q2 == q2 % 0x100 + 0x100 * (v / 0x100_0000);
  }

  lemma StoreLoad(b: seq<Byte>)
    requires |b| == 4
    ensures Le32(Word32(b)) == b
  {
    var b1: int, b2: int, b3: int := b[1], b[2], b[3];
    assert Word32(b) / 0x100 == b1 + 0x100 * b2 + 0x1_0000 * b3;
    assert Word32(b) / 0x1_0000 == b2 + 0x100 * b3;
    assert Word32(b) / 0x100_0000 == b3;
  }

  /** The value of bytes, the first of which counts least. */
  function LittleEndian(b: seq<Byte>): nat {
    if b == [] then 0 else b[0] + 0x100 * LittleEndian(b[1..])
  }

  /** The load reads the bytes by position, and the store writes the bytes that so read as the value. */
  lemma WordIsLittleEndian(b: seq<Byte>, v: nat)
    requires |b| == 4 && v < TWO_TO_32
    ensures Word32(b) == LittleEndian(b)
    ensures Le32(v) == b <==> LittleEndian(b) == v
  {
    var t1 := b[1..];
    var t2 := t1[1..];
    var t3 := t2[1..];
    assert t3[1..] == [] && t1[0] == b[1] && t2[0] == b[2] && t3[0] == b[3];
    assert LittleEndian(t3) == b[3];
    var b2: int, b3: int := b[2], b[3];
    assert LittleEndian(t2) == b2 + 0x100 * b3;
    LoadStore(v);
    StoreLoad(b);
  }

  // ---- encoding ----

  /** The test `(char)flags & (char)tcp_flags::authenticated`: the lowest bit. */
  predicate HasAuthBit(flags: Byte) { flags % 2 == 1 }

  function AuthBlock(c: Option<Credentials>): seq<Byte> {
    match c
    case None => []
    case Some(Credentials(login, password)) => [|login| % 256] + login + [|password| % 256] + password
  }

  /** The frame of a package: length prefix, command, flags, correlation id, credentials, message. */
  function Bytes(p: Package): seq<Byte> {
    var length := 2 + |p.correlation| + |AuthBlock(p.credentials)| + |p.message|;
    Le32(ToUint32(length)) + [p.command, p.flags] + p.correlation + AuthBlock(p.credentials) + p.message
  }

  /** `memcpy` into an allocated package. */
  method CopyTo(package: array<Byte>, at: nat, source: seq<Byte>)
    requires at + |source| <= package.Length
    modifies package
    ensures package[..at + |source|] == old(package[..at]) + source
  {
    for i := 0 to |source|
      invariant package[..at] == old(package[..at])
      invariant package[at..at + i] == source[..i]
    {
      package[at + i] := source[i];
    }
    assert package[..at + |source|] == package[..at] + package[at..at + |source|];
  }

  /** Write length prefix, command, flags and correlation id. */
  method WriteHeader(package: array<Byte>, length: nat, command: Byte, flags: Byte, correlation: seq<Byte>)
    requires |correlation| == 16 && MANDATORY_SIZE <= package.Length
    modifies package
    ensures package[..MANDATORY_SIZE] == Le32(ToUint32(length)) + [command, flags] + correlation
  {
    CopyTo(package, 0, Le32(ToUint32(length)));
    CopyTo(package, COMMAND_OFFSET, [command]);
    CopyTo(package, FLAGS_OFFSET, [flags]);
    CopyTo(package, CORRELATION_OFFSET, correlation);
    Assoc(Le32(ToUint32(length)), [command], [flags]);
    assert [command] + [flags] == [command, flags];
  }

  /** The unauthenticated constructor. It leaves the package null when the flags ask for credentials. */
  method EncodePlain(command: Byte, flags: Byte, correlation: seq<Byte>, message: seq<Byte>)
    returns (package: array?<Byte>)
    requires |correlation| == 16
    ensures package == null <==> HasAuthBit(flags)
    ensures package != null ==>
              fresh(package) && package[..] == Bytes(Package(command, flags, correlation, None, message))
  {
    if HasAuthBit(flags) {
      return null;
    }
    var length := 18 + |message|;
    package := new Byte[length + 4];
    WriteHeader(package, length, command, flags, correlation);
    CopyTo(package, MANDATORY_SIZE, message);
    assert package[..] == package[..package.Length];
  }

  /** Write login size, login, password size and password behind the correlation id. */
  method WriteCredentials(package: array<Byte>, login: seq<Byte>, password: seq<Byte>)
    returns (messageOffset: nat)
    requires AUTH_OFFSET + 1 + |login| + 1 + |password| <= package.Length
    modifies package
    ensures messageOffset == AUTH_OFFSET + 1 + |login| + 1 + |password|
    ensures package[..messageOffset]
         == old(package[..AUTH_OFFSET]) + AuthBlock(Some(Credentials(login, password)))
  {
    ghost var header := package[..AUTH_OFFSET];
    CopyTo(package, AUTH_OFFSET, [|login| % 256]);
    CopyTo(package, AUTH_OFFSET + 1, login);
    ghost var loginPart := [|login| % 256] + login;
    Assoc(header, [|login| % 256], login);
    assert package[..AUTH_OFFSET + 1 + |login|] == header + loginPart;
    var passwordSizeOffset := AUTH_OFFSET + 1 + |login|;
    CopyTo(package, passwordSizeOffset, [|password| % 256]);
    CopyTo(package, passwordSizeOffset + 1, password);
    messageOffset := passwordSizeOffset + 1 + |password|;
    Assoc(header, loginPart, [|password| % 256]);
    Assoc(header, loginPart + [|password| % 256], password);
  }

  /** The authenticated constructor. It leaves the package null when the flags do not ask for
      credentials, and stores each size in one byte, cutting it to eight bits. */
  method EncodeAuthenticated(
    command: Byte, flags: Byte, correlation: seq<Byte>, login: seq<Byte>, password: seq<Byte>, message: seq<Byte>)
    returns (package: array?<Byte>)
    requires |correlation| == 16
    ensures package == null <==> !HasAuthBit(flags)
    ensures package != null ==>
              && fresh(package)
              && package[..]
              == Bytes(Package(command, flags, correlation, Some(Credentials(login, password)), message))
  {
    if !HasAuthBit(flags) {
      return null;
    }
    var length := 18 + 1 + |login| + 1 + |password| + |message|;
    package := new Byte[length + 4];
    WriteHeader(package, length, command, flags, correlation);
    var messageOffset := WriteCredentials(package, login, password);
    CopyTo(package, messageOffset, message);
    assert package[..] == package[..package.Length];
  }

  // ---- decoding ----

  /** The bytes the view constructor reads lie inside the frame. */
  predicate InBounds(b: seq<Byte>) {
    |b| >= MANDATORY_SIZE && b[FLAGS_OFFSET] == AUTHENTICATED ==>
      |b| > AUTH_OFFSET && AUTH_OFFSET + 1 + b[AUTH_OFFSET] < |b|
  }

  predicate IsAuthenticated(b: seq<Byte>)
    requires |b| >= MANDATORY_SIZE
  {
    b[FLAGS_OFFSET] == AUTHENTICATED
  }

  function LoginSize(b: seq<Byte>): nat
    requires |b| > AUTH_OFFSET
  {
    b[AUTH_OFFSET]
  }

  const LOGIN_OFFSET: nat := AUTH_OFFSET + 1

  function PasswordOffset(b: seq<Byte>): nat
    requires |b| > AUTH_OFFSET
  {
    LOGIN_OFFSET + LoginSize(b) + 1
  }

  function PasswordSize(b: seq<Byte>): nat
    requires |b| > AUTH_OFFSET && LOGIN_OFFSET + LoginSize(b) < |b|
  {
    b[LOGIN_OFFSET + LoginSize(b)]
  }

  /** The checks of the view constructor: the view is valid afterwards. */
  predicate ViewValid(b: seq<Byte>)
    requires InBounds(b)
  {
    && |b| >= MANDATORY_SIZE
    && (IsAuthenticated(b) ==> |b| >= MANDATORY_SIZE + 1 + LoginSize(b) + 1 + PasswordSize(b))
  }

  function MessageOffset(b: seq<Byte>): nat
    requires InBounds(b) && ViewValid(b)
  {
    if IsAuthenticated(b) then PasswordOffset(b) + PasswordSize(b) else MANDATORY_SIZE
  }

  /** Computed in `unsigned int`. */
  function MessageSize(b: seq<Byte>): nat
    requires InBounds(b) && ViewValid(b)
  {
    ToUint32(|b| - MessageOffset(b))
  }

  function Login(b: seq<Byte>): seq<Byte>
    requires InBounds(b) && ViewValid(b) && IsAuthenticated(b)
  {
    b[LOGIN_OFFSET..LOGIN_OFFSET + LoginSize(b)]
  }

  function Password(b: seq<Byte>): seq<Byte>
    requires InBounds(b) && ViewValid(b) && IsAuthenticated(b)
  {
    b[PasswordOffset(b)..PasswordOffset(b) + PasswordSize(b)]
  }

  function Message(b: seq<Byte>): (m: seq<Byte>)
    requires InBounds(b) && ViewValid(b)
    ensures |b| < TWO_TO_32 ==> m == b[MessageOffset(b)..]
  {
    b[MessageOffset(b)..MessageOffset(b) + Min(MessageSize(b), |b| - MessageOffset(b))]
  }

  function CredentialsOf(b: seq<Byte>): Option<Credentials>
    requires InBounds(b) && ViewValid(b)
  {
    if IsAuthenticated(b) then Some(Credentials(Login(b), Password(b))) else None
  }

  /** What the accessors of a view on `b` return together; None for a view that is not valid. */
  function Decode(b: seq<Byte>): Option<Package>
    requires InBounds(b)
  {
    if !ViewValid(b) then None
    else
      Some(Package(b[COMMAND_OFFSET], b[FLAGS_OFFSET], b[CORRELATION_OFFSET..AUTH_OFFSET],
                   CredentialsOf(b), Message(b)))
  }

  // ---- the two directions ----

  /** The header, the credentials and the message lie one after the other and fill the frame. */
  lemma Tiling(b: seq<Byte>)
    requires InBounds(b) && ViewValid(b) && |b| < TWO_TO_32
    ensures MessageOffset(b) + MessageSize(b) == |b|
    ensures b[AUTH_OFFSET..] == AuthBlock(CredentialsOf(b)) + Message(b)
  {
    if IsAuthenticated(b) {
      var s := b[AUTH_OFFSET..];
      var n, m := LoginSize(b), PasswordSize(b);
      Shift(b, AUTH_OFFSET, 1, n + 1);
      Shift(b, AUTH_OFFSET, n + 2, n + 2 + m);
      Shift(b, AUTH_OFFSET, n + 2 + m, |s|);
      CutBlock(s, n, m);
      assert CredentialsOf(b) == Some(Credentials(s[1..n + 1], s[n + 2..n + 2 + m]));
      assert Message(b) == s[n + 2 + m..];
    } else {
      assert AuthBlock(CredentialsOf(b)) + Message(b) == Message(b);
    }
  }

  lemma CutBlock(s: seq<Byte>, n: nat, m: nat)
    requires n < 256 && m < 256 && n + m + 2 <= |s| && s[0] == n && s[n + 1] == m
    ensures s == AuthBlock(Some(Credentials(s[1..n + 1], s[n + 2..n + 2 + m]))) + s[n + 2 + m..]
  {
  }

  /** A package one of the two constructors can build: credentials exactly with the flag bit. */
  predicate Encodable(p: Package) {
    |p.correlation| == 16 && (p.credentials.Some? <==> HasAuthBit(p.flags))
  }

  /** The byte ranges of an encoded package. */
  lemma BytesLayout(p: Package)
    requires |p.correlation| == 16
    ensures var b := Bytes(p); var block := AuthBlock(p.credentials);
      && |b| == 22 + |block| + |p.message|
      && b[..4] == Le32(ToUint32(|b| - 4))
      && b[4] == p.command && b[5] == p.flags && b[6..22] == p.correlation
      && b[22..] == block + p.message && b[22 + |block|..] == p.message
  {
  }

  /** `b` holds these credentials behind its header, their sizes cut to eight bits, and then the
      message. */
  ghost predicate Holds(b: seq<Byte>, c: Credentials, message: seq<Byte>) {
    var p := LOGIN_OFFSET + |c.login| + 1;
    && |b| == p + |c.password| + |message|
    && b[AUTH_OFFSET] == |c.login| % 256 && b[LOGIN_OFFSET..p - 1] == c.login
    && b[p - 1] == |c.password| % 256 && b[p..p + |c.password|] == c.password
    && b[p + |c.password|..] == message
  }

  lemma BlockHolds(b: seq<Byte>, c: Credentials, message: seq<Byte>)
    requires |b| >= AUTH_OFFSET && Laid(b[AUTH_OFFSET..], c, message)
    ensures Holds(b, c, message)
  {
  }

  lemma Shift(b: seq<Byte>, k: nat, i: nat, j: nat)
    requires i <= j && k + j <= |b|
    ensures b[k..][i..j] == b[k + i..k + j]
  {
  }

  ghost predicate Laid(s: seq<Byte>, c: Credentials, message: seq<Byte>) {
    var n, m := |c.login|, |c.password|;
    && |s| == n + m + 2 + |message|
    && s[0] == n % 256 && s[1..n + 1] == c.login
    && s[n + 1] == m % 256 && s[n + 2..n + 2 + m] == c.password && s[n + 2 + m..] == message
  }

  lemma BlockLaid(c: Credentials, message: seq<Byte>)
    ensures Laid(AuthBlock(Some(c)) + message, c, message)
  {
  }

  /** Credentials are read back, and the message with them, when both fit their size bytes; longer
      ones are not. */
  lemma CredentialsRead(b: seq<Byte>, c: Credentials, message: seq<Byte>)
    requires |b| < TWO_TO_32 && Holds(b, c, message) && IsAuthenticated(b)
    ensures InBounds(b)
    ensures |c.login| <= 255 && |c.password| <= 255 ==>
              ViewValid(b) && CredentialsOf(b) == Some(c) && Message(b) == message
    ensures |c.login| > 255 || |c.password| > 255 ==>
              ViewValid(b) ==> CredentialsOf(b) != Some(c)
  {
  }

  /** Decoding an encoding gives the package back exactly when it carries no credentials, or the
      flags byte is `authenticated` itself and both sizes fit the byte that stores them. */
  lemma DecodeEncode(p: Package)
    requires Encodable(p) && |Bytes(p)| < TWO_TO_32
    ensures InBounds(Bytes(p))
    ensures Decode(Bytes(p)) == Some(p) <==>
            match p.credentials
            case None => true
            case Some(Credentials(login, password)) =>
              p.flags == AUTHENTICATED && |login| <= 255 && |password| <= 255
  {
    BytesLayout(p);
    var b := Bytes(p);
    if p.credentials.None? {
      assert Message(b) == p.message;
    } else if p.flags == AUTHENTICATED {
      var c := p.credentials.value;
      BlockLaid(c, p.message);
      BlockHolds(b, c, p.message);
      CredentialsRead(b, c, p.message);
    }
  }

  /** Every valid frame whose length prefix is right is the encoding of what it decodes to. */
  lemma EncodeDecode(b: seq<Byte>)
    requires InBounds(b) && ViewValid(b) && |b| < TWO_TO_32
    requires Signed32(b[..4]) == ToInt32(|b| - 4)
    ensures Bytes(Decode(b).value) == b
  {
    var p := Decode(b).value;
    Tiling(b);
    BytesLayout(p);
    PrefixOf(b);
    SameLayout(Bytes(p), b);
  }

  lemma PrefixOf(b: seq<Byte>)
    requires 4 <= |b| < TWO_TO_32 && Signed32(b[..4]) == ToInt32(|b| - 4)
    ensures b[..4] == Le32(|b| - 4)
  {
    StoreLoad(b[..4]);
    assert ToUint32(Signed32(b[..4])) == ToUint32(|b| - 4);
  }

  lemma SameLayout(a: seq<Byte>, b: seq<Byte>)
    requires |a| == |b| >= AUTH_OFFSET && a[..4] == b[..4]
    requires a[COMMAND_OFFSET] == b[COMMAND_OFFSET] && a[FLAGS_OFFSET] == b[FLAGS_OFFSET]
    requires a[CORRELATION_OFFSET..AUTH_OFFSET] == b[CORRELATION_OFFSET..AUTH_OFFSET]
    requires a[AUTH_OFFSET..] == b[AUTH_OFFSET..]
    ensures a == b
  {
  }
}
