/** Dialing through the local SOCKS5 inbound: what goes out, what is consumed, and when it succeeds. */
module SocksDialer {
  import opened Base
  import opened Bytes

  // ---------- the wire format: sections 4 to 6 of RFC 1928 ----------

  datatype Address = IPv4(octets: Text) | DomainName(name: Text) | IPv6(octets: Text) {
    predicate Ok() {
      match this
      case IPv4(o) => |o| == 4
      case DomainName(n) => |n| <= 255
      case IPv6(o) => |o| == 16
    }
  }

  /** A request or a reply: both are VER, a code, RSV, ATYP, an address and a port. */
  datatype Message = Message(code: Byte, rsv: Byte, addr: Address, port: nat) {
    predicate Ok() {
      addr.Ok() && port <= 0xFFFF
    }
  }

  function EncodeAddress(a: Address): Text
    requires a.Ok()
  {
    match a
    case IPv4(o) => [1] + o
    case DomainName(n) => [3, |n| as Byte] + n
    case IPv6(o) => [4] + o
  }

  function EncodePort(port: nat): Text
    requires port <= 0xFFFF
  {
    [(port / 256) as Byte, (port % 256) as Byte]
  }

  function Encode(m: Message): Text
    requires m.Ok()
  {
    [5, m.code, m.rsv] + EncodeAddress(m.addr) + EncodePort(m.port)
  }

  /** The address at the front of `s`, starting with its type, and how many bytes it takes. */
  function ParseAddress(s: Text): Option<(Address, nat)> {
    if |s| < 1 then None
    else if s[0] == 1 then if |s| < 5 then None else Some((IPv4(s[1..5]), 5))
    else if s[0] == 4 then if |s| < 17 then None else Some((IPv6(s[1..17]), 17))
    else if s[0] == 3 then
      if |s| < 2 || |s| < 2 + s[1] as nat then None
      else Some((DomainName(s[2..2 + s[1] as nat]), 2 + s[1] as nat))
    else None
  }

  /** The message at the front of `s` and how many bytes it takes. */
  function Parse(s: Text): Option<(Message, nat)> {
    if |s| < 3 || s[0] != 5 then None
    else
      match ParseAddress(s[3..])
      case None => None
      case Some((addr, n)) =>
        if |s| < 3 + n + 2 then None
        else Some((Message(s[1], s[2], addr, s[3 + n] as nat * 256 + s[4 + n] as nat), 5 + n))
  }

  lemma AddressRoundTrip(a: Address, more: Text)
    requires a.Ok()
    ensures ParseAddress(EncodeAddress(a) + more) == Some((a, |EncodeAddress(a)|))
  {
    var s := EncodeAddress(a) + more;
    match a {
      case IPv4(o) => assert s[1..5] == o;
      case DomainName(n) => assert s[2..2 + |n|] == n;
      case IPv6(o) => assert s[1..17] == o;
    }
  }

  /** Whatever follows a message, reading it back gives the message and stops right behind it. */
  lemma RoundTrip(m: Message, more: Text)
    requires m.Ok()
    ensures Parse(Encode(m) + more) == Some((m, |Encode(m)|))
  {
    hide ParseAddress;
    hide EncodeAddress;
    var s, a := Encode(m) + more, EncodeAddress(m.addr);
    AddressRoundTrip(m.addr, EncodePort(m.port) + more);
    assert s[3..] == a + (EncodePort(m.port) + more);
    assert s[3 + |a|] == EncodePort(m.port)[0] && s[4 + |a|] == EncodePort(m.port)[1];
  }

  lemma AddressReadBack(s: Text)
    requires ParseAddress(s).Some?
    ensures var (a, n) := ParseAddress(s).value; a.Ok() && n <= |s| && s[..n] == EncodeAddress(a)
  {
  }

  /** Nothing but the encoding of a message parses as that message. */
  lemma ReadBack(s: Text)
    requires Parse(s).Some?
    ensures var (m, n) := Parse(s).value; m.Ok() && n <= |s| && s[..n] == Encode(m)
  {
    hide ParseAddress;
    hide EncodeAddress;
    AddressReadBack(s[3..]);
    var (m, n) := Parse(s).value;
    var k := n - 5;
    assert s[3..][..k] == s[3..3 + k];
    assert s[..n] == s[..3] + s[3..3 + k] + [s[3 + k], s[4 + k]];
    assert EncodePort(m.port) == [s[3 + k], s[4 + k]];
  }

  /** The layout of sections 4 and 6 of RFC 1928, byte by byte. */
  ghost predicate Layout(s: Text, m: Message) {
    && |s| >= 6 && s[0] == 5 && s[1] == m.code && s[2] == m.rsv
    && s[|s| - 2] as nat * 256 + s[|s| - 1] as nat == m.port
    && match m.addr {
         case IPv4(o) => |s| == 10 && s[3] == 1 && s[4..8] == o
         case DomainName(n) => s[3] == 3 && s[4] as nat == |n| && |s| == 7 + |n| && s[5..|s| - 2] == n
         case IPv6(o) => |s| == 22 && s[3] == 4 && s[4..20] == o
       }
  }

  lemma LayoutOfEncode(m: Message)
    requires m.Ok()
    ensures Layout(Encode(m), m)
  {
    var s, a := Encode(m), EncodeAddress(m.addr);
    assert s[3..|s| - 2] == a;
    match m.addr {
      case IPv4(o) => assert s[4..8] == s[3..8][1..] == o;
      case DomainName(n) => assert s[5..|s| - 2] == s[3..|s| - 2][2..] == n;
      case IPv6(o) => assert s[4..20] == s[3..20][1..] == o;
    }
  }

  lemma LayoutUnique(s: Text, t: Text, m: Message)
    requires Layout(s, m) && Layout(t, m)
    ensures s == t
  {
    assert |s| == |t| && s[|s| - 2..] == t[|t| - 2..];
    match m.addr {
      case IPv4(o) => assert s == s[..4] + o + s[8..];
      case DomainName(n) => assert s == s[..5] + n + s[|s| - 2..] && t == t[..5] + n + t[|t| - 2..];
      case IPv6(o) => assert s == s[..4] + o + s[20..];
    }
  }

  /** A message is written in its layout, and nothing else has it. */
  lemma LayoutIff(s: Text, m: Message)
    requires m.Ok()
    ensures s == Encode(m) <==> Layout(s, m)
  {
    LayoutOfEncode(m);
    if Layout(s, m) {
      LayoutUnique(s, Encode(m), m);
    }
    hide Encode;
    hide Layout;
  }

  // ---------- strconv.Atoi ----------

  function Digits(s: string): Option<nat> {
    if s == "" then Some(0)
    else
      var c := s[|s| - 1];
      var high := Digits(s[..|s| - 1]);
      if high.None? || !('0' <= c <= '9') then None
      else Some(high.value * 10 + (c as int - '0' as int))
  }

  /** Decimal with an optional sign. The overflow error needs no case: such a value is no port either. */
  function Atoi(s: string): Option<int> {
    var signed := s != "" && (s[0] == '+' || s[0] == '-');
    var digits := if signed then s[1..] else s;
    var n := Digits(digits);
    if digits == "" || n.None? then None
    else
      var magnitude: int := n.value;
      Some(if signed && s[0] == '-' then -magnitude else magnitude)
  }

  function Decimal(n: nat): (s: string)
    ensures s != "" && forall i :: 0 <= i < |s| ==> '0' <= s[i] <= '9'
  {
    (if n < 10 then "" else Decimal(n / 10)) + [('0' as int + n % 10) as char]
  }

  lemma {:induction false} DigitsOfDecimal(n: nat)
    ensures Digits(Decimal(n)) == Some(n)
  {
    var s := Decimal(n);
    if n < 10 {
      assert s[..|s| - 1] == "";
    } else {
      DigitsOfDecimal(n / 10);
      assert s[..|s| - 1] == Decimal(n / 10);
    }
  }

  lemma {:induction false} LeadingZero(s: string)
    ensures Digits("0" + s) == Digits(s)
  {
    var t := "0" + s;
    if s == "" {
      assert t[..0] == "";
    } else {
      LeadingZero(s[..|s| - 1]);
      assert t[..|t| - 1] == "0" + s[..|s| - 1];
    }
  }

  lemma {:induction false} OnlyDigits(s: string)
    ensures Digits(s).Some? <==> forall i :: 0 <= i < |s| ==> '0' <= s[i] <= '9'
  {
    if s == "" {
    } else {
      var init := s[..|s| - 1];
      OnlyDigits(init);
      assert forall i :: 0 <= i < |init| ==> init[i] == s[i];
    }
  }

  /** An optional sign and at least one digit. */
  predicate Numeral(sign: string, digits: string) {
    && (sign == "" || sign == "+" || sign == "-")
    && digits != "" && forall i :: 0 <= i < |digits| ==> '0' <= digits[i] <= '9'
  }

  lemma AtoiOf(sign: string, digits: string)
    requires Numeral(sign, digits)
    ensures Atoi(sign + digits).Some? && Digits(digits).Some?
    ensures Atoi(sign + digits).value == if sign == "-" then -(Digits(digits).value as int) else Digits(digits).value
  {
    OnlyDigits(digits);
    hide Digits;
    assert '0' <= digits[0] <= '9';
    if sign == "" {
      assert sign + digits == digits;
    } else {
      assert (sign + digits)[1..] == digits;
    }
  }

  lemma AtoiSplits(s: string) returns (sign: string, digits: string)
    requires Atoi(s).Some?
    ensures Numeral(sign, digits) && s == sign + digits
  {
    var signed := s != "" && (s[0] == '+' || s[0] == '-');
    sign, digits := if signed then [s[0]] else "", if signed then s[1..] else s;
    OnlyDigits(digits);
    hide Digits;
  }

  /** What is read as a number is exactly an optional sign and at least one digit. */
  lemma AtoiIff(s: string)
    ensures Atoi(s).Some? <==> exists sign: string, digits: string :: Numeral(sign, digits) && s == sign + digits
  {
    if Atoi(s).Some? {
      var sign, digits := AtoiSplits(s);
    }
    if sign: string, digits: string :| Numeral(sign, digits) && s == sign + digits {
      AtoiOf(sign, digits);
    }
    hide Atoi;
  }

  /** A number's decimal form is read as that number, with zeros in front or without, and a minus sign negates it. */
  lemma AtoiReads(n: nat)
    ensures Atoi(Decimal(n)) == Some(n) && Atoi("0" + Decimal(n)) == Some(n) && Atoi("+" + Decimal(n)) == Some(n)
    ensures Atoi("-" + Decimal(n)).Some? && Atoi("-" + Decimal(n)).value == -(n as int)
  {
    DigitsOfDecimal(n);
    LeadingZero(Decimal(n));
    hide Digits;
    hide Atoi;
    var s := Decimal(n);
    assert "" + s == s && "" + ("0" + s) == "0" + s;
    AtoiOf("", s);
    AtoiOf("", "0" + s);
    AtoiOf("+", s);
    AtoiOf("-", s);
  }

  // ---------- the dialer ----------

  const GREETING: Text := [5, 1, 0]
  const NO_AUTH: Text := [5, 0]
  const CONNECT: Byte := 1
  const SUCCEEDED: Byte := 0

  /** What `net.SplitHostPort` found. */
  datatype HostPort = HostPort(host: Text, port: string)

  predicate GoodTarget(hp: HostPort) {
    Atoi(hp.port).Some? && 1 <= Atoi(hp.port).value <= 65535 && |hp.host| <= 255
  }

  function Target(hp: HostPort): Message
    requires GoodTarget(hp)
  {
    Message(CONNECT, 0, DomainName(hp.host), Atoi(hp.port).value)
  }

  /**
   * A stream connection. `inbound` is everything the peer will send before it stops or the deadline
   * passes; `writesLeft` is how many writes go through before one fails.
   */
  class Conn {
    var sent: Text
    var inbound: Text
    var closed: bool
    var writesLeft: nat

    constructor (inbound: Text, writesLeft: nat)
      ensures sent == [] && this.inbound == inbound && !closed && this.writesLeft == writesLeft
    {
      sent, this.inbound, closed, this.writesLeft := [], inbound, false, writesLeft;
    }

    method Write(p: Text) returns (ok: bool)
      modifies this`sent, this`writesLeft
      ensures ok <==> old(writesLeft) > 0
      ensures sent == if ok then old(sent) + p else old(sent)
      ensures writesLeft == if ok then old(writesLeft) - 1 else 0
    {
      ok := writesLeft > 0;
      if ok {
        writesLeft := writesLeft - 1;
        sent := sent + p;
      }
    }

    /** `io.ReadFull`: all `n` bytes, or an error after taking what there is. */
    method ReadFull(n: nat) returns (ok: bool, data: Text)
      modifies this`inbound
      ensures ok <==> n <= old(|inbound|)
      ensures ok ==> data == old(inbound)[..n] && inbound == old(inbound)[n..]
    {
      ok := n <= |inbound|;
      if ok {
        data, inbound := inbound[..n], inbound[n..];
      } else {
        data, inbound := inbound, [];
      }
    }

    method Close()
      modifies this`closed
      ensures closed
    {
      closed := true;
    }
  }

  /** The peer's side of a handshake that succeeds, and what it sends after that. */
  ghost predicate Welcomes(inbound: Text, rest: Text) {
    && NO_AUTH <= inbound
    && Parse(inbound[2..]).Some?
    && var (m, n) := Parse(inbound[2..]).value;
       m.code == SUCCEEDED && n <= |inbound| - 2 && rest == inbound[2 + n..]
  }

  /** The handshake on an open connection. */
  method Handshake(conn: Conn, hp: HostPort) returns (ok: bool)
    requires GoodTarget(hp) && !conn.closed && conn.sent == []
    modifies conn
    ensures ok ==> old(conn.writesLeft) >= 2 && Welcomes(old(conn.inbound), conn.inbound)
    ensures old(conn.writesLeft) >= 2 && (exists rest :: Welcomes(old(conn.inbound), rest)) ==> ok
    ensures ok ==> !conn.closed && conn.sent == [5, 1, 0] + Encode(Target(hp))
    ensures !ok ==> conn.closed
    ensures conn.sent in {[], GREETING, GREETING + Encode(Target(hp))}
    ensures NO_AUTH <= old(conn.inbound) || conn.sent in {[], GREETING}
  {
    hide ParseAddress;
    hide Atoi;
    ghost var inbound := conn.inbound;
    ok := conn.Write(GREETING);
    assert [] + GREETING == GREETING;
    if !ok {
      conn.Close();
      return;
    }
    var greet;
    ok, greet := conn.ReadFull(2);
    if !ok {
      conn.Close();
      return;
    }
    if greet[0] != 5 || greet[1] != 0 {
      conn.Close();
      return false;
    }
    assert NO_AUTH <= inbound;
    var port := Atoi(hp.port).value;
    var req: Text := [5, 1, 0, 3, |hp.host| as Byte];
    req := req + hp.host;
    req := req + [(port / 256) as Byte, (port % 256) as Byte];
    assert req == Encode(Target(hp));
    ok := conn.Write(req);
    if !ok {
      conn.Close();
      return;
    }
    ok := ReadReply(conn);
  }

  /** Takes exactly the reply off the connection. */
  method ReadReply(conn: Conn) returns (ok: bool)
    requires !conn.closed
    modifies conn`inbound, conn`closed
    ensures ok <==> Parse(old(conn.inbound)).Some? && Parse(old(conn.inbound)).value.0.code == SUCCEEDED
    ensures ok ==>
      && !conn.closed && Parse(old(conn.inbound)).value.1 <= |old(conn.inbound)|
      && conn.inbound == old(conn.inbound)[Parse(old(conn.inbound)).value.1..]
    ensures !ok ==> conn.closed
  {
    ghost var s := conn.inbound;
    var rep;
    ok, rep := conn.ReadFull(4);
    if !ok {
      conn.Close();
      return;
    }
    if rep[0] != 5 || rep[1] != 0 {
      conn.Close();
      return false;
    }
    assert s[3..][0] == rep[3];
    var skipN: nat;
    if rep[3] == 1 {
      skipN := 4 + 2;
    } else if rep[3] == 3 {
      var ln;
      ok, ln := conn.ReadFull(1);
      if !ok {
        conn.Close();
        return;
      }
      assert s[3..][1] == ln[0];
      skipN := ln[0] as nat + 2;
    } else if rep[3] == 4 {
      skipN := 16 + 2;
    } else {
      conn.Close();
      return false;
    }
    var bound;
    ok, bound := conn.ReadFull(skipN);
    if !ok {
      conn.Close();
    }
  }

  /** `dialed` is what the TCP dial gave; the caller gets a connection ready for its own bytes, or none. */
  method Dial(split: Option<HostPort>, dialed: Option<Conn>) returns (r: Option<Conn>)
    requires dialed.Some? ==> !dialed.value.closed && dialed.value.sent == []
    modifies if dialed.Some? then {dialed.value} else {}
    ensures r.Some? <==>
      && split.Some? && GoodTarget(split.value) && dialed.Some? && old(dialed.value.writesLeft) >= 2
      && exists rest :: Welcomes(old(dialed.value.inbound), rest)
    ensures r.Some? ==>
      && r == dialed && !r.value.closed
      && r.value.sent == [5, 1, 0] + Encode(Target(split.value))
      && Welcomes(old(dialed.value.inbound), r.value.inbound)
    ensures r.None? && dialed.Some? && split.Some? && GoodTarget(split.value) ==> dialed.value.closed
  {
    if split.None? {
      return None;
    }
    var portN := Atoi(split.value.port);
    if portN.None? || portN.value < 1 || portN.value > 65535 {
      return None;
    }
    if |split.value.host| > 255 {
      return None;
    }
    if dialed.None? {
      return None;
    }
    var ok := Handshake(dialed.value, split.value);
    r := if ok then dialed else None;
  }

  // ---------- what the two sides agree on ----------

  /** What is sent reads, under RFC 1928, as CONNECT to that very name and port, and nothing else. */
  lemma RequestSaysTarget(hp: HostPort)
    requires GoodTarget(hp)
    ensures Parse(Encode(Target(hp)))
      == Some((Message(1, 0, DomainName(hp.host), Atoi(hp.port).value), |Encode(Target(hp))|))
  {
    RoundTrip(Target(hp), []);
    assert Encode(Target(hp)) + [] == Encode(Target(hp));
  }

  /** The streams that let the dial succeed: a method reply, any successful reply, and the bytes left for the caller. */
  lemma WelcomeIs(inbound: Text, rest: Text)
    ensures Welcomes(inbound, rest) <==>
      exists m: Message :: m.Ok() && m.code == 0 && inbound == [5, 0] + Encode(m) + rest
  {
    hide Parse;
    hide Encode;
    if Welcomes(inbound, rest) {
      ReadBack(inbound[2..]);
      var (m, n) := Parse(inbound[2..]).value;
      assert inbound == NO_AUTH + inbound[2..][..n] + rest;
    }
    if m: Message :| m.Ok() && m.code == SUCCEEDED && inbound == NO_AUTH + Encode(m) + rest {
      RoundTrip(m, rest);
      assert inbound[2..] == Encode(m) + rest;
      assert rest == inbound[2 + |Encode(m)|..];
    }
  }
}
