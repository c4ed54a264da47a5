/** The SOCKS5 packet readers: the method-selection request and the connection request. */
module Socks5 {
  import opened Basics

  const VERSION: byte := 5
  const NO_AUTH: byte := 0
  const NOT_SUPPORTED: byte := 0xff
  const AUTH_HEADER_MIN_LENGTH := 2
  const REQUEST_HEADER_MIN_LENGTH := 10
  const TCP_CONNECTION: byte := 1
  const IPV4: byte := 1
  const DOM: byte := 3
  const IPV6: byte := 4

  // ---------- the method-selection request ----------

  datatype AuthError = BadPacket | BadVersion | BadLength | NoSupportedMethod

  /** The packet is complete, speaks version 5, and offers the method "no authentication". */
  predicate OffersNoAuth(buffer: seq<byte>) {
    && |buffer| >= AUTH_HEADER_MIN_LENGTH
    && buffer[0] == VERSION
    && buffer[1] as int + AUTH_HEADER_MIN_LENGTH <= |buffer|
    && NO_AUTH in buffer[2..2 + buffer[1] as int]
  }

  method IsSocks5AuthRequest(buffer: seq<byte>) returns (error: Option<AuthError>)
    ensures error.None? <==> OffersNoAuth(buffer)
    ensures error == Some(BadPacket) <==> |buffer| < 2
    ensures error == Some(BadVersion) <==> |buffer| >= 2 && buffer[0] != VERSION
    ensures error == Some(BadLength) <==>
            |buffer| >= 2 && buffer[0] == VERSION && buffer[1] as int + 2 > |buffer|
  {
    if |buffer| < AUTH_HEADER_MIN_LENGTH {
      return Some(BadPacket);
    }
    if buffer[0] != VERSION {
      return Some(BadVersion);
    }
    if buffer[1] as int + AUTH_HEADER_MIN_LENGTH > |buffer| {
      return Some(BadLength);
    }
    ghost var methods := buffer[2..2 + buffer[1] as int];
    for i := 0 to buffer[1] as int
      invariant NO_AUTH !in methods[..i]
    {
      assert methods[..i + 1] == methods[..i] + [buffer[2 + i]];
      if buffer[2 + i] == NO_AUTH {
        assert methods[i] == NO_AUTH;
        return None;
      }
    }
    assert methods[..|methods|] == methods;
    return Some(NoSupportedMethod);
  }

  /** A greeting of RFC 1928 section 3, followed by any further bytes in the same chunk,
      is accepted exactly when one of its own methods is "no authentication". */
  lemma GreetingAccepted(methods: seq<byte>, tail: seq<byte>)
    requires |methods| < 0x100
    ensures OffersNoAuth([VERSION, |methods| as byte] + methods + tail) <==> NO_AUTH in methods
  {
    var packet := [VERSION, |methods| as byte] + methods + tail;
    assert packet[2..2 + |methods|] == methods;
  }

  // ---------- the connection request ----------

  predicate IsValidRequestPacket(buffer: seq<byte>) {
    && |buffer| >= REQUEST_HEADER_MIN_LENGTH
    && buffer[0] == VERSION
    && buffer[1] == TCP_CONNECTION
    && (buffer[3] == IPV4 || buffer[3] == IPV6 || buffer[3] == DOM)
  }

  /** One byte of memory: inside the chunk, or past its end where anything may be stored. */
  function Peek(buffer: seq<byte>, beyond: seq<byte>, i: nat): byte {
    if i < |buffer| then buffer[i]
    else if i - |buffer| < |beyond| then beyond[i - |buffer|]
    else 0
  }

  function Slice(buffer: seq<byte>, beyond: seq<byte>, from: nat, n: nat): (s: seq<byte>)
    ensures |s| == n
    ensures forall i :: 0 <= i < n ==> s[i] == Peek(buffer, beyond, from + i)
    ensures from + n <= |buffer| ==> s == buffer[from..from + n]
  {
    seq(n, i requires 0 <= i < n => Peek(buffer, beyond, from + i))
  }

  function Port(buffer: seq<byte>, beyond: seq<byte>, at: nat): (p: nat)
    ensures p < 0x1_0000
  {
    Peek(buffer, beyond, at) as int * 0x100 + Peek(buffer, beyond, at + 1) as int
  }

  function Digit(d: nat): char
    requires d < 10
  {
    '0' + d as char
  }

  function Decimal(n: nat): (s: string)
    ensures s != ""
  {
    if n < 10 then [Digit(n)] else Decimal(n / 10) + [Digit(n % 10)]
  }

  function ParseDecimal(s: string): int {
    if s == "" then 0
    else ParseDecimal(s[..|s| - 1]) * 10 + (s[|s| - 1] as int - '0' as int)
  }

  lemma {:induction false} ParsePrinted(n: nat)
    ensures ParseDecimal(Decimal(n)) == n
    ensures forall c <- Decimal(n) :: '0' <= c <= '9'
    ensures n > 0 ==> Decimal(n)[0] != '0'
    ensures n == 0 ==> Decimal(n) == "0"
  {
    if n < 10 {
      assert Decimal(n)[..0] == "";
    } else {
      ParsePrinted(n / 10);
      assert Decimal(n)[..|Decimal(n)| - 1] == Decimal(n / 10);
    }
  }

  /** What the decoder finds in a chunk; None where it answers false. */
  function RemoteAddress(buffer: seq<byte>, beyond: seq<byte>): Option<Endpoint> {
    if |buffer| < REQUEST_HEADER_MIN_LENGTH then None
    else if buffer[3] == IPV4 then
      Some(Endpoint(Ntop4(Slice(buffer, beyond, 4, 4)), Decimal(Port(buffer, beyond, 8))))
    else if buffer[3] == IPV6 then
      Some(Endpoint(Ntop6(Slice(buffer, beyond, 4, 16)), Decimal(Port(buffer, beyond, 20))))
    else if buffer[3] == DOM && buffer[4] != 0 then
      var n := buffer[4] as int;
      Some(Endpoint(Name(Text(Slice(buffer, beyond, 5, n))), Decimal(Port(buffer, beyond, 5 + n))))
    else
      None
  }

  /** The decoder with its two out-parameters, which the caller passes in empty. */
  method GetRemoteAddressInfo(buffer: seq<byte>, beyond: seq<byte>)
    returns (ok: bool, host: HostText, port: string)
    ensures ok <==> RemoteAddress(buffer, beyond).Some?
    ensures ok ==> RemoteAddress(buffer, beyond) == Some(Endpoint(host, port))
  {
    host, port := Name(""), "";
    if |buffer| >= REQUEST_HEADER_MIN_LENGTH {
      if buffer[3] == IPV4 {
        host := Ntop4(Slice(buffer, beyond, 4, 4));
        port := Decimal(Port(buffer, beyond, 8));
      } else if buffer[3] == IPV6 {
        host := Ntop6(Slice(buffer, beyond, 4, 16));
        port := Decimal(Port(buffer, beyond, 20));
      } else if buffer[3] == DOM {
        var domainLength := buffer[4] as int;
        host := Name(Text(Slice(buffer, beyond, 5, domainLength)));
        port := Decimal(Port(buffer, beyond, 4 + domainLength + 1));
      } else {
        return false, host, port;
      }
      if !host.Empty() && port != "" {
        return true, host, port;
      }
    }
    return false, host, port;
  }

  // ---------- the wire format of RFC 1928 section 4 ----------

  datatype Address = Ipv4(octets: seq<byte>) | Ipv6(octets: seq<byte>) | Domain(name: seq<byte>)

  predicate WellFormed(a: Address) {
    match a
    case Ipv4(octets) => |octets| == 4
    case Ipv6(octets) => |octets| == 16
    case Domain(name) => 1 <= |name| <= 255
  }

  function EncodeAddress(a: Address): (s: seq<byte>)
    requires WellFormed(a)
  {
    match a
    case Ipv4(octets) => [IPV4] + octets
    case Ipv6(octets) => [IPV6] + octets
    case Domain(name) => [DOM, |name| as byte] + name
  }

  function EncodeRequest(reserved: byte, a: Address, port: nat): (s: seq<byte>)
    requires WellFormed(a) && port < 0x1_0000
  {
    [VERSION, TCP_CONNECTION, reserved] + EncodeAddress(a)
    + [(port / 0x100) as byte, (port % 0x100) as byte]
  }

  function HostOf(a: Address): HostText {
    match a
    case Ipv4(octets) => Ntop4(octets)
    case Ipv6(octets) => Ntop6(octets)
    case Domain(name) => Name(Text(name))
  }

  predicate Accepts(packet: seq<byte>, beyond: seq<byte>) {
    IsValidRequestPacket(packet) && RemoteAddress(packet, beyond).Some?
  }

  /** Every CONNECT request is read back, whatever follows it in the chunk or in memory,
      exactly when the chunk has the ten bytes the readers ask for. */
  lemma RequestRoundTrip(reserved: byte, a: Address, port: nat, tail: seq<byte>, beyond: seq<byte>)
    requires WellFormed(a) && port < 0x1_0000
    ensures var packet := EncodeRequest(reserved, a, port) + tail;
            && (Accepts(packet, beyond) <==> |packet| >= REQUEST_HEADER_MIN_LENGTH)
            && (Accepts(packet, beyond) ==>
                  && RemoteAddress(packet, beyond) == Some(Endpoint(HostOf(a), Decimal(port)))
                  && ParseDecimal(RemoteAddress(packet, beyond).value.service) == port)
  {
    var packet := EncodeRequest(reserved, a, port) + tail;
    var at := 3 + |EncodeAddress(a)|;
    RequestLayout(reserved, a, port, tail);
    ParsePrinted(port);
    if |packet| >= REQUEST_HEADER_MIN_LENGTH {
      assert Port(packet, beyond, at) == port;
      match a {
        case Ipv4(octets) => assert Slice(packet, beyond, 4, 4) == octets;
        case Ipv6(octets) => assert Slice(packet, beyond, 4, 16) == octets;
        case Domain(name) => assert Slice(packet, beyond, 5, |name|) == name;
      }
    }
  }

  /** Where the fields of an encoded request stand. */
  lemma RequestLayout(reserved: byte, a: Address, port: nat, tail: seq<byte>)
    requires WellFormed(a) && port < 0x1_0000
    ensures var packet, address := EncodeRequest(reserved, a, port) + tail, EncodeAddress(a);
            var at := 3 + |address|;
            && |packet| == at + 2 + |tail|
            && packet[0] == VERSION && packet[1] == TCP_CONNECTION
            && packet[3..at] == address
            && packet[3] == address[0]
            && (a.Domain? ==> packet[4] as int == |a.name| && packet[5..at] == a.name)
            && (!a.Domain? ==> packet[4..at] == a.octets)
            && packet[at] as int * 0x100 + packet[at + 1] as int == port
  {
    var address := EncodeAddress(a);
    var packet := EncodeRequest(reserved, a, port) + tail;
    var at := 3 + |address|;
    assert packet == [VERSION, TCP_CONNECTION, reserved] + address
                     + ([(port / 0x100) as byte, (port % 0x100) as byte] + tail);
    assert packet[3..at] == address;
    var k := if a.Domain? then 2 else 1;
    assert packet[3 + k..at] == address[k..];
    assert packet[3] == address[0] && packet[4] == address[1];
  }

  /** Sent alone, a CONNECT request is refused exactly when its domain name has one or two
      bytes, although RFC 1928 allows such names. */
  lemma ShortDomainsRefused(reserved: byte, a: Address, port: nat, beyond: seq<byte>)
    requires WellFormed(a) && port < 0x1_0000
    ensures Accepts(EncodeRequest(reserved, a, port), beyond) <==> !(a.Domain? && |a.name| < 3)
  {
    RequestRoundTrip(reserved, a, port, [], beyond);
    assert EncodeRequest(reserved, a, port) + [] == EncodeRequest(reserved, a, port);
  }

  /** A concrete refused request: the two-byte domain "ab", port 80. */
  lemma ShortDomainExample()
    ensures WellFormed(Domain([0x61, 0x62]))
    ensures !Accepts([5, 1, 0, 3, 2, 0x61, 0x62, 0, 80], [])
    ensures EncodeRequest(0, Domain([0x61, 0x62]), 80) == [5, 1, 0, 3, 2, 0x61, 0x62, 0, 80]
  {
  }

  function AddressLength(packet: seq<byte>): nat
    requires |packet| >= REQUEST_HEADER_MIN_LENGTH
  {
    if packet[3] == IPV4 then 4 else if packet[3] == IPV6 then 16 else 1 + packet[4] as int
  }

  /** The chunk holds the whole request its header announces. */
  predicate Complete(packet: seq<byte>) {
    |packet| >= REQUEST_HEADER_MIN_LENGTH && |packet| >= 4 + AddressLength(packet) + 2
  }

  function ParseAddress(packet: seq<byte>): Address
    requires Complete(packet)
  {
    if packet[3] == IPV4 then Ipv4(packet[4..8])
    else if packet[3] == IPV6 then Ipv6(packet[4..20])
    else Domain(packet[5..5 + packet[4] as int])
  }

  /** A request as section 4 of RFC 1928 lays it out, and anything after it. */
  ghost predicate IsEncoded(packet: seq<byte>) {
    exists reserved, a, port: nat, tail ::
      WellFormed(a) && port < 0x1_0000 && packet == EncodeRequest(reserved, a, port) + tail
  }

  lemma EncodedIsComplete(packet: seq<byte>, reserved: byte, a: Address, port: nat, tail: seq<byte>)
    requires WellFormed(a) && port < 0x1_0000 && packet == EncodeRequest(reserved, a, port) + tail
    requires |packet| >= REQUEST_HEADER_MIN_LENGTH
    ensures Complete(packet)
  {
    RequestLayout(reserved, a, port, tail);
  }

  /** The request that a complete packet encodes. */
  lemma CompleteDecodes(packet: seq<byte>, beyond: seq<byte>)
    requires Complete(packet) && Accepts(packet, beyond)
    ensures var a, n := ParseAddress(packet), 4 + AddressLength(packet);
            var port := packet[n] as int * 0x100 + packet[n + 1] as int;
            && WellFormed(a)
            && packet == EncodeRequest(packet[2], a, port) + packet[n + 2..]
            && RemoteAddress(packet, beyond) == Some(Endpoint(HostOf(a), Decimal(port)))
  {
    var a, n := ParseAddress(packet), 4 + AddressLength(packet);
    var port := packet[n] as int * 0x100 + packet[n + 1] as int;
    CompleteIsEncoded(packet);
    RequestRoundTrip(packet[2], a, port, packet[n + 2..], beyond);
  }

  lemma CompleteExactlyIfEncoded(packet: seq<byte>, beyond: seq<byte>)
    requires Accepts(packet, beyond)
    ensures IsEncoded(packet) <==> Complete(packet)
  {
    if Complete(packet) {
      CompleteDecodes(packet, beyond);
    }
    if reserved, a, port: nat, tail :|
        WellFormed(a) && port < 0x1_0000 && packet == EncodeRequest(reserved, a, port) + tail {
      EncodedIsComplete(packet, reserved, a, port, tail);
    }
  }

  /** Not only encoded requests are accepted: an accepted packet is one exactly when it is
      complete, and then the request that is decoded is the one that it encodes. */
  lemma AcceptedIsEncoded(packet: seq<byte>, beyond: seq<byte>)
    requires Accepts(packet, beyond)
    ensures IsEncoded(packet) <==> Complete(packet)
    ensures Complete(packet) ==>
              var a, n := ParseAddress(packet), 4 + AddressLength(packet);
              var port := packet[n] as int * 0x100 + packet[n + 1] as int;
              && WellFormed(a)
              && packet == EncodeRequest(packet[2], a, port) + packet[n + 2..]
              && RemoteAddress(packet, beyond) == Some(Endpoint(HostOf(a), Decimal(port)))
  {
    CompleteExactlyIfEncoded(packet, beyond);
    if Complete(packet) {
      CompleteDecodes(packet, beyond);
    }
  }

  /** What is decoded is what the packet says when it is continued by the memory past it. */
  lemma DecodesWithMemory(packet: seq<byte>, beyond: seq<byte>)
    requires |packet| >= REQUEST_HEADER_MIN_LENGTH
    ensures RemoteAddress(packet, beyond) == RemoteAddress(packet + beyond, [])
  {
    assert forall i: nat :: Peek(packet, beyond, i) == Peek(packet + beyond, [], i);
    assert Slice(packet, beyond, 4, 4) == Slice(packet + beyond, [], 4, 4);
    assert Slice(packet, beyond, 4, 16) == Slice(packet + beyond, [], 4, 16);
    var n := packet[4] as int;
    assert Slice(packet, beyond, 5, n) == Slice(packet + beyond, [], 5, n);
  }

  /** The memory past a complete packet is not looked at. */
  lemma CompleteStandsAlone(packet: seq<byte>, beyond: seq<byte>)
    requires Complete(packet)
    ensures RemoteAddress(packet, beyond) == RemoteAddress(packet, [])
  {
  }

  /** Zeros, and a one in place of the second byte of the port. */
  function PortOne(packet: seq<byte>): (beyond: seq<byte>)
    requires |packet| >= REQUEST_HEADER_MIN_LENGTH && !Complete(packet)
  {
    seq(4 + AddressLength(packet) + 1 - |packet|, _ => 0 as byte) + [1]
  }

  lemma PortsDiffer(packet: seq<byte>)
    requires |packet| >= REQUEST_HEADER_MIN_LENGTH && !Complete(packet)
    ensures var at := 4 + AddressLength(packet);
            Port(packet, PortOne(packet), at) == Port(packet, [], at) + 1
  {
  }

  lemma DecimalsDiffer(m: nat, n: nat)
    requires m != n
    ensures Decimal(m) != Decimal(n)
  {
    ParsePrinted(m);
    ParsePrinted(n);
  }

  /** What is decoded from a valid packet depends on that packet alone exactly when it is complete. */
  lemma StandsAloneExactlyIfComplete(packet: seq<byte>)
    requires IsValidRequestPacket(packet)
    ensures (forall beyond :: RemoteAddress(packet, beyond) == RemoteAddress(packet, [])) <==> Complete(packet)
  {
    if Complete(packet) {
      forall beyond ensures RemoteAddress(packet, beyond) == RemoteAddress(packet, []) {
        CompleteStandsAlone(packet, beyond);
      }
    } else {
      var at, beyond := 4 + AddressLength(packet), PortOne(packet);
      PortsDiffer(packet);
      DecimalsDiffer(Port(packet, beyond, at), Port(packet, [], at));
      assert RemoteAddress(packet, beyond).value.service != RemoteAddress(packet, []).value.service;
    }
  }

  /** Whether a packet is accepted does not depend on the memory past it. */
  lemma AcceptanceStandsAlone(packet: seq<byte>, beyond: seq<byte>)
    ensures Accepts(packet, beyond) <==> Accepts(packet, [])
  {
  }

  /** A concrete accepted packet that is no encoded request: ten bytes of an IPv6 request, whose
      other twelve are taken from memory. */
  lemma TruncatedExample(beyond: seq<byte>)
    ensures var packet := [5, 1, 0, 4, 0, 0, 0, 0, 0, 0];
            && Accepts(packet, beyond) && !Complete(packet) && !IsEncoded(packet)
  {
    AcceptedIsEncoded([5, 1, 0, 4, 0, 0, 0, 0, 0, 0], beyond);
  }

  lemma CompleteIsEncoded(packet: seq<byte>)
    requires Complete(packet) && IsValidRequestPacket(packet) && (packet[3] == DOM ==> packet[4] != 0)
    ensures var a, n := ParseAddress(packet), 4 + AddressLength(packet);
            var port := packet[n] as int * 0x100 + packet[n + 1] as int;
            WellFormed(a) && packet == EncodeRequest(packet[2], a, port) + packet[n + 2..]
  {
    var a, n := ParseAddress(packet), 4 + AddressLength(packet);
    var port := packet[n] as int * 0x100 + packet[n + 1] as int;
    var header, address, tail := packet[..3], packet[3..n], packet[n + 2..];
    assert header == [VERSION, TCP_CONNECTION, packet[2]];
    assert address == EncodeAddress(a);
    assert (port / 0x100) as byte == packet[n] && (port % 0x100) as byte == packet[n + 1];
    assert packet[n..n + 2] == [packet[n], packet[n + 1]];
    Cut(packet, 3, n, n + 2);
  }

  lemma Cut(s: seq<byte>, i: nat, j: nat, k: nat)
    requires i <= j <= k <= |s|
    ensures s == s[..i] + s[i..j] + s[j..k] + s[k..]
  {
  }
}
