/**
  The display name `ptcp_accept` gives an accepted TCP connection, computed
  from the peer address record that accept() returned.

  The record is seen through the `struct sockaddr_in` lens the source casts it
  to: its length, its address family, its port and its four address octets.
  The port is kept in host byte order and the address as its four octets in
  network order (most significant first), so no byte swapping appears here.
 */
module PeerName {
  import opened Wrappers
  import opened Decimal
  import opened Fields

  /** Address family of IPv4 socket addresses (Linux value). */
  const AF_INET: nat := 2
  /** sizeof(struct sockaddr_in). */
  const SOCKADDR_IN_SIZE: nat := 16
  /** Well-known OpenFlow controller port. */
  const OFP_TCP_PORT: Port := 6633
  /** Size of the `name` buffer `ptcp_accept` formats into, terminator included. */
  const NAME_BUFFER_SIZE: nat := 128
  /** The transport token every accepted connection's name starts with. */
  const TCP_TOKEN: string := "tcp"

  type Octet = x: nat | x < 0x100
  type Port = x: nat | x < 0x1_0000

  /** An IPv4 address as its four octets in network order. */
  datatype InAddr = InAddr(a: Octet, b: Octet, c: Octet, d: Octet)

  /** An accepted peer's address record, read as a `sockaddr_in`. */
  datatype PeerAddr = PeerAddr(saLen: nat, family: nat, port: Port, addr: InAddr)

  /** The record really is an IPv4 socket address. */
  predicate IsInet(sa: PeerAddr) {
    sa.saLen == SOCKADDR_IN_SIZE && sa.family == AF_INET
  }

  /** The address in dotted-decimal form, octets in network order. */
  function DottedQuad(ip: InAddr): (s: string)
    ensures 7 <= |s| <= 15
    ensures ':' !in s
  {
    RenderWidths(ip.a);
    RenderWidths(ip.b);
    RenderWidths(ip.c);
    RenderWidths(ip.d);
    RenderAvoids(ip.a, ':');
    RenderAvoids(ip.b, ':');
    RenderAvoids(ip.c, ':');
    RenderAvoids(ip.d, ':');
    Render(ip.a) + "." + Render(ip.b) + "." + Render(ip.c) + "." + Render(ip.d)
  }

  /** The name `ptcp_accept` formats for a peer: "tcp:" and the dotted address,
      then ":" and the port only when the port is not the OpenFlow default;
      a record that is not an IPv4 address gives the bare token. */
  function Name(sa: PeerAddr): (name: string)
    ensures |name| <= 25
    ensures |name| + 1 <= NAME_BUFFER_SIZE
  {
    if IsInet(sa) then
      var base := TCP_TOKEN + ":" + DottedQuad(sa.addr);
      if sa.port != OFP_TCP_PORT then
        RenderWidths(sa.port);
        base + ":" + Render(sa.port)
      else base
    else TCP_TOKEN
  }

  /** Reads a dotted-decimal IPv4 address back; refuses anything else. */
  function ParseDottedQuad(s: string): Option<InAddr> {
    var parts := Split(s, '.');
    if |parts| != 4 then None
    else
      match (Parse(parts[0]), Parse(parts[1]), Parse(parts[2]), Parse(parts[3]))
      case (Some(a), Some(b), Some(c), Some(d)) =>
        if a < 0x100 && b < 0x100 && c < 0x100 && d < 0x100
        then Some(InAddr(a, b, c, d)) else None
      case _ => None
  }

  /** Reads an accepted connection's name back into the peer's address and
      port; a name without the "tcp:" prefix carries neither. Only the exact
      form `Name` prints is accepted: numerals without leading zeros, and no
      explicit ":6633". */
  function ParseName(s: string): Option<(InAddr, Port)> {
    if |s| < 4 || s[..4] != TCP_TOKEN + ":" then None
    else
      var fields := Split(s[4..], ':');
      if |fields| > 2 then None
      else
        match ParseDottedQuad(fields[0])
        case None => None
        case Some(ip) =>
          if |fields| == 1 then Some((ip, OFP_TCP_PORT))
          else
            match Parse(fields[1])
            case Some(p) => if p < 0x1_0000 && p != OFP_TCP_PORT then Some((ip, p)) else None
            case None => None
  }

  lemma DottedQuadRoundTrip(ip: InAddr)
    ensures ParseDottedQuad(DottedQuad(ip)) == Some(ip)
  {
    var ra, rb, rc, rd := Render(ip.a), Render(ip.b), Render(ip.c), Render(ip.d);
    RenderAvoids(ip.a, '.');
    RenderAvoids(ip.b, '.');
    RenderAvoids(ip.c, '.');
    RenderAvoids(ip.d, '.');
    assert DottedQuad(ip) == ra + ['.'] + (rb + ['.'] + (rc + ['.'] + rd));
    SplitWhole(rd, '.');
    SplitFirst(rc, '.', rd);
    SplitFirst(rb, '.', rc + ['.'] + rd);
    SplitFirst(ra, '.', rb + ['.'] + (rc + ['.'] + rd));
    ParseRender(ip.a);
    ParseRender(ip.b);
    ParseRender(ip.c);
    ParseRender(ip.d);
  }

  /** A well-formed IPv4 record's name starts with "tcp:"; any other record's
      name is exactly "tcp". */
  lemma NameShape(sa: PeerAddr)
    ensures IsInet(sa) ==> |Name(sa)| > 4 && Name(sa)[..4] == TCP_TOKEN + ":"
    ensures !IsInet(sa) ==> Name(sa) == TCP_TOKEN
  {
  }

  /** For an IPv4 peer the port suffix is present exactly when the port is not
      the OpenFlow default; on the default port the name is "tcp:" and the
      address, nothing more. */
  lemma PortSuffixIffNonDefault(sa: PeerAddr)
    requires IsInet(sa)
    ensures ':' in Name(sa)[4..] <==> sa.port != OFP_TCP_PORT
    ensures sa.port == OFP_TCP_PORT ==> Name(sa) == TCP_TOKEN + ":" + DottedQuad(sa.addr)
  {
    var q := DottedQuad(sa.addr);
    if sa.port != OFP_TCP_PORT {
      assert Name(sa)[4..] == q + ":" + Render(sa.port);
      assert Name(sa)[4..][|q|] == ':';
    } else {
      assert Name(sa)[4..] == q;
    }
  }

  /** The name determines the peer: reading it back gives the address and
      port of an IPv4 record, and nothing for any other record. */
  lemma NameRoundTrip(sa: PeerAddr)
    ensures IsInet(sa) ==> ParseName(Name(sa)) == Some((sa.addr, sa.port))
    ensures !IsInet(sa) ==> ParseName(Name(sa)) == None
  {
    if IsInet(sa) {
      var q := DottedQuad(sa.addr);
      var name := Name(sa);
      DottedQuadRoundTrip(sa.addr);
      if sa.port != OFP_TCP_PORT {
        var p := Render(sa.port);
        assert name[4..] == q + [':'] + p;
        RenderAvoids(sa.port, ':');
        SplitWhole(p, ':');
        SplitFirst(q, ':', p);
        ParseRender(sa.port);
      } else {
        assert name[4..] == q;
        SplitWhole(q, ':');
      }
    }
  }

  /** Whatever `ParseDottedQuad` accepts is exactly the dotted form of the
      address it returns. */
  lemma ParseDottedQuadExact(s: string, ip: InAddr)
    requires ParseDottedQuad(s) == Some(ip)
    ensures DottedQuad(ip) == s
  {
    var parts := Split(s, '.');
    JoinSplit(s, '.');
    var p1, p2, p3 := parts[1..], parts[2..], parts[3..];
    assert p1[1..] == p2 && p2[1..] == p3 && p3 == [parts[3]];
    assert Join(p3, '.') == parts[3];
    assert Join(p2, '.') == parts[2] + ['.'] + parts[3];
    assert Join(p1, '.') == parts[1] + ['.'] + Join(p2, '.');
  }

  /** Conversely, every string `ParseName` accepts is exactly the name of the
      IPv4 peer it returns: together with `NameRoundTrip`, the IPv4 names are
      precisely the strings the parser accepts, numerals as printf writes
      them. */
  lemma ParseNameExact(s: string, ip: InAddr, port: Port)
    requires ParseName(s) == Some((ip, port))
    ensures Name(PeerAddr(SOCKADDR_IN_SIZE, AF_INET, port, ip)) == s
  {
    var fields := Split(s[4..], ':');
    JoinSplit(s[4..], ':');
    ParseDottedQuadExact(fields[0], ip);
    assert s == s[..4] + s[4..];
    if |fields| == 2 {
      assert fields[1..] == [fields[1]];
    }
  }

  /** Two IPv4 peers get the same name only if they have the same address and
      port. */
  lemma NameInjective(sa1: PeerAddr, sa2: PeerAddr)
    requires IsInet(sa1) && IsInet(sa2)
    requires Name(sa1) == Name(sa2)
    ensures sa1.addr == sa2.addr && sa1.port == sa2.port
  {
    NameRoundTrip(sa1);
    NameRoundTrip(sa2);
  }

  lemma DottedQuadExample()
    ensures DottedQuad(InAddr(203, 0, 113, 5)) == "203.0.113.5"
  {
    assert Render(20) == "20";
    assert Render(203) == "203";
    assert Render(11) == "11";
    assert Render(113) == "113";
  }

  lemma PortExample()
    ensures Render(6634) == "6634"
  {
    assert Render(66) == "66";
    assert Render(663) == "663";
  }

  /** The renderings an operator sees for the peer 203.0.113.5. */
  lemma NameExamples()
    ensures Name(PeerAddr(16, 2, 6634, InAddr(203, 0, 113, 5))) == "tcp:203.0.113.5:6634"
    ensures Name(PeerAddr(16, 2, 6633, InAddr(203, 0, 113, 5))) == "tcp:203.0.113.5"
    ensures Name(PeerAddr(110, 1, 6634, InAddr(203, 0, 113, 5))) == "tcp"
  {
    DottedQuadExample();
    PortExample();
    var q := DottedQuad(InAddr(203, 0, 113, 5));
    assert Name(PeerAddr(16, 2, 6634, InAddr(203, 0, 113, 5))) == "tcp:" + q + ":" + "6634";
  }
}
