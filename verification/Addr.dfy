/**
 Socket addresses: the order used by the tie-break of a simultaneous open and
 the canonical form used as the key of the session map.
 */
module Addr {
  import opened Base

  type Ip4 = s: Bytes | |s| == 4 witness [0, 0, 0, 0]

  type Ip6 = s: Bytes | |s| == 16 witness seq(16, i => 0)

  datatype SocketAddr =
    | V4(ip4: Ip4, port: U16)
    | V6(ip6: Ip6, port: U16, flowinfo: U32, scope: U32)

  /** The key type of the session map. */
  datatype CanonicalAddr = CanonicalAddr(addr: SocketAddr)

  const MAPPED_PREFIX: Bytes := [0, 0, 0, 0, 0, 0, 0, 0, 0, 0, 0xff, 0xff]

  /** `Ipv6Addr::to_ipv4_mapped`. */
  function ToIpv4Mapped(ip: Ip6): Option<Ip4> {
    if ip[..12] == MAPPED_PREFIX then Some(ip[12..]) else None
  }

  function Canonicalize(addr: SocketAddr): CanonicalAddr {
    CanonicalAddr(
      match addr
      case V4(_, _) => addr
      case V6(ip, port, _, _) =>
        match ToIpv4Mapped(ip)
        case Some(v4) => V4(v4, port)
        case None => addr)
  }

  /** The IPv4 endpoint an address denotes, in plain or in mapped form. */
  function Ipv4Endpoint(addr: SocketAddr): Option<(Ip4, U16)> {
    match addr
    case V4(ip, port) => Some((ip, port))
    case V6(ip, port, _, _) =>
      if ToIpv4Mapped(ip).Some? then Some((ToIpv4Mapped(ip).value, port)) else None
  }

  /** The IPv4-mapped form of a plain IPv4 address. */
  function Mapped(ip: Ip4): (r: Ip6) {
    MAPPED_PREFIX + ip
  }

  lemma CanonicalizeIdempotent(addr: SocketAddr)
    ensures Canonicalize(Canonicalize(addr).addr) == Canonicalize(addr)
  {
  }

  /** Two addresses share one session exactly when they are equal or name the same IPv4 endpoint. */
  lemma SharedKey(a: SocketAddr, b: SocketAddr)
    ensures Canonicalize(a) == Canonicalize(b) <==>
            a == b || (Ipv4Endpoint(a).Some? && Ipv4Endpoint(a) == Ipv4Endpoint(b))
  {
  }

  /** An IPv4 address and its mapped IPv6 form, whatever its flow and scope, share one key. */
  lemma MappedSharesKey(ip: Ip4, port: U16, flowinfo: U32, scope: U32)
    ensures Canonicalize(V6(Mapped(ip), port, flowinfo, scope)) == Canonicalize(V4(ip, port))
  {
    assert Mapped(ip)[..12] == MAPPED_PREFIX && Mapped(ip)[12..] == ip;
  }

  /**
   An IPv6 address becomes an IPv4 one just if it starts with ten zero octets and two of
   0xff; the last four octets and the port are kept, and every other address stays as it is.
   */
  lemma CanonicalForm(addr: SocketAddr)
    ensures if && addr.V6? && (forall i :: 0 <= i < 10 ==> addr.ip6[i] == 0)
               && addr.ip6[10] == 0xff && addr.ip6[11] == 0xff then
              Canonicalize(addr).addr
              == V4([addr.ip6[12], addr.ip6[13], addr.ip6[14], addr.ip6[15]], addr.port)
            else Canonicalize(addr).addr == addr
  {
    if addr.V6? {
      var ip := addr.ip6;
      assert ip[12..] == [ip[12], ip[13], ip[14], ip[15]];
      if (forall i :: 0 <= i < 10 ==> ip[i] == 0) && ip[10] == 0xff && ip[11] == 0xff {
        assert ip[..12] == MAPPED_PREFIX;
      }
      if ip[..12] == MAPPED_PREFIX {
        assert forall i :: 0 <= i < 12 ==> ip[i] == ip[..12][i] == MAPPED_PREFIX[i];
      }
    }
  }

  /** The fields of an address in the order in which `SocketAddr: Ord` compares them. */
  function Key(addr: SocketAddr): seq<int> {
    match addr
    case V4(ip, port) => [0] + ip + [port]
    case V6(ip, port, flowinfo, scope) => [1] + ip + [port, flowinfo, scope]
  }

  predicate LexLess(a: seq<int>, b: seq<int>) {
    b != [] && (a == [] || a[0] < b[0] || (a[0] == b[0] && LexLess(a[1..], b[1..])))
  }

  /** `a > b` on socket addresses. */
  predicate Greater(a: SocketAddr, b: SocketAddr) {
    LexLess(Key(b), Key(a))
  }

  lemma {:induction false} LexTotal(a: seq<int>, b: seq<int>)
    ensures LexLess(a, b) || LexLess(b, a) || a == b
    ensures !(LexLess(a, b) && LexLess(b, a))
  {
    if a == [] || b == [] {
    } else {
      LexTotal(a[1..], b[1..]);
      assert a == [a[0]] + a[1..] && b == [b[0]] + b[1..];
    }
  }

  /** Of two sequences of one length the smaller one is smaller at the first place where they differ. */
  lemma {:induction false} LexFirst(a: seq<int>, b: seq<int>, i: nat)
    requires |a| == |b| && i < |a| && a[..i] == b[..i] && a[i] != b[i]
    ensures LexLess(a, b) <==> a[i] < b[i]
  {
    if i > 0 {
      assert a[0] == a[..i][0] == b[..i][0] == b[0];
      assert a[1..][..i - 1] == a[..i][1..] == b[..i][1..] == b[1..][..i - 1];
      LexFirst(a[1..], b[1..], i - 1);
    }
  }

  /** Whatever their octets, an IPv6 address is greater than an IPv4 one. */
  lemma V6Greater(a: SocketAddr, b: SocketAddr)
    requires a.V6? && b.V4?
    ensures Greater(a, b) && !Greater(b, a)
  {
    assert Key(a)[0] == 1 && Key(b)[0] == 0;
  }

  /** Two IPv4 addresses: the first octet in which they differ decides, and then the port. */
  lemma V4Greater(a: SocketAddr, b: SocketAddr, i: nat)
    requires a.V4? && b.V4?
    ensures i < 4 && a.ip4[..i] == b.ip4[..i] && a.ip4[i] != b.ip4[i] ==> (Greater(a, b) <==> a.ip4[i] > b.ip4[i])
    ensures a.ip4 == b.ip4 ==> (Greater(a, b) <==> a.port > b.port)
  {
    if i < 4 && a.ip4[..i] == b.ip4[..i] && a.ip4[i] != b.ip4[i] {
      assert Key(a)[..i + 1] == [0] + a.ip4[..i] && Key(b)[..i + 1] == [0] + b.ip4[..i];
      LexFirst(Key(b), Key(a), i + 1);
    }
    if a.ip4 == b.ip4 {
      assert Key(a)[..5] == [0] + a.ip4 && Key(b)[..5] == [0] + b.ip4;
      if a.port != b.port { LexFirst(Key(b), Key(a), 5); } else { LexTotal(Key(b), Key(a)); }
    }
  }

  /** Two IPv6 addresses: the first differing octet decides, then the port, the flow label and the scope. */
  lemma V6Order(a: SocketAddr, b: SocketAddr, i: nat)
    requires a.V6? && b.V6?
    ensures i < 16 && a.ip6[..i] == b.ip6[..i] && a.ip6[i] != b.ip6[i] ==> (Greater(a, b) <==> a.ip6[i] > b.ip6[i])
    ensures a.ip6 == b.ip6 && a.port != b.port ==> (Greater(a, b) <==> a.port > b.port)
    ensures a.ip6 == b.ip6 && a.port == b.port && a.flowinfo != b.flowinfo ==>
              (Greater(a, b) <==> a.flowinfo > b.flowinfo)
    ensures a.ip6 == b.ip6 && a.port == b.port && a.flowinfo == b.flowinfo ==>
              (Greater(a, b) <==> a.scope > b.scope)
  {
    var ka, kb := Key(a), Key(b);
    if i < 16 && a.ip6[..i] == b.ip6[..i] && a.ip6[i] != b.ip6[i] {
      assert ka[..i + 1] == [1] + a.ip6[..i] && kb[..i + 1] == [1] + b.ip6[..i];
      LexFirst(kb, ka, i + 1);
    }
    if a.ip6 == b.ip6 {
      assert ka[..17] == [1] + a.ip6 && kb[..17] == [1] + b.ip6;
      if a.port != b.port {
        LexFirst(kb, ka, 17);
      } else if a.flowinfo != b.flowinfo {
        assert ka[..18] == ka[..17] + [a.port] && kb[..18] == kb[..17] + [b.port];
        LexFirst(kb, ka, 18);
      } else if a.scope != b.scope {
        assert ka[..19] == ka[..17] + [a.port, a.flowinfo] && kb[..19] == kb[..17] + [b.port, b.flowinfo];
        LexFirst(kb, ka, 19);
      } else {
        LexTotal(kb, ka);
      }
    }
  }

  lemma KeyInjective(a: SocketAddr, b: SocketAddr)
    requires Key(a) == Key(b)
    ensures a == b
  {
    assert Key(a)[0] == Key(b)[0];
    match a
    case V4(ip, port) =>
      assert Key(a)[1..5] == ip && Key(b)[1..5] == b.ip4;
      assert Key(a)[5] == port && Key(b)[5] == b.port;
    case V6(ip, port, flowinfo, scope) =>
      assert Key(a)[1..17] == ip && Key(b)[1..17] == b.ip6;
      assert Key(a)[17] == port && Key(b)[17] == b.port;
      assert Key(a)[18] == flowinfo && Key(b)[18] == b.flowinfo;
      assert Key(a)[19] == scope && Key(b)[19] == b.scope;
  }

  /** Exactly one of two nodes evaluates `from > my_addr` as true, if and only if their addresses differ. */
  lemma ExactlyOneWins(a: SocketAddr, b: SocketAddr)
    ensures !(Greater(a, b) && Greater(b, a))
    ensures Greater(a, b) || Greater(b, a) <==> a != b
  {
    LexTotal(Key(a), Key(b));
    if Key(a) == Key(b) {
      KeyInjective(a, b);
    }
  }
}
