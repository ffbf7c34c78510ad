/**
 * The part of the ipaddr library the plugins rely on: parsing a dotted-quad
 * IPv4 address and an `address[/prefix]` network, and network containment;
 * plus the `ip_in_nets` helper of the plugins and the inline subnet loops of
 * the older plugins.
 */
module Ipv4 {
  import opened Options
  import opened PyStrings
  import opened Values
  import opened Folds

  const TwoTo32: nat := 0x1_0000_0000

  // ----- addresses -----

  /** One octet: decimal digits, at most 255, no leading zero. */
  function ParseOctet(s: string): (r: Option<nat>)
    ensures r.Some? ==> r.value < 256
  {
    match ParseNat(s)
    case None => None
    case Some(v) => if v <= 255 && !(s[0] == '0' && |s| > 1) then Some(v) else None
  }

  /** The 32-bit number of four octets, most significant first. */
  function FromOctets(o0: nat, o1: nat, o2: nat, o3: nat): nat {
    ((o0 * 256 + o1) * 256 + o2) * 256 + o3
  }

  /** ipaddr.IPv4Address of a string: exactly four dot-separated octets. */
  function ParseIPv4(s: string): (r: Option<nat>)
    ensures r.Some? ==> r.value < TwoTo32
  {
    var parts := Split(s, '.');
    if |parts| != 4 then None
    else
      match (ParseOctet(parts[0]), ParseOctet(parts[1]), ParseOctet(parts[2]), ParseOctet(parts[3]))
      case (Some(o0), Some(o1), Some(o2), Some(o3)) => Some(FromOctets(o0, o1, o2, o3))
      case _ => None
  }

  /** ipaddr.IPAddress of a value: an integer in range, or a dotted-quad string. */
  function ParseAddress(v: Value): (r: Option<nat>)
    ensures r.Some? ==> r.value < TwoTo32
  {
    match v
    case Int(i) => if 0 <= i < TwoTo32 then Some(i) else None
    case Bool(b) => Some(if b then 1 else 0)
    case Str(s) => ParseIPv4(s)
    case _ => None
  }

  /** The dotted-quad text of an address. */
  function FormatIPv4(a: nat): string
    requires a < TwoTo32
  {
    NatToString(a / 256 / 256 / 256) + "." + NatToString(a / 256 / 256 % 256) + "."
      + NatToString(a / 256 % 256) + "." + NatToString(a % 256)
  }

  lemma {:induction false} NatToStringNoLeadingZero(n: nat)
    ensures NatToString(n)[0] == '0' ==> n == 0
    decreases n
  {
    if n >= 10 {
      NatToStringNoLeadingZero(n / 10);
      assert NatToString(n)[0] == NatToString(n / 10)[0];
    }
  }

  lemma OctetRoundTrip(n: nat)
    requires n < 256
    ensures ParseOctet(NatToString(n)) == Some(n)
  {
    ParseNatToString(n);
    NatToStringNoLeadingZero(n);
  }

  lemma DigitsNoDot(s: string)
    requires AllDigits(s)
    ensures '.' !in s && '/' !in s
  {
    forall i | 0 <= i < |s| ensures s[i] != '.' && s[i] != '/' {
      assert IsDigit(s[i]);
    }
  }

  /** Four dot-free pieces joined by dots split back into those pieces. */
  lemma SplitFour(s0: string, s1: string, s2: string, s3: string)
    requires '.' !in s0 && '.' !in s1 && '.' !in s2 && '.' !in s3
    ensures Split(s0 + "." + s1 + "." + s2 + "." + s3, '.') == [s0, s1, s2, s3]
  {
    SplitNoSep(s3, '.');
    SplitCons(s2, s3, '.');
    SplitCons(s1, s2 + "." + s3, '.');
    SplitCons(s0, s1 + "." + (s2 + "." + s3), '.');
    assert s0 + "." + s1 + "." + s2 + "." + s3 == s0 + "." + (s1 + "." + (s2 + "." + s3));
  }

  lemma OctetsRebuild(a: nat)
    requires a < TwoTo32
    ensures FromOctets(a / 256 / 256 / 256, a / 256 / 256 % 256, a / 256 % 256, a % 256) == a
  {
    var q1 := a / 256;
    var q2 := q1 / 256;
    assert a == q1 * 256 + a % 256;
    assert q1 == q2 * 256 + q1 % 256;
    assert q2 == q2 / 256 * 256 + q2 % 256;
  }

  /** Parsing the dotted-quad text of an address gives back the address. */
  lemma ParseFormat(a: nat)
    requires a < TwoTo32
    ensures ParseIPv4(FormatIPv4(a)) == Some(a)
  {
    var o0, o1, o2, o3 := a / 256 / 256 / 256, a / 256 / 256 % 256, a / 256 % 256, a % 256;
    var s0, s1, s2, s3 := NatToString(o0), NatToString(o1), NatToString(o2), NatToString(o3);
    DigitsNoDot(s0);
    DigitsNoDot(s1);
    DigitsNoDot(s2);
    DigitsNoDot(s3);
    SplitFour(s0, s1, s2, s3);
    OctetRoundTrip(o0);
    OctetRoundTrip(o1);
    OctetRoundTrip(o2);
    OctetRoundTrip(o3);
    OctetsRebuild(a);
  }

  // ----- networks -----

  /** An IPv4 network: an address (host bits allowed) and a prefix length. */
  datatype Net = Net(base: nat, prefix: nat)

  predicate ValidNet(n: Net) { n.base < TwoTo32 && n.prefix <= 32 }

  function Pow2(k: nat): (r: nat)
    ensures r >= 1
  {
    if k == 0 then 1 else 2 * Pow2(k - 1)
  }

  /** The number of addresses of a network. */
  function Size(n: Net): nat
    requires ValidNet(n)
  {
    Pow2(32 - n.prefix)
  }

  /** The network address of a network: its base with the host bits cleared. */
  function Network(n: Net): int
    requires ValidNet(n)
  {
    (n.base / Size(n)) * Size(n)
  }

  /** `address in network`: the address lies between the network and the broadcast address. */
  predicate NetContains(n: Net, a: nat)
    requires ValidNet(n)
  {
    Network(n) <= a < Network(n) + Size(n)
  }

  lemma MulMono(x: int, y: int, d: int)
    ensures x >= y && d >= 0 ==> x * d >= y * d
  {
    assert x * d - y * d == (x - y) * d;
  }

  lemma DivRange(a: nat, d: nat, q: int)
    requires d >= 1
    ensures a / d == q <==> q * d <= a < q * d + d
  {
    var q' := a / d;
    assert q' * d <= a < q' * d + d;
    MulMono(q', q + 1, d);
    MulMono(q, q' + 1, d);
    assert (q + 1) * d == q * d + d;
    assert (q' + 1) * d == q' * d + d;
  }

  /** Containment is agreement on the first `prefix` bits. */
  lemma ContainsIffPrefix(n: Net, a: nat)
    requires ValidNet(n)
    ensures NetContains(n, a) <==> a / Size(n) == n.base / Size(n)
  {
    var d := Size(n);
    var q := n.base / d;
    assert NetContains(n, a) <==> q * d <= a < q * d + d;
    DivRange(a, d, q);
  }

  /** With a prefix of 32 the network holds exactly its own address. */
  lemma HostNetwork(n: Net, a: nat)
    requires ValidNet(n) && n.prefix == 32
    ensures NetContains(n, a) <==> a == n.base
  {
  }

  /** A network contains the address it was written with. */
  lemma ContainsBase(n: Net)
    requires ValidNet(n)
    ensures NetContains(n, n.base)
  {
    ContainsIffPrefix(n, n.base);
  }

  /**
   * ipaddr.IPNetwork of a string: an address, optionally followed by `/` and a
   * prefix length of 0 to 32; without one the prefix is 32.
   */
  function ParseNetwork(s: string): (r: Option<Net>)
    ensures r.Some? ==> ValidNet(r.value)
  {
    var parts := Split(s, '/');
    if |parts| > 2 then None
    else
      match ParseIPv4(parts[0])
      case None => None
      case Some(a) =>
        if |parts| == 1 then Some(Net(a, 32))
        else
          match ParseNat(parts[1])
          case Some(p) => if p <= 32 then Some(Net(a, p)) else None
          case None => None
  }

  /** A bare address is parsed as the network of that one address. */
  lemma ParseBareAddress(a: nat)
    requires a < TwoTo32
    ensures ParseNetwork(FormatIPv4(a)) == Some(Net(a, 32))
  {
    ParseFormat(a);
    var s0, s1, s2, s3 := NatToString(a / 256 / 256 / 256), NatToString(a / 256 / 256 % 256),
      NatToString(a / 256 % 256), NatToString(a % 256);
    DigitsNoDot(s0);
    DigitsNoDot(s1);
    DigitsNoDot(s2);
    DigitsNoDot(s3);
    assert '/' !in FormatIPv4(a) by {
      assert FormatIPv4(a) == s0 + "." + s1 + "." + s2 + "." + s3;
    }
    SplitNoSep(FormatIPv4(a), '/');
  }

  /** The networks of a subnet list the plugin can parse, in order; the others are skipped. */
  function ValidNets(texts: seq<string>): (r: seq<Net>)
    ensures forall n :: n in r ==> ValidNet(n)
  {
    var nets := FilterMap(texts, ParseNetwork);
    assert forall n :: n in nets ==> ValidNet(n) by {
      forall n | n in nets ensures ValidNet(n) {
        FilterMapMember(texts, ParseNetwork, n);
      }
    }
    nets
  }

  /** A network is kept exactly when some entry of the list parses to it. */
  lemma ValidNetsMember(texts: seq<string>, n: Net)
    ensures n in ValidNets(texts) <==> exists i :: 0 <= i < |texts| && ParseNetwork(texts[i]) == Some(n)
  {
    FilterMapMember(texts, ParseNetwork, n);
  }

  /**
   * The loop that reads an ignore-subnets property: every entry is tried with
   * IPNetwork, the ones that raise are logged and dropped.
   */
  method ParseIgnoreNets(texts: seq<string>) returns (nets: seq<Net>)
    ensures nets == ValidNets(texts)
  {
    nets := [];
    for i := 0 to |texts|
      invariant nets == FilterMap(texts[..i], ParseNetwork)
    {
      assert texts[..i + 1][..i] == texts[..i];
      var n := ParseNetwork(texts[i]);
      if n.Some? {
        nets := nets + [n.value];
      }
    }
    assert texts[..|texts|] == texts;
  }

  /** Some network of the list holds the address. */
  predicate InSomeNet(nets: seq<Net>, a: nat)
    requires forall n :: n in nets ==> ValidNet(n)
  {
    exists n :: n in nets && NetContains(n, a)
  }

  /** The intended result of `ip_in_nets`: the value parses and lies in one of the networks. */
  predicate InAnyNet(ip: Value, nets: seq<Net>)
    requires forall n :: n in nets ==> ValidNet(n)
  {
    match ParseAddress(ip)
    case None => false
    case Some(a) => InSomeNet(nets, a)
  }

  /**
   * `ip_in_nets` as the plugins define it, with its handler for an unparsable
   * address: that handler logs through a name the module never defines, so
   * the call ends in a NameError.
   */
  function IpInNetsAsWritten(ip: Value, nets: seq<Net>): (r: Outcome<bool>)
    requires forall n :: n in nets ==> ValidNet(n)
  {
    if nets == [] then Done(false)
    else
      match ParseAddress(ip)
      case None => Raised(NameError("log"))
      case Some(a) => Done(InSomeNet(nets, a))
  }

  /** With one subnet configured, an AP whose ip column is empty makes the plugin raise. */
  lemma IpInNetsAsWrittenRaises()
    ensures ValidNet(Net(0, 0))
    ensures IpInNetsAsWritten(Str(""), [Net(0, 0)]) == Raised(NameError("log"))
    ensures !InAnyNet(Str(""), [Net(0, 0)])
  {
    assert Split("", '.') == [""];
  }

  /** Wherever the code as written returns, it returns the intended answer. */
  lemma IpInNetsAsWrittenAgrees(ip: Value, nets: seq<Net>)
    requires forall n :: n in nets ==> ValidNet(n)
    ensures IpInNetsAsWritten(ip, nets).Done? ==> IpInNetsAsWritten(ip, nets).value == InAnyNet(ip, nets)
    ensures IpInNetsAsWritten(ip, nets).Raised? <==> nets != [] && ParseAddress(ip).None?
  {
  }

  /**
   * `ip_in_nets` with the handler doing what it evidently means to: an
   * address that does not parse is in no network.
   */
  method IpInNets(ip: Value, nets: seq<Net>) returns (found: bool)
    requires forall n :: n in nets ==> ValidNet(n)
    ensures found == InAnyNet(ip, nets)
  {
    found := false;
    var i := 0;
    while i < |nets|
      invariant 0 <= i <= |nets|
      invariant !found
      invariant ParseAddress(ip).Some? ==> forall j :: 0 <= j < i ==> !NetContains(nets[j], ParseAddress(ip).value)
    {
      var a := ParseAddress(ip);
      if a.None? {
        break;
      }
      if NetContains(nets[i], a.value) {
        found := true;
        break;
      }
      i := i + 1;
    }
  }

  /**
   * The inline subnet loop of the older plugins: for each ignored network,
   * when `guard` holds, the value is converted to an address and checked against it. A
   * value that is no IPv4 address makes the conversion raise, but only once
   * the loop runs, that is, with at least one network and the guard true.
   */
  function InlineSkip(guard: bool, ip: Value, nets: seq<Net>): Outcome<bool>
    requires forall n :: n in nets ==> ValidNet(n)
  {
    if !guard || nets == [] then Done(false)
    else
      match ParseAddress(ip)
      case None => Raised(ValueError(PyStr(ip)))
      case Some(a) => Done(InSomeNet(nets, a))
  }

  method SkipNet(guard: bool, ip: Value, nets: seq<Net>) returns (r: Outcome<bool>)
    requires forall n :: n in nets ==> ValidNet(n)
    ensures r == InlineSkip(guard, ip, nets)
  {
    r := Done(false);
    for i := 0 to |nets|
      invariant r == Done(false)
      invariant guard && i > 0 ==> ParseAddress(ip).Some? && forall j :: 0 <= j < i ==> !NetContains(nets[j], ParseAddress(ip).value)
    {
      if guard {
        var a := ParseAddress(ip);
        if a.None? {
          return Raised(ValueError(PyStr(ip)));
        }
        if NetContains(nets[i], a.value) {
          return Done(true);
        }
      }
    }
  }

  /** Where the inline loop returns normally it agrees with the corrected `ip_in_nets`, under its guard. */
  lemma InlineSkipAgrees(guard: bool, ip: Value, nets: seq<Net>)
    requires forall n :: n in nets ==> ValidNet(n)
    ensures InlineSkip(guard, ip, nets).Done? ==> InlineSkip(guard, ip, nets).value == (guard && InAnyNet(ip, nets))
    ensures InlineSkip(guard, ip, nets).Raised? <==> guard && nets != [] && ParseAddress(ip).None?
  {
  }
}
