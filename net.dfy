/**
 * IPv4 addresses and the packet decoder's interface.
 *
 * The decoder turns a captured frame into the 6-tuple
 * (transport, ip_a, ip_b, port_a, port_b, payload). The byte-level parsing of
 * Ethernet, IP, TCP and UDP headers is the job of an external library; here a
 * frame is given already parsed, and `PacketData` keeps only the decoder's own
 * choices: which frames it rejects and in which order it returns the fields.
 */
module Net {
  import opened Wrappers
  import opened Strings

  type Octet = x: int | 0 <= x < 256

  type Port = x: int | 0 <= x < 65536

  datatype Address = IPv4(a: Octet, b: Octet, c: Octet, d: Octet)

  /** `ip2str`: the dotted-decimal text of an address. */
  function Text(ip: Address): string {
    Join([NatToDecimal(ip.a), NatToDecimal(ip.b), NatToDecimal(ip.c), NatToDecimal(ip.d)], ".")
  }

  /** `ip2long`: the address as an unsigned 32-bit number, most significant octet first. */
  function Long(ip: Address): (n: nat)
    ensures n < 0x1_0000_0000
  {
    ((ip.a * 256 + ip.b) * 256 + ip.c) * 256 + ip.d
  }

  lemma DivMod256(q: nat, r: nat)
    requires r < 256
    ensures (q * 256 + r) / 256 == q && (q * 256 + r) % 256 == r
  {
  }

  /** Different addresses have different numbers, so the comparison in the flow key is total. */
  lemma LongInjective(x: Address, y: Address)
    requires Long(x) == Long(y)
    ensures x == y
  {
    DivMod256((x.a * 256 + x.b) * 256 + x.c, x.d);
    DivMod256((y.a * 256 + y.b) * 256 + y.c, y.d);
    DivMod256(x.a * 256 + x.b, x.c);
    DivMod256(y.a * 256 + y.b, y.c);
    DivMod256(x.a, x.b);
    DivMod256(y.a, y.b);
  }

  function OctetOf(s: string): Option<Octet> {
    if |s| > 0 && AllDigits(s) && DecimalValue(s) < 256 then Some(DecimalValue(s)) else None
  }

  /** Reads dotted-decimal text back: four pieces of digits, each below 256. */
  function ParseDotted(s: string): Option<Address> {
    var parts := Split(s, '.');
    if |parts| != 4 then None
    else
      match (OctetOf(parts[0]), OctetOf(parts[1]), OctetOf(parts[2]), OctetOf(parts[3]))
      case (Some(a), Some(b), Some(c), Some(d)) => Some(IPv4(a, b, c, d))
      case _ => None
  }

  lemma OctetRoundTrip(x: Octet)
    ensures OctetOf(NatToDecimal(x)) == Some(x)
  {
    DecimalRoundTrip(x);
  }

  /** The dotted text of an address reads back as that address. */
  lemma TextRoundTrip(ip: Address)
    ensures ParseDotted(Text(ip)) == Some(ip)
  {
    var parts := [NatToDecimal(ip.a), NatToDecimal(ip.b), NatToDecimal(ip.c), NatToDecimal(ip.d)];
    forall p | p in parts ensures '.' !in p {
    }
    SplitJoin(parts, '.');
    OctetRoundTrip(ip.a);
    OctetRoundTrip(ip.b);
    OctetRoundTrip(ip.c);
    OctetRoundTrip(ip.d);
  }

  /**
   * Different addresses have different texts. The source compares the text
   * of addresses; the model compares the addresses, which is the same test.
   */
  lemma TextInjective(x: Address, y: Address)
    requires Text(x) == Text(y)
    ensures x == y
  {
    TextRoundTrip(x);
    TextRoundTrip(y);
  }

  datatype Transport = TCP | UDP

  /** The name `packet_data` gives the transport: "tcp" or "udp". */
  function TransportName(t: Transport): string {
    match t
    case TCP => "tcp"
    case UDP => "udp"
  }

  /**
   * A captured frame as the decoding library sees it: either something that is
   * not TCP or UDP over IPv4 over Ethernet (an empty frame included), or a
   * segment with its endpoints and the length of its transport payload.
   */
  datatype Frame =
    | Other
    | Segment(transport: Transport, src: Address, dst: Address, sport: Port, dport: Port, payloadLen: nat)

  /** The decoder's 6-tuple, named as the drivers unpack it. */
  datatype Decoded = Decoded(transport: string, ipA: Address, ipB: Address, portA: Port, portB: Port, payload: nat)

  /**
   * `packet_data`: None for anything but TCP/UDP over IPv4; otherwise the
   * tuple with the DESTINATION address and port first, so that the `ip_a`
   * every caller uses for the direction rule is the packet's destination.
   */
  function PacketData(frame: Frame): (r: Option<Decoded>)
    ensures r.None? <==> frame.Other?
    ensures r.Some? ==> r.value.ipA == frame.dst && r.value.ipB == frame.src
    ensures r.Some? ==> r.value.portA == frame.dport && r.value.portB == frame.sport
    ensures r.Some? ==> r.value.transport in {"tcp", "udp"} && r.value.payload == frame.payloadLen
  {
    match frame
    case Other => None
    case Segment(t, src, dst, sport, dport, len) =>
      Some(Decoded(TransportName(t), dst, src, dport, sport, len))
  }

  /** The same segment sent the other way. */
  function Reply(frame: Frame): Frame
    requires frame.Segment?
  {
    frame.(src := frame.dst, dst := frame.src, sport := frame.dport, dport := frame.sport)
  }
}
