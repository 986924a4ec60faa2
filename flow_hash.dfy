/**
 * `flow_hash`: the key under which every table of the system files a flow.
 *
 * The key is the md5 digest of a string made of three parts: the text of the
 * numerically smaller address, the decimal sum of the two ports, and the
 * lower-cased transport name. md5 is a library digest; the model identifies a
 * digest with the string it digests, so two keys are equal exactly when their
 * digest inputs are.
 */
module FlowKeys {
  import opened Strings
  import opened Net

  datatype FlowKey = Md5(input: string)

  /** The address that goes into the digest: the smaller number, `ip_a` on a tie. */
  function Smaller(ipA: Address, ipB: Address): (r: Address)
    ensures r == ipA || r == ipB
    ensures Long(r) <= Long(ipA) && Long(r) <= Long(ipB)
  {
    if Long(ipA) > Long(ipB) then ipB else ipA
  }

  function DigestInput(ipA: Address, ipB: Address, portA: nat, portB: nat, proto: string): string {
    Text(Smaller(ipA, ipB)) + NatToDecimal(portA + portB) + Lower(proto)
  }

  function FlowHash(ipA: Address, ipB: Address, portA: nat, portB: nat, proto: string): FlowKey {
    Md5(DigestInput(ipA, ipB, portA, portB, proto))
  }

  /** The key of a decoded packet, as both drivers compute it. */
  function KeyOf(d: Decoded): FlowKey {
    FlowHash(d.ipA, d.ipB, d.portA, d.portB, d.transport)
  }

  /** The smaller address does not depend on the order of the two. */
  lemma SmallerSymmetric(x: Address, y: Address)
    ensures Smaller(x, y) == Smaller(y, x)
  {
    if Long(x) == Long(y) {
      LongInjective(x, y);
    }
  }

  /** Swapping the two endpoints (address with its port) gives the same key. */
  lemma FlowHashSymmetric(ipA: Address, ipB: Address, portA: nat, portB: nat, proto: string)
    ensures FlowHash(ipA, ipB, portA, portB, proto) == FlowHash(ipB, ipA, portB, portA, proto)
  {
    SmallerSymmetric(ipA, ipB);
    assert portA + portB == portB + portA;
  }

  /** The key ignores the case of the transport name. */
  lemma FlowHashCaseInsensitive(ipA: Address, ipB: Address, portA: nat, portB: nat, p: string, q: string)
    requires Lower(p) == Lower(q)
    ensures FlowHash(ipA, ipB, portA, portB, p) == FlowHash(ipA, ipB, portA, portB, q)
  {
  }

  /**
   * The key depends on nothing but the smaller address, the port sum and the
   * lower-cased transport: two endpoint pairs that agree on these three share
   * a key, whatever the larger address and the individual ports are.
   */
  lemma FlowHashDeterminedBy(
    ipA: Address, ipB: Address, portA: nat, portB: nat, p: string,
    ipC: Address, ipD: Address, portC: nat, portD: nat, q: string)
    requires Smaller(ipA, ipB) == Smaller(ipC, ipD)
    requires portA + portB == portC + portD
    requires Lower(p) == Lower(q)
    ensures FlowHash(ipA, ipB, portA, portB, p) == FlowHash(ipC, ipD, portC, portD, q)
  {
  }

  /** A segment and its reply share a key: ingestion files both under one flow. */
  lemma ReplySameKey(frame: Frame)
    requires frame.Segment?
    ensures KeyOf(PacketData(frame).value) == KeyOf(PacketData(Reply(frame)).value)
  {
    var d := PacketData(frame).value;
    FlowHashSymmetric(d.ipA, d.ipB, d.portA, d.portB, d.transport);
  }

  /**
   * The three parts are concatenated without a separator, so two
   * conversations with different smaller addresses can share a key:
   * 10.0.0.1 with ports summing to 180 and 10.0.0.11 with ports summing to 80
   * both digest "10.0.0.1180tcp".
   */
  lemma ConcatenationCollision()
    ensures var peer := IPv4(10, 0, 0, 200);
            FlowHash(IPv4(10, 0, 0, 1), peer, 100, 80, "tcp")
            == FlowHash(IPv4(10, 0, 0, 11), peer, 40, 40, "tcp")
  {
    CollisionTexts();
    CollisionSums();
    var peer := IPv4(10, 0, 0, 200);
    assert Smaller(IPv4(10, 0, 0, 1), peer) == IPv4(10, 0, 0, 1);
    assert Smaller(IPv4(10, 0, 0, 11), peer) == IPv4(10, 0, 0, 11);
    assert "10.0.0.1" + "180" == "10.0.0.11" + "80";
  }

  lemma CollisionTexts()
    ensures Text(IPv4(10, 0, 0, 1)) == "10.0.0.1"
    ensures Text(IPv4(10, 0, 0, 11)) == "10.0.0.11"
  {
    assert NatToDecimal(10) == "10";
    assert NatToDecimal(0) == "0";
    assert NatToDecimal(1) == "1";
    assert NatToDecimal(11) == "11";
  }

  lemma CollisionSums()
    ensures NatToDecimal(180) == "180" && NatToDecimal(80) == "80"
  {
    assert NatToDecimal(18) == "18";
  }
}
