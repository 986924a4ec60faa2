/**
 * `_process_ndpijson`: the nDPI report, already decoded from JSON, becomes the
 * ground truth of the batch pipeline: a map from flow key to application
 * name, plus the report's known/unknown traffic counters.
 */
module Ndpi {
  import opened Wrappers
  import opened Strings
  import opened Net
  import opened FlowKeys

  /** An entry of "detected.protos". */
  datatype ProtoStat = ProtoStat(name: string, packets: nat, bytes: nat, flows: nat)

  /** An entry of "known.flows"; hosts are IPv4 addresses. */
  datatype KnownFlow = KnownFlow(
    protocol: string, hostA: Address, hostB: Address, portA: nat, portB: nat, detected: string)

  /** The two top-level keys the source reads; every other key is ignored. */
  datatype Report = Report(detectedProtos: Option<seq<ProtoStat>>, knownFlows: Option<seq<KnownFlow>>)

  /** A (packets, bytes, flows) triple. */
  datatype Counters = Counters(packets: nat, bytes: nat, flows: nat)

  /** `dpi`: "general" holds the optional "unknown" and "known" triples, "flows" the labels. */
  datatype GroundTruth = GroundTruth(unknown: Option<Counters>, known: Option<Counters>, flows: map<FlowKey, string>)

  function Add(x: Counters, y: Counters): Counters {
    Counters(x.packets + y.packets, x.bytes + y.bytes, x.flows + y.flows)
  }

  function CountersOf(p: ProtoStat): Counters {
    Counters(p.packets, p.bytes, p.flows)
  }

  /** The summed counters of the entries that are not "Unknown". */
  function KnownTotal(ps: seq<ProtoStat>): Counters {
    if ps == [] then Counters(0, 0, 0)
    else
      var t := KnownTotal(ps[..|ps| - 1]);
      var p := ps[|ps| - 1];
      if p.name == "Unknown" then t else Add(t, CountersOf(p))
  }

  /** The summed counters of the "Unknown" entries. */
  function UnknownTotal(ps: seq<ProtoStat>): Counters {
    if ps == [] then Counters(0, 0, 0)
    else
      var t := UnknownTotal(ps[..|ps| - 1]);
      var p := ps[|ps| - 1];
      if p.name == "Unknown" then Add(t, CountersOf(p)) else t
  }

  /** The summed counters of all entries. */
  function AllTotal(ps: seq<ProtoStat>): Counters {
    if ps == [] then Counters(0, 0, 0)
    else Add(AllTotal(ps[..|ps| - 1]), CountersOf(ps[|ps| - 1]))
  }

  /** The counters of the last "Unknown" entry, if any. */
  function LastUnknown(ps: seq<ProtoStat>): Option<Counters> {
    if ps == [] then None
    else if ps[|ps| - 1].name == "Unknown" then Some(CountersOf(ps[|ps| - 1]))
    else LastUnknown(ps[..|ps| - 1])
  }

  /** The report's traffic splits into known and unknown traffic. */
  lemma {:induction false} TotalsSplit(ps: seq<ProtoStat>)
    ensures AllTotal(ps) == Add(KnownTotal(ps), UnknownTotal(ps))
  {
    if ps != [] {
      TotalsSplit(ps[..|ps| - 1]);
    }
  }

  /** The report names "Unknown" at most once. */
  predicate AtMostOneUnknown(ps: seq<ProtoStat>) {
    forall i, j :: 0 <= i < j < |ps| && ps[i].name == "Unknown" ==> ps[j].name != "Unknown"
  }

  /**
   * The "unknown" counters the source keeps are those of the last "Unknown"
   * entry. When the report has at most one such entry they are all its
   * unknown traffic; with none, there is no unknown traffic and no "unknown"
   * counters.
   */
  lemma {:induction false} UnknownIsLast(ps: seq<ProtoStat>)
    requires AtMostOneUnknown(ps)
    ensures LastUnknown(ps).Some? ==> LastUnknown(ps).value == UnknownTotal(ps)
    ensures LastUnknown(ps).Some? ==> exists i :: 0 <= i < |ps| && ps[i].name == "Unknown"
    ensures LastUnknown(ps).None? ==> UnknownTotal(ps) == Counters(0, 0, 0)
  {
    if ps != [] {
      var init := ps[..|ps| - 1];
      assert forall i :: 0 <= i < |init| ==> init[i] == ps[i];
      UnknownIsLast(init);
      if ps[|ps| - 1].name == "Unknown" {
        assert LastUnknown(init).None?;
      }
      if ps[|ps| - 1].name != "Unknown" && LastUnknown(init).Some? {
        var i :| 0 <= i < |init| && init[i].name == "Unknown";
        assert ps[i].name == "Unknown";
      }
    }
  }

  /** Only entries of transport "TCP" or "UDP" (exactly so spelled) become ground truth. */
  predicate Eligible(e: KnownFlow) {
    e.protocol == "TCP" || e.protocol == "UDP"
  }

  function EntryKey(e: KnownFlow): FlowKey {
    FlowHash(e.hostA, e.hostB, e.portA, e.portB, e.protocol)
  }

  /** `name.split(".")[0]`: the detected name up to its first dot. */
  function AppName(detected: string): (r: string)
    ensures '.' !in r
  {
    Split(detected, '.')[0]
  }

  /** The application name is the detected name's longest dot-free prefix. */
  lemma {:induction false} AppNamePrefix(detected: string)
    ensures var r := AppName(detected);
      r <= detected && (|r| < |detected| ==> detected[|r|] == '.')
  {
    if detected != [] && detected[0] != '.' {
      AppNamePrefix(detected[1..]);
    }
  }

  /** The ground-truth map of a list of entries: later entries overwrite earlier ones. */
  function TruthOf(es: seq<KnownFlow>): map<FlowKey, string> {
    if es == [] then map[]
    else
      var m := TruthOf(es[..|es| - 1]);
      var e := es[|es| - 1];
      if Eligible(e) then m[EntryKey(e) := AppName(e.detected)] else m
  }

  /** `_process_ndpijson` on an already parsed report. */
  method ProcessNdpiJson(report: Report) returns (dpi: GroundTruth)
    ensures dpi.known == if report.detectedProtos.Some? then Some(KnownTotal(report.detectedProtos.value)) else None
    ensures dpi.unknown == if report.detectedProtos.Some? then LastUnknown(report.detectedProtos.value) else None
    ensures dpi.flows == if report.knownFlows.Some? then TruthOf(report.knownFlows.value) else map[]
  {
    dpi := GroundTruth(None, None, map[]);
    if report.detectedProtos.Some? {
      var ps := report.detectedProtos.value;
      var pkts: nat, byts: nat, flws: nat := 0, 0, 0;
      for i := 0 to |ps|
        invariant Counters(pkts, byts, flws) == KnownTotal(ps[..i])
        invariant dpi.unknown == LastUnknown(ps[..i])
        invariant dpi.known.None? && dpi.flows == map[]
      {
        assert ps[..i + 1][..i] == ps[..i];
        var p := ps[i];
        if p.name == "Unknown" {
          dpi := dpi.(unknown := Some(Counters(p.packets, p.bytes, p.flows)));
        } else {
          pkts := pkts + p.packets;
          byts := byts + p.bytes;
          flws := flws + p.flows;
        }
      }
      assert ps[..|ps|] == ps;
      dpi := dpi.(known := Some(Counters(pkts, byts, flws)));
    }
    if report.knownFlows.Some? {
      var es := report.knownFlows.value;
      ghost var known, unknown := dpi.known, dpi.unknown;
      for i := 0 to |es|
        invariant dpi.flows == TruthOf(es[..i])
        invariant dpi.known == known && dpi.unknown == unknown
      {
        assert es[..i + 1][..i] == es[..i];
        var e := es[i];
        if e.protocol == "TCP" || e.protocol == "UDP" {
          var fid := FlowHash(e.hostA, e.hostB, e.portA, e.portB, e.protocol);
          dpi := dpi.(flows := dpi.flows[fid := AppName(e.detected)]);
        }
      }
      assert es[..|es|] == es;
    }
  }

  /** A key has ground truth exactly when some eligible entry produces it. */
  lemma {:induction false} TruthKeys(es: seq<KnownFlow>, k: FlowKey)
    ensures k in TruthOf(es) <==> exists i :: 0 <= i < |es| && Eligible(es[i]) && EntryKey(es[i]) == k
  {
    if es != [] {
      var init := es[..|es| - 1];
      TruthKeys(init, k);
      assert forall i :: 0 <= i < |init| ==> init[i] == es[i];
    }
  }

  /** The label of a key is the application name of the LAST eligible entry with that key. */
  lemma {:induction false} TruthLastWins(es: seq<KnownFlow>, i: int)
    requires 0 <= i < |es| && Eligible(es[i])
    requires forall j :: i < j < |es| && Eligible(es[j]) ==> EntryKey(es[j]) != EntryKey(es[i])
    ensures EntryKey(es[i]) in TruthOf(es) && TruthOf(es)[EntryKey(es[i])] == AppName(es[i].detected)
  {
    if i < |es| - 1 {
      var init := es[..|es| - 1];
      assert forall j :: i < j < |init| ==> init[j] == es[j];
      TruthLastWins(init, i);
    }
  }

  /**
   * A "TCP" entry labels the packets of its conversation in both directions:
   * its key is the key the drivers compute for a TCP segment between the two
   * hosts and ports, whichever host sends.
   */
  lemma TcpEntryMatchesSegments(e: KnownFlow, frame: Frame)
    requires e.protocol == "TCP" && frame.Segment? && frame.transport == TCP
    requires (frame.src, frame.sport, frame.dst, frame.dport) == (e.hostA, e.portA, e.hostB, e.portB)
          || (frame.src, frame.sport, frame.dst, frame.dport) == (e.hostB, e.portB, e.hostA, e.portA)
    ensures KeyOf(PacketData(frame).value) == EntryKey(e)
  {
    assert Lower("TCP") == "tcp";
    FlowHashCaseInsensitive(e.hostA, e.hostB, e.portA, e.portB, "TCP", "tcp");
    FlowHashSymmetric(e.hostA, e.hostB, e.portA, e.portB, "tcp");
  }
}
