/**
 * The batch preprocessor of src/utils/prepro.py.
 *
 * A capture is replayed packet by packet against the nDPI ground truth: a
 * packet whose flow has no ground-truth label is skipped; a labelled flow gets
 * its full statistics recalculated until its packet count reaches the
 * threshold, and from then on only its counters move. The finished table is
 * written out as training rows: slots 1..24 of the record and the label.
 */
module Batch {
  import opened Wrappers
  import opened Strings
  import opened Net
  import opened FlowKeys
  import opened Records
  import opened Preprocessing
  import opened Ndpi
  import Streaming
  import Seqs

  /** A pcap record: its timestamp and its frame. */
  type Packet = (real, Frame)

  // ---------------------------------------------------------------------------
  // replaying a capture
  // ---------------------------------------------------------------------------

  /** The flow key a packet is filed under, when it decodes and its flow has ground truth. */
  function RelevantKey(truth: map<FlowKey, string>, pkt: Packet): (r: Option<FlowKey>)
    ensures r.Some? ==> r.value in truth
    ensures r.Some? <==> PacketData(pkt.1).Some? && KeyOf(PacketData(pkt.1).value) in truth
  {
    match PacketData(pkt.1)
    case None => None
    case Some(d) => if KeyOf(d) in truth then Some(KeyOf(d)) else None
  }

  /** `RelevantKey` for a fixed ground truth, as a key function for `Seqs.Filter`. */
  function KeyIn(truth: map<FlowKey, string>): Packet -> Option<FlowKey> {
    pkt => RelevantKey(truth, pkt)
  }

  /**
   * One iteration of `_packets_processing`. Only the packet's own flow can
   * change; a newly seeded flow carries its ground-truth label and a known
   * flow keeps the label it has.
   */
  function Step(truth: map<FlowKey, string>, threshold: int, flows: map<FlowKey, FlowRecord>, pkt: Packet)
    : (r: map<FlowKey, FlowRecord>)
    ensures var k := RelevantKey(truth, pkt);
      r.Keys == flows.Keys + (if k.Some? then {k.value} else {})
    ensures forall k :: k in flows && RelevantKey(truth, pkt) != Some(k) ==> r[k] == flows[k]
    ensures forall k :: k in r ==> r[k].app == if k in flows then flows[k].app else Some(truth[k])
  {
    match PacketData(pkt.1)
    case None => flows
    case Some(d) =>
      var fid := KeyOf(d);
      if fid !in truth then flows
      else if fid in flows && Total(flows[fid]) >= threshold then
        flows[fid := SoftRecalc(flows[fid], d.payload, d.ipA)]
      else
        FlowProcessing(flows, fid, d.payload, pkt.0, d.ipA, Some(truth[fid]))
  }

  /** The table after replaying `pcap`, in order, on top of `flows`. */
  function Replay(truth: map<FlowKey, string>, threshold: int, flows: map<FlowKey, FlowRecord>, pcap: seq<Packet>)
    : map<FlowKey, FlowRecord>
  {
    if pcap == [] then flows
    else Step(truth, threshold, Replay(truth, threshold, flows, pcap[..|pcap| - 1]), pcap[|pcap| - 1])
  }

  /** Replaying one more packet is one more `Step`. */
  lemma ReplaySnoc(truth: map<FlowKey, string>, threshold: int, flows: map<FlowKey, FlowRecord>, pcap: seq<Packet>, i: nat)
    requires i < |pcap|
    ensures Replay(truth, threshold, flows, pcap[..i + 1])
         == Step(truth, threshold, Replay(truth, threshold, flows, pcap[..i]), pcap[i])
  {
    assert pcap[..i + 1][..i] == pcap[..i];
  }

  /** The packet count of `k` in a table, 0 when absent. */
  function CountOf(flows: map<FlowKey, FlowRecord>, k: FlowKey): nat {
    if k in flows then Total(flows[k]) else 0
  }

  /** The replayed table holds exactly the old flows and the labelled flows with a packet in the capture. */
  lemma {:induction false} ReplayKeys(truth: map<FlowKey, string>, threshold: int, flows: map<FlowKey, FlowRecord>,
                                      pcap: seq<Packet>, k: FlowKey)
    ensures k in Replay(truth, threshold, flows, pcap) <==> k in flows || |Seqs.Filter(pcap, KeyIn(truth), Some(k))| > 0
  {
    if pcap != [] {
      var init, last := pcap[..|pcap| - 1], pcap[|pcap| - 1];
      assert pcap == init + [last];
      ReplayKeys(truth, threshold, flows, init, k);
      Seqs.FilterSnoc(init, last, KeyIn(truth), Some(k));
    }
  }

  /** Every flow of the replayed table has ground truth, when every old one had. */
  lemma ReplayKeysHaveTruth(truth: map<FlowKey, string>, threshold: int, flows: map<FlowKey, FlowRecord>, pcap: seq<Packet>)
    requires flows.Keys <= truth.Keys
    ensures Replay(truth, threshold, flows, pcap).Keys <= truth.Keys
  {
    forall k | k in Replay(truth, threshold, flows, pcap) ensures k in truth {
      ReplayKeys(truth, threshold, flows, pcap, k);
      if k !in flows {
        var s := Seqs.Filter(pcap, KeyIn(truth), Some(k));
        assert KeyIn(truth)(s[0]) == Some(k);
      }
    }
  }

  /** A flow keeps its label; a flow first seen in the capture is labelled with its ground truth. */
  lemma {:induction false} ReplayLabels(truth: map<FlowKey, string>, threshold: int, flows: map<FlowKey, FlowRecord>,
                                        pcap: seq<Packet>, k: FlowKey)
    requires k in Replay(truth, threshold, flows, pcap)
    ensures k in flows ==> Replay(truth, threshold, flows, pcap)[k].app == flows[k].app
    ensures k !in flows ==> k in truth && Replay(truth, threshold, flows, pcap)[k].app == Some(truth[k])
  {
    if pcap != [] {
      var init := pcap[..|pcap| - 1];
      if k in Replay(truth, threshold, flows, init) {
        ReplayLabels(truth, threshold, flows, init, k);
      } else {
        ReplayKeys(truth, threshold, flows, init, k);
      }
    }
  }

  /**
   * Every packet of a labelled flow is counted, before and after the
   * threshold: the flow's count grows by the number of its packets.
   */
  lemma {:induction false} ReplayCount(truth: map<FlowKey, string>, threshold: int, flows: map<FlowKey, FlowRecord>,
                                       pcap: seq<Packet>, k: FlowKey)
    ensures CountOf(Replay(truth, threshold, flows, pcap), k)
         == CountOf(flows, k) + |Seqs.Filter(pcap, KeyIn(truth), Some(k))|
  {
    if pcap != [] {
      var init, last := pcap[..|pcap| - 1], pcap[|pcap| - 1];
      assert pcap == init + [last];
      ReplayCount(truth, threshold, flows, init, k);
      Seqs.FilterSnoc(init, last, KeyIn(truth), Some(k));
      var before := Replay(truth, threshold, flows, init);
      if RelevantKey(truth, last) == Some(k) {
        var d := PacketData(last.1).value;
        assert KeyOf(d) == k;
        if k in before && Total(before[k]) >= threshold {
        } else {
          assert CountOf(FlowProcessing(before, k, d.payload, last.0, d.ipA, Some(truth[k])), k) == CountOf(before, k) + 1;
        }
      }
    }
  }

  /** Once a flow has reached the threshold its statistics (slots 5..32) no longer change. */
  lemma {:induction false} ReplayFrozen(truth: map<FlowKey, string>, threshold: int, flows: map<FlowKey, FlowRecord>,
                                        pcap: seq<Packet>, k: FlowKey)
    requires k in flows && Total(flows[k]) >= threshold
    ensures k in Replay(truth, threshold, flows, pcap)
    ensures Replay(truth, threshold, flows, pcap)[k].dir.stats == flows[k].dir.stats
    ensures Replay(truth, threshold, flows, pcap)[k].back.stats == flows[k].back.stats
  {
    if pcap != [] {
      var init, last := pcap[..|pcap| - 1], pcap[|pcap| - 1];
      ReplayFrozen(truth, threshold, flows, init, k);
      ReplayCount(truth, threshold, flows, init, k);
    }
  }

  /** Replaying a capture in two parts is replaying the second part on the table the first part left. */
  lemma {:induction false} ReplayAppend(truth: map<FlowKey, string>, threshold: int, flows: map<FlowKey, FlowRecord>,
                                        a: seq<Packet>, b: seq<Packet>)
    ensures Replay(truth, threshold, flows, a + b) == Replay(truth, threshold, Replay(truth, threshold, flows, a), b)
    decreases |b|
  {
    if b == [] {
      assert a + b == a;
    } else {
      assert (a + b)[..|a + b| - 1] == a + b[..|b| - 1];
      ReplayAppend(truth, threshold, flows, a, b[..|b| - 1]);
    }
  }

  /**
   * A flow that has reached the threshold after the first `i` packets keeps
   * the statistics (slots 5..32) it had then until the end of the capture:
   * they are those of its packets up to the threshold.
   */
  lemma FrozenFromThreshold(truth: map<FlowKey, string>, threshold: int, flows: map<FlowKey, FlowRecord>,
                            pcap: seq<Packet>, i: nat, k: FlowKey)
    requires i <= |pcap|
    requires k in Replay(truth, threshold, flows, pcap[..i])
    requires Total(Replay(truth, threshold, flows, pcap[..i])[k]) >= threshold
    ensures k in Replay(truth, threshold, flows, pcap)
    ensures Replay(truth, threshold, flows, pcap)[k].dir.stats == Replay(truth, threshold, flows, pcap[..i])[k].dir.stats
    ensures Replay(truth, threshold, flows, pcap)[k].back.stats == Replay(truth, threshold, flows, pcap[..i])[k].back.stats
  {
    assert pcap == pcap[..i] + pcap[i..];
    ReplayAppend(truth, threshold, flows, pcap[..i], pcap[i..]);
    ReplayFrozen(truth, threshold, Replay(truth, threshold, flows, pcap[..i]), pcap[i..], k);
  }

  /**
   * Below the threshold a packet of a known flow recalculates its full
   * statistics; at or above it, only the counters and the last address move.
   */
  lemma StepOfKnownFlow(truth: map<FlowKey, string>, threshold: int, flows: map<FlowKey, FlowRecord>, pkt: Packet)
    requires RelevantKey(truth, pkt).Some? && RelevantKey(truth, pkt).value in flows
    ensures var k, d := RelevantKey(truth, pkt).value, PacketData(pkt.1).value;
      Step(truth, threshold, flows, pkt)[k]
        == if Total(flows[k]) >= threshold then SoftRecalc(flows[k], d.payload, d.ipA)
           else Recalc(flows[k], d.payload, pkt.0, d.ipA)
  {
  }

  // ---------------------------------------------------------------------------
  // the training rows
  // ---------------------------------------------------------------------------

  /**
   * `_round` of a slot: an integer prints as `str`, a floating zero as "0";
   * the text of any other float (`str(round(x, 6))`) is given by `fmt`.
   */
  function CellText(v: Value, fmt: Value -> string): string {
    match v
    case IntValue(n) => IntToDecimal(n)
    case RealValue(x) => if x == 0.0 then "0" else fmt(v)
    case RootValue(r) => if r.radicand == 0.0 then "0" else fmt(v)
    case _ => fmt(v)
  }

  /**
   * The 24 formatted cells of slots 1..24: the two counts and the two payload
   * totals print as decimal integers, and no cell holds a comma when no
   * float's text does.
   */
  function Cells(f: FlowRecord, fmt: Value -> string): (r: seq<string>)
    ensures |r| == 24
    ensures forall i :: 0 <= i < 24 ==> r[i] == CellText(Values(f)[i + 1], fmt)
    ensures r[0] == NatToDecimal(f.dir.count) && r[1] == NatToDecimal(f.back.count)
    ensures r[2] == NatToDecimal(f.dir.overall) && r[3] == NatToDecimal(f.back.overall)
    ensures (forall v :: ',' !in fmt(v)) ==> forall i :: 0 <= i < 24 ==> ',' !in r[i]
  {
    var r := seq(24, i requires 0 <= i < 24 => CellText(Values(f)[i + 1], fmt));
    assert Values(f)[3] == IntValue(f.dir.overall) && Values(f)[4] == IntValue(f.back.overall);
    assert (forall v :: ',' !in fmt(v)) ==> forall i :: 0 <= i < 24 ==> ',' !in r[i] by {
      if forall v :: ',' !in fmt(v) {
        forall i | 0 <= i < 24 ensures ',' !in r[i] {
          CellHasNoComma(Values(f)[i + 1], fmt);
        }
      }
    }
    r
  }

  /**
   * The live classifier's default feature vector is the training row's data:
   * its i-th feature is what the row's i-th cell prints.
   */
  lemma DefaultFeaturesAreTrainingCells(f: FlowRecord, fmt: Value -> string)
    ensures |Streaming.Fitted(f, [])| == |Cells(f, fmt)| == 24
    ensures forall i :: 0 <= i < 24 ==> Cells(f, fmt)[i] == CellText(Streaming.Fitted(f, [])[i], fmt)
  {
  }

  /** A training row: the cells, then the label. */
  function ExportRow(f: FlowRecord, fmt: Value -> string): string {
    Join(Cells(f, fmt), ",") + "," + LabelText(f.app)
  }

  lemma IntTextHasNoComma(n: int)
    ensures ',' !in IntToDecimal(n)
  {
    var s := IntToDecimal(n);
    if n < 0 {
      assert forall i :: 1 <= i < |s| ==> s[i] == s[1..][i - 1];
    }
  }

  lemma CellHasNoComma(v: Value, fmt: Value -> string)
    requires ',' !in fmt(v)
    ensures ',' !in CellText(v, fmt)
  {
    if v.IntValue? {
      IntTextHasNoComma(v.n);
    }
  }

  /**
   * A training row splits back into its 24 cells and its label: 25 fields,
   * the last being the label, when neither the label nor a float's text holds
   * a comma.
   */
  lemma ExportRowFields(f: FlowRecord, fmt: Value -> string)
    requires ',' !in LabelText(f.app)
    requires forall v :: ',' !in fmt(v)
    ensures Split(ExportRow(f, fmt), ',') == Cells(f, fmt) + [LabelText(f.app)]
    ensures |Split(ExportRow(f, fmt), ',')| == 25
  {
    var cells := Cells(f, fmt);
    var all := cells + [LabelText(f.app)];
    JoinSnoc(cells, LabelText(f.app), ",");
    forall p | p in all ensures ',' !in p {
      if p in cells {
        var i :| 0 <= i < 24 && cells[i] == p;
        CellHasNoComma(Values(f)[i + 1], fmt);
      }
    }
    SplitJoin(all, ',');
  }

  /** The rows of the entries of `flows` listed in `order`. */
  function ExportLines(flows: map<FlowKey, FlowRecord>, order: seq<FlowKey>, fmt: Value -> string): (r: seq<string>)
    requires forall k :: k in order ==> k in flows
    ensures |r| == |order|
    ensures forall i :: 0 <= i < |order| ==> r[i] == ExportRow(flows[order[i]], fmt)
  {
    seq(|order|, i requires 0 <= i < |order| => ExportRow(flows[order[i]], fmt))
  }

  // ---------------------------------------------------------------------------
  // the preprocessor
  // ---------------------------------------------------------------------------

  class Prepro {
    /** `DPI`: None until the first capture's ground truth has been computed. */
    var dpi: Option<GroundTruth>
    var flows: map<FlowKey, FlowRecord>
    var tasks: nat
    var completed: nat
    var threshold: int
    var maxProcesses: int

    /** Every flow of the table carries a label. */
    ghost predicate Valid()
      reads this
    {
      forall k :: k in flows ==> flows[k].app.Some?
    }

    /** `Prepro.__init__`: 8 packets and 15 processes unless given. */
    constructor (threshold: Option<int>, processes: Option<int>)
      ensures Valid()
      ensures this.threshold == (if threshold.Some? then threshold.value else 8)
      ensures maxProcesses == (if processes.Some? then processes.value else 15)
      ensures dpi == None && flows == map[] && tasks == 0 && completed == 0
    {
      dpi := None;
      flows := map[];
      tasks := 0;
      completed := 0;
      maxProcesses := if processes.Some? then processes.value else 15;
      this.threshold := if threshold.Some? then threshold.value else 8;
    }

    /**
     * `_packets_processing`: every packet is counted as completed, decodable
     * or not; the table becomes the replay of the capture.
     */
    method PacketsProcessing(pcap: seq<Packet>)
      requires dpi.Some? && Valid()
      modifies this
      ensures dpi == old(dpi) && tasks == old(tasks) && threshold == old(threshold) && maxProcesses == old(maxProcesses)
      ensures Valid()
      ensures flows == Replay(dpi.value.flows, threshold, old(flows), pcap)
      ensures completed == old(completed) + |pcap|
    {
      var truth := dpi.value.flows;
      var table, done := flows, completed;
      for i := 0 to |pcap|
        invariant table == Replay(truth, threshold, flows, pcap[..i])
        invariant done == completed + i
        invariant unchanged(this)
      {
        ReplaySnoc(truth, threshold, flows, pcap, i);
        var (timestamp, data) := pcap[i];
        var pkt := PacketData(data);
        done := done + 1;
        if pkt.None? {
          continue;
        }
        var d := pkt.value;
        var fid := FlowHash(d.ipA, d.ipB, d.portA, d.portB, d.transport);
        if fid !in truth {
          continue;
        }
        var app := truth[fid];
        if fid in table && table[fid].dir.count + table[fid].back.count >= threshold {
          table := table[fid := SoftRecalc(table[fid], d.payload, d.ipA)];
        } else {
          table := FlowProcessing(table, fid, d.payload, timestamp, d.ipA, Some(app));
        }
      }
      assert pcap[..|pcap|] == pcap;
      forall k | k in table ensures table[k].app.Some? {
        ReplayLabels(truth, threshold, flows, pcap, k);
      }
      flows, completed := table, done;
    }

    /**
     * `_pcap` on a capture whose nDPI report is `report`: the report becomes
     * the ground truth, the capture's packets are added to the tasks and then
     * processed.
     */
    method Pcap(report: Report, pcap: seq<Packet>)
      requires Valid()
      modifies this
      ensures Valid() && dpi.Some?
      ensures dpi.value.flows == if report.knownFlows.Some? then TruthOf(report.knownFlows.value) else map[]
      ensures flows == Replay(dpi.value.flows, threshold, old(flows), pcap)
      ensures tasks == old(tasks) + |pcap| && completed == old(completed) + |pcap|
      ensures threshold == old(threshold) && maxProcesses == old(maxProcesses)
    {
      var g := ProcessNdpiJson(report);
      dpi := Some(g);
      tasks := tasks + |pcap|;
      PacketsProcessing(pcap);
    }

    /**
     * `export`: one training row per flow, in the table's iteration order,
     * which `order` records.
     */
    method Export(fmt: Value -> string) returns (lines: seq<string>, ghost order: seq<FlowKey>)
      ensures Seqs.Distinct(order) && (forall k :: k in order <==> k in flows)
      ensures lines == ExportLines(flows, order, fmt)
    {
      lines := [];
      order := [];
      var todo := flows.Keys;
      while todo != {}
        invariant todo <= flows.Keys
        invariant Seqs.Distinct(order)
        invariant forall k :: k in order <==> k in flows && k !in todo
        invariant lines == ExportLines(flows, order, fmt)
        decreases todo
      {
        var k :| k in todo;
        todo := todo - {k};
        var metrics := flows[k];
        lines := lines + [Join(Cells(metrics, fmt), ",") + "," + LabelText(metrics.app)];
        order := order + [k];
      }
    }
  }

  /**
   * The rows exported after replaying a capture from an empty table: one per
   * labelled flow that has a packet in the capture, each with 25 fields whose
   * last is the flow's ground-truth label.
   */
  lemma ExportedRowsOfCapture(truth: map<FlowKey, string>, threshold: int, pcap: seq<Packet>,
                              order: seq<FlowKey>, fmt: Value -> string, i: int)
    requires forall k :: k in order <==> k in Replay(truth, threshold, map[], pcap)
    requires 0 <= i < |order|
    requires forall k :: k in truth ==> ',' !in truth[k]
    requires forall v :: ',' !in fmt(v)
    ensures var flows := Replay(truth, threshold, map[], pcap);
      var fields := Split(ExportLines(flows, order, fmt)[i], ',');
      && order[i] in truth
      && |Seqs.Filter(pcap, KeyIn(truth), Some(order[i]))| > 0
      && |fields| == 25 && fields[24] == truth[order[i]]
  {
    var flows := Replay(truth, threshold, map[], pcap);
    var k := order[i];
    ReplayKeys(truth, threshold, map[], pcap, k);
    ReplayKeysHaveTruth(truth, threshold, map[], pcap);
    ReplayLabels(truth, threshold, map[], pcap, k);
    ExportRowFields(flows[k], fmt);
  }
}
