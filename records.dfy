/**
 * The per-flow record of the statistics engine.
 *
 * The source keeps a flat 34-slot tuple. The model groups the slots by
 * direction: the label, one `Side` for the forward ("dir") direction, one for
 * the backward ("back") direction, and the last address seen. `Values` lays a
 * record out again as the 34 slots, in the source's order.
 */
module Records {
  import opened Wrappers
  import opened Net

  /** Slot 0: the application name, or None while a streaming flow is unlabelled. */
  type Label = Option<string>

  /** `str` of a label: None prints as "None". */
  function LabelText(l: Label): string {
    if l.None? then "None" else l.value
  }

  /** `x ** 0.5`, kept symbolic: the square root of `radicand`. */
  datatype Root = Sqrt(radicand: real)

  /**
   * The statistics of one direction (slots 5..32 hold those of both).
   * Times are reals: pcap timestamps are floating point.
   * `sq*` are the single-sample squared deviations, `lastTs` the timestamp of
   * the direction's last packet and `sumItime` its summed inter-arrival times.
   */
  datatype SideStats = SideStats(
    maxItime: real, minItime: real, avgItime: real, stdItime: Root, varItime: real,
    maxPayload: nat, minPayload: nat, avgPayload: nat, stdPayload: Root, varPayload: int,
    sqItime: real, sqPayload: int, lastTs: real, sumItime: real)

  /** The statistics of a direction that has seen no packet. */
  const ZeroStats := SideStats(0.0, 0.0, 0.0, Sqrt(0.0), 0.0, 0, 0, 0, Sqrt(0.0), 0, 0.0, 0, 0.0, 0.0)

  /** One direction: packet count (slots 1/2), payload total (slots 3/4) and statistics. */
  datatype Side = Side(count: nat, overall: nat, stats: SideStats)

  datatype FlowRecord = FlowRecord(app: Label, dir: Side, back: Side, lastIp: Address)

  /** `count_dir + count_back`, the number the thresholds are compared with. */
  function Total(f: FlowRecord): nat {
    f.dir.count + f.back.count
  }

  /** A slot of the tuple. */
  datatype Value =
    | LabelValue(name: Label)
    | IntValue(n: int)
    | RealValue(x: real)
    | RootValue(root: Root)
    | AddrValue(ip: Address)

  predicate IsZero(v: Value) {
    v == IntValue(0) || v == RealValue(0.0) || v == RootValue(Sqrt(0.0))
  }

  /** The record as the source's 34-slot tuple. */
  function Values(f: FlowRecord): (r: seq<Value>)
    ensures |r| == 34
    ensures r[0] == LabelValue(f.app) && r[33] == AddrValue(f.lastIp)
    ensures r[1] == IntValue(f.dir.count) && r[2] == IntValue(f.back.count)
  {
    [ LabelValue(f.app),
      IntValue(f.dir.count), IntValue(f.back.count),
      IntValue(f.dir.overall), IntValue(f.back.overall) ]
    + StatValues(f.dir.stats, f.back.stats)
    + [AddrValue(f.lastIp)]
  }

  /** Slots 5..32 are exactly the two directions' statistics. */
  lemma StatSlots(f: FlowRecord, g: FlowRecord)
    ensures Values(f)[5..33] == Values(g)[5..33] <==> f.dir.stats == g.dir.stats && f.back.stats == g.back.stats
  {
    if f.dir.stats == g.dir.stats && f.back.stats == g.back.stats {
      SameStatsSameSlots(f, g);
    }
    if Values(f)[5..33] == Values(g)[5..33] {
      SameSlotsSameStats(f, g);
    }
  }

  lemma SameStatsSameSlots(f: FlowRecord, g: FlowRecord)
    requires f.dir.stats == g.dir.stats && f.back.stats == g.back.stats
    ensures Values(f)[5..33] == Values(g)[5..33]
  {
    StatValuesSlots(f);
    StatValuesSlots(g);
  }

  lemma SameSlotsSameStats(f: FlowRecord, g: FlowRecord)
    requires Values(f)[5..33] == Values(g)[5..33]
    ensures f.dir.stats == g.dir.stats && f.back.stats == g.back.stats
  {
    StatValuesSlots(f);
    StatValuesSlots(g);
    StatValuesInjective(f.dir.stats, f.back.stats, g.dir.stats, g.back.stats);
  }

  /** Slots 5..32, the statistics of the two directions interleaved. */
  function StatValues(d: SideStats, b: SideStats): (r: seq<Value>)
    ensures |r| == 28
  {
    [ RealValue(d.maxItime), RealValue(b.maxItime),
      RealValue(d.minItime), RealValue(b.minItime),
      RealValue(d.avgItime), RealValue(b.avgItime),
      RootValue(d.stdItime), RootValue(b.stdItime),
      RealValue(d.varItime), RealValue(b.varItime),
      IntValue(d.maxPayload), IntValue(b.maxPayload),
      IntValue(d.minPayload), IntValue(b.minPayload),
      IntValue(d.avgPayload), IntValue(b.avgPayload),
      RootValue(d.stdPayload), RootValue(b.stdPayload),
      IntValue(d.varPayload), IntValue(b.varPayload),
      RealValue(d.sqItime), RealValue(b.sqItime),
      IntValue(d.sqPayload), IntValue(b.sqPayload),
      RealValue(d.lastTs), RealValue(b.lastTs),
      RealValue(d.sumItime), RealValue(b.sumItime) ]
  }

  lemma StatValuesSlots(f: FlowRecord)
    ensures Values(f)[5..33] == StatValues(f.dir.stats, f.back.stats)
  {
  }

  lemma StatValuesInjective(d: SideStats, b: SideStats, d2: SideStats, b2: SideStats)
    requires StatValues(d, b) == StatValues(d2, b2)
    ensures d == d2 && b == b2
  {
    var s, t := StatValues(d, b), StatValues(d2, b2);
    assert s[0] == t[0] && s[2] == t[2] && s[4] == t[4] && s[6] == t[6] && s[8] == t[8];
    assert s[10] == t[10] && s[12] == t[12] && s[14] == t[14] && s[16] == t[16] && s[18] == t[18];
    assert s[20] == t[20] && s[22] == t[22] && s[24] == t[24] && s[26] == t[26];
    assert s[1] == t[1] && s[3] == t[3] && s[5] == t[5] && s[7] == t[7] && s[9] == t[9];
    assert s[11] == t[11] && s[13] == t[13] && s[15] == t[15] && s[17] == t[17] && s[19] == t[19];
    assert s[21] == t[21] && s[23] == t[23] && s[25] == t[25] && s[27] == t[27];
  }
}
