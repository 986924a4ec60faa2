/**
 * The flow-statistics engine: `flow_processing`, `_flow_recalc` and
 * `soft_recalc` of src/pktmapper/preprocessing.py.
 *
 * Each of them overwrites one entry of the flow table passed by the caller.
 * Here the record updates are functions from the old record to the new one,
 * and `FlowProcessing` returns the updated table, which the driver classes
 * store back into their own table field.
 *
 * Direction rule: a packet is forward ("dir") when its `ip_a` equals the
 * address stored with the previous packet of the flow, backward otherwise.
 */
module Preprocessing {
  import opened Wrappers
  import opened Net
  import opened FlowKeys
  import opened Records

  function Max(x: real, y: real): real { if x >= y then x else y }

  function Min(x: real, y: real): real { if x <= y then x else y }

  function MaxNat(x: nat, y: nat): nat { if x >= y then x else y }

  function MinNat(x: nat, y: nat): nat { if x <= y then x else y }

  /**
   * The record of a new flow: one forward packet of `payload` bytes seen at
   * `ts` from `ipA`; every slot but the label, count_dir, overall_dir, the
   * three forward payload statistics, the forward timestamp and the last
   * address is zero.
   */
  function Seed(app: Label, payload: nat, ts: real, ipA: Address): (r: FlowRecord)
    ensures r.app == app && r.lastIp == ipA
    ensures r.dir.count == 1 && r.back.count == 0 && r.dir.overall == payload
    ensures r.dir.stats.maxPayload == r.dir.stats.minPayload == r.dir.stats.avgPayload == payload
    ensures r.dir.stats.lastTs == ts
    ensures forall i :: 0 <= i < 34 && i !in {0, 1, 3, 15, 17, 19, 29, 33} ==> IsZero(Values(r)[i])
  {
    var dirStats := ZeroStats.(maxPayload := payload, minPayload := payload, avgPayload := payload, lastTs := ts);
    FlowRecord(app, Side(1, payload, dirStats), Side(0, 0, ZeroStats), ipA)
  }

  /** The forward side after a forward packet (the `direct` branches of `_flow_recalc`). */
  function ForwardSide(f: FlowRecord, payload: nat, ts: real): Side {
    var s := f.dir.stats;
    var count := f.dir.count + 1;
    var overall := f.dir.overall + payload;
    var itime := if count >= 2 then ts - s.lastTs else 0.0;
    var sumItime := s.sumItime + itime;
    var maxItime := if count == 2 then itime else Max(itime, s.maxItime);
    var minItime := if count == 2 then itime else Min(itime, s.minItime);
    var avgItime := sumItime / count as real;
    var sqItime := (itime - avgItime) * (itime - avgItime);
    var maxPayload := MaxNat(payload, s.maxPayload);
    var minPayload := MinNat(payload, s.minPayload);
    var avgPayload := overall / count;
    var sqPayload := (payload - avgPayload) * (payload - avgPayload);
    Side(count, overall, SideStats(
      maxItime, minItime, avgItime, Sqrt(sqItime / count as real), maxItime - minItime,
      maxPayload, minPayload, avgPayload, Sqrt((sqPayload / count) as real), maxPayload - minPayload,
      sqItime, sqPayload, ts, sumItime))
  }

  /**
   * The backward side after a backward packet. Two details are the source's
   * own: the first backward packet has inter-arrival time 0 and sets
   * min_payload_back to its payload, and from the third backward packet on
   * min_itime_back is the minimum of the new sample and min_itime_DIR.
   */
  function BackwardSide(f: FlowRecord, payload: nat, ts: real): Side {
    var s := f.back.stats;
    var count := f.back.count + 1;
    var overall := f.back.overall + payload;
    var itime := if count >= 2 then ts - s.lastTs else 0.0;
    var sumItime := s.sumItime + itime;
    var maxItime := Max(itime, s.maxItime);
    var minItime := if count == 2 then itime else Min(itime, f.dir.stats.minItime);
    var avgItime := sumItime / count as real;
    var sqItime := (itime - avgItime) * (itime - avgItime);
    var maxPayload := MaxNat(payload, s.maxPayload);
    var minPayload := if count == 1 then payload else MinNat(payload, s.minPayload);
    var avgPayload := overall / count;
    var sqPayload := (payload - avgPayload) * (payload - avgPayload);
    Side(count, overall, SideStats(
      maxItime, minItime, avgItime, Sqrt(sqItime / count as real), maxItime - minItime,
      maxPayload, minPayload, avgPayload, Sqrt((sqPayload / count) as real), maxPayload - minPayload,
      sqItime, sqPayload, ts, sumItime))
  }

  /**
   * `_flow_recalc`: the full statistics update of an existing flow. Exactly
   * one direction changes and its count rises by one; the other direction,
   * the label and the slot order are kept; the last address becomes `ipA`.
   */
  function Recalc(f: FlowRecord, payload: nat, ts: real, ipA: Address): (r: FlowRecord)
    ensures r.app == f.app && r.lastIp == ipA
    ensures ipA == f.lastIp ==>
      (r.back == f.back && r.dir.count == f.dir.count + 1 && r.dir.overall == f.dir.overall + payload)
    ensures ipA != f.lastIp ==>
      (r.dir == f.dir && r.back.count == f.back.count + 1 && r.back.overall == f.back.overall + payload)
    ensures Total(r) == Total(f) + 1
  {
    if ipA == f.lastIp then
      f.(dir := ForwardSide(f, payload, ts), lastIp := ipA)
    else
      f.(back := BackwardSide(f, payload, ts), lastIp := ipA)
  }

  /**
   * `soft_recalc`: counters only. The direction rule picks one count and one
   * payload total to raise; the label and every statistic (slots 5..32) are
   * kept, and the last address becomes `ipA`.
   */
  function SoftRecalc(f: FlowRecord, payload: nat, ipA: Address): (r: FlowRecord)
    ensures r.app == f.app && r.lastIp == ipA
    ensures r.dir.stats == f.dir.stats && r.back.stats == f.back.stats
    ensures Values(r)[5..33] == Values(f)[5..33]
    ensures ipA == f.lastIp ==>
      (r.back == f.back && r.dir.count == f.dir.count + 1 && r.dir.overall == f.dir.overall + payload)
    ensures ipA != f.lastIp ==>
      (r.dir == f.dir && r.back.count == f.back.count + 1 && r.back.overall == f.back.overall + payload)
    ensures Total(r) == Total(f) + 1
  {
    var r :=
      if ipA == f.lastIp then
        f.(dir := f.dir.(count := f.dir.count + 1, overall := f.dir.overall + payload), lastIp := ipA)
      else
        f.(back := f.back.(count := f.back.count + 1, overall := f.back.overall + payload), lastIp := ipA);
    StatSlots(r, f);
    r
  }

  /**
   * `flow_processing`: seed the record of a new key with `app`, or recalculate
   * the record of a known one (whose label is then kept, whatever `app` is).
   * No other entry of the table changes.
   */
  function FlowProcessing(
    flows: map<FlowKey, FlowRecord>, fid: FlowKey, payload: nat, ts: real, ipA: Address, app: Label
  ): (r: map<FlowKey, FlowRecord>)
    ensures r.Keys == flows.Keys + {fid}
    ensures forall k :: k in flows && k != fid ==> r[k] == flows[k]
    ensures fid !in flows ==> r[fid] == Seed(app, payload, ts, ipA)
    ensures fid in flows ==> r[fid] == Recalc(flows[fid], payload, ts, ipA)
  {
    if fid !in flows then flows[fid := Seed(app, payload, ts, ipA)]
    else flows[fid := Recalc(flows[fid], payload, ts, ipA)]
  }

  // ---------------------------------------------------------------------------
  // What full recalculation keeps true
  // ---------------------------------------------------------------------------

  /**
   * The facts every direction of a fully recalculated record satisfies:
   * max_itime >= min_itime with var_itime their difference; an idle direction
   * is all zero; a used one has min_payload <= max_payload, var_payload their
   * difference, avg_payload == overall // count, and a payload total between
   * count * min and count * max.
   */
  ghost predicate SideSound(s: Side) {
    && s.stats.maxItime >= s.stats.minItime
    && s.stats.varItime == s.stats.maxItime - s.stats.minItime
    && (s.count == 0 ==> s.overall == 0 && s.stats == ZeroStats)
    && (s.count >= 1 ==>
          && s.stats.minPayload <= s.stats.maxPayload
          && s.stats.varPayload == s.stats.maxPayload - s.stats.minPayload
          && s.stats.avgPayload == s.overall / s.count
          && s.count * s.stats.minPayload <= s.overall <= s.count * s.stats.maxPayload)
  }

  ghost predicate Sound(f: FlowRecord) {
    f.dir.count >= 1 && SideSound(f.dir) && SideSound(f.back)
  }

  lemma SeedSound(app: Label, payload: nat, ts: real, ipA: Address)
    ensures Sound(Seed(app, payload, ts, ipA))
  {
  }

  lemma MulMono(c: nat, x: int, y: int)
    requires x <= y
    ensures c * x <= c * y
  {
  }

  /** A payload total between count * min and count * max keeps the new sample's bounds. */
  lemma GrowBounds(c: nat, o: nat, lo: nat, hi: nat, p: nat)
    requires c * lo <= o <= c * hi
    ensures (c + 1) * MinNat(p, lo) <= o + p <= (c + 1) * MaxNat(p, hi)
  {
    MulMono(c, MinNat(p, lo), lo);
    MulMono(c, hi, MaxNat(p, hi));
  }

  /** Full recalculation keeps a record sound. */
  lemma RecalcSound(f: FlowRecord, payload: nat, ts: real, ipA: Address)
    requires Sound(f)
    ensures Sound(Recalc(f, payload, ts, ipA))
  {
    if ipA == f.lastIp {
      GrowBounds(f.dir.count, f.dir.overall, f.dir.stats.minPayload, f.dir.stats.maxPayload, payload);
    } else if f.back.count >= 1 {
      GrowBounds(f.back.count, f.back.overall, f.back.stats.minPayload, f.back.stats.maxPayload, payload);
    }
  }

  lemma DivBounds(o: nat, c: nat, lo: nat, hi: nat)
    requires c >= 1 && c * lo <= o <= c * hi
    ensures lo <= o / c <= hi
  {
    var q := o / c;
    assert o == q * c + o % c;
    if q < lo {
      MulMono(c, q + 1, lo);
      assert false;
    }
    if q > hi {
      MulMono(c, hi + 1, q);
      assert false;
    }
  }

  /**
   * In a sound record, every direction that has seen a packet has
   * min_payload <= avg_payload <= max_payload and var_payload >= 0.
   */
  lemma PayloadBounds(s: Side)
    requires SideSound(s) && s.count >= 1
    ensures s.stats.minPayload <= s.stats.avgPayload <= s.stats.maxPayload
    ensures s.stats.varPayload >= 0
  {
    DivBounds(s.overall, s.count, s.stats.minPayload, s.stats.maxPayload);
  }

  /**
   * The first backward packet of a sound record: inter-arrival time 0, so the
   * summed and average backward times stay 0; its payload becomes the
   * backward minimum, maximum and average; min_itime_back becomes the smaller
   * of 0 and min_itime_dir.
   */
  lemma FirstBackwardPacket(f: FlowRecord, payload: nat, ts: real, ipA: Address)
    requires Sound(f) && f.back.count == 0 && ipA != f.lastIp
    ensures var b := Recalc(f, payload, ts, ipA).back;
      && b.count == 1 && b.stats.sumItime == 0.0 && b.stats.avgItime == 0.0 && b.stats.lastTs == ts
      && b.stats.minPayload == b.stats.maxPayload == b.stats.avgPayload == payload
      && b.stats.minItime == Min(0.0, f.dir.stats.minItime)
  {
  }

  /**
   * From the third backward packet on, min_itime_back is taken against
   * min_itime_dir (slot 7), not against the previous min_itime_back.
   */
  lemma BackwardMinItimeReadsForward(f: FlowRecord, payload: nat, ts: real, ipA: Address)
    requires f.back.count >= 2 && ipA != f.lastIp
    ensures Recalc(f, payload, ts, ipA).back.stats.minItime
         == Min(ts - f.back.stats.lastTs, f.dir.stats.minItime)
  {
  }
}
