/**
 * The live classifier of src/utils/mapper.py.
 *
 * Captured packets are filed under their flow key. A flow that has not been
 * classified yet lives in `tempFlows` with the full statistics record and no
 * label; once its packet count reaches the threshold, a sweep of the
 * collector feeds the selected features to the trained model and moves the
 * flow to `flows`, keeping only its label, four counters and last address.
 * From then on its packets only raise those counters.
 */
module Streaming {
  import opened Wrappers
  import opened Strings
  import opened Net
  import opened FlowKeys
  import opened Records
  import opened Preprocessing
  import Seqs

  // ---------------------------------------------------------------------------
  // configuration
  // ---------------------------------------------------------------------------

  predicate Increasing(s: seq<int>) {
    forall i, j :: 0 <= i < j < |s| ==> s[i] < s[j]
  }

  /** Inserts `x` into an increasing sequence, unless it is already there. */
  function InsertSorted(x: int, s: seq<int>): (r: seq<int>)
    requires Increasing(s)
    ensures Increasing(r)
    ensures forall y :: y in r <==> y == x || y in s
  {
    if s == [] then [x]
    else if x < s[0] then
      assert forall i :: 0 <= i < |s| ==> x < s[i];
      assert forall i :: 1 <= i < |s| + 1 ==> ([x] + s)[i] == s[i - 1];
      [x] + s
    else if x == s[0] then s
    else
      assert forall i :: 1 <= i < |s| ==> s[0] < s[i];
      var rest := InsertSorted(x, s[1..]);
      assert forall j :: 0 <= j < |rest| ==> s[0] < rest[j] by {
        forall j | 0 <= j < |rest| ensures s[0] < rest[j] {
          assert rest[j] in rest;
        }
      }
      assert forall j :: 1 <= j < |rest| + 1 ==> ([s[0]] + rest)[j] == rest[j - 1];
      [s[0]] + rest
  }

  /** `sorted(set(xs))`. */
  function SortedSet(xs: seq<int>): (r: seq<int>)
    ensures Increasing(r)
    ensures forall y :: y in r <==> y in xs
  {
    if xs == [] then []
    else InsertSorted(xs[|xs| - 1], SortedSet(xs[..|xs| - 1]))
  }

  /**
   * `parse` applied to every item, or None as soon as one item fails: the
   * generator in `Mapper.__init__` raises on the first bad item.
   */
  function TryAll(items: seq<string>, parse: string -> Option<int>): (r: Option<seq<int>>)
    ensures r.Some? ==> |r.value| == |items| && forall i :: 0 <= i < |items| ==> Some(r.value[i]) == parse(items[i])
  {
    if items == [] then Some([])
    else
      var init := TryAll(items[..|items| - 1], parse);
      var last := parse(items[|items| - 1]);
      assert forall i :: 0 <= i < |items| - 1 ==> items[..|items| - 1][i] == items[i];
      if init.None? || last.None? then None else Some(init.value + [last.value])
  }

  /** Failure means some item does not parse. */
  lemma {:induction false} TryAllFails(items: seq<string>, parse: string -> Option<int>)
    requires TryAll(items, parse).None?
    ensures exists i :: 0 <= i < |items| && parse(items[i]).None?
  {
    var init := items[..|items| - 1];
    if TryAll(init, parse).None? {
      TryAllFails(init, parse);
      var j :| 0 <= j < |init| && parse(init[j]).None?;
      assert init[j] == items[j];
    } else {
      assert parse(items[|items| - 1]).None?;
    }
  }

  /** On success, the values are exactly those of the items. */
  lemma TryAllMembers(xs: seq<string>, parse: string -> Option<int>, n: int)
    requires TryAll(xs, parse).Some?
    ensures n in TryAll(xs, parse).value <==> exists s :: s in xs && parse(s) == Some(n)
  {
    var parsed := TryAll(xs, parse).value;
    if n in parsed {
      var i :| 0 <= i < |parsed| && parsed[i] == n;
      assert xs[i] in xs && parse(xs[i]) == Some(n);
    }
    if exists s :: s in xs && parse(s) == Some(n) {
      var s :| s in xs && parse(s) == Some(n);
      var i :| 0 <= i < |xs| && xs[i] == s;
      assert parsed[i] == n;
    }
  }

  /** The items that are not the empty string. */
  function NonEmpty(items: seq<string>): (r: seq<string>)
    ensures forall s :: s in r <==> s in items && s != ""
  {
    if items == [] then []
    else NonEmpty(items[..|items| - 1]) + (if items[|items| - 1] == "" then [] else [items[|items| - 1]])
  }

  /** A single argument holding a comma stands for its comma-separated items. */
  function FeatureItems(fs: seq<string>): seq<string> {
    if |fs| == 1 && ',' in fs[0] then Split(fs[0], ',') else fs
  }

  /**
   * The `--features` argument: a single argument holding a comma is split at
   * its commas; empty items are dropped; the rest must be integers and become
   * the increasing list of the distinct indexes. No argument means no features.
   */
  function ParseFeatures(features: Option<seq<string>>): (r: Option<seq<int>>)
    ensures features.None? ==> r == Some([])
    ensures r.Some? ==> Increasing(r.value)
  {
    match features
    case None => Some([])
    case Some(fs) =>
      var parsed := TryAll(NonEmpty(FeatureItems(fs)), ParseInt);
      if parsed.None? then None else Some(SortedSet(parsed.value))
  }

  /**
   * Every index the parsed features hold is the integer of a non-empty item of
   * the argument (after the comma split), and every such item's integer is held.
   */
  lemma ParsedFeaturesAreTheItems(fs: seq<string>, n: int)
    requires ParseFeatures(Some(fs)).Some?
    ensures n in ParseFeatures(Some(fs)).value <==> exists s :: s in FeatureItems(fs) && s != "" && ParseInt(s) == Some(n)
  {
    var ne := NonEmpty(FeatureItems(fs));
    TryAllMembers(ne, ParseInt, n);
  }

  datatype ConfigError = FeatureValueError | ModelNotSpecified

  datatype Config = Config(threshold: int, model: string, features: seq<int>)

  /**
   * The checks of `Mapper.__init__`, in its order: a feature that is not an
   * integer raises ValueError first; then a missing model raises
   * ModelNotSpecified. A missing threshold defaults to 8.
   */
  function Configure(threshold: Option<int>, model: Option<string>, features: Option<seq<string>>): (r: Result<Config, ConfigError>)
    ensures r == Err(FeatureValueError) <==> ParseFeatures(features).None?
    ensures r == Err(ModelNotSpecified) <==> ParseFeatures(features).Some? && model.None?
    ensures r.Ok? ==> r.value.features == ParseFeatures(features).value && Some(r.value.model) == model
    ensures r.Ok? ==> r.value.threshold == (if threshold.Some? then threshold.value else 8)
  {
    var fs := ParseFeatures(features);
    if fs.None? then Err(FeatureValueError)
    else if model.None? then Err(ModelNotSpecified)
    else Ok(Config(if threshold.Some? then threshold.value else 8, model.value, fs.value))
  }

  // ---------------------------------------------------------------------------
  // classified flows and feature selection
  // ---------------------------------------------------------------------------

  /** A classified flow: (app, count_dir, count_back, overall_dir, overall_back, last ip). */
  datatype Classified = Classified(app: string, countDir: nat, countBack: nat, overallDir: nat, overallBack: nat, lastIp: Address)

  /** `(app,) + metrics[1:5] + (metrics[-1],)`: what a flow keeps once classified. */
  function Promote(f: FlowRecord, app: string): (c: Classified)
    ensures c.app == app && c.lastIp == f.lastIp
    ensures c.countDir + c.countBack == Total(f)
  {
    Classified(app, f.dir.count, f.back.count, f.dir.overall, f.back.overall, f.lastIp)
  }

  /** The four counters a classified flow keeps are slots 1..4 of its record, and its address slot 33. */
  lemma PromoteKeepsSlots(f: FlowRecord, app: string)
    ensures var c := Promote(f, app);
      [IntValue(c.countDir), IntValue(c.countBack), IntValue(c.overallDir), IntValue(c.overallBack)] == Values(f)[1..5]
      && AddrValue(c.lastIp) == Values(f)[33]
  {
    var v := Values(f);
    assert v[3] == IntValue(f.dir.overall) && v[4] == IntValue(f.back.overall);
    assert v[1..5] == [v[1], v[2], v[3], v[4]];
  }

  /** `_recalc_flow`: a packet of a classified flow raises one count and one payload total. */
  function Bumped(c: Classified, ipA: Address, payload: nat): (r: Classified)
    ensures r.app == c.app && r.lastIp == ipA
    ensures r.countDir + r.countBack == c.countDir + c.countBack + 1
    ensures r.overallDir + r.overallBack == c.overallDir + c.overallBack + payload
  {
    if c.lastIp == ipA then c.(countDir := c.countDir + 1, overallDir := c.overallDir + payload, lastIp := ipA)
    else c.(countBack := c.countBack + 1, overallBack := c.overallBack + payload, lastIp := ipA)
  }

  /**
   * A classified flow keeps counting exactly as `soft_recalc` counts the full
   * record: the direction rule and the two totals agree.
   */
  lemma BumpedIsSoftRecalc(f: FlowRecord, app: string, payload: nat, ipA: Address)
    ensures Bumped(Promote(f, app), ipA, payload) == Promote(SoftRecalc(f, payload, ipA), app)
  {
  }

  /** Every index lies in [-34, 34), where Python indexing of the 34-slot tuple succeeds. */
  predicate FeaturesValid(features: seq<int>) {
    forall j :: 0 <= j < |features| ==> -34 <= features[j] < 34
  }

  /** Python's reading of an index into a 34-slot tuple. */
  function Slot(i: int): (k: nat)
    requires -34 <= i < 34
    ensures k < 34 && (k == i || k == i + 34)
  {
    if i < 0 then i + 34 else i
  }

  /**
   * The feature vector of a record: the selected slots in the order of the
   * (sorted) indexes, or slots 1..24 when no index is selected.
   */
  function Fitted(f: FlowRecord, features: seq<int>): (r: seq<Value>)
    requires FeaturesValid(features)
    ensures features == [] ==> r == Values(f)[1..25]
    ensures features == [] ==>
      && |r| == 24
      && r[0] == IntValue(f.dir.count) && r[1] == IntValue(f.back.count)
      && r[2] == IntValue(f.dir.overall) && r[3] == IntValue(f.back.overall)
      && r[4..] == StatValues(f.dir.stats, f.back.stats)[..20]
    ensures features != [] ==> |r| == |features| && forall j :: 0 <= j < |r| ==> r[j] == Values(f)[Slot(features[j])]
  {
    StatValuesSlots(f);
    var v := Values(f);
    assert v[3] == IntValue(f.dir.overall) && v[4] == IntValue(f.back.overall);
    if features == [] then v[1..25]
    else seq(|features|, j requires 0 <= j < |features| => v[Slot(features[j])])
  }

  /**
   * Selected features 1..24 are columns of the default vector: feature `n`
   * is its column `n - 1`, so a model trained on the default columns sees
   * the same values under a selection.
   */
  lemma SelectedAmongDefault(f: FlowRecord, features: seq<int>)
    requires features != [] && forall j :: 0 <= j < |features| ==> 1 <= features[j] <= 24
    ensures FeaturesValid(features)
    ensures forall j :: 0 <= j < |features| ==> Fitted(f, features)[j] == Fitted(f, [])[features[j] - 1]
  {
  }

  /** The line logged for a new flow: "ip_a:port_a<->ip_b:port_b_transport". */
  function MetaText(d: Decoded): string {
    Text(d.ipA) + ":" + NatToDecimal(d.portA) + "<->" + Text(d.ipB) + ":" + NatToDecimal(d.portB) + "_" + d.transport
  }

  // ---------------------------------------------------------------------------
  // the results file
  // ---------------------------------------------------------------------------

  /** The header's column names; the header line is "type,proto,count_dir,count_back,overall_dir,overall_back,meta". */
  const Columns: seq<string> := ["type", "proto", "count_dir", "count_back", "overall_dir", "overall_back", "meta"]

  const Header := Join(Columns, ",")

  function ClassifiedRow(c: Classified, meta: string): string {
    "classified," + Join([c.app, NatToDecimal(c.countDir), NatToDecimal(c.countBack),
                           NatToDecimal(c.overallDir), NatToDecimal(c.overallBack)], ",") + "," + meta
  }

  function UnclassifiedRow(f: FlowRecord, meta: string): string {
    "unclassified," + Join([LabelText(f.app), NatToDecimal(f.dir.count), NatToDecimal(f.back.count),
                             NatToDecimal(f.dir.overall), NatToDecimal(f.back.overall)], ",") + "," + meta
  }

  lemma DecimalHasNoComma(n: nat)
    ensures ',' !in NatToDecimal(n)
  {
  }

  lemma TextHasNoComma(ip: Address)
    ensures ',' !in Text(ip)
  {
    DecimalHasNoComma(ip.a);
    DecimalHasNoComma(ip.b);
    DecimalHasNoComma(ip.c);
    DecimalHasNoComma(ip.d);
    JoinAvoids([NatToDecimal(ip.a), NatToDecimal(ip.b), NatToDecimal(ip.c), NatToDecimal(ip.d)], ".", ',');
  }

  lemma MetaHasNoComma(d: Decoded)
    requires ',' !in d.transport
    ensures ',' !in MetaText(d)
  {
    TextHasNoComma(d.ipA);
    TextHasNoComma(d.ipB);
    DecimalHasNoComma(d.portA);
    DecimalHasNoComma(d.portB);
  }

  /** A row "a,<cells joined by commas>,b" splits back into a, the cells and b when none holds a comma. */
  lemma RowColumns(a: string, cells: seq<string>, b: string)
    requires |cells| >= 1
    requires ',' !in a && ',' !in b && forall c :: c in cells ==> ',' !in c
    ensures Split(a + "," + Join(cells, ",") + "," + b, ',') == [a] + cells + [b]
  {
    RowIsJoin(a, cells, b, ",");
    var all := [a] + cells + [b];
    forall p | p in all ensures ',' !in p {
      if p != a && p != b {
        assert p in cells;
      }
    }
    SplitJoin(all, ',');
  }

  lemma RowIsJoin(a: string, cells: seq<string>, b: string, sep: string)
    requires |cells| >= 1
    ensures a + sep + Join(cells, sep) + sep + b == Join([a] + cells + [b], sep)
  {
    var all := [a] + cells + [b];
    assert all[1..] == cells + [b];
    JoinSnoc(cells, b, sep);
  }

  lemma CountersHaveNoComma(w: nat, x: nat, y: nat, z: nat)
    ensures ',' !in NatToDecimal(w) && ',' !in NatToDecimal(x) && ',' !in NatToDecimal(y) && ',' !in NatToDecimal(z)
  {
    DecimalHasNoComma(w);
    DecimalHasNoComma(x);
    DecimalHasNoComma(y);
    DecimalHasNoComma(z);
  }

  /**
   * A classified row reads back under the header's seven columns when the
   * application name and the meta text hold no comma.
   */
  lemma ClassifiedRowColumns(c: Classified, meta: string)
    requires ',' !in c.app && ',' !in meta
    ensures Split(ClassifiedRow(c, meta), ',')
         == ["classified", c.app, NatToDecimal(c.countDir), NatToDecimal(c.countBack),
             NatToDecimal(c.overallDir), NatToDecimal(c.overallBack), meta]
  {
    CountersHaveNoComma(c.countDir, c.countBack, c.overallDir, c.overallBack);
    assert "classified" + "," == "classified,";
    RowColumns("classified", [c.app, NatToDecimal(c.countDir), NatToDecimal(c.countBack),
                              NatToDecimal(c.overallDir), NatToDecimal(c.overallBack)], meta);
  }

  /** The same for the row of a flow still waiting for classification, whose label prints as "None". */
  lemma UnclassifiedRowColumns(f: FlowRecord, meta: string)
    requires f.app.None? && ',' !in meta
    ensures Split(UnclassifiedRow(f, meta), ',')
         == ["unclassified", "None", NatToDecimal(f.dir.count), NatToDecimal(f.back.count),
             NatToDecimal(f.dir.overall), NatToDecimal(f.back.overall), meta]
  {
    CountersHaveNoComma(f.dir.count, f.back.count, f.dir.overall, f.back.overall);
    assert "unclassified" + "," == "unclassified," && LabelText(f.app) == "None";
    RowColumns("unclassified", [LabelText(f.app), NatToDecimal(f.dir.count), NatToDecimal(f.back.count),
                                NatToDecimal(f.dir.overall), NatToDecimal(f.back.overall)], meta);
  }

  /** The header splits back into its seven column names. */
  lemma HeaderColumns()
    ensures Split(Header, ',') == Columns && |Columns| == 7
  {
    forall c | c in Columns ensures ',' !in c {
    }
    SplitJoin(Columns, ',');
  }

  // ---------------------------------------------------------------------------
  // the mapper
  // ---------------------------------------------------------------------------

  /** Flows of `t` that have reached the threshold. */
  predicate Ready(f: FlowRecord, threshold: int) {
    Total(f) >= threshold
  }

  /** What a sweep leaves waiting. */
  function Waiting(t: map<FlowKey, FlowRecord>, threshold: int): map<FlowKey, FlowRecord> {
    map k | k in t && !Ready(t[k], threshold) :: t[k]
  }

  /** What a sweep classifies, each flow labelled by the model's prediction for its features. */
  function Promoted(
    t: map<FlowKey, FlowRecord>, threshold: int, features: seq<int>, predict: seq<Value> -> string
  ): map<FlowKey, Classified> {
    map k | k in t && Ready(t[k], threshold) && FeaturesValid(features) :: Promote(t[k], predict(Fitted(t[k], features)))
  }

  /** Filing a packet into the waiting table keeps every waiting flow unlabelled and sound. */
  lemma WaitingStaysSound(t: map<FlowKey, FlowRecord>, fid: FlowKey, payload: nat, ts: real, ipA: Address)
    requires forall k :: k in t ==> t[k].app.None? && Sound(t[k])
    ensures var r := FlowProcessing(t, fid, payload, ts, ipA, None);
      forall k :: k in r ==> r[k].app.None? && Sound(r[k])
  {
    if fid in t {
      RecalcSound(t[fid], payload, ts, ipA);
    } else {
      SeedSound(None, payload, ts, ipA);
    }
  }

  /** Filing a packet in the waiting table without a label keeps every waiting flow unlabelled. */
  lemma WaitingStaysUnlabelled(t: map<FlowKey, FlowRecord>, fid: FlowKey, payload: nat, ts: real, ipA: Address)
    requires forall k :: k in t ==> t[k].app.None?
    ensures var r := FlowProcessing(t, fid, payload, ts, ipA, None);
      r.Keys == t.Keys + {fid} && forall k :: k in r ==> r[k].app.None?
  {
  }

  /**
   * The state of a sweep over the snapshot `t0` whose ready flows classify
   * as `moves`, with `todo` still to visit: every visited ready flow has moved
   * from the waiting table to the classified one; everything else is where
   * it was.
   */
  ghost predicate SweptTo<V, W>(
    f0: map<FlowKey, W>, t0: map<FlowKey, V>, moves: map<FlowKey, W>, todo: set<FlowKey>,
    flows: map<FlowKey, W>, temp: map<FlowKey, V>)
  {
    && temp == t0 - (moves.Keys - todo)
    && flows == f0 + (moves - todo)
  }

  lemma SweepStepMoved<V, W>(
    f0: map<FlowKey, W>, t0: map<FlowKey, V>, moves: map<FlowKey, W>, todo: set<FlowKey>, k: FlowKey,
    flows: map<FlowKey, W>, temp: map<FlowKey, V>)
    requires SweptTo(f0, t0, moves, todo, flows, temp)
    requires k in todo && k in moves
    ensures SweptTo(f0, t0, moves, todo - {k}, flows[k := moves[k]], temp - {k})
  {
    assert t0 - (moves.Keys - (todo - {k})) == (t0 - (moves.Keys - todo)) - {k};
    assert moves - (todo - {k}) == (moves - todo)[k := moves[k]];
  }

  lemma SweepStepKept<V, W>(
    f0: map<FlowKey, W>, t0: map<FlowKey, V>, moves: map<FlowKey, W>, todo: set<FlowKey>, k: FlowKey,
    flows: map<FlowKey, W>, temp: map<FlowKey, V>)
    requires SweptTo(f0, t0, moves, todo, flows, temp)
    requires k in todo && k !in moves
    ensures SweptTo(f0, t0, moves, todo - {k}, flows, temp)
  {
    assert moves.Keys - (todo - {k}) == moves.Keys - todo;
    assert moves - (todo - {k}) == moves - todo;
  }

  /** With nothing visited, nothing has moved. */
  lemma SweepStart<V, W>(f0: map<FlowKey, W>, t0: map<FlowKey, V>, moves: map<FlowKey, W>)
    requires moves.Keys <= t0.Keys
    ensures SweptTo(f0, t0, moves, t0.Keys, f0, t0)
  {
    assert moves.Keys - t0.Keys == {};
    assert t0 - {} == t0;
    assert moves - t0.Keys == map[];
    assert f0 + map[] == f0;
  }

  /** A finished sweep: what was not ready waits, what was ready is classified. */
  lemma SweepDone(
    f0: map<FlowKey, Classified>, t0: map<FlowKey, FlowRecord>, threshold: int, features: seq<int>,
    predict: seq<Value> -> string, flows: map<FlowKey, Classified>, temp: map<FlowKey, FlowRecord>)
    requires SweptTo(f0, t0, Promoted(t0, threshold, features, predict), {}, flows, temp)
    requires FeaturesValid(features) || forall k :: k in t0 ==> !Ready(t0[k], threshold)
    ensures temp == Waiting(t0, threshold)
    ensures flows == f0 + Promoted(t0, threshold, features, predict)
  {
    var moves := Promoted(t0, threshold, features, predict);
    assert moves - {} == moves;
  }

  /** With a bad feature index, no ready flow can have moved. */
  lemma NothingPromoted(t0: map<FlowKey, FlowRecord>, threshold: int, features: seq<int>, predict: seq<Value> -> string)
    requires !FeaturesValid(features)
    ensures Promoted(t0, threshold, features, predict) == map[]
  {
  }

  class Mapper {
    var features: seq<int>
    var threshold: int
    var model: string
    var results: Option<string>
    var flows: map<FlowKey, Classified>
    var tempFlows: map<FlowKey, FlowRecord>
    var meta: map<FlowKey, string>
    var pcounter: nat
    var stopped: bool

    /**
     * A flow is either classified or waiting, never both, and has its meta
     * line; a waiting flow has no label; a classified flow reached the
     * threshold. (That every waiting record is `Sound` follows from
     * `SeedSound`, `RecalcSound` and `WaitingStaysSound`.)
     */
    ghost predicate Valid()
      reads this
    {
      && flows.Keys !! tempFlows.Keys
      && meta.Keys == flows.Keys + tempFlows.Keys
      && (forall k :: k in tempFlows ==> tempFlows[k].app.None?)
      && (forall k :: k in flows ==> flows[k].countDir + flows[k].countBack >= threshold)
    }

    /** `Mapper.__init__` once `Configure` has accepted the arguments. */
    constructor (cfg: Config, results: Option<string>)
      ensures Valid()
      ensures features == cfg.features && threshold == cfg.threshold && model == cfg.model
      ensures this.results == results
      ensures flows == map[] && tempFlows == map[] && meta == map[] && pcounter == 0 && !stopped
    {
      features := cfg.features;
      threshold := cfg.threshold;
      model := cfg.model;
      this.results := results;
      flows := map[];
      tempFlows := map[];
      meta := map[];
      pcounter := 0;
      stopped := false;
    }

    /** The stop flag, raised when the model cannot be loaded or on interrupt. */
    method Stop()
      modifies this
      ensures stopped
      ensures flows == old(flows) && tempFlows == old(tempFlows) && meta == old(meta)
      ensures features == old(features) && threshold == old(threshold) && pcounter == old(pcounter)
      ensures model == old(model) && results == old(results)
    {
      stopped := true;
    }

    /** `_recalc_flow`. */
    method RecalcFlow(fid: FlowKey, ipA: Address, payload: nat)
      requires fid in flows
      modifies this
      ensures flows == old(flows)[fid := Bumped(old(flows)[fid], ipA, payload)]
      ensures tempFlows == old(tempFlows) && meta == old(meta) && pcounter == old(pcounter)
      ensures features == old(features) && threshold == old(threshold) && stopped == old(stopped)
      ensures model == old(model) && results == old(results)
    {
      var c := flows[fid];
      if c.lastIp == ipA {
        flows := flows[fid := Classified(c.app, c.countDir + 1, c.countBack, c.overallDir + payload, c.overallBack, ipA)];
      } else {
        flows := flows[fid := Classified(c.app, c.countDir, c.countBack + 1, c.overallDir, c.overallBack + payload, ipA)];
      }
    }

    /**
     * `_fit_features`: the model's input for a waiting flow, or None where
     * an index is outside the tuple (IndexError).
     */
    method FitFeatures(fid: FlowKey) returns (r: Option<seq<Value>>)
      requires fid in tempFlows
      ensures r.Some? <==> FeaturesValid(features)
      ensures r.Some? ==> r.value == Fitted(tempFlows[fid], features)
    {
      var vals := Values(tempFlows[fid]);
      if |features| > 0 {
        var acc: seq<Value> := [];
        for j := 0 to |features|
          invariant |acc| == j
          invariant forall i :: 0 <= i < j ==> -34 <= features[i] < 34 && acc[i] == vals[Slot(features[i])]
        {
          var feat := features[j];
          if !(-34 <= feat < 34) {
            return None;
          }
          acc := acc + [vals[if feat < 0 then feat + 34 else feat]];
        }
        return Some(acc);
      } else {
        return Some(vals[1..25]);
      }
    }

    /**
     * The branch of `_process_packet` for a flow not yet classified: the
     * packet goes through `flow_processing` with no label, and the flow's
     * meta line is (re)written. The tables stay disjoint and the waiting
     * flows unlabelled.
     */
    method FileWaiting(fid: FlowKey, payload: nat, ts: real, ipA: Address, line: string)
      requires Valid() && fid !in flows
      modifies this
      ensures Valid()
      ensures tempFlows == FlowProcessing(old(tempFlows), fid, payload, ts, ipA, None)
      ensures meta == old(meta)[fid := line] && flows == old(flows)
      ensures features == old(features) && threshold == old(threshold) && stopped == old(stopped)
      ensures pcounter == old(pcounter) && model == old(model) && results == old(results)
    {
      WaitingStaysUnlabelled(tempFlows, fid, payload, ts, ipA);
      tempFlows := FlowProcessing(tempFlows, fid, payload, ts, ipA, None);
      meta := meta[fid := line];
    }

    /**
     * `_process_packet(payload, data, timestamp)`: `frameLen` is the captured
     * length handed over by the capture loop. A stopped mapper raises; a frame
     * that is not TCP/UDP over IPv4 is ignored; otherwise the packet counter
     * rises and the packet is filed under its flow key: into the waiting table
     * through `flow_processing` (with no label, and a fresh meta line), or,
     * when the flow is classified, into its counters.
     */
    method ProcessPacket(frameLen: nat, frame: Frame, ts: real) returns (raised: bool)
      requires Valid()
      modifies this
      ensures Valid()
      ensures raised <==> old(stopped)
      ensures features == old(features) && threshold == old(threshold) && stopped == old(stopped)
      ensures model == old(model) && results == old(results)
      ensures (raised || frame.Other?) ==>
        flows == old(flows) && tempFlows == old(tempFlows) && meta == old(meta) && pcounter == old(pcounter)
      ensures !raised && frame.Segment? ==> pcounter == old(pcounter) + 1
      ensures !raised && frame.Segment? ==>
        var d := PacketData(frame).value;
        var fid := KeyOf(d);
        if fid in old(flows) then
          flows == old(flows)[fid := Bumped(old(flows)[fid], d.ipA, frameLen)]
          && tempFlows == old(tempFlows) && meta == old(meta)
        else
          tempFlows == FlowProcessing(old(tempFlows), fid, frameLen, ts, d.ipA, None)
          && meta == old(meta)[fid := MetaText(d)] && flows == old(flows)
    {
      if stopped {
        return true;
      }
      raised := false;
      var pkt := PacketData(frame);
      if pkt.None? {
        return;
      }
      var d := pkt.value;
      pcounter := pcounter + 1;
      var fid := FlowHash(d.ipA, d.ipB, d.portA, d.portB, d.transport);
      if fid !in flows {
        FileWaiting(fid, frameLen, ts, d.ipA, MetaText(d));
      } else {
        RecalcFlow(fid, d.ipA, frameLen);
      }
    }

    /**
     * The body of the collector's loop for one ready flow: the model labels
     * its features, and the flow moves from the waiting table to the
     * classified one. With a bad feature index (IndexError) nothing changes.
     */
    method ClassifyFlow(k: FlowKey, predict: seq<Value> -> string) returns (moved: bool)
      requires Valid() && k in tempFlows && Ready(tempFlows[k], threshold)
      modifies this
      ensures Valid()
      ensures features == old(features) && threshold == old(threshold) && meta == old(meta)
      ensures pcounter == old(pcounter) && stopped == old(stopped)
      ensures model == old(model) && results == old(results)
      ensures moved <==> FeaturesValid(features)
      ensures moved ==> tempFlows == old(tempFlows) - {k}
      ensures moved ==> flows == old(flows)[k := Promote(old(tempFlows)[k], predict(Fitted(old(tempFlows)[k], features)))]
      ensures !moved ==> flows == old(flows) && tempFlows == old(tempFlows)
    {
      var fitted := FitFeatures(k);
      if fitted.None? {
        return false;
      }
      var app := predict(fitted.value);
      flows := flows[k := Promote(tempFlows[k], app)];
      tempFlows := tempFlows - {k};
      moved := true;
    }

    /**
     * One pass of the collector's loop over a snapshot of the waiting flows:
     * every flow that reached the threshold is classified by `predict` and
     * moved to `flows`; the others keep waiting. With a feature index outside
     * the tuple the first ready flow raises IndexError, and the pass ends
     * (false) before anything moved. The order of the pass does not matter.
     */
    method Sweep(predict: seq<Value> -> string) returns (ok: bool)
      requires Valid()
      modifies this
      ensures Valid()
      ensures features == old(features) && threshold == old(threshold) && meta == old(meta)
      ensures pcounter == old(pcounter) && stopped == old(stopped)
      ensures model == old(model) && results == old(results)
      ensures ok <==> FeaturesValid(features) || forall k :: k in old(tempFlows) ==> !Ready(old(tempFlows)[k], threshold)
      ensures ok ==> tempFlows == Waiting(old(tempFlows), threshold)
      ensures ok ==> flows == old(flows) + Promoted(old(tempFlows), threshold, features, predict)
      ensures !ok ==> flows == old(flows) && tempFlows == old(tempFlows)
    {
      ghost var f0, t0 := flows, tempFlows;
      ghost var moves := Promoted(t0, threshold, features, predict);
      var todo := tempFlows.Keys;
      SweepStart(f0, t0, moves);
      while todo != {}
        invariant Valid()
        invariant todo <= t0.Keys && todo <= tempFlows.Keys
        invariant features == old(features) && threshold == old(threshold) && meta == old(meta)
        invariant pcounter == old(pcounter) && stopped == old(stopped)
        invariant model == old(model) && results == old(results)
        invariant SweptTo(f0, t0, moves, todo, flows, tempFlows)
        invariant !FeaturesValid(features) ==> forall k :: k in t0 && k !in todo ==> !Ready(t0[k], threshold)
        decreases todo
      {
        var k :| k in todo;
        assert tempFlows[k] == t0[k];
        if Total(tempFlows[k]) >= threshold {
          ghost var fb, tb := flows, tempFlows;
          var moved := ClassifyFlow(k, predict);
          if !moved {
            NothingPromoted(t0, threshold, features, predict);
            assert moves.Keys - todo == {};
            assert t0 - {} == t0;
            assert moves - todo == map[];
            assert f0 + map[] == f0;
            return false;
          }
          SweepStepMoved(f0, t0, moves, todo, k, fb, tb);
        } else {
          SweepStepKept(f0, t0, moves, todo, k, flows, tempFlows);
        }
        todo := todo - {k};
      }
      SweepDone(f0, t0, threshold, features, predict, flows, tempFlows);
      ok := true;
    }

    /**
     * `_export_json`: the header, then one "classified" row per classified
     * flow, then one "unclassified" row per waiting flow, each table in its
     * iteration order, which `classifiedOrder` and `waitingOrder` record.
     */
    method ExportJson() returns (lines: seq<string>, ghost classifiedOrder: seq<FlowKey>, ghost waitingOrder: seq<FlowKey>)
      requires flows.Keys + tempFlows.Keys <= meta.Keys
      ensures Seqs.Distinct(classifiedOrder) && (forall k :: k in classifiedOrder <==> k in flows)
      ensures Seqs.Distinct(waitingOrder) && (forall k :: k in waitingOrder <==> k in tempFlows)
      ensures lines == [Header] + RowList(flows, meta, classifiedOrder, ClassifiedRow)
                                + RowList(tempFlows, meta, waitingOrder, UnclassifiedRow)
    {
      var classified, waiting;
      classified, classifiedOrder := RowsOf(flows, meta, ClassifiedRow);
      waiting, waitingOrder := RowsOf(tempFlows, meta, UnclassifiedRow);
      lines := [Header] + classified + waiting;
    }
  }

  /** The rows of the entries of `table` listed in `order`. */
  function RowList<V>(table: map<FlowKey, V>, meta: map<FlowKey, string>, order: seq<FlowKey>, row: (V, string) -> string): (r: seq<string>)
    requires forall k :: k in order ==> k in table && k in meta
    ensures |r| == |order|
    ensures forall i :: 0 <= i < |order| ==> r[i] == row(table[order[i]], meta[order[i]])
  {
    seq(|order|, i requires 0 <= i < |order| => row(table[order[i]], meta[order[i]]))
  }

  /** One row per entry of `table`, in an iteration order that `order` records. */
  method RowsOf<V>(table: map<FlowKey, V>, meta: map<FlowKey, string>, row: (V, string) -> string)
    returns (rows: seq<string>, ghost order: seq<FlowKey>)
    requires table.Keys <= meta.Keys
    ensures Seqs.Distinct(order) && (forall k :: k in order <==> k in table)
    ensures rows == RowList(table, meta, order, row)
  {
    rows := [];
    order := [];
    var todo := table.Keys;
    while todo != {}
      invariant todo <= table.Keys
      invariant Seqs.Distinct(order)
      invariant forall k :: k in order <==> k in table && k !in todo
      invariant rows == RowList(table, meta, order, row)
      decreases todo
    {
      var k :| k in todo;
      todo := todo - {k};
      rows := rows + [row(table[k], meta[k])];
      order := order + [k];
    }
  }
}
