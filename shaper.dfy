/**
 * The training-set builder of src/utils/shaper.py.
 *
 * The requested protocol names are normalised (a single comma-separated
 * argument is split; empty names are dropped; duplicates are removed; the
 * names are sorted). The output gets the legend line, then, protocol by
 * protocol, the first `number` lines of `<datadir>/<proto>.csv`. Files are
 * given as a map from path to their lines (each line keeps its newline).
 */
module Shaper {
  import opened Wrappers
  import opened Strings

  // ---------------------------------------------------------------------------
  // the legend
  // ---------------------------------------------------------------------------

  /** The columns of a training row, in four groups: counters and itime statistics ... */
  const CounterNames: seq<string> := ["count_dir", "count_back", "overall_dir", "overall_back"]
  const ItimeNames: seq<string> := [
    "max_itime_dir", "max_itime_back", "min_itime_dir", "min_itime_back",
    "avg_itime_dir", "avg_itime_back", "std_itime_dir", "std_itime_back",
    "var_itime_dir", "var_itime_back"]
  /** ... payload statistics and the label. */
  const PayloadNames: seq<string> := [
    "max_payload_dir", "max_payload_back", "min_payload_dir", "min_payload_back",
    "avg_payload_dir", "avg_payload_back", "std_payload_dir", "std_payload_back",
    "var_payload_dir", "var_payload_back"]

  /** The 24 statistic columns of a training row and the label column. */
  const LegendNames: seq<string> := CounterNames + ItimeNames + PayloadNames + ["application"]

  /** `_get_legend()`: the column names joined by commas, as one line. */
  const Legend: string := Join(LegendNames, ",") + "\n"

  lemma ItimeNamesHaveNoComma()
    ensures forall c :: c in ItimeNames ==> ',' !in c
  {
  }

  lemma PayloadNamesHaveNoComma()
    ensures forall c :: c in PayloadNames ==> ',' !in c
  {
  }

  /** The legend line holds 25 comma-separated names, the last being "application". */
  lemma LegendFields()
    ensures Split(Join(LegendNames, ","), ',') == LegendNames
    ensures |LegendNames| == 25 && LegendNames[24] == "application"
  {
    ItimeNamesHaveNoComma();
    PayloadNamesHaveNoComma();
    forall c | c in LegendNames ensures ',' !in c {
      assert c in CounterNames || c in ItimeNames || c in PayloadNames || c == "application";
    }
    SplitJoin(LegendNames, ',');
  }

  // ---------------------------------------------------------------------------
  // protocol names
  // ---------------------------------------------------------------------------

  /** Strictly ascending in Python's string order, hence duplicate-free. */
  predicate Ascending(s: seq<string>) {
    forall i, j :: 0 <= i < j < |s| ==> StrLess(s[i], s[j])
  }

  /** `x` put into its place in an ascending list; nothing is added if it is there already. */
  function InsertName(x: string, s: seq<string>): (r: seq<string>)
    requires Ascending(s)
    ensures Ascending(r)
    ensures forall y :: y in r <==> y == x || y in s
  {
    if s == [] then [x]
    else if x == s[0] then s
    else if StrLess(x, s[0]) then
      assert forall j :: 0 < j < |s| ==> StrLess(x, s[j]) by {
        forall j | 0 < j < |s| ensures StrLess(x, s[j]) {
          StrLessTransitive(x, s[0], s[j]);
        }
      }
      [x] + s
    else
      StrLessTotal(x, s[0]);
      var rest := InsertName(x, s[1..]);
      assert forall y :: y in rest ==> StrLess(s[0], y) by {
        forall y | y in rest ensures StrLess(s[0], y) {
          if y != x {
            var j :| 0 <= j < |s[1..]| && s[1..][j] == y;
            assert s[j + 1] == y;
          }
        }
      }
      var r := [s[0]] + rest;
      assert forall i, j :: 0 <= i < j < |r| ==> StrLess(r[i], r[j]) by {
        forall i, j | 0 <= i < j < |r| ensures StrLess(r[i], r[j]) {
          if i == 0 {
            assert r[j] in rest;
          } else {
            assert r[i] == rest[i - 1] && r[j] == rest[j - 1];
          }
        }
      }
      assert forall y :: y in s <==> y == s[0] || y in s[1..] by {
        assert s == [s[0]] + s[1..];
      }
      r
  }

  /** `sorted(set(xs))`. */
  function SortedNames(xs: seq<string>): (r: seq<string>)
    ensures Ascending(r)
    ensures forall y :: y in r <==> y in xs
  {
    if xs == [] then []
    else
      var r := InsertName(xs[|xs| - 1], SortedNames(xs[..|xs| - 1]));
      assert forall y :: y in xs <==> y == xs[|xs| - 1] || y in xs[..|xs| - 1] by {
        assert xs == xs[..|xs| - 1] + [xs[|xs| - 1]];
      }
      r
  }

  /** The names other than "". */
  function NonEmptyNames(xs: seq<string>): (r: seq<string>)
    ensures forall y :: y in r <==> y in xs && y != ""
  {
    if xs == [] then []
    else
      var r := NonEmptyNames(xs[..|xs| - 1]) + (if xs[|xs| - 1] != "" then [xs[|xs| - 1]] else []);
      assert forall y :: y in xs <==> y == xs[|xs| - 1] || y in xs[..|xs| - 1] by {
        assert xs == xs[..|xs| - 1] + [xs[|xs| - 1]];
      }
      r
  }

  /** The protocol list of `create`: a single argument is split on commas first. */
  function Normalised(protocols: seq<string>): seq<string> {
    var items := if |protocols| == 1 then Split(protocols[0], ',') else protocols;
    SortedNames(NonEmptyNames(items))
  }

  /**
   * The normalised list is sorted, duplicate-free, and holds exactly the
   * non-empty names given (after splitting a lone argument on commas).
   */
  lemma NormalisedNames(protocols: seq<string>)
    ensures Ascending(Normalised(protocols))
    ensures var items := if |protocols| == 1 then Split(protocols[0], ',') else protocols;
      forall y :: y in Normalised(protocols) <==> y != "" && y in items
  {
  }

  // ---------------------------------------------------------------------------
  // copying the data files
  // ---------------------------------------------------------------------------

  /** The exceptions of `create`; `UnboundLocal` is the one Python raises for `i`. */
  datatype ShaperError = ProtocolsFileNotFound(path: string) | NoMuchData(path: string) | UnboundLocal

  /**
   * What has been written after the legend, the value of the loop variable
   * `i` (None while unbound), and the exception raised, if any.
   */
  datatype Progress = Progress(out: seq<string>, last: Option<int>, err: Option<ShaperError>)

  /** The number of lines read from one file: at least one, since the check follows the write. */
  function Cap(number: int): nat {
    if number >= 1 then number else 1
  }

  function DataPath(datadir: string, proto: string): string {
    PathJoin(datadir, proto + ".csv")
  }

  /** The lines copied from a file: its first `Cap(number)` lines. */
  function Head(lines: seq<string>, number: int): (r: seq<string>)
    ensures r <= lines && |r| == if |lines| < Cap(number) then |lines| else Cap(number)
  {
    if |lines| < Cap(number) then lines else lines[..Cap(number)]
  }

  /** The handling of one protocol. */
  function CopyFile(c: Progress, number: int, datadir: string, files: map<string, seq<string>>, proto: string): Progress {
    var path := DataPath(datadir, proto);
    if path !in files then c.(err := Some(ProtocolsFileNotFound(path)))
    else
      var lines := files[path];
      var out := c.out + Head(lines, number);
      var i := if lines == [] then c.last else Some(|Head(lines, number)| - 1);
      if i.None? then Progress(out, i, Some(UnboundLocal))
      else if i.value + 1 < number then Progress(out, i, Some(NoMuchData(path)))
      else Progress(out, i, None)
  }

  /** The protocols handled in order until one raises. */
  function Fill(c: Progress, number: int, datadir: string, files: map<string, seq<string>>, protos: seq<string>): Progress
    decreases protos
  {
    if protos == [] || c.err.Some? then c
    else Fill(CopyFile(c, number, datadir, files, protos[0]), number, datadir, files, protos[1..])
  }

  /** The lines copied from the files of `protos`, one after the other. */
  function AllHeads(number: int, datadir: string, files: map<string, seq<string>>, protos: seq<string>): seq<string>
    requires forall p :: p in protos ==> DataPath(datadir, p) in files
  {
    if protos == [] then []
    else Head(files[DataPath(datadir, protos[0])], number) + AllHeads(number, datadir, files, protos[1..])
  }

  /**
   * When no exception is raised, every protocol had its file, and the output
   * is the first `number` lines (at least one) of each file in order.
   */
  lemma {:induction false} FillSucceeds(c: Progress, number: int, datadir: string, files: map<string, seq<string>>,
                                        protos: seq<string>)
    requires c.err.None?
    requires Fill(c, number, datadir, files, protos).err.None?
    ensures forall p :: p in protos ==> DataPath(datadir, p) in files
    ensures Fill(c, number, datadir, files, protos).out == c.out + AllHeads(number, datadir, files, protos)
    decreases protos
  {
    if protos != [] {
      var next := CopyFile(c, number, datadir, files, protos[0]);
      FillSucceeds(next, number, datadir, files, protos[1..]);
      assert forall p :: p in protos ==> p == protos[0] || p in protos[1..];
    }
  }

  /** A protocol without a file makes `create` raise. */
  lemma {:induction false} FillMissing(c: Progress, number: int, datadir: string, files: map<string, seq<string>>,
                                       protos: seq<string>, k: int)
    requires 0 <= k < |protos| && DataPath(datadir, protos[k]) !in files
    ensures Fill(c, number, datadir, files, protos).err.Some?
    decreases protos
  {
    if c.err.None? && k > 0 {
      FillMissing(CopyFile(c, number, datadir, files, protos[0]), number, datadir, files, protos[1..], k - 1);
    }
  }

  /** A protocol whose file has lines, but fewer than `number`, makes `create` raise. */
  lemma {:induction false} FillShort(c: Progress, number: int, datadir: string, files: map<string, seq<string>>,
                                     protos: seq<string>, k: int)
    requires 0 <= k < |protos| && DataPath(datadir, protos[k]) in files
    requires 1 <= |files[DataPath(datadir, protos[k])]| < number
    ensures Fill(c, number, datadir, files, protos).err.Some?
    decreases protos
  {
    if c.err.None? && k > 0 {
      FillShort(CopyFile(c, number, datadir, files, protos[0]), number, datadir, files, protos[1..], k - 1);
    }
  }

  /**
   * When the protocols before `k` went through, a protocol without a file
   * raises ProtocolsFileNotFound with the path that was looked for.
   */
  lemma {:induction false} FillMissingError(c: Progress, number: int, datadir: string, files: map<string, seq<string>>,
                                            protos: seq<string>, k: int)
    requires 0 <= k < |protos| && DataPath(datadir, protos[k]) !in files
    requires c.err.None? && Fill(c, number, datadir, files, protos[..k]).err.None?
    ensures Fill(c, number, datadir, files, protos).err == Some(ProtocolsFileNotFound(DataPath(datadir, protos[k])))
    decreases k
  {
    if k > 0 {
      var next := CopyFile(c, number, datadir, files, protos[0]);
      assert protos[..k][1..] == protos[1..][..k - 1];
      FillMissingError(next, number, datadir, files, protos[1..], k - 1);
    }
  }

  /**
   * When the protocols before `k` went through, a file with at least one line
   * but fewer than `number` has all its lines written and then raises
   * NoMuchData with its path.
   */
  lemma {:induction false} FillShortError(c: Progress, number: int, datadir: string, files: map<string, seq<string>>,
                                          protos: seq<string>, k: int)
    requires 0 <= k < |protos| && DataPath(datadir, protos[k]) in files
    requires 1 <= |files[DataPath(datadir, protos[k])]| < number
    requires c.err.None? && Fill(c, number, datadir, files, protos[..k]).err.None?
    ensures Fill(c, number, datadir, files, protos).err == Some(NoMuchData(DataPath(datadir, protos[k])))
    ensures Fill(c, number, datadir, files, protos).out
         == Fill(c, number, datadir, files, protos[..k]).out + files[DataPath(datadir, protos[k])]
    decreases k
  {
    if k > 0 {
      var next := CopyFile(c, number, datadir, files, protos[0]);
      assert protos[..k][1..] == protos[1..][..k - 1];
      FillShortError(next, number, datadir, files, protos[1..], k - 1);
    }
  }

  /**
   * An empty file is accepted silently when an earlier file had enough lines,
   * because the loop variable keeps its value from that file.
   */
  lemma EmptyFileAfterFullOne()
    ensures Fill(Progress([], None, None), 1, "d", map["d/a.csv" := ["x\n"], "d/b.csv" := []], ["a", "b"])
         == Progress(["x\n"], Some(0), None)
  {
    assert DataPath("d", "a") == "d/a.csv";
    assert DataPath("d", "b") == "d/b.csv";
  }

  /** An empty first file raises before anything else: `i` was never bound. */
  lemma EmptyFirstFile()
    ensures Fill(Progress([], None, None), 1, "d", map["d/a.csv" := []], ["a"]).err == Some(UnboundLocal)
  {
    assert DataPath("d", "a") == "d/a.csv";
  }

  /** Handling the next protocol, and stopping at an exception. */
  lemma FillStep(c: Progress, number: int, datadir: string, files: map<string, seq<string>>, protos: seq<string>)
    requires protos != [] && c.err.None?
    ensures var next := CopyFile(c, number, datadir, files, protos[0]);
      && Fill(c, number, datadir, files, protos) == Fill(next, number, datadir, files, protos[1..])
      && (next.err.Some? ==> Fill(next, number, datadir, files, protos[1..]) == next)
  {
  }

  /**
   * The `enumerate` loop of `create` over one file: each line is written,
   * then the loop stops once `number` lines are written. `i` ends as the last
   * index written, or keeps its earlier value when the file is empty.
   */
  method WriteHead(output: seq<string>, lines: seq<string>, number: int, i0: Option<int>)
    returns (written: seq<string>, i: Option<int>)
    ensures written == output + Head(lines, number)
    ensures i == if lines == [] then i0 else Some(|Head(lines, number)| - 1)
  {
    written, i := output, i0;
    for k := 0 to |lines|
      invariant written == output + lines[..k]
      invariant k == 0 || k < number
      invariant i == if k == 0 then i0 else Some(k - 1)
    {
      written := written + [lines[k]];
      i := Some(k);
      assert lines[..k + 1] == lines[..k] + [lines[k]];
      if k + 1 >= number {
        break;
      }
    }
  }

  /**
   * `create(number, protocols, output, datadir)`: the lines written to the
   * output file (the legend first) and the exception raised, if any.
   */
  method Create(number: int, protocols: seq<string>, datadir: Option<string>, files: map<string, seq<string>>)
    returns (output: seq<string>, err: Option<ShaperError>)
    ensures var r := Fill(Progress([], None, None), number, if datadir.None? then "save/" else datadir.value,
                          files, Normalised(protocols));
      output == [Legend] + r.out && err == r.err
  {
    var protos := Normalised(protocols);
    var dir := if datadir.None? then "save/" else datadir.value;
    var legend := Legend;
    var body: seq<string>, i: Option<int> := [], None;
    output, err := [legend], None;
    for n := 0 to |protos|
      invariant output == [legend] + body && err.None?
      invariant Fill(Progress(body, i, None), number, dir, files, protos[n..])
             == Fill(Progress([], None, None), number, dir, files, protos)
    {
      var proto := protos[n];
      ghost var before := Progress(body, i, None);
      ghost var after := CopyFile(before, number, dir, files, proto);
      FillStep(before, number, dir, files, protos[n..]);
      assert protos[n..][1..] == protos[n + 1..];
      var fullpath := PathJoin(dir, proto + ".csv");
      if fullpath !in files {
        err := Some(ProtocolsFileNotFound(fullpath));
        return;
      }
      body, i := WriteHead(body, files[fullpath], number, i);
      output := [legend] + body;
      if i.None? {
        err := Some(UnboundLocal);
        return;
      }
      if i.value + 1 < number {
        err := Some(NoMuchData(fullpath));
        return;
      }
      assert after == Progress(body, i, None);
    }
    assert protos[|protos|..] == [];
  }
}
