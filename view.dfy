/**
 * The label histogram of src/utils/view.py.
 *
 * Every line read from standard input is counted under its label, the last
 * comma-separated field stripped of surrounding whitespace. The (count, label)
 * pairs are then sorted in descending order, most frequent first and equal
 * counts by label, from the greatest down, and printed one per line as the
 * label padded to 20 characters, a space and the count.
 */
module View {
  import opened Wrappers
  import opened Strings
  import Seqs

  /** `i.split(",")[-1].strip()`: the label of a line. */
  function Label(line: string): string {
    Strip(LastPiece(line, ','))
  }

  /** Every line has a label; `Seqs` works with keys that may be absent. */
  function LabelKey(line: string): Option<string> {
    Some(Label(line))
  }

  /** The distinct labels of `lines` in order of first occurrence. */
  function Labels(lines: seq<string>): seq<string> {
    Seqs.Dedup(Seqs.Present(lines, LabelKey))
  }

  /** A label is listed exactly when some line carries it. */
  lemma LabelsOfLines(lines: seq<string>, l: string)
    ensures l in Labels(lines) <==> exists i :: 0 <= i < |lines| && Label(lines[i]) == l
  {
    Seqs.PresentMembers(lines, LabelKey, l);
    assert forall i :: 0 <= i < |lines| ==> LabelKey(lines[i]) == Some(Label(lines[i]));
  }

  /** The number of lines whose label is `l`. */
  function Occurrences(lines: seq<string>, l: string): nat {
    |Seqs.Filter(lines, LabelKey, Some(l))|
  }

  /**
   * The counting loop: `di` maps every label to the number of lines that
   * carry it. `labels` lists the keys of `di` in the order they were added,
   * which is the order `di.items()` yields them.
   */
  method CountLabels(lines: seq<string>) returns (di: map<string, nat>, labels: seq<string>)
    ensures labels == Labels(lines)
    ensures forall l :: l in di <==> l in labels
    ensures forall l :: l in di ==> di[l] == Occurrences(lines, l)
  {
    di, labels := map[], [];
    for i := 0 to |lines|
      invariant Seqs.Tally(di, lines[..i], LabelKey)
      invariant labels == Labels(lines[..i])
    {
      var app := Label(lines[i]);
      assert LabelKey(lines[i]) == Some(app);
      Seqs.TallyStep(di, labels, lines, i, LabelKey);
      if app !in di {
        di := di[app := 1];
        labels := labels + [app];
      } else {
        di := di[app := di[app] + 1];
      }
    }
    assert lines[..|lines|] == lines;
    forall l ensures l in di <==> l in labels {
      Seqs.DedupMembers(Seqs.Present(lines, LabelKey), l);
    }
  }

  type Entry = (nat, string)

  /** The labels of the entries of `s`, in order. */
  function LabelsOf(s: seq<Entry>): (r: seq<string>)
    ensures |r| == |s| && forall k :: 0 <= k < |s| ==> r[k] == s[k].1
  {
    seq(|s|, k requires 0 <= k < |s| => s[k].1)
  }

  /** `p` sorts before `q` in `sorted(..., reverse=True)`: a greater count, or the same count and a greater label. */
  predicate Before(p: Entry, q: Entry) {
    p.0 > q.0 || (p.0 == q.0 && StrLess(q.1, p.1))
  }

  lemma BeforeIrreflexive(p: Entry)
    ensures !Before(p, p)
  {
    StrLessIrreflexive(p.1);
  }

  lemma BeforeTransitive(p: Entry, q: Entry, r: Entry)
    requires Before(p, q) && Before(q, r)
    ensures Before(p, r)
  {
    if p.0 == q.0 && q.0 == r.0 {
      StrLessTransitive(r.1, q.1, p.1);
    }
  }

  lemma BeforeTotal(p: Entry, q: Entry)
    ensures p == q || Before(p, q) || Before(q, p)
  {
    StrLessTotal(p.1, q.1);
  }

  predicate Descending(s: seq<Entry>) {
    forall i, j :: 0 <= i < j < |s| ==> Before(s[i], s[j])
  }

  /** The sum of the counts in `s`. */
  function Total(s: seq<Entry>): nat {
    if s == [] then 0 else s[0].0 + Total(s[1..])
  }

  /** `x` inserted into a descending list at its place. */
  function Insert(x: Entry, s: seq<Entry>): (r: seq<Entry>)
    requires Descending(s) && x !in s
    ensures Descending(r)
    ensures |r| == |s| + 1
    ensures forall y :: y in r <==> y == x || y in s
    ensures Total(r) == x.0 + Total(s)
  {
    if s == [] then [x]
    else if Before(x, s[0]) then
      assert forall j :: 0 < j < |s| ==> Before(x, s[j]) by {
        forall j | 0 < j < |s| ensures Before(x, s[j]) {
          BeforeTransitive(x, s[0], s[j]);
        }
      }
      [x] + s
    else
      BeforeTotal(x, s[0]);
      var rest := Insert(x, s[1..]);
      var r := [s[0]] + rest;
      assert forall j :: 0 < j < |r| ==> Before(s[0], r[j]) by {
        forall j | 0 < j < |r| ensures Before(s[0], r[j]) {
          assert r[j] in rest;
        }
      }
      assert r[1..] == rest;
      r
  }

  /** `sorted(items, reverse=True)` for a list without repeated entries. */
  function Rank(items: seq<Entry>): (r: seq<Entry>)
    requires Seqs.Distinct(items)
    ensures Descending(r)
    ensures |r| == |items|
    ensures forall y :: y in r <==> y in items
    ensures Total(r) == Total(items)
  {
    if items == [] then []
    else
      assert forall i, j :: 0 <= i < j < |items| - 1 ==> items[1..][i] != items[1..][j];
      assert items[0] !in items[1..];
      Insert(items[0], Rank(items[1..]))
  }

  /** `[(value, key) for key, value in di.items()]`, the keys taken in the order `labels`. */
  function Items(di: map<string, nat>, labels: seq<string>): (r: seq<Entry>)
    requires forall l :: l in labels ==> l in di
    ensures |r| == |labels|
    ensures forall k :: 0 <= k < |r| ==> r[k] == (di[labels[k]], labels[k])
  {
    if labels == [] then [] else [(di[labels[0]], labels[0])] + Items(di, labels[1..])
  }

  /** The counts of the items of the tally add up to the selections' total. */
  lemma {:induction false} ItemsTotal(lines: seq<string>, di: map<string, nat>, labels: seq<string>)
    requires forall l :: l in labels ==> l in di && di[l] == Occurrences(lines, l)
    ensures Total(Items(di, labels)) == Seqs.FilteredTotal(lines, LabelKey, Seqs.Somes(labels))
  {
    if labels != [] {
      ItemsTotal(lines, di, labels[1..]);
      assert Seqs.Somes(labels)[1..] == Seqs.Somes(labels[1..]);
      assert Items(di, labels)[1..] == Items(di, labels[1..]);
    }
  }

  /** `print i.ljust(20), p`: the label padded to 20 characters, a space, the count and a newline. */
  function Row(p: Entry): string {
    LJust(p.1, 20) + " " + NatToDecimal(p.0) + "\n"
  }

  /** A printed row starts with its label and ends with its count in decimal before the newline. */
  lemma RowReadsBack(p: Entry)
    ensures var r := Row(p); var w := if |p.1| >= 20 then |p.1| else 20;
      && |r| > w + 1
      && r[..|p.1|] == p.1
      && r[w] == ' '
      && ParseInt(r[w + 1..|r| - 1]) == Some(p.0)
  {
    var r := Row(p);
    var pad := LJust(p.1, 20);
    var digits := NatToDecimal(p.0);
    assert r == pad + [' '] + digits + ['\n'];
    assert r[..|p.1|] == pad[..|p.1|];
    assert r[|pad| + 1..|r| - 1] == digits;
    ParseIntOfDecimal(p.0);
  }

  /**
   * The whole script on the lines of standard input: `ranked` is the sorted
   * list of (count, label) pairs and `printed` the lines it prints.
   */
  method Histogram(lines: seq<string>) returns (ranked: seq<Entry>, printed: seq<string>)
    ensures forall k :: 0 <= k < |ranked| ==> ranked[k].0 == Occurrences(lines, ranked[k].1)
    ensures forall l :: l in LabelsOf(ranked) <==> l in Labels(lines)
    ensures Seqs.Distinct(LabelsOf(ranked))
    ensures Descending(ranked)
    ensures Total(ranked) == |lines|
    ensures |printed| == |ranked| && forall k :: 0 <= k < |ranked| ==> printed[k] == Row(ranked[k])
  {
    var di, labels := CountLabels(lines);
    var items := Items(di, labels);
    assert Seqs.Distinct(items) by {
      forall i, j | 0 <= i < j < |items| ensures items[i] != items[j] {
        assert items[i].1 == labels[i] && items[j].1 == labels[j];
      }
    }
    ranked := Rank(items);
    LabelsOfRanked(di, labels, items, ranked);
    ItemsTotal(lines, di, labels);
    LinesCounted(lines);
    printed := [];
    for k := 0 to |ranked|
      invariant |printed| == k && forall m :: 0 <= m < k ==> printed[m] == Row(ranked[m])
    {
      printed := printed + [Row(ranked[k])];
    }
  }

  /** A reordering of the items of a tally carries each of its labels once, with its count. */
  lemma LabelsOfRanked(di: map<string, nat>, labels: seq<string>, items: seq<Entry>, ranked: seq<Entry>)
    requires Seqs.Distinct(labels) && forall l :: l in labels ==> l in di
    requires items == Items(di, labels)
    requires Descending(ranked) && forall y :: y in ranked <==> y in items
    ensures forall k :: 0 <= k < |ranked| ==> ranked[k].1 in di && ranked[k].0 == di[ranked[k].1]
    ensures forall l :: l in LabelsOf(ranked) <==> l in labels
    ensures Seqs.Distinct(LabelsOf(ranked))
  {
    forall k | 0 <= k < |ranked| ensures ranked[k].1 in labels && ranked[k].0 == di[ranked[k].1] {
      assert ranked[k] in items;
      var m :| 0 <= m < |items| && items[m] == ranked[k];
      assert labels[m] in labels;
    }
    forall l | l in labels ensures l in LabelsOf(ranked) {
      var m :| 0 <= m < |labels| && labels[m] == l;
      assert items[m] in ranked;
      var k :| 0 <= k < |ranked| && ranked[k] == items[m];
      assert LabelsOf(ranked)[k] == l;
    }
    forall i, j | 0 <= i < j < |ranked| ensures LabelsOf(ranked)[i] != LabelsOf(ranked)[j] {
      if ranked[i].1 == ranked[j].1 {
        assert ranked[i] in items && ranked[j] in items;
        var m :| 0 <= m < |items| && items[m] == ranked[i];
        var n :| 0 <= n < |items| && items[n] == ranked[j];
        assert labels[m] == labels[n];
        BeforeIrreflexive(ranked[i]);
      }
    }
  }

  /** Every line is counted under its own label: the counts add up to the number of lines. */
  lemma LinesCounted(lines: seq<string>)
    ensures Seqs.FilteredTotal(lines, LabelKey, Seqs.Somes(Labels(lines))) == |lines|
  {
    Seqs.PartitionKeyed(lines, LabelKey);
  }
}
