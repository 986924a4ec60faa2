/**
 * The training-row splitter of src/utils/distribute.py.
 *
 * Lines read from standard input (each keeping its newline) are checked for
 * 25 comma-separated fields; a line that has another number of fields is
 * reported and dropped. Every other line is appended, unchanged, to the file
 * of its name: the last field, stripped and lower-cased. A name's file is
 * opened once, at its first line.
 */
module Distribute {
  import opened Wrappers
  import opened Strings
  import opened Records
  import opened Batch
  import Seqs

  /** A line with exactly 25 comma-separated fields. */
  predicate Accepted(line: string) {
    |Split(line, ',')| == 25
  }

  /** `sp[-1].strip().lower()`: the bucket of a line. */
  function BucketOf(line: string): string {
    Lower(Strip(LastPiece(line, ',')))
  }

  /** The bucket a line goes to, or None for a rejected line. */
  function LineKey(line: string): Option<string> {
    if Accepted(line) then Some(BucketOf(line)) else None
  }

  /** `os.path.join(savedir, app + ".csv")`. */
  function BucketFile(savedir: string, app: string): string {
    PathJoin(savedir, app + ".csv")
  }

  /** The files of the labels `apps`. */
  function BucketFiles(savedir: string, apps: seq<string>): (r: seq<string>)
    ensures |r| == |apps|
    ensures forall i :: 0 <= i < |apps| ==> r[i] == BucketFile(savedir, apps[i])
  {
    if apps == [] then [] else BucketFiles(savedir, apps[..|apps| - 1]) + [BucketFile(savedir, apps[|apps| - 1])]
  }

  /** The labels in the order their files are opened. */
  function Opened(lines: seq<string>): seq<string> {
    Seqs.Dedup(Seqs.Present(lines, LineKey))
  }

  /**
   * One turn of the loop of `main`: a line without 25 fields is reported;
   * any other line is appended to its label's file, which is opened first if
   * this is the label's first line.
   */
  method PutLine(savedir: string, files: map<string, seq<string>>, openedFiles: seq<string>, errors: seq<string>,
                 line: string)
    returns (files': map<string, seq<string>>, openedFiles': seq<string>, errors': seq<string>)
    ensures LineKey(line).None? ==> files' == files && openedFiles' == openedFiles && errors' == errors + [line]
    ensures LineKey(line).Some? ==>
      var app := LineKey(line).value;
      && files' == files[app := (if app in files then files[app] else []) + [line]]
      && openedFiles' == (if app in files then openedFiles else openedFiles + [BucketFile(savedir, app)])
      && errors' == errors
  {
    files', openedFiles', errors' := files, openedFiles, errors;
    var sp := Split(line, ',');
    if |sp| != 25 {
      errors' := errors' + [line];
      return;
    }
    var app := Lower(Strip(sp[|sp| - 1]));
    var bucket := if app in files' then files'[app] else [];
    if app !in files' {
      openedFiles' := openedFiles' + [BucketFile(savedir, app)];
    }
    files' := files'[app := bucket + [line]];
  }

  /**
   * What `main` has done after reading `lines`: each label's file holds that
   * label's lines, the files were opened in first-seen order and the rejected
   * lines were reported.
   */
  ghost predicate Distributed(savedir: string, lines: seq<string>,
                              files: map<string, seq<string>>, openedFiles: seq<string>, errors: seq<string>)
  {
    && Seqs.Buckets(files, lines, LineKey)
    && openedFiles == BucketFiles(savedir, Opened(lines))
    && errors == Seqs.Filter(lines, LineKey, None)
  }

  /** The line after `lines[..i]`, handled as `PutLine` handles it, keeps `Distributed`. */
  lemma DistributedStep(savedir: string, lines: seq<string>, i: nat,
                        files: map<string, seq<string>>, openedFiles: seq<string>, errors: seq<string>,
                        files': map<string, seq<string>>, openedFiles': seq<string>, errors': seq<string>)
    requires i < |lines|
    requires Distributed(savedir, lines[..i], files, openedFiles, errors)
    requires LineKey(lines[i]).None? ==> files' == files && openedFiles' == openedFiles && errors' == errors + [lines[i]]
    requires LineKey(lines[i]).Some? ==>
      var app := LineKey(lines[i]).value;
      && files' == files[app := (if app in files then files[app] else []) + [lines[i]]]
      && openedFiles' == (if app in files then openedFiles else openedFiles + [BucketFile(savedir, app)])
      && errors' == errors
    ensures Distributed(savedir, lines[..i + 1], files', openedFiles', errors')
  {
    var prefix, line := lines[..i], lines[i];
    assert lines[..i + 1] == prefix + [line];
    Seqs.DedupPresentSnoc(prefix, line, LineKey);
    Seqs.FilterSnoc(prefix, line, LineKey, None);
    if LineKey(line).None? {
      Seqs.BucketsSkip(files, prefix, line, LineKey);
    } else {
      Seqs.BucketsAppend(files, prefix, line, LineKey);
      var apps := Opened(prefix) + [LineKey(line).value];
      assert apps[..|apps| - 1] == Opened(prefix);
    }
  }

  /**
   * `main(savedir)` on the lines of standard input: `files` holds the lines
   * written to each label's file, `openedFiles` the files opened (in order)
   * and `errors` the lines reported as errors.
   */
  method DistributeLines(savedir: string, lines: seq<string>)
    returns (files: map<string, seq<string>>, openedFiles: seq<string>, errors: seq<string>)
    ensures forall app :: app in files <==> app in Opened(lines)
    ensures forall app :: app in files ==> files[app] == Seqs.Filter(lines, LineKey, Some(app))
    ensures openedFiles == BucketFiles(savedir, Opened(lines))
    ensures errors == Seqs.Filter(lines, LineKey, None)
  {
    files, openedFiles, errors := map[], [], [];
    for i := 0 to |lines|
      invariant Distributed(savedir, lines[..i], files, openedFiles, errors)
    {
      var files', openedFiles', errors' := PutLine(savedir, files, openedFiles, errors, lines[i]);
      DistributedStep(savedir, lines, i, files, openedFiles, errors, files', openedFiles', errors');
      files, openedFiles, errors := files', openedFiles', errors';
    }
    assert lines[..|lines|] == lines;
  }

  /** The error lines and the buckets together hold every input line exactly once. */
  lemma EveryLineOnce(lines: seq<string>)
    ensures |Seqs.Filter(lines, LineKey, None)| + Seqs.FilteredTotal(lines, LineKey, Seqs.Somes(Opened(lines))) == |lines|
  {
    Seqs.PartitionByKey(lines, LineKey);
  }

  /**
   * A row the batch preprocessor exports (with its newline) is accepted and
   * goes to the bucket of its lower-cased name, when the name is trimmed and
   * neither it nor a float's text holds a comma.
   */
  lemma ExportedRowIsDistributed(f: FlowRecord, fmt: Value -> string)
    requires var l := LabelText(f.app); ',' !in l && (l == [] || (!IsSpace(l[0]) && !IsSpace(l[|l| - 1])))
    requires forall v :: ',' !in fmt(v)
    ensures LineKey(ExportRow(f, fmt) + "\n") == Some(Lower(LabelText(f.app)))
  {
    var name := LabelText(f.app);
    var cells := Cells(f, fmt);
    var line := ExportRow(f, fmt) + "\n";
    ExportRowFields(f, fmt);
    JoinSnoc(cells, name + "\n", ",");
    assert line == Join(cells + [name + "\n"], ",");
    var all := cells + [name + "\n"];
    forall p | p in all ensures ',' !in p {
      if p in cells {
        assert p in Split(ExportRow(f, fmt), ',');
      } else {
        assert p == name + "\n";
      }
    }
    SplitJoin(all, ',');
    StripTrailing(name, '\n');
  }
}
