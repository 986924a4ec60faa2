# pktmapper, modelled in Dafny

pktmapper classifies network traffic by flow. Every packet is filed under a
flow key that does not depend on direction. Each key owns a 34-slot statistics
record: packet counts, payload totals, inter-arrival and payload statistics
for the forward ("dir") and backward ("back") directions, and the last address
seen, which decides the direction of the next packet.

The project models:

- The statistics engine of `src/pktmapper/preprocessing.py`:
  - `flow_hash`, the flow key;
  - `flow_processing`, `_flow_recalc` and `soft_recalc`, which seed, fully
    recalculate or only count a flow record;
  - `_process_ndpijson`, which turns an nDPI report into ground truth;
  - `packet_data`, which is modelled only as the decoder's choices.
- The live classifier `Mapper` of `src/utils/mapper.py`:
  - feature parsing and its defaults;
  - packet routing between the waiting and the classified tables;
  - the threshold sweep with an abstract `predict`;
  - the results rows.
- The batch preprocessor `Prepro` of `src/utils/prepro.py`. It replays a
  capture against the ground truth: full recalculation below the threshold,
  counters only from then on. Each flow is exported as a 25-field training row.
- Three line-based tools:
  - `shaper.py`: legend, protocol normalisation, first-n-lines copying and its
    errors;
  - `distribute.py`: splits rows into one file per label;
  - `view.py`: a label histogram sorted in descending order.

Modules, one per file:

| module | file | role |
|---|---|---|
| `Wrappers` | wrappers.dfy | Option and Result |
| `Strings` | strings.dfy | the Python string operations the source uses (`strip`, `lower`, `split`, `join`, `str`/`int`, `ljust`, `os.path.join`, string order) |
| `Seqs` | seqs.dfy | generic facts about filtering, de-duplicating, bucketing and tallying sequences |
| `Net` | net.dfy | IPv4 addresses, `ip2str`/`ip2long`, the decoder's 6-tuple |
| `FlowKeys` | flow_hash.dfy | `flow_hash` |
| `Records` | records.dfy | the flow record and its 34-slot layout |
| `Preprocessing` | preprocessing.dfy | seed, full recalculation, counters-only recalculation |
| `Ndpi` | ndpi.dfy | `_process_ndpijson` |
| `Streaming` | mapper.dfy | `Mapper` |
| `Batch` | prepro.dfy | `Prepro` |
| `Shaper` | shaper.dfy | `shaper.py` |
| `Distribute` | distribute.dfy | `distribute.py` |
| `View` | view.dfy | `view.py` |

The record is a datatype grouped by direction: `FlowRecord(app, dir, back,
lastIp)`. `Records.Values` lays it out again as the source's 34 slots. The
engine's in-place updates of the caller's dictionary are functions from the
old table to the new one. The two driver classes store the result back into
their map-valued fields, inside loops over the packets.

Three behaviours of the source are reproduced as written:

- `flow_hash` concatenates its three parts without a separator, so different
  conversations can share a key (`FlowKeys.ConcatenationCollision`).
- From the third backward packet on, `min_itime_back` is taken against slot 7,
  `min_itime_dir` (`Preprocessing.BackwardMinItimeReadsForward`).
- In `shaper.create`, the loop variable `i` keeps its value from one protocol
  file to the next. An empty file after a full one therefore passes silently
  (`Shaper.EmptyFileAfterFullOne`), and an empty first file raises
  UnboundLocalError (`Shaper.EmptyFirstFile`).

## Model

| member | source | states |
|---|---|---|
| Net.Long | src/pktmapper/common.py:25-33 | `ip2long` is a number below 2^32 |
| Net.LongInjective | src/pktmapper/common.py:25-33 | different addresses have different `ip2long` numbers |
| Net.TextRoundTrip | src/pktmapper/common.py:13-22 | the dotted text of an address reads back as that address |
| Net.TextInjective | src/pktmapper/common.py:13-22 | different addresses have different texts, so comparing addresses is comparing `ip2str` strings |
| Net.PacketData | src/pktmapper/preprocessing.py:381-414 | None exactly for non-TCP/UDP frames; otherwise the destination address and port come first, the transport is "tcp" or "udp", and the last field is the payload length |
| FlowKeys.Smaller | src/pktmapper/preprocessing.py:37-45 | the digested address is one of the two, and its number is not larger than either |
| FlowKeys.SmallerSymmetric | src/pktmapper/preprocessing.py:37-45 | the chosen address does not depend on the order of the two |
| FlowKeys.FlowHashSymmetric | src/pktmapper/preprocessing.py:37-50 | swapping (ip_a, port_a) with (ip_b, port_b) gives the same key |
| FlowKeys.FlowHashCaseInsensitive | src/pktmapper/preprocessing.py:48 | transport names that agree when lower-cased give the same key |
| FlowKeys.FlowHashDeterminedBy | src/pktmapper/preprocessing.py:41-48 | the key depends only on the smaller address, the port sum and the lower-cased transport |
| FlowKeys.ReplySameKey | src/pktmapper/preprocessing.py:407-413 | a segment and its reply are filed under one key |
| FlowKeys.ConcatenationCollision | src/pktmapper/preprocessing.py:41-50 | 10.0.0.1 with port sum 180 and 10.0.0.11 with port sum 80 share a key |
| Ndpi.ProcessNdpiJson | src/pktmapper/preprocessing.py:53-95 | "known" is the counter sum of the non-"Unknown" entries; "unknown" holds the last "Unknown" entry; "flows" maps keys to labels as `TruthOf` says; a missing top-level key leaves its part empty |
| Ndpi.TotalsSplit | src/pktmapper/preprocessing.py:63-78 | the report's traffic is the "known" sum plus the summed "Unknown" entries |
| Ndpi.UnknownIsLast | src/pktmapper/preprocessing.py:68-73 | the stored "unknown" counters, those of the last "Unknown" entry, are all the unknown traffic when the report has at most one such entry; with none, there is no unknown traffic |
| Ndpi.AppName | src/pktmapper/preprocessing.py:91 | the label holds no dot |
| Ndpi.AppNamePrefix | src/pktmapper/preprocessing.py:91 | the label is the detected name up to its first dot |
| Ndpi.TruthKeys | src/pktmapper/preprocessing.py:80-94 | a key has a label exactly when some "TCP" or "UDP" entry produces it |
| Ndpi.TruthLastWins | src/pktmapper/preprocessing.py:80-94 | the label of a key comes from the last eligible entry with that key |
| Ndpi.TcpEntryMatchesSegments | src/pktmapper/preprocessing.py:80-90 | a "TCP" entry's key is the key of its conversation's TCP segments in both directions |
| Records.Values | src/pktmapper/preprocessing.py:329-376 | the record as 34 slots: label first, last address last, then the two counts |
| Records.StatValues | src/pktmapper/preprocessing.py:329-376 | the statistics take 28 slots |
| Records.StatSlots | src/pktmapper/preprocessing.py:315-321 | slots 5..32 of two records agree exactly when their statistics agree |
| Preprocessing.Seed | src/pktmapper/preprocessing.py:328-376 | a new record has label app, count_dir 1, count_back 0, payload as overall_dir and as max/min/avg_payload_dir, timestamp in slot 29, ip_a in slot 33, and zero in every other slot |
| Preprocessing.Recalc | src/pktmapper/preprocessing.py:119-295 | forward iff ip_a is the last address; exactly that direction's count rises by 1 and its overall by payload; the other direction and the label are kept; the last address becomes ip_a |
| Preprocessing.SoftRecalc | src/pktmapper/preprocessing.py:298-321 | one count and its overall rise by the same rule; the label and slots 5..32 are kept; the last address becomes ip_a |
| Preprocessing.FlowProcessing | src/pktmapper/preprocessing.py:324-378 | a new key is seeded and a known one recalculated; no other entry changes |
| Preprocessing.SeedSound | src/pktmapper/preprocessing.py:328-376 | a seeded record satisfies the statistics invariant |
| Preprocessing.RecalcSound | src/pktmapper/preprocessing.py:144-248 | full recalculation keeps, in each direction, max_itime >= min_itime, var = max - min, min_payload <= max_payload, avg_payload = overall // count, and count*min <= overall <= count*max |
| Preprocessing.PayloadBounds | src/pktmapper/preprocessing.py:208-248 | in a sound direction with a packet, min_payload <= avg_payload <= max_payload and var_payload >= 0 |
| Preprocessing.FirstBackwardPacket | src/pktmapper/preprocessing.py:176-179 | the first backward packet has inter-arrival time 0 and sets min/max/avg_payload_back to its payload |
| Preprocessing.BackwardMinItimeReadsForward | src/pktmapper/preprocessing.py:188-191 | from the third backward packet on, min_itime_back is the minimum of the new sample and min_itime_dir |
| Streaming.InsertSorted | src/utils/mapper.py:39 | inserting into an increasing list keeps it increasing and adds exactly the element |
| Streaming.SortedSet | src/utils/mapper.py:39 | `sorted(set(xs))` is increasing and holds exactly the elements of xs |
| Streaming.TryAll | src/utils/mapper.py:39 | on success, every item parsed to the value at its position |
| Streaming.TryAllFails | src/utils/mapper.py:39 | failure means some item is not an integer |
| Streaming.TryAllMembers | src/utils/mapper.py:39 | on success, the values are exactly the integers of the items |
| Streaming.NonEmpty | src/utils/mapper.py:39 | keeps exactly the items other than "" |
| Streaming.ParseFeatures | src/utils/mapper.py:36-41 | no argument gives []; a result is increasing, hence duplicate-free |
| Streaming.ParsedFeaturesAreTheItems | src/utils/mapper.py:36-39 | the indexes are exactly the integers of the non-empty items, after a lone argument holding a comma is split |
| Streaming.Configure | src/utils/mapper.py:34-56 | a non-integer feature raises ValueError first, then a missing model raises ModelNotSpecified; otherwise the threshold defaults to 8 and the features are parsed |
| Streaming.Promote | src/utils/mapper.py:109 | a classified flow gets the predicted label and keeps the last address and the packet total |
| Streaming.PromoteKeepsSlots | src/utils/mapper.py:109 | the classified 6-tuple holds slots 1..4 and slot 33 of the record |
| Streaming.Bumped | src/utils/mapper.py:58-65 | one counter rises by 1 and the payload total by payload; the label is kept; the last address becomes ip_a |
| Streaming.BumpedIsSoftRecalc | src/utils/mapper.py:58-65 | counting a classified flow agrees with `soft_recalc` on the full record |
| Streaming.Slot | src/utils/mapper.py:82 | Python's reading of an index in [-34, 34) as a slot |
| Streaming.Fitted | src/utils/mapper.py:78-86 | with no index selected, the 24 features count_dir, count_back, overall_dir, overall_back and the first 20 statistics; otherwise the slot at each index, in the order of the indexes |
| Streaming.SelectedAmongDefault | src/utils/mapper.py:78-86 | a selected index 1..24 picks column index - 1 of the default feature vector |
| Streaming.MetaHasNoComma | src/utils/mapper.py:146-148 | the meta text of a flow holds no comma |
| Streaming.ClassifiedRowColumns | src/utils/mapper.py:161-163 | a classified row splits into "classified", the label, four counters and meta |
| Streaming.UnclassifiedRowColumns | src/utils/mapper.py:165-168 | a waiting flow's row splits into "unclassified", "None", four counters and meta |
| Streaming.HeaderColumns | src/utils/mapper.py:154 | the header has the seven column names |
| Streaming.WaitingStaysSound | src/utils/mapper.py:142-145 | filing a packet into the waiting table keeps every waiting record unlabelled and sound |
| Streaming.WaitingStaysUnlabelled | src/utils/mapper.py:142-145 | filing a packet into the waiting table adds only its key and keeps every waiting record unlabelled |
| Streaming.SweepDone | src/utils/mapper.py:103-110 | after a full pass, the flows below the threshold wait and the ready ones are classified |
| Streaming.NothingPromoted | src/utils/mapper.py:81-82 | with an index outside the tuple, no flow can be classified |
| Streaming.Mapper.constructor | src/utils/mapper.py:34-56 | the tables and the packet counter start empty; the features, threshold and model are the configured ones |
| Streaming.Mapper.Stop | src/utils/mapper.py:97-99 | the stop flag is raised and nothing else changes |
| Streaming.Mapper.RecalcFlow | src/utils/mapper.py:58-65 | only the flow's classified 6-tuple changes, as `Bumped` says |
| Streaming.Mapper.FitFeatures | src/utils/mapper.py:78-86 | the feature vector of a waiting flow, or None (IndexError) exactly when an index is outside the tuple |
| Streaming.Mapper.FileWaiting | src/utils/mapper.py:142-148 | a packet of an unclassified flow goes through `flow_processing` with no label and rewrites the flow's meta line; the tables stay disjoint and nothing else changes |
| Streaming.Mapper.ProcessPacket | src/utils/mapper.py:126-151 | raises once stopped; ignores undecodable frames; otherwise adds 1 to pcounter and either counts a classified flow or files the packet unlabelled into the waiting table with a meta line; the tables stay disjoint |
| Streaming.Mapper.ClassifyFlow | src/utils/mapper.py:104-110 | a ready flow moves from the waiting table to the classified one with the predicted label, unless an index is bad |
| Streaming.Mapper.Sweep | src/utils/mapper.py:103-110 | one pass classifies exactly the ready flows and leaves the others waiting; a bad index ends the pass before anything moves |
| Streaming.Mapper.ExportJson | src/utils/mapper.py:153-168 | the header, one classified row per classified flow, then one unclassified row per waiting flow |
| Streaming.RowsOf | src/utils/mapper.py:160-168 | one row per entry of the table, each key once |
| Batch.RelevantKey | src/utils/prepro.py:43-60 | a packet counts for a flow exactly when it decodes and its key has ground truth |
| Batch.Step | src/utils/prepro.py:42-76 | only the packet's own flow can change; a new flow carries its ground-truth label and a known flow keeps its label |
| Batch.ReplaySnoc | src/utils/prepro.py:42 | replaying one more packet is one more step |
| Batch.ReplayKeys | src/utils/prepro.py:57-76 | the table holds exactly the old flows and the labelled flows that have a packet in the capture |
| Batch.ReplayKeysHaveTruth | src/utils/prepro.py:57-60 | every flow in the table has ground truth |
| Batch.ReplayLabels | src/utils/prepro.py:57-76 | a flow's label is its ground truth from creation on and never changes |
| Batch.ReplayCount | src/utils/prepro.py:62-76 | a flow's count grows by exactly the number of its decodable, labelled packets |
| Batch.ReplayFrozen | src/utils/prepro.py:62-67 | once a flow reaches the threshold, its statistics (slots 5..32) no longer change |
| Batch.ReplayAppend | src/utils/prepro.py:42-76 | replaying a capture in two parts is replaying the second part on the table the first part left |
| Batch.FrozenFromThreshold | src/utils/prepro.py:62-76 | a flow that reached the threshold after some prefix of the capture ends with the statistics it had then, those of its packets up to the threshold |
| Batch.StepOfKnownFlow | src/utils/prepro.py:62-76 | below the threshold a known flow is fully recalculated; at or above it, only `soft_recalc` runs |
| Batch.Cells | src/utils/prepro.py:146-158 | 24 cells; the two counts and the two payload totals print as decimal integers; no cell holds a comma when no float's text does |
| Batch.DefaultFeaturesAreTrainingCells | src/utils/prepro.py:147-158 | each cell of a training row prints the live classifier's default feature at the same position |
| Batch.IntTextHasNoComma | src/utils/prepro.py:155-156 | `str` of an integer holds no comma |
| Batch.CellHasNoComma | src/utils/prepro.py:150-156 | a formatted slot holds no comma |
| Batch.ExportRowFields | src/utils/prepro.py:146-159 | a training row splits into its 24 cells and the label: 25 fields |
| Batch.Prepro.constructor | src/utils/prepro.py:16-33 | the threshold defaults to 8 and the process count to 15; the table and counters start empty |
| Batch.Prepro.PacketsProcessing | src/utils/prepro.py:38-76 | `completed` rises once per packet read; the table becomes the replay of the capture; every flow stays labelled |
| Batch.Prepro.Pcap | src/utils/prepro.py:86-98 | the report's ground truth replaces DPI, the packets are added to the tasks and then replayed |
| Batch.Prepro.Export | src/utils/prepro.py:136-161 | one training row per flow, each flow once |
| Batch.ExportedRowsOfCapture | src/utils/prepro.py:146-159 | each exported row has 25 fields and ends with its flow's ground-truth label |
| Shaper.LegendFields | src/utils/shaper.py:21-50 | the legend has 25 comma-separated names, the last being "application" |
| Shaper.InsertName | src/utils/shaper.py:56 | inserting into an ascending list keeps it ascending and adds exactly the name |
| Shaper.SortedNames | src/utils/shaper.py:56 | `sorted(set(xs))` is ascending and holds exactly the names of xs |
| Shaper.NonEmptyNames | src/utils/shaper.py:56 | keeps exactly the names other than "" |
| Shaper.NormalisedNames | src/utils/shaper.py:54-56 | the protocol list is ascending and duplicate-free, and holds exactly the non-empty names given, after a lone argument is split on commas |
| Shaper.Head | src/utils/shaper.py:71-75 | the lines copied from a file: its first max(number, 1) lines, or the whole file when it is shorter |
| Shaper.FillSucceeds | src/utils/shaper.py:65-78 | without an error, every protocol had its file and the output is the head of each file in order |
| Shaper.FillMissing | src/utils/shaper.py:66-68 | a protocol without a file makes `create` raise |
| Shaper.FillMissingError | src/utils/shaper.py:65-68 | when the protocols before it went through, a protocol without a file raises ProtocolsFileNotFound with its path |
| Shaper.FillShort | src/utils/shaper.py:70-78 | a file with at least one line but fewer than `number` makes `create` raise |
| Shaper.FillShortError | src/utils/shaper.py:65-78 | when the protocols before it went through, a file with at least one line but fewer than `number` has all its lines written and then raises NoMuchData with its path |
| Shaper.EmptyFileAfterFullOne | src/utils/shaper.py:71-78 | an empty file after a full one raises nothing |
| Shaper.EmptyFirstFile | src/utils/shaper.py:71-78 | an empty first file raises UnboundLocalError |
| Shaper.FillStep | src/utils/shaper.py:65-78 | protocols are handled one after the other, and the first error ends the run |
| Shaper.WriteHead | src/utils/shaper.py:71-75 | the enumerate loop writes the file's head; `i` is the last index written, or keeps its value for an empty file |
| Shaper.Create | src/utils/shaper.py:53-80 | the output is the legend followed by the copied lines of the normalised protocols; datadir defaults to "save/"; the error is the first one raised |
| Distribute.BucketFiles | src/utils/distribute.py:49 | the i-th opened file is `<savedir>/<label>.csv` of the i-th label |
| Distribute.PutLine | src/utils/distribute.py:43-55 | a line without 25 fields is reported; any other line is appended to its label's file, which is opened on the label's first line |
| Distribute.DistributedStep | src/utils/distribute.py:42-55 | handling one more line keeps the buckets, the opened files and the errors equal to what the lines read so far give |
| Distribute.DistributeLines | src/utils/distribute.py:39-58 | each label's file holds exactly its lines, in input order; files are opened in first-seen order; the rejected lines are reported |
| Distribute.EveryLineOnce | src/utils/distribute.py:42-55 | the rejected lines and the buckets together hold every line exactly once |
| Distribute.ExportedRowIsDistributed | src/utils/distribute.py:43-48 | a training row is accepted and goes to the bucket of its lower-cased label |
| View.LabelsOfLines | src/utils/view.py:7-9 | a label is counted exactly when some line's stripped last field is that label |
| View.CountLabels | src/utils/view.py:7-14 | each label's count is the number of lines with that label; the counted labels are exactly those of the lines |
| View.BeforeIrreflexive | src/utils/view.py:16 | no (count, label) pair comes before itself |
| View.BeforeTransitive | src/utils/view.py:16 | the descending order is transitive |
| View.BeforeTotal | src/utils/view.py:16 | any two different pairs are ordered |
| View.Insert | src/utils/view.py:16 | inserting into a descending list keeps it descending and adds exactly the pair |
| View.Rank | src/utils/view.py:16 | the sorted list is descending by (count, label) and holds exactly the pairs |
| View.Items | src/utils/view.py:16 | the (count, label) pair of each label |
| View.ItemsTotal | src/utils/view.py:7-16 | the counts add up to the number of lines that carry the counted labels |
| View.RowReadsBack | src/utils/view.py:19-20 | a printed row is the label padded to 20 characters, a space, and the count |
| View.Histogram | src/utils/view.py:7-20 | every label is printed once with its number of lines, by count then label, both descending; the counts sum to the number of lines |
| View.LabelsOfRanked | src/utils/view.py:16 | sorting keeps each label once, with its count |
| View.LinesCounted | src/utils/view.py:7-14 | every line is counted under exactly one label |
| Strings.StripTrailing | src/utils/distribute.py:48 | `strip` removes a trailing newline from a trimmed name |
| Strings.LowerIdempotent | src/utils/distribute.py:48 | lower-casing twice is lower-casing once |
| Strings.JoinSplit | src/utils/distribute.py:43 | joining the pieces of `split` gives back the line |
| Strings.SplitJoin | src/utils/prepro.py:159 | splitting a join of comma-free pieces gives back the pieces |
| Strings.IntToDecimalRoundTrip | src/utils/mapper.py:39 | `int(str(n)) == n` |
| Strings.StrLessTotal | src/utils/shaper.py:56 | Python's string order is total |
| Strings.StrLessTransitive | src/utils/shaper.py:56 | Python's string order is transitive |
| Strings.PathJoin | src/utils/shaper.py:66 | `os.path.join` keeps an absolute second part, and otherwise ends with it |
| Strings.LJust | src/utils/view.py:20 | `ljust` keeps the string and pads it with spaces to the width |

## Left out

- The frame parsing inside `packet_data`, done by the dpkt library, is not
  modelled. A frame arrives already parsed as `Net.Frame`. `Net.PacketData`
  keeps which frames are rejected and the order of the fields.
- Only IPv4 addresses are modelled. `ip2str` is dotted-decimal text and
  `ip2long` is the big-endian number of the four octets; the socket and netaddr
  calls themselves are left out.
- md5 is not computed. A key is identified with the string it digests
  (`FlowKeys.FlowKey`), so digest collisions are not modelled.
- `ndpi_processing` is left out: it runs nDPI in a subprocess, uses temporary
  files and calls `json.loads`. `Ndpi.ProcessNdpiJson` takes the decoded
  report.
- Floating point is left out:
  - Timestamps and inter-arrival statistics are exact reals.
  - `** 0.5` is the symbolic `Records.Root`.
  - The float text of `export._round` (`str(round(x, 6))`) is a parameter
    `fmt`. Its integer case and its zero case are modelled.
  - `Prepro._status`'s percentage is left out.
- Concurrency is left out:
  - the collector thread and its `sleep`;
  - the process pool of `Prepro.multi`;
  - the `Value`/`Lock` counters, which are plain fields here;
  - the `.lock` sentinel files of `export`.
- I/O is left out:
  - live capture (`pcap.pcapObject`), `dpkt.pcap.Reader` and `_count`;
  - pickle model loading, which is replaced by the parameter `predict`;
  - argparse, console printing and the interface list.
- Output files are returned instead of written:
  - `_export_json` and `export` return their lines;
  - `distribute.main` returns each label's lines, the files it opens and the
    reported lines;
  - `shaper.create` returns the output lines and its error;
  - `view.py` returns the ranked pairs and the printed rows.
- Dictionary iteration order is not modelled.
  - `Streaming.Mapper.ExportJson` and `Batch.Prepro.Export` state their rows
    in an order they record.
  - `Streaming.Mapper.Sweep` picks keys in any order and is proved
    independent of it.
  - `View.CountLabels` keeps labels in first-seen order, which cannot affect
    the sorted output because the labels are distinct.
- Streaming.Mapper.Valid does not include that every waiting record satisfies
  the statistics invariant. That fact is proved separately in
  `Streaming.WaitingStaysSound`, from `Preprocessing.SeedSound` and
  `Preprocessing.RecalcSound`.
- Streaming.Mapper.FitFeatures returns None where Python raises IndexError.
- `Streaming.Mapper.ProcessPacket` takes as `payload` the captured frame length
  that the capture callback passes, not the transport payload, as the source
  does.
- Ndpi.UnknownIsLast: when a report lists "Unknown" more than once, the
  stored "unknown" counters are only the last entry's. `Ndpi.TotalsSplit`
  accounts for all of the unknown traffic through `UnknownTotal`, which the
  source does not compute.
- Batch.Prepro.PacketsProcessing requires that ground truth was computed. The
  source raises KeyError otherwise.
- Streaming.ParseFeatures reads only optionally signed decimal integers with
  surrounding whitespace; other literal forms that `int()` accepts are not
  modelled.
- `src/utils/measure.py` and `src/pktmapper/metrics.py` (model training and
  evaluation), `src/pktmapper/inet.py` (interface listing) and
  `src/utils/legend.py` (a printed constant) are not part of this model.
