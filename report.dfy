// The per-relationship report of ScriptRunner (outputFlowFilesForRelationship).
// Standard output is modelled as the sequence of strings handed to println,
// one element per call. For each flow file of the relationship, in order:
// the attribute block when attributes are requested, the decoded content
// when content is requested, and always one empty line; then one summary
// line with the relationship's name and the number of flow files.

module Report {
  import opened Wrappers
  import opened FlowFiles
  import opened CommandOptions
  import opened Sequences

  /** The separator line around each attribute block (57 dashes). */
  const DASHED_LINE := "---------------------------------------------------------"

  /** The library formatting the report relies on, taken as given:
      MockFlowFile.toString, the rendering of the entry and lineage-start
      dates, the decoding of content bytes to text, and the iteration order
      of an attribute map's keys. */
  datatype Formatter = Formatter(
    describe: FlowFile -> string,
    entryDate: FlowFile -> string,
    lineageStartDate: FlowFile -> string,
    decode: seq<byte> -> string,
    keyOrder: map<string, string> -> seq<string>)

  // ----- decimal numbers -----

  predicate IsDigits(s: string)
  {
    forall i :: 0 <= i < |s| ==> '0' <= s[i] <= '9'
  }

  /** The decimal text of a count, as string concatenation writes an int. */
  function DecimalString(n: nat): (s: string)
    ensures |s| >= 1 && IsDigits(s)
    ensures s[0] == '0' ==> s == "0"
    decreases n
  {
    var last := ['0' + (n % 10) as char];
    if n < 10 then last else DecimalString(n / 10) + last
  }

  /** The number a string of digits denotes. */
  function DecimalValue(s: string): nat
    requires IsDigits(s)
  {
    if s == [] then 0
    else DecimalValue(s[..|s| - 1]) * 10 + (s[|s| - 1] - '0') as nat
  }

  /** Reading the decimal text back gives the count that was written. */
  lemma {:induction false} DecimalRoundTrip(n: nat)
    ensures DecimalValue(DecimalString(n)) == n
    decreases n
  {
    var s := DecimalString(n);
    if n >= 10 {
      DecimalRoundTrip(n / 10);
      assert s[..|s| - 1] == DecimalString(n / 10);
    }
  }

  // ----- the attribute block -----

  /** One "Key/Value" entry of the attribute block. */
  function KeyValue(key: string, value: string): string
  {
    "\nKey: '" + key + "'\n\tValue: '" + value + "'"
  }

  /** The entries, one after another, in order. */
  function Entries(kvs: seq<(string, string)>): string
  {
    if kvs == [] then ""
    else Entries(kvs[..|kvs| - 1]) + KeyValue(kvs[|kvs| - 1].0, kvs[|kvs| - 1].1)
  }

  /** Appending one entry appends its text. */
  lemma EntriesSnoc(kvs: seq<(string, string)>, key: string, value: string)
    ensures Entries(kvs + [(key, value)]) == Entries(kvs) + KeyValue(key, value)
  {
    assert (kvs + [(key, value)])[..|kvs|] == kvs;
  }

  /** MockFlowFile.getAttribute: the value, or "null" rendered for a missing key. */
  function AttributeValue(m: map<string, string>, key: string): string
  {
    if key in m then m[key] else "null"
  }

  /** The three entries every block starts with. */
  function FixedEntries(f: FlowFile, fmt: Formatter): seq<(string, string)>
  {
    [("entryDate", fmt.entryDate(f)),
     ("lineageStartDate", fmt.lineageStartDate(f)),
     ("fileSize", DecimalString(|f.content|))]
  }

  /** One entry per key, in the given key order. */
  function MapEntries(keys: seq<string>, m: map<string, string>): seq<(string, string)>
  {
    if keys == [] then []
    else MapEntries(keys[..|keys| - 1], m) + [(keys[|keys| - 1], AttributeValue(m, keys[|keys| - 1]))]
  }

  /** The i-th entry is the i-th key with its value. */
  lemma {:induction false} MapEntriesAt(keys: seq<string>, m: map<string, string>)
    ensures |MapEntries(keys, m)| == |keys|
    ensures forall i :: 0 <= i < |keys| ==> MapEntries(keys, m)[i] == (keys[i], AttributeValue(m, keys[i]))
  {
    if keys != [] {
      MapEntriesAt(keys[..|keys| - 1], m);
    }
  }

  /** Taking one more key adds that key's entry at the end. */
  lemma MapEntriesSnoc(keys: seq<string>, i: nat, m: map<string, string>)
    requires i < |keys|
    ensures MapEntries(keys[..i + 1], m) == MapEntries(keys[..i], m) + [(keys[i], AttributeValue(m, keys[i]))]
  {
    assert keys[..i + 1][..i] == keys[..i];
  }

  /** The description of the flow file, the dashed line and the heading. */
  function BlockOpening(f: FlowFile, fmt: Formatter): string
  {
    "Flow file " + fmt.describe(f) + "\n" + DASHED_LINE + "\nFlowFile Attributes"
  }

  /** The entries of the fixed part and of the attribute map. */
  function BlockBody(f: FlowFile, fmt: Formatter): string
  {
    Entries(FixedEntries(f, fmt))
    + "\nFlowFile Attribute Map Content"
    + Entries(MapEntries(fmt.keyOrder(f.attributes), f.attributes))
  }

  /** The text of a flow file's attribute block. */
  function AttributeBlock(f: FlowFile, fmt: Formatter): string
  {
    BlockOpening(f, fmt) + BlockBody(f, fmt) + ("\n" + DASHED_LINE)
  }

  /** The loop over the attribute keys: appends one entry per key, in the
      map's key order, to the message built so far. */
  method AppendAttributeEntries(message: string, keys: seq<string>, m: map<string, string>)
    returns (result: string)
    ensures result == message + Entries(MapEntries(keys, m))
  {
    result := message;
    var i := 0;
    while i < |keys|
      invariant 0 <= i <= |keys|
      invariant result == message + Entries(MapEntries(keys[..i], m))
    {
      var key := keys[i];
      ghost var before := MapEntries(keys[..i], m);
      result := result + KeyValue(key, AttributeValue(m, key));
      MapEntriesSnoc(keys, i, m);
      EntriesSnoc(before, key, AttributeValue(m, key));
      AppendAssociative(message, Entries(before), KeyValue(key, AttributeValue(m, key)));
      i := i + 1;
    }
    assert keys[..i] == keys;
  }

  /** The message of the attribute block as the report's StringBuilder
      assembles it: the opening, the fixed entries and the heading, then one
      entry per attribute key in the map's key order, then the closing line. */
  method BuildAttributeMessage(f: FlowFile, fmt: Formatter) returns (message: string)
    ensures message == AttributeBlock(f, fmt)
  {
    message := BlockOpening(f, fmt) + Entries(FixedEntries(f, fmt)) + "\nFlowFile Attribute Map Content";
    message := AppendAttributeEntries(message, fmt.keyOrder(f.attributes), f.attributes);
    message := message + ("\n" + DASHED_LINE);
  }

  /** A key order that lists every key of the map exactly once, as the
      key set of a map does. */
  ghost predicate EnumeratesKeys(keys: seq<string>, m: map<string, string>)
  {
    (forall i, j :: 0 <= i < j < |keys| ==> keys[i] != keys[j]) &&
    (forall k :: k in keys <==> k in m)
  }

  /** A sequence without repetitions has as many distinct elements as entries. */
  lemma {:induction false} DistinctCardinality(keys: seq<string>)
    requires forall i, j :: 0 <= i < j < |keys| ==> keys[i] != keys[j]
    ensures |set k | k in keys| == |keys|
  {
    if keys != [] {
      var rest := keys[..|keys| - 1];
      var last := keys[|keys| - 1];
      DistinctCardinality(rest);
      assert (set k | k in keys) == (set k | k in rest) + {last};
      assert last !in rest;
    }
  }

  /** The map part of the attribute block lists every attribute exactly
      once, with its value, and nothing else. */
  lemma MapEntriesListEachAttributeOnce(keys: seq<string>, m: map<string, string>)
    requires EnumeratesKeys(keys, m)
    ensures |MapEntries(keys, m)| == |m|
    ensures forall i, j :: 0 <= i < j < |MapEntries(keys, m)| ==> MapEntries(keys, m)[i].0 != MapEntries(keys, m)[j].0
    ensures forall e :: e in MapEntries(keys, m) ==> e.0 in m && e.1 == m[e.0]
    ensures forall k :: k in m ==> (k, m[k]) in MapEntries(keys, m)
  {
    DistinctCardinality(keys);
    MapEntriesAt(keys, m);
    assert (set k | k in keys) == m.Keys;
    var es := MapEntries(keys, m);
    forall k | k in m ensures (k, m[k]) in es {
      var i :| 0 <= i < |keys| && keys[i] == k;
      assert es[i] == (k, m[k]);
    }
  }

  /** When the key sequence enumerates the flow file's attributes, as the
      key set of a map does, the map part of its block lists every attribute
      exactly once, with its value, and nothing else. */
  lemma AttributeBlockListsEachAttributeOnce(f: FlowFile, fmt: Formatter)
    requires EnumeratesKeys(fmt.keyOrder(f.attributes), f.attributes)
    ensures var es := MapEntries(fmt.keyOrder(f.attributes), f.attributes);
            AttributeBlock(f, fmt) ==
              BlockOpening(f, fmt) + Entries(FixedEntries(f, fmt)) + "\nFlowFile Attribute Map Content" +
              Entries(es) + ("\n" + DASHED_LINE) &&
            |es| == |f.attributes| &&
            (forall i, j :: 0 <= i < j < |es| ==> es[i].0 != es[j].0) &&
            (forall e :: e in es ==> e.0 in f.attributes && e.1 == f.attributes[e.0]) &&
            (forall k :: k in f.attributes ==> (k, f.attributes[k]) in es)
  {
    AttributeBlockMapPart(f, fmt);
    MapEntriesListEachAttributeOnce(fmt.keyOrder(f.attributes), f.attributes);
  }

  /** The block's text, part by part: the map part renders the entries of
      the keys in the formatter's order. */
  lemma AttributeBlockMapPart(f: FlowFile, fmt: Formatter)
    ensures AttributeBlock(f, fmt) ==
              BlockOpening(f, fmt) + Entries(FixedEntries(f, fmt)) + "\nFlowFile Attribute Map Content" +
              Entries(MapEntries(fmt.keyOrder(f.attributes), f.attributes)) + ("\n" + DASHED_LINE)
  {
    var fixed := Entries(FixedEntries(f, fmt)) + "\nFlowFile Attribute Map Content";
    var mapPart := Entries(MapEntries(fmt.keyOrder(f.attributes), f.attributes));
    AppendAssociative(BlockOpening(f, fmt), fixed, mapPart);
  }

  /** The attribute block opens with the flow file's description and a
      dashed line, and closes with a dashed line. */
  lemma AttributeBlockFramed(f: FlowFile, fmt: Formatter)
    ensures var opening := "Flow file " + fmt.describe(f) + "\n" + DASHED_LINE;
            var closing := "\n" + DASHED_LINE;
            var block := AttributeBlock(f, fmt);
            |block| >= |opening| + |closing| &&
            block[..|opening|] == opening && block[|block| - |closing|..] == closing
  {
    var opening := "Flow file " + fmt.describe(f) + "\n" + DASHED_LINE;
    var closing := "\n" + DASHED_LINE;
    var front := opening + "\nFlowFile Attributes";
    var middle := front + BlockBody(f, fmt);
    assert AttributeBlock(f, fmt) == middle + closing;
    FrontAndBack(middle, closing);
    PrefixOfPrefix(middle, closing, |opening|);
    PrefixOfPrefix(front, BlockBody(f, fmt), |opening|);
    FrontAndBack(opening, "\nFlowFile Attributes");
  }

  // ----- the report of one relationship -----

  /** The println calls for one flow file. */
  function ItemLines(f: FlowFile, options: Flags, fmt: Formatter): seq<string>
  {
    (if options.outputAttributes then [AttributeBlock(f, fmt)] else [])
    + (if options.outputContent then [fmt.decode(f.content)] else [])
    + [""]
  }

  /** How many println calls each flow file makes. */
  function LinesPerItem(options: Flags): nat
  {
    (if options.outputAttributes then 1 else 0) + (if options.outputContent then 1 else 0) + 1
  }

  /** Groups of lines, one after another. */
  function Flatten(groups: seq<seq<string>>): seq<string>
  {
    if groups == [] then []
    else Flatten(groups[..|groups| - 1]) + groups[|groups| - 1]
  }

  /** Taking one more flow file adds its group of lines at the end. */
  lemma ItemGroupsSnoc(fs: seq<FlowFile>, i: nat, options: Flags, fmt: Formatter)
    requires i < |fs|
    ensures ItemGroups(fs[..i + 1], options, fmt) == ItemGroups(fs[..i], options, fmt) + [ItemLines(fs[i], options, fmt)]
  {
  }

  /** The groups of println calls of a list of flow files, in list order. */
  function ItemGroups(files: seq<FlowFile>, options: Flags, fmt: Formatter): (groups: seq<seq<string>>)
    ensures |groups| == |files|
    ensures forall j :: 0 <= j < |files| ==> groups[j] == ItemLines(files[j], options, fmt)
  {
    seq(|files|, j requires 0 <= j < |files| => ItemLines(files[j], options, fmt))
  }

  /** The closing line of a relationship's report. */
  function Summary(relationship: Relationship, count: nat): string
  {
    "Flow Files transferred to " + RelationshipName(relationship) + ": " + DecimalString(count) + "\n"
  }

  /** The report of one relationship: nothing for a null list, otherwise the
      lines of every flow file and the summary. */
  function RelationshipReport(relationship: Relationship, files: Option<seq<FlowFile>>, options: Flags, fmt: Formatter): seq<string>
  {
    match files
    case None => []
    case Some(fs) => Flatten(ItemGroups(fs, options, fmt)) + [Summary(relationship, |fs|)]
  }

  /** outputFlowFilesForRelationship: the loop over the flow files of one
      relationship, printing as it goes. */
  method OutputFlowFilesForRelationship(relationship: Relationship, files: Option<seq<FlowFile>>, options: Flags, fmt: Formatter)
    returns (lines: seq<string>)
    ensures lines == RelationshipReport(relationship, files, options, fmt)
  {
    lines := [];
    if files.Some? {
      var fs := files.value;
      var i := 0;
      while i < |fs|
        invariant 0 <= i <= |fs|
        invariant lines == Flatten(ItemGroups(fs[..i], options, fmt))
      {
        var flowFile := fs[i];
        ghost var before := lines;
        if options.outputAttributes {
          var message := BuildAttributeMessage(flowFile, fmt);
          lines := lines + [message];
        }
        if options.outputContent {
          lines := lines + [fmt.decode(flowFile.content)];
        }
        lines := lines + [""];
        assert lines == before + ItemLines(flowFile, options, fmt);
        assert ItemGroups(fs[..i + 1], options, fmt) == ItemGroups(fs[..i], options, fmt) + [ItemLines(flowFile, options, fmt)];
        i := i + 1;
      }
      assert fs[..i] == fs;
      lines := lines + [Summary(relationship, |fs|)];
    }
  }

  /** Where the i-th group of k lines starts: k lines per earlier group,
      counted one group at a time. */
  function Offset(i: nat, k: nat): nat
  {
    if i == 0 then 0 else Offset(i - 1, k) + k
  }

  /** The offset is the product i * k. */
  lemma {:induction false} OffsetIsProduct(i: nat, k: nat)
    ensures Offset(i, k) == i * k
  {
    if i > 0 {
      OffsetIsProduct(i - 1, k);
      assert (i - 1) * k + k == i * k;
    }
  }

  /** Groups of k lines each flatten to Offset(|groups|, k) lines. */
  lemma {:induction false} FlattenLength(groups: seq<seq<string>>, k: nat)
    requires forall j :: 0 <= j < |groups| ==> |groups[j]| == k
    ensures |Flatten(groups)| == Offset(|groups|, k)
  {
    if groups != [] {
      FlattenLength(groups[..|groups| - 1], k);
    }
  }

  /** With groups of k lines each, the i-th group sits at positions
      Offset(i, k) .. Offset(i, k) + k of the flattened lines. */
  lemma {:induction false} FlattenAt(groups: seq<seq<string>>, k: nat, i: nat)
    requires forall j :: 0 <= j < |groups| ==> |groups[j]| == k
    requires i < |groups|
    ensures Offset(i, k) + k <= |Flatten(groups)|
    ensures Flatten(groups)[Offset(i, k)..Offset(i, k) + k] == groups[i]
  {
    var n := |groups|;
    var front := Flatten(groups[..n - 1]);
    var last := groups[n - 1];
    assert Flatten(groups) == front + last;
    FlattenLength(groups[..n - 1], k);
    assert |front| == Offset(n - 1, k);
    if i < n - 1 {
      FlattenAt(groups[..n - 1], k, i);
      SliceOfFront(front, last, Offset(i, k), Offset(i, k) + k);
    } else {
      assert (front + last)[|front|..|front| + k] == last;
    }
  }

  /** Every flow file's group has LinesPerItem lines: the attribute block
      first when attributes are on, then the decoded content when content is
      on, and the empty line last. */
  lemma ItemLinesShape(f: FlowFile, options: Flags, fmt: Formatter)
    ensures |ItemLines(f, options, fmt)| == LinesPerItem(options)
    ensures options.outputAttributes ==> ItemLines(f, options, fmt)[0] == AttributeBlock(f, fmt)
    ensures options.outputContent ==>
              ItemLines(f, options, fmt)[if options.outputAttributes then 1 else 0] == fmt.decode(f.content)
    ensures ItemLines(f, options, fmt)[LinesPerItem(options) - 1] == ""
  {
  }

  /** Each flow file of a report takes k lines, k = LinesPerItem. */
  lemma ItemGroupsSized(fs: seq<FlowFile>, options: Flags, fmt: Formatter)
    ensures forall j :: 0 <= j < |fs| ==> |ItemGroups(fs, options, fmt)[j]| == LinesPerItem(options)
  {
    forall j | 0 <= j < |fs| ensures |ItemGroups(fs, options, fmt)[j]| == LinesPerItem(options) {
      ItemLinesShape(fs[j], options, fmt);
    }
  }

  /** A report of n flow files has n groups of k lines and one summary line. */
  lemma ReportLength(relationship: Relationship, fs: seq<FlowFile>, options: Flags, fmt: Formatter)
    ensures |RelationshipReport(relationship, Some(fs), options, fmt)| == |fs| * LinesPerItem(options) + 1
  {
    ItemGroupsSized(fs, options, fmt);
    FlattenLength(ItemGroups(fs, options, fmt), LinesPerItem(options));
    OffsetIsProduct(|fs|, LinesPerItem(options));
  }

  /** The i-th group of k lines, followed by a closing line, sits at
      positions Offset(i, k) .. Offset(i, k) + k, and its last line just
      before the next group. */
  lemma FlattenThenLineAt(groups: seq<seq<string>>, closing: string, k: nat, i: nat)
    requires forall j :: 0 <= j < |groups| ==> |groups[j]| == k
    requires i < |groups| && k > 0
    ensures var lines := Flatten(groups) + [closing];
            var lo := Offset(i, k);
            lo + k < |lines| &&
            lines[lo..lo + k] == groups[i] &&
            lines[lo + k - 1] == groups[i][k - 1]
  {
    var body := Flatten(groups);
    var lo := Offset(i, k);
    FlattenAt(groups, k, i);
    SliceOfFront(body, [closing], lo, lo + k);
    assert (body + [closing])[lo + k - 1] == body[lo..lo + k][k - 1];
  }

  /** The i-th flow file's lines sit at positions i*k .. (i+1)*k of the
      report, in list order, and the last of them is the empty line. */
  lemma ReportItemAt(relationship: Relationship, fs: seq<FlowFile>, options: Flags, fmt: Formatter, i: nat)
    requires i < |fs|
    ensures var report := RelationshipReport(relationship, Some(fs), options, fmt);
            var k := LinesPerItem(options);
            (i + 1) * k < |report| &&
            report[i * k..(i + 1) * k] == ItemLines(fs[i], options, fmt) &&
            report[(i + 1) * k - 1] == ""
  {
    var k := LinesPerItem(options);
    ItemGroupsSized(fs, options, fmt);
    ItemLinesShape(fs[i], options, fmt);
    FlattenThenLineAt(ItemGroups(fs, options, fmt), Summary(relationship, |fs|), k, i);
    OffsetIsProduct(i, k);
    OffsetIsProduct(i + 1, k);
    assert Offset(i + 1, k) == Offset(i, k) + k;
  }

  /** The last line of a report names the relationship and gives a count
      that reads back as the number of flow files. */
  lemma ReportSummary(relationship: Relationship, fs: seq<FlowFile>, options: Flags, fmt: Formatter)
    ensures var report := RelationshipReport(relationship, Some(fs), options, fmt);
            |report| > 0 &&
            exists count :: IsDigits(count) && DecimalValue(count) == |fs| &&
              report[|report| - 1] == "Flow Files transferred to " + RelationshipName(relationship) + ": " + count + "\n"
  {
    DecimalRoundTrip(|fs|);
    var count := DecimalString(|fs|);
    assert Summary(relationship, |fs|) == "Flow Files transferred to " + RelationshipName(relationship) + ": " + count + "\n";
  }

  /** A null list prints nothing at all; a list, even an empty one, prints
      at least its summary, and the summary comes last. */
  lemma ReportEmptyIffNull(relationship: Relationship, files: Option<seq<FlowFile>>, options: Flags, fmt: Formatter)
    ensures files.None? <==> RelationshipReport(relationship, files, options, fmt) == []
    ensures var r := RelationshipReport(relationship, files, options, fmt);
            files.Some? ==> |r| > 0 && r[|r| - 1] == Summary(relationship, |files.value|)
  {
  }
}
