/** The positional HL7 v2 parser (`parse_hl7`, example/hl7_utils.py): message text
    becomes a table from segment name to the segments of that name, each segment
    being its `|`-separated fields, in the order the lines appear. */
module Hl7Segments {
  import opened Text

  /** One segment: its `|`-separated fields; field 0 is the segment name. */
  type Fields = f: seq<string> | |f| > 0 witness [""]

  /** Segment name to every segment of that name, in input order. */
  type SegmentTable = map<string, seq<Fields>>

  /** The stripped, non-blank lines of a message, as `parse_hl7` and the ORU
      converter see them: `text.strip().splitlines()`, each stripped, blanks dropped. */
  function SegmentLines(text: string): seq<string> {
    StripNonBlank(SplitLines(Strip(text)))
  }

  /** Each line split on `|`. */
  function Records(lines: seq<string>): (r: seq<Fields>)
    ensures |r| == |lines|
  {
    if lines == [] then [] else Records(lines[..|lines| - 1]) + [Split(lines[|lines| - 1], '|')]
  }

  /** The records named `name`, in order. */
  function WithName(recs: seq<Fields>, name: string): seq<Fields> {
    if recs == [] then []
    else
      var r := recs[|recs| - 1];
      WithName(recs[..|recs| - 1], name) + (if r[0] == name then [r] else [])
  }

  /** `table.setdefault(r[0], []).append(r)` */
  function Added(t: SegmentTable, r: Fields): SegmentTable {
    t[r[0] := (if r[0] in t then t[r[0]] else []) + [r]]
  }

  /** The table built by appending each record under its name. */
  function Table(recs: seq<Fields>): SegmentTable {
    if recs == [] then map[] else Added(Table(recs[..|recs| - 1]), recs[|recs| - 1])
  }

  /** The table groups records by name: a name is a key exactly when some record
      carries it, and its entry is every such record in input order. */
  lemma {:induction false} TableGroups(recs: seq<Fields>)
    ensures forall name :: name in Table(recs) <==> WithName(recs, name) != []
    ensures forall name :: name in Table(recs) ==> Table(recs)[name] == WithName(recs, name)
  {
    if recs != [] {
      var front := recs[..|recs| - 1];
      TableGroups(front);
    }
  }

  /** Every entry of a table lists at least one segment. */
  lemma {:induction false} TableEntriesNonEmpty(recs: seq<Fields>)
    ensures forall name :: name in Table(recs) ==> |Table(recs)[name]| > 0
  {
    if recs != [] {
      TableEntriesNonEmpty(recs[..|recs| - 1]);
    }
  }

  lemma RecordsSnoc(lines: seq<string>, l: string)
    ensures Records(lines + [l]) == Records(lines) + [Split(l, '|')]
  {
    assert (lines + [l])[..|lines|] == lines;
  }

  lemma TableSnoc(recs: seq<Fields>, r: Fields)
    ensures Table(recs + [r]) == Added(Table(recs), r)
  {
    assert (recs + [r])[..|recs|] == recs;
  }

  /** The table `parse_hl7` has built once it has read the raw lines `raw`: each line
      that is not blank is added, stripped, under its name. */
  function TableOfLines(raw: seq<string>): SegmentTable {
    if raw == [] then map[]
    else
      var line := Strip(raw[|raw| - 1]);
      var before := TableOfLines(raw[..|raw| - 1]);
      if line == "" then before else Added(before, Split(line, '|'))
  }

  /** Reading the lines one at a time builds the table of their segment records. */
  lemma {:induction false} TableOfLinesIsTable(raw: seq<string>)
    ensures TableOfLines(raw) == Table(Records(StripNonBlank(raw)))
  {
    if raw != [] {
      var done := raw[..|raw| - 1];
      var line := raw[|raw| - 1];
      assert raw == done + [line];
      TableOfLinesIsTable(done);
      var kept := StripNonBlank(done);
      var l := Strip(line);
      StripNonBlankSnoc(done, line);
      if l == "" {
        assert StripNonBlank(done + [line]) == kept;
      } else {
        var parts: Fields := Split(l, '|');
        assert StripNonBlank(done + [line]) == kept + [l];
        RecordsSnoc(kept, l);
        assert Records(kept + [l]) == Records(kept) + [parts];
        TableSnoc(Records(kept), parts);
      }
    }
  }

  /** `parse_hl7(text)` */
  method ParseHl7(text: string) returns (table: SegmentTable)
    ensures table == Table(Records(SegmentLines(text)))
  {
    var raw := SplitLines(Strip(text));
    table := map[];
    var i := 0;
    while i < |raw|
      invariant 0 <= i <= |raw|
      invariant table == TableOfLines(raw[..i])
    {
      assert raw[..i + 1][..i] == raw[..i];
      var line := Strip(raw[i]);
      if line != "" {
        var parts: Fields := Split(line, '|');
        var name := parts[0];
        table := table[name := (if name in table then table[name] else []) + [parts]];
      }
      i := i + 1;
    }
    assert raw[..|raw|] == raw;
    TableOfLinesIsTable(raw);
  }
}
