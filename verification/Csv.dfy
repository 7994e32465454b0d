/** Comma-separated records, printed as section 2 of RFC 4180 asks, and a reader for them. */
module Csv {
  import opened Wrappers

  type Record = seq<string>

  // ----- printing -----

  predicate NeedsQuotes(raw: string) {
    exists i :: 0 <= i < |raw| && raw[i] in {'"', ',', '\n', '\r'}
  }

  predicate PlainText(raw: string) {
    '"' !in raw && ',' !in raw && '\n' !in raw && '\r' !in raw
  }

  function Doubled(raw: string): (r: string)
    ensures |r| >= |raw|
  {
    if raw == "" then ""
    else (if raw[0] == '"' then "\"\"" else [raw[0]]) + Doubled(raw[1..])
  }

  /** A field is quoted only when its text needs it. */
  function Field(raw: string): (r: string)
    ensures r == raw <==> PlainText(raw)
    ensures r != raw ==> |r| >= |raw| + 2 && r[0] == '"' && r[|r| - 1] == '"'
  {
    if NeedsQuotes(raw) then "\"" + Doubled(raw) + "\"" else raw
  }

  function Joined(fields: Record): string {
    if fields == [] then ""
    else if |fields| == 1 then Field(fields[0])
    else Field(fields[0]) + "," + Joined(fields[1..])
  }

  function RowText(fields: Record): string {
    Joined(fields) + "\n"
  }

  function Text(records: seq<Record>): string {
    if records == [] then "" else RowText(records[0]) + Text(records[1..])
  }

  /** Plain fields stand as they are, a comma between two and a bare line feed after the last. */
  lemma PlainRows(x: string, more: Record, records: seq<Record>)
    requires PlainText(x)
    ensures RowText([x]) == x + "\n"
    ensures more != [] ==> RowText([x] + more) == x + "," + RowText(more)
    ensures Text([more] + records) == RowText(more) + Text(records)
  {
    assert ([x] + more)[1..] == more;
    assert ([more] + records)[1..] == records;
  }

  lemma {:induction false} JoinedAppend(fields: Record, f: string)
    requires fields != []
    ensures Joined(fields + [f]) == Joined(fields) + "," + Field(f)
  {
    if |fields| == 1 {
      assert (fields + [f])[1..] == [f];
    } else {
      assert (fields + [f])[1..] == fields[1..] + [f];
      JoinedAppend(fields[1..], f);
    }
  }

  lemma {:induction false} TextAppend(records: seq<Record>, more: seq<Record>)
    ensures Text(records + more) == Text(records) + Text(more)
  {
    if records == [] {
      assert records + more == more;
    } else {
      assert (records + more)[1..] == records[1..] + more;
      TextAppend(records[1..], more);
    }
  }

  /** `row`: the fields joined by commas, one line feed at the end. */
  method Row(fields: Record) returns (out: string)
    ensures out == RowText(fields)
  {
    out := "";
    for i := 0 to |fields|
      invariant out == Joined(fields[..i])
    {
      assert fields[..i + 1] == fields[..i] + [fields[i]];
      if i > 0 {
        JoinedAppend(fields[..i], fields[i]);
        out := out + ",";
      }
      out := out + Field(fields[i]);
    }
    assert fields[..|fields|] == fields;
    out := out + "\n";
  }

  // ----- reading -----

  /** Where the reader stands: before a field, in a bare one, inside quotes, or just after a quote. */
  datatype Mode = Fresh | Bare | Quoted | Closing

  function Prepend(r: Record, rest: Option<seq<Record>>): Option<seq<Record>> {
    match rest case None => None case Some(rs) => Some([r] + rs)
  }

  /** Read on, with `cell` read of the current field and `cells` the fields before it. A record ends
      at CRLF or a bare LF; the last one may lack its line break. */
  function Scan(s: string, mode: Mode, cell: string, cells: Record): Option<seq<Record>>
    decreases |s|
  {
    if s == "" then
      if mode.Quoted? then None
      else if mode.Fresh? && cells == [] then Some([])
      else Some([cells + [cell]])
    else if mode.Quoted? then
      if s[0] == '"' then Scan(s[1..], Closing, cell, cells) else Scan(s[1..], Quoted, cell + [s[0]], cells)
    else if s[0] == ',' then Scan(s[1..], Fresh, "", cells + [cell])
    else if s[0] == '\n' then Prepend(cells + [cell], Scan(s[1..], Fresh, "", []))
    else if s[0] == '\r' then
      if |s| > 1 && s[1] == '\n' then Prepend(cells + [cell], Scan(s[2..], Fresh, "", [])) else None
    else if s[0] == '"' then
      match mode
      case Fresh => Scan(s[1..], Quoted, "", cells)
      case Closing => Scan(s[1..], Quoted, cell + "\"", cells)
      case Bare => None
    else if mode.Closing? then None
    else Scan(s[1..], Bare, cell + [s[0]], cells)
  }

  function Parse(s: string): Option<seq<Record>> {
    Scan(s, Fresh, "", [])
  }

  // ----- the reader undoes the printer -----

  lemma {:induction false} ScanDoubled(raw: string, rest: string, cell: string, cells: Record)
    ensures Scan(Doubled(raw) + "\"" + rest, Quoted, cell, cells) == Scan(rest, Closing, cell + raw, cells)
    decreases |raw|
  {
    var s := Doubled(raw) + "\"" + rest;
    if raw == "" {
      assert s == "\"" + rest;
      assert s[1..] == rest;
      assert cell + raw == cell;
    } else {
      var tail := Doubled(raw[1..]) + "\"" + rest;
      ScanDoubled(raw[1..], rest, cell + [raw[0]], cells);
      assert cell + [raw[0]] + raw[1..] == cell + raw;
      if raw[0] == '"' {
        assert s == "\"\"" + tail;
        assert s[1..] == "\"" + tail && s[1..][1..] == tail;
      } else {
        assert s == [raw[0]] + tail;
        assert s[1..] == tail;
      }
    }
  }

  lemma {:induction false} ScanBare(raw: string, rest: string, mode: Mode, cell: string, cells: Record)
    requires !NeedsQuotes(raw) && (mode.Bare? || mode.Fresh?)
    ensures Scan(raw + rest, mode, cell, cells)
         == Scan(rest, if raw == "" then mode else Bare, cell + raw, cells)
    decreases |raw|
  {
    if raw == "" {
      assert raw + rest == rest && cell + raw == cell;
    } else {
      var s := raw + rest;
      assert s[0] == raw[0] && raw[0] !in {'"', ',', '\n', '\r'};
      assert s[1..] == raw[1..] + rest;
      assert !NeedsQuotes(raw[1..]) by {
        assert forall i :: 0 <= i < |raw[1..]| ==> raw[1..][i] == raw[i + 1];
      }
      ScanBare(raw[1..], rest, Bare, cell + [raw[0]], cells);
      assert cell + [raw[0]] + raw[1..] == cell + raw;
    }
  }

  /** What follows a field: a comma and the next field, or the end of the record. */
  function AfterField(rest: string, raw: string, cells: Record): Option<seq<Record>>
    requires rest != ""
  {
    if rest[0] == ',' then Scan(rest[1..], Fresh, "", cells + [raw])
    else Prepend(cells + [raw], Scan(rest[1..], Fresh, "", []))
  }

  lemma EndOfField(rest: string, mode: Mode, cell: string, cells: Record)
    requires rest != "" && (rest[0] == ',' || rest[0] == '\n') && !mode.Quoted?
    ensures Scan(rest, mode, cell, cells) == AfterField(rest, cell, cells)
  {
  }

  /** Whatever its text, a printed field is read back as that text. */
  lemma ScanField(raw: string, rest: string, cells: Record)
    requires rest != "" && (rest[0] == ',' || rest[0] == '\n')
    ensures Scan(Field(raw) + rest, Fresh, "", cells) == AfterField(rest, raw, cells)
  {
    assert "" + raw == raw;
    if NeedsQuotes(raw) {
      var inner := Doubled(raw) + "\"" + rest;
      assert Field(raw) + rest == "\"" + inner;
      assert ("\"" + inner)[1..] == inner;
      assert Scan("\"" + inner, Fresh, "", cells) == Scan(inner, Quoted, "", cells);
      ScanDoubled(raw, rest, "", cells);
      EndOfField(rest, Closing, raw, cells);
    } else {
      ScanBare(raw, rest, Fresh, "", cells);
      EndOfField(rest, if raw == "" then Fresh else Bare, raw, cells);
    }
  }

  /** A printed record, read back; a record with no field reads as one empty field. */
  lemma {:induction false} ScanRow(fields: Record, rest: string, cells: Record)
    requires fields != []
    ensures Scan(RowText(fields) + rest, Fresh, "", cells) == Prepend(cells + fields, Scan(rest, Fresh, "", []))
    decreases |fields|
  {
    if |fields| == 1 {
      assert RowText(fields) + rest == Field(fields[0]) + ("\n" + rest);
      ScanField(fields[0], "\n" + rest, cells);
      assert ("\n" + rest)[1..] == rest;
      assert fields == [fields[0]];
    } else {
      var tail := RowText(fields[1..]) + rest;
      JoinedSplits(fields, rest);
      ScanField(fields[0], "," + tail, cells);
      assert ("," + tail)[1..] == tail;
      ScanRow(fields[1..], rest, cells + [fields[0]]);
      assert cells + [fields[0]] + fields[1..] == cells + fields;
    }
  }

  lemma JoinedSplits(fields: Record, rest: string)
    requires |fields| > 1
    ensures RowText(fields) + rest == Field(fields[0]) + ("," + (RowText(fields[1..]) + rest))
  {
  }

  /** The records as they read back: one without fields comes back with a single empty one. */
  function Normal(records: seq<Record>): seq<Record> {
    if records == [] then []
    else [if records[0] == [] then [""] else records[0]] + Normal(records[1..])
  }

  lemma {:induction false} NormalExactly(records: seq<Record>)
    ensures Normal(records) == records <==> forall r :: r in records ==> r != []
  {
    if records != [] {
      var back, tail := Normal(records), records[1..];
      NormalExactly(tail);
      assert records == [records[0]] + tail;
      assert back[1..] == Normal(tail);
      assert back == [if records[0] == [] then [""] else records[0]] + Normal(tail);
      assert records[0] in records && forall r :: r in tail ==> r in records;
      assert forall r :: r in records ==> r == records[0] || r in tail;
      assert back == records ==> back[1..] == tail && back[0] == records[0];
    }
  }

  /** Any text in any field survives: commas, quotes, line ends, and nothing at all. */
  lemma {:induction false} ParsePrinted(records: seq<Record>)
    ensures Parse(Text(records)) == Some(Normal(records))
    decreases |records|
  {
    if records != [] {
      var rest := records[1..];
      ParsePrinted(rest);
      var first := if records[0] == [] then [""] else records[0];
      assert RowText(records[0]) == RowText(first);
      ScanRow(first, Text(rest), []);
      assert [] + first == first;
    }
  }

  /** Reading gives back exactly the records printed when, and only when, each has a field. */
  lemma RoundTripExactly(records: seq<Record>)
    ensures Parse(Text(records)) == Some(records) <==> forall r :: r in records ==> r != []
  {
    ParsePrinted(records);
    NormalExactly(records);
  }

  /** Different records never print alike. */
  lemma DistinctRecordsPrintDistinctly(a: seq<Record>, b: seq<Record>)
    requires (forall r :: r in a ==> r != []) && (forall r :: r in b ==> r != [])
    ensures Text(a) == Text(b) <==> a == b
  {
    RoundTripExactly(a);
    RoundTripExactly(b);
  }

  // ----- building a text record by record -----

  lemma OneMore(records: seq<Record>, r: Record)
    ensures Text(records + [r]) == Text(records) + RowText(r)
  {
    TextAppend(records, [r]);
    assert Text([r]) == RowText(r) + Text([]);
  }

  /** `out.push_str(&row(..))`. */
  method PushRow(out: string, ghost done: seq<Record>, r: Record) returns (next: string)
    requires out == Text(done)
    ensures next == Text(done + [r])
  {
    var line := Row(r);
    next := out + line;
    OneMore(done, r);
  }

  /** One record per row, by a row's own record. */
  function Each<T>(rows: seq<T>, record: T -> Record): (rs: seq<Record>)
    ensures |rs| == |rows| && forall i :: 0 <= i < |rs| ==> rs[i] == record(rows[i])
  {
    if rows == [] then [] else [record(rows[0])] + Each(rows[1..], record)
  }

  lemma NextRow(before: seq<Record>, rs: seq<Record>, i: nat)
    requires i < |rs|
    ensures before + rs[..i] + [rs[i]] == before + rs[..i + 1]
  {
  }

  /** The exporters' loop: `for r in rows { out.push_str(&row(..)) }`. */
  method PushRows<T>(start: string, ghost before: seq<Record>, rows: seq<T>, record: T -> Record)
      returns (out: string)
    requires start == Text(before)
    ensures out == Text(before + Each(rows, record))
  {
    out := start;
    assert before + Each(rows, record)[..0] == before;
    for i := 0 to |rows|
      invariant out == Text(before + Each(rows, record)[..i])
    {
      out := PushRow(out, before + Each(rows, record)[..i], record(rows[i]));
      NextRow(before, Each(rows, record), i);
    }
    assert Each(rows, record)[..|rows|] == Each(rows, record);
  }
}
