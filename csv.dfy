/** Comma-separated values as RFC 4180 section 2 describes them: fields
    separated by commas, records ended by a line break, and a field that is
    enclosed in double quotes with every inner double quote doubled (item 7).
    The line break here is a single LF, as the exporter writes it. The parser
    is the reading side the exporter's output is proved against. */
module Csv {
  import opened Wrappers
  import opened Text

  predicate NoQuote(s: string) {
    forall k :: 0 <= k < |s| ==> s[k] != '"'
  }

  /** A field that can be written without quotes. */
  predicate Bare(s: string) {
    forall k :: 0 <= k < |s| ==> s[k] != ',' && s[k] != '"' && s[k] != '\n'
  }

  /** `s.replace(/"/g, '""')`. */
  function Escape(s: string): (r: string)
    ensures |r| >= |s|
    decreases |s|
  {
    if |s| == 0 then ""
    else (if s[0] == '"' then "\"\"" else [s[0]]) + Escape(s[1..])
  }

  /** A field enclosed in double quotes; the enclosed text is recoverable. */
  function Quote(inner: string): (r: string)
  {
    "\"" + inner + "\""
  }

  /** Escaping leaves a text without double quotes as it was. */
  lemma {:induction false} EscapeNoQuote(s: string)
    requires NoQuote(s)
    ensures Escape(s) == s
    decreases |s|
  {
    if |s| > 0 {
      assert NoQuote(s[1..]) by {
        forall k | 0 <= k < |s[1..]| ensures s[1..][k] != '"' {
          assert s[1..][k] == s[k + 1];
        }
      }
      EscapeNoQuote(s[1..]);
      assert s == [s[0]] + s[1..];
    }
  }

  /** The wire form `wire` reads back as `value`: either written bare, or quoted and escaped. */
  predicate Encodes(wire: string, value: string) {
    (Bare(value) && wire == value) || wire == Quote(Escape(value))
  }

  /** One record on the wire: the joined fields, ended by a line break. */
  function Record(fields: seq<string>): (r: string)
    ensures |r| > 0 && r[|r| - 1] == '\n'
  {
    Join(fields, ",") + "\n"
  }

  /** A document: its records one after another. It is empty exactly when it has
      no record, and otherwise starts with the first record and ends with a line break. */
  function Document(records: seq<seq<string>>): (r: string)
    ensures r == "" <==> |records| == 0
    ensures |records| > 0 ==> Record(records[0]) <= r && r[|r| - 1] == '\n'
  {
    if |records| > 0 then
      RecordsEndWithLineBreak(records);
      ConcatMap(records, Record)
    else
      ConcatMap(records, Record)
  }

  lemma {:induction false} RecordsEndWithLineBreak(records: seq<seq<string>>)
    requires |records| > 0
    ensures var r := ConcatMap(records, Record); |r| > 0 && r[|r| - 1] == '\n'
    decreases |records|
  {
    if |records| > 1 {
      RecordsEndWithLineBreak(records[1..]);
    }
  }

  // ---- Reading ---------------------------------------------------------------------

  /** The rest of a quoted field after its opening quote: the unescaped value and
      what follows the closing quote. */
  function ParseQuoted(s: string): (r: Option<(string, string)>)
    ensures r.Some? ==> |r.value.1| < |s|
    decreases |s|
  {
    if |s| == 0 then None
    else if s[0] == '"' then
      if |s| > 1 && s[1] == '"' then
        match ParseQuoted(s[2..])
        case None => None
        case Some(p) => Some(("\"" + p.0, p.1))
      else Some(("", s[1..]))
    else
      match ParseQuoted(s[1..])
      case None => None
      case Some(p) => Some(([s[0]] + p.0, p.1))
  }

  /** An unquoted field: everything up to a comma, a quote or a line break. */
  function ParsePlain(s: string): (r: (string, string))
    ensures r.0 + r.1 == s
    ensures Bare(r.0)
    decreases |s|
  {
    if |s| == 0 || s[0] == ',' || s[0] == '"' || s[0] == '\n' then ("", s)
    else
      var p := ParsePlain(s[1..]);
      assert [s[0]] + p.0 + p.1 == s;
      ([s[0]] + p.0, p.1)
  }

  function ParseField(s: string): (r: Option<(string, string)>)
    ensures r.Some? ==> |r.value.1| <= |s|
  {
    if |s| > 0 && s[0] == '"' then ParseQuoted(s[1..]) else Some(ParsePlain(s))
  }

  /** One record: its fields and the text after its line break. Text other than a
      comma or a line break after a field is malformed. */
  function ParseRecord(s: string): (r: Option<(seq<string>, string)>)
    ensures r.Some? ==> |r.value.1| <= |s| && (|s| > 0 ==> |r.value.1| < |s|)
    decreases |s|
  {
    match ParseField(s)
    case None => None
    case Some(p) =>
      var rest := p.1;
      if |rest| == 0 then Some(([p.0], ""))
      else if rest[0] == ',' then
        match ParseRecord(rest[1..])
        case None => None
        case Some(q) => Some(([p.0] + q.0, q.1))
      else if rest[0] == '\n' then Some(([p.0], rest[1..]))
      else None
  }

  function ParseDocument(s: string): Option<seq<seq<string>>>
    decreases |s|
  {
    if |s| == 0 then Some([])
    else
      match ParseRecord(s)
      case None => None
      case Some(p) =>
        match ParseDocument(p.1)
        case None => None
        case Some(rs) => Some([p.0] + rs)
  }

  // ---- Reading what was written ---------------------------------------------------------

  /** Item 7 undone: an escaped, closed quoted field reads back as its value. */
  lemma {:induction false} ParseQuotedEscape(v: string, rest: string)
    requires |rest| == 0 || rest[0] != '"'
    ensures ParseQuoted(Escape(v) + "\"" + rest) == Some((v, rest))
    decreases |v|
  {
    if |v| == 0 {
      assert Escape(v) + "\"" + rest == "\"" + rest;
      assert ("\"" + rest)[1..] == rest;
    } else {
      var tail := Escape(v[1..]) + "\"" + rest;
      var lead := if v[0] == '"' then "\"\"" else [v[0]];
      assert Escape(v) + "\"" + rest == lead + tail by {
        assert Escape(v) == lead + Escape(v[1..]);
      }
      ParseQuotedEscape(v[1..], rest);
      QuotedStep(v[0], tail, v[1..], rest);
      assert [v[0]] + v[1..] == v;
    }
  }

  /** One more character of the value, escaped, in front of a quoted field's rest. */
  lemma QuotedStep(c: char, tail: string, inner: string, rest: string)
    requires ParseQuoted(tail) == Some((inner, rest))
    ensures ParseQuoted((if c == '"' then "\"\"" else [c]) + tail) == Some(([c] + inner, rest))
  {
    if c == '"' {
      assert ("\"\"" + tail)[2..] == tail;
    } else {
      assert ([c] + tail)[1..] == tail;
    }
  }

  lemma {:induction false} ParsePlainBare(v: string, rest: string)
    requires Bare(v)
    requires |rest| == 0 || rest[0] == ',' || rest[0] == '\n'
    ensures ParsePlain(v + rest) == (v, rest)
    decreases |v|
  {
    if |v| == 0 {
      assert v + rest == rest;
    } else {
      assert Bare(v[1..]) by {
        forall k | 0 <= k < |v[1..]| ensures v[1..][k] == v[k + 1] { }
      }
      ParsePlainBare(v[1..], rest);
      assert (v + rest)[1..] == v[1..] + rest;
      assert [v[0]] + v[1..] == v;
    }
  }

  lemma ParseFieldEncoded(wire: string, value: string, rest: string)
    requires Encodes(wire, value)
    requires |rest| > 0 && (rest[0] == ',' || rest[0] == '\n')
    ensures ParseField(wire + rest) == Some((value, rest))
  {
    if Bare(value) && wire == value {
      if |value| > 0 {
        assert (wire + rest)[0] == value[0];
      } else {
        assert wire + rest == rest;
      }
      ParsePlainBare(value, rest);
    } else {
      assert wire + rest == "\"" + (Escape(value) + "\"" + rest);
      assert ("\"" + (Escape(value) + "\"" + rest))[1..] == Escape(value) + "\"" + rest;
      ParseQuotedEscape(value, rest);
    }
  }

  /** A record written from encoded fields reads back as the field values. */
  lemma {:induction false} ParseRecordEncoded(wires: seq<string>, values: seq<string>, rest: string)
    requires |wires| == |values| > 0
    requires forall i :: 0 <= i < |wires| ==> Encodes(wires[i], values[i])
    ensures ParseRecord(Record(wires) + rest) == Some((values, rest))
    decreases |wires|
  {
    if |wires| == 1 {
      LastFieldEncoded(wires[0], values[0], rest);
      assert Record(wires) == wires[0] + "\n";
      assert [values[0]] == values;
    } else {
      assert forall i :: 0 <= i < |wires[1..]| ==> Encodes(wires[1..][i], values[1..][i]) by {
        forall i | 0 <= i < |wires[1..]| ensures Encodes(wires[1..][i], values[1..][i]) {
          assert wires[1..][i] == wires[i + 1] && values[1..][i] == values[i + 1];
        }
      }
      ParseRecordEncoded(wires[1..], values[1..], rest);
      assert Record(wires) + rest == wires[0] + "," + (Record(wires[1..]) + rest) by {
        RecordCons(wires, rest);
      }
      NextFieldEncoded(wires[0], values[0], Record(wires[1..]) + rest, values[1..], rest);
      assert [values[0]] + values[1..] == values;
    }
  }

  lemma RecordCons(fields: seq<string>, rest: string)
    requires |fields| > 1
    ensures Record(fields) + rest == fields[0] + "," + (Record(fields[1..]) + rest)
  {
    var j := Join(fields[1..], ",");
    assert Record(fields) == fields[0] + "," + j + "\n";
    assert Record(fields[1..]) == j + "\n";
  }

  lemma LastFieldEncoded(wire: string, value: string, rest: string)
    requires Encodes(wire, value)
    ensures ParseRecord(wire + "\n" + rest) == Some(([value], rest))
  {
    assert wire + "\n" + rest == wire + ("\n" + rest);
    ParseFieldEncoded(wire, value, "\n" + rest);
    assert ("\n" + rest)[1..] == rest;
  }

  lemma NextFieldEncoded(wire: string, value: string, tail: string, values: seq<string>, rest: string)
    requires Encodes(wire, value)
    requires ParseRecord(tail) == Some((values, rest))
    ensures ParseRecord(wire + "," + tail) == Some(([value] + values, rest))
  {
    assert wire + "," + tail == wire + ("," + tail);
    ParseFieldEncoded(wire, value, "," + tail);
    assert ("," + tail)[1..] == tail;
  }

  /** A document written from encoded records reads back as its records' values. */
  lemma {:induction false} ParseDocumentEncoded(wires: seq<seq<string>>, values: seq<seq<string>>)
    requires |wires| == |values|
    requires forall r :: 0 <= r < |wires| ==> |wires[r]| == |values[r]| > 0
    requires forall r, i :: 0 <= r < |wires| && 0 <= i < |wires[r]| ==> Encodes(wires[r][i], values[r][i])
    ensures ParseDocument(Document(wires)) == Some(values)
    decreases |wires|
  {
    if |wires| > 0 {
      var rest := Document(wires[1..]);
      assert Document(wires) == Record(wires[0]) + rest;
      ParseRecordEncoded(wires[0], values[0], rest);
      ParseDocumentEncoded(wires[1..], values[1..]);
      assert [values[0]] + values[1..] == values;
    }
  }

  /** A quoted field written without escaping reads back when it holds no quote. */
  lemma QuotedWithoutQuotes(v: string)
    requires NoQuote(v)
    ensures Encodes(Quote(v), v)
  {
    EscapeNoQuote(v);
  }

  lemma DigitsAreBare(s: string)
    requires AllDigits(s)
    ensures Encodes(s, s)
  {
    assert Bare(s) by {
      forall k | 0 <= k < |s| ensures s[k] != ',' && s[k] != '"' && s[k] != '\n' {
        assert IsDigit(s[k]);
      }
    }
  }
}
