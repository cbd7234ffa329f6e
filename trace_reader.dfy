/**
 * A reader for the trace text the plugins write: one event object
 * `{"name": "...", "cat": "...", "ph": "...", "pid": N, "tid": N, "ts": N}`
 * with its keys in that fixed order, and an event section holding one object
 * per line, every line but the last ending in a comma.
 *
 * The reader is the independent side of the round trips proved about the
 * writers: it looks for the keys and reads the fields between them, so a
 * round trip shows that the writer put every field where a viewer finds it.
 * String values are read up to the next `"`, as a viewer would for text with
 * no escapes in it.
 */
module TraceReader {
  import opened Text

  /** What a viewer reads out of one event object. */
  datatype EventFields = EventFields(name: string, cat: string, ph: string, pid: int, tid: int, ts: int)

  const NameKey := "{\"name\": \""
  const CatKey := "\", \"cat\": \""
  const PhKey := "\", \"ph\": \""
  const PidKey := "\", \"pid\": "
  const TidKey := ", \"tid\": "
  const TsKey := ", \"ts\": "
  const Close := "}"
  const UnitKey := "],\n  \"displayTimeUnit\": \""

  /** Reads `key`, then a string value up to the next quote: the value and the rest. */
  function ReadText(key: string, s: string): Option<(string, string)>
  {
    var t :- StripPrefix(key, s);
    Until(t, '"')
  }

  /** Reads `key`, then an integer up to the next comma: the number and the rest. */
  function ReadNumber(key: string, s: string): Option<(int, string)>
  {
    var t :- StripPrefix(key, s);
    var p :- Until(t, ',');
    var n :- ParseInt(p.0);
    Some((n, p.1))
  }

  /** Reads `key`, then an integer that the closing brace ends. */
  function ReadLastNumber(key: string, s: string): Option<int>
  {
    var t :- StripPrefix(key, s);
    var digits :- StripSuffix(t, Close);
    ParseInt(digits)
  }

  /** Reads one event object; None when the text does not have that shape. */
  function ParseEvent(s: string): Option<EventFields>
  {
    var name :- ReadText(NameKey, s);
    var cat :- ReadText(CatKey, name.1);
    var ph :- ReadText(PhKey, cat.1);
    var pid :- ReadNumber(PidKey, ph.1);
    var tid :- ReadNumber(TidKey, pid.1);
    var ts :- ReadLastNumber(TsKey, tid.1);
    Some(EventFields(name.0, cat.0, ph.0, pid.0, tid.0, ts))
  }

  lemma ReadTextConcat(key: string, v: string, rest: string)
    requires '"' !in v && |rest| > 0 && rest[0] == '"'
    ensures ReadText(key, key + (v + rest)) == Some((v, rest))
  {
    StripPrefixConcat(key, v + rest);
    UntilConcat(v, rest, '"');
  }

  lemma ReadNumberConcat(key: string, n: int, rest: string)
    requires |rest| > 0 && rest[0] == ','
    ensures ReadNumber(key, key + (IntToString(n) + rest)) == Some((n, rest))
  {
    var digits := IntToString(n);
    StripPrefixConcat(key, digits + rest);
    assert ',' !in digits;
    UntilConcat(digits, rest, ',');
    ParseIntToString(n);
  }

  lemma ReadLastNumberConcat(key: string, n: int)
    ensures ReadLastNumber(key, key + (IntToString(n) + Close)) == Some(n)
  {
    StripPrefixConcat(key, IntToString(n) + Close);
    StripSuffixConcat(IntToString(n), Close);
    ParseIntToString(n);
  }

  /** The display time unit a trace file's footer declares. */
  function ReadTimeUnit(footer: string): Option<string>
  {
    var unit :- ReadText(UnitKey, footer);
    Some(unit.0)
  }

  /** Splits text made of newline-terminated lines into those lines. */
  function ReadLines(s: string): Option<seq<string>>
    decreases |s|
  {
    if s == [] then Some([])
    else
      var line :- Until(s, '\n');
      var rest :- ReadLines(line.1[1..]);
      Some([line.0] + rest)
  }

  /**
   * Reads the event objects of an event section, one per line: every line
   * except the last must end with a comma, and the last must not.
   */
  function ParseEventLines(lines: seq<string>): Option<seq<EventFields>>
  {
    if |lines| == 0 then Some([])
    else if |lines| == 1 then
      var e :- ParseEvent(lines[0]);
      Some([e])
    else
      var line := lines[0];
      if |line| > 0 && line[|line| - 1] == ',' then
        var e :- ParseEvent(line[..|line| - 1]);
        var rest :- ParseEventLines(lines[1..]);
        Some([e] + rest)
      else None
  }

  /** Reads an event section written one event per line. */
  function ParseSection(s: string): Option<seq<EventFields>>
  {
    var lines :- ReadLines(s);
    ParseEventLines(lines)
  }

  /** The lines of an event section: each item, with a comma unless it is the last. */
  function CommaLines(xs: seq<string>): (r: seq<string>)
    ensures |r| == |xs|
  {
    seq(|xs|, k requires 0 <= k < |xs| => xs[k] + (if k + 1 < |xs| then "," else ""))
  }

  lemma ReadOneLine(line: string)
    requires '\n' !in line
    ensures ReadLines(line + "\n") == Some([line])
  {
    UntilConcat(line, "\n", '\n');
    assert "\n"[1..] == [];
    assert ReadLines([]) == Some([]);
    assert [line] + [] == [line];
    assert (line + "\n") != [];
  }

  /** The first of several joined items ends its line with the comma. */
  lemma JoinedLinesStep(xs: seq<string>)
    requires |xs| > 1
    ensures Join(",\n", xs) + "\n" == (xs[0] + ",") + ("\n" + (Join(",\n", xs[1..]) + "\n"))
  {
    var rest := Join(",\n", xs[1..]);
    assert Join(",\n", xs) == xs[0] + ",\n" + rest;
    assert ",\n" == "," + "\n";
  }

  /** Items joined by ",\n" and ended by "\n" read back as their comma-ended lines. */
  lemma {:induction false} ReadJoinedLines(xs: seq<string>)
    requires |xs| > 0 && forall k :: 0 <= k < |xs| ==> '\n' !in xs[k]
    ensures ReadLines(Join(",\n", xs) + "\n") == Some(CommaLines(xs))
    decreases |xs|
  {
    var first := xs[0];
    if |xs| == 1 {
      assert Join(",\n", xs) == first;
      assert first + "" == first;
      assert CommaLines(xs) == [first];
      ReadOneLine(first);
    } else {
      var tail := Join(",\n", xs[1..]) + "\n";
      JoinedLinesStep(xs);
      UntilConcat(first + ",", "\n" + tail, '\n');
      assert ("\n" + tail)[1..] == tail;
      ReadJoinedLines(xs[1..]);
      assert CommaLines(xs) == [first + ","] + CommaLines(xs[1..]);
    }
  }

  /** Reads each text as one event object. */
  function ParseAll(xs: seq<string>): Option<seq<EventFields>>
  {
    if xs == [] then Some([])
    else
      var e :- ParseEvent(xs[0]);
      var rest :- ParseAll(xs[1..]);
      Some([e] + rest)
  }

  lemma ParseAllCons(xs: seq<string>, e: EventFields, es: seq<EventFields>)
    requires xs != [] && ParseEvent(xs[0]) == Some(e) && ParseAll(xs[1..]) == Some(es)
    ensures ParseAll(xs) == Some([e] + es)
  {
  }

  /** Reading comma-ended lines is reading the items themselves. */
  lemma {:induction false} ParseCommaLines(xs: seq<string>)
    ensures ParseEventLines(CommaLines(xs)) == ParseAll(xs)
    decreases |xs|
  {
    var lines := CommaLines(xs);
    if |xs| == 1 {
      assert xs[0] + "" == xs[0];
      assert lines[0] == xs[0];
      assert ParseAll(xs[1..]) == Some([]);
      match ParseEvent(xs[0])
      case None =>
      case Some(e) =>
        ParseAllCons(xs, e, []);
        assert [e] + [] == [e];
    } else if |xs| > 1 {
      var line := lines[0];
      assert line == xs[0] + ",";
      assert line[..|line| - 1] == xs[0];
      assert lines[1..] == CommaLines(xs[1..]);
      ParseCommaLines(xs[1..]);
    }
  }

  /** An event section written item by item reads back as the items. */
  lemma ReadPunctuated(xs: seq<string>)
    requires forall k :: 0 <= k < |xs| ==> '\n' !in xs[k]
    ensures ParseSection(Punctuated(xs, ",", "\n", |xs|)) == ParseAll(xs)
  {
    if xs != [] {
      PunctuatedIsJoin(xs, ",", "\n");
      assert "," + "\n" == ",\n";
      ReadJoinedLines(xs);
      ParseCommaLines(xs);
    }
  }
}
