/**
 * The trace event record of src/main/java/org/gradle/trace/TraceEvent.java:
 * an immutable name, category, phase ("B" or "E"), thread id and timestamp in
 * microseconds, and its rendering as one event object of the trace viewer's
 * JSON format. The thread id and the `System.nanoTime()` reading that the
 * Java constructor takes from the running thread and the clock are
 * parameters here.
 */
module TraceEvents {
  import opened JavaLong
  import opened Text
  import opened TraceReader

  /** The Java field `type` is called `phase` here. All fields are final. */
  datatype TraceEvent = TraceEvent(name: string, category: string, phase: string, threadId: Long, timestamp: Long)

  const BeginPhase := "B"
  const EndPhase := "E"

  /**
   * `getTimestamp()`: a `System.nanoTime()` reading in microseconds, by
   * Java's `/`, which truncates toward zero (readings may be negative).
   */
  function Timestamp(nanoTime: Long): (ts: Long)
    ensures 0 <= nanoTime ==> 0 <= ts && ts * 1000 <= nanoTime < ts * 1000 + 1000
    ensures nanoTime < 0 ==> ts <= 0 && ts * 1000 - 1000 < nanoTime <= ts * 1000
  {
    Div(nanoTime, 1000)
  }

  /** Later clock readings never give an earlier timestamp. */
  lemma TimestampMonotone(earlier: Long, later: Long)
    requires earlier <= later
    ensures Timestamp(earlier) <= Timestamp(later)
  {
  }

  /** Truncation is symmetric about zero, unlike flooring division. */
  lemma TimestampSymmetric(nanoTime: Long)
    requires nanoTime > MinLong
    ensures Timestamp(-nanoTime) == -Timestamp(nanoTime)
  {
  }

  /** The constructor `TraceEvent(name, category, type)`. */
  function New(name: string, category: string, phase: string, threadId: Long, nanoTime: Long): (e: TraceEvent)
    ensures e.name == name && e.category == category && e.phase == phase && e.threadId == threadId
    ensures 0 <= nanoTime ==> 0 <= e.timestamp && e.timestamp * 1000 <= nanoTime < e.timestamp * 1000 + 1000
    ensures nanoTime < 0 ==> e.timestamp <= 0 && e.timestamp * 1000 - 1000 < nanoTime <= e.timestamp * 1000
  {
    TraceEvent(name, category, phase, threadId, Timestamp(nanoTime))
  }

  /** `TraceEvent.started(name, category)`: a begin event stamped now. */
  function Started(name: string, category: string, threadId: Long, nanoTime: Long): (e: TraceEvent)
    ensures e.phase == BeginPhase && e.name == name && e.category == category
    ensures e.threadId == threadId && e.timestamp == Timestamp(nanoTime)
  {
    New(name, category, BeginPhase, threadId, nanoTime)
  }

  /** `TraceEvent.finished(name, category)`: an end event stamped now. */
  function Finished(name: string, category: string, threadId: Long, nanoTime: Long): (e: TraceEvent)
    ensures e.phase == EndPhase && e.name == name && e.category == category
    ensures e.threadId == threadId && e.timestamp == Timestamp(nanoTime)
  {
    New(name, category, EndPhase, threadId, nanoTime)
  }

  /**
   * The three-argument `TraceEvent.started(name, category, nanoTime)` that
   * the plugin calls for the build-duration bracket. TraceEvent.java does
   * not define it; only its name, category and phase are stated.
   */
  function StartedAt(name: string, category: string, threadId: Long, nanoTime: Long): (e: TraceEvent)
    ensures e.phase == BeginPhase && e.name == name && e.category == category
  {
    New(name, category, BeginPhase, threadId, nanoTime)
  }

  /** A begin event stamped no later than an end event has a timestamp no larger. */
  lemma BeginNotAfterEnd(name: string, category: string, threadId: Long, began: Long, ended: Long)
    requires began <= ended
    ensures Started(name, category, threadId, began).timestamp <= Finished(name, category, threadId, ended).timestamp
  {
    TimestampMonotone(began, ended);
  }

  /**
   * `toString()`: the format string with name, category and phase inserted
   * verbatim (no escaping), `pid` the literal 0 and `%d` for the longs.
   */
  function ToString(e: TraceEvent): (s: string)
    ensures |s| > 0 && s[0] == '{' && s[|s| - 1] == '}'
  {
    "{\"name\": \"" + (e.name + ("\", \"cat\": \"" + (e.category + ("\", \"ph\": \"" + (e.phase
      + ("\", \"pid\": 0, \"tid\": " + (IntToString(e.threadId) + (", \"ts\": " + (IntToString(e.timestamp) + "}")))))))))
  }

  /** What a viewer reads out of the text of e: its fields, with pid 0. */
  function Shown(e: TraceEvent): EventFields
  {
    EventFields(e.name, e.category, e.phase, 0, e.threadId, e.timestamp)
  }

  /** Text fields the viewer can read back without escapes: no quote, no line break. */
  predicate Plain(s: string) { '"' !in s && '\n' !in s }

  predicate PlainEvent(e: TraceEvent) { Plain(e.name) && Plain(e.category) && Plain(e.phase) }

  /**
   * Every field of an event lands where a viewer looks for it, and `pid` is
   * 0 whatever the fields, provided name, category and phase hold no quote.
   */
  lemma ParseToString(e: TraceEvent)
    requires '"' !in e.name && '"' !in e.category && '"' !in e.phase
    ensures ParseEvent(ToString(e)) == Some(Shown(e))
  {
    var r6 := IntToString(e.timestamp) + Close;
    var r5 := TsKey + r6;
    var r4 := IntToString(e.threadId) + r5;
    var r3 := TidKey + r4;
    var r2 := IntToString(0) + r3;
    var r1 := PidKey + r2;
    assert "\", \"pid\": 0, \"tid\": " + r4 == r1 by {
      assert IntToString(0) == "0";
      assert "\", \"pid\": 0, \"tid\": " == PidKey + "0" + TidKey;
    }
    var q3 := e.phase + r1;
    var p3 := PhKey + q3;
    var q2 := e.category + p3;
    var p2 := CatKey + q2;
    ReadTextConcat(NameKey, e.name, p2);
    ReadTextConcat(CatKey, e.category, p3);
    ReadTextConcat(PhKey, e.phase, r1);
    ReadNumberConcat(PidKey, 0, r3);
    ReadNumberConcat(TidKey, e.threadId, r5);
    ReadLastNumberConcat(TsKey, e.timestamp);
  }

  /** For quote-free fields the text determines the event: equal text, equal fields. */
  lemma SameTextSameEvent(e1: TraceEvent, e2: TraceEvent)
    requires '"' !in e1.name && '"' !in e1.category && '"' !in e1.phase
    requires '"' !in e2.name && '"' !in e2.category && '"' !in e2.phase
    requires ToString(e1) == ToString(e2)
    ensures e1 == e2
  {
    ParseToString(e1);
    ParseToString(e2);
  }

  /**
   * Without escaping, a quote in a name can masquerade as the next key: an
   * event whose name ends in the category key and a different event whose
   * category starts with it render to the same text.
   */
  lemma UnescapedNamesCollide(a: string, b: string, c: string, phase: string, threadId: Long, timestamp: Long)
    ensures TraceEvent(a + CatKey + b, c, phase, threadId, timestamp) != TraceEvent(a, b + CatKey + c, phase, threadId, timestamp)
    ensures ToString(TraceEvent(a + CatKey + b, c, phase, threadId, timestamp))
         == ToString(TraceEvent(a, b + CatKey + c, phase, threadId, timestamp))
  {
    assert |a + CatKey + b| > |a|;
    var tail := "\", \"ph\": \"" + (phase + ("\", \"pid\": 0, \"tid\": " + (IntToString(threadId) + (", \"ts\": " + (IntToString(timestamp) + "}")))));
    assert CatKey == "\", \"cat\": \"";
    var joint := CatKey + (c + tail);
    Regroup(a, CatKey, b, joint);
    Regroup(b, CatKey, c, tail);
  }

  /** Event text without line breaks in its fields fits on one line. */
  lemma ToStringSingleLine(e: TraceEvent)
    requires '\n' !in e.name && '\n' !in e.category && '\n' !in e.phase
    ensures '\n' !in ToString(e)
  {
    var tid := IntToString(e.threadId);
    var ts := IntToString(e.timestamp);
    assert '\n' !in tid && '\n' !in ts;
    var r3 := ", \"ts\": " + (ts + "}");
    assert '\n' !in r3;
    var r2 := "\", \"pid\": 0, \"tid\": " + (tid + r3);
    assert '\n' !in r2;
    var r1 := "\", \"ph\": \"" + (e.phase + r2);
    assert '\n' !in r1;
    var r0 := "\", \"cat\": \"" + (e.category + r1);
    assert '\n' !in r0;
    assert ToString(e) == "{\"name\": \"" + (e.name + r0);
  }
}
