/**
 * The earlier prototype of the plugin, src/main/java/GradleTracingPlugin.java:
 * it builds each task's begin and end entries as strings (category PERF,
 * timestamp in milliseconds) and, when the build finishes, prints them
 * comma-joined between a header and a footer.
 *
 * The `PrintWriter` opened on `tracing/trace.json` in `apply` is the string
 * field `written`; the thread id and `System.currentTimeMillis()` reading of
 * each callback are parameters.
 */
module Prototype {
  import opened JavaLong
  import opened Text
  import opened TraceReader
  import opened TraceEvents
  import Tracing

  const PerfCategory := "PERF"

  /** The first `println` of `buildFinished`, with its line break. */
  const Header := "{\n  \"traceEvents\": [\n" + "\n"

  /** The last `println` of `buildFinished`: the display time unit is "ms". */
  const Footer := "],\n  \"displayTimeUnit\": \"" + ("ms" + FooterEnd)

  /** The footer after the time unit (`println` adds the last "\n"). */
  const FooterEnd := "\",\n" + "  \"systemTraceEvents\": \"SystemTraceData\",\n" + "  \"otherData\": {\n"
                   + "    \"version\": \"My Application v1.0\"\n" + "  }\n" + "}\n" + "\n"

  /** A viewer reading the footer finds milliseconds as the display time unit. */
  lemma FooterTimeUnit()
    ensures ReadTimeUnit(Footer) == Some("ms")
  {
    ReadTextConcat(UnitKey, "ms", FooterEnd);
  }

  /**
   * The prototype frames its events as the tracing plugin does, except for
   * the display time unit.
   */
  lemma SameFrameButTimeUnit()
    ensures Header == Tracing.Header && FooterEnd == Tracing.FooterEnd
    ensures Footer != Tracing.Footer
  {
    Tracing.FooterTimeUnit();
    FooterTimeUnit();
  }

  /** The entry `beforeExecute` ("B") or `afterExecute` ("E") builds for a task. */
  function TaskEntry(taskName: string, phase: string, threadId: Long, millis: Long): (r: string)
    ensures |r| > 0 && r[0] == '{' && r[|r| - 1] == '}'
  {
    "{\"name\": \"" + (taskName + ("\", \"cat\": \"PERF\", \"ph\": \"" + (phase + ("\", \"pid\": 0, \"tid\": "
      + (IntToString(threadId) + (", \"ts\": " + (IntToString(millis) + "}")))))))
  }

  /** The prototype's entries have exactly the template of `TraceEvent.toString`. */
  lemma TaskEntryIsEventText(taskName: string, phase: string, threadId: Long, millis: Long)
    ensures TaskEntry(taskName, phase, threadId, millis)
         == ToString(TraceEvent(taskName, PerfCategory, phase, threadId, millis))
  {
    var rest := phase + ("\", \"pid\": 0, \"tid\": " + (IntToString(threadId) + (", \"ts\": " + (IntToString(millis) + "}"))));
    assert "\", \"cat\": \"PERF\", \"ph\": \"" == "\", \"cat\": \"" + PerfCategory + "\", \"ph\": \"";
    Regroup("\", \"cat\": \"", PerfCategory, "\", \"ph\": \"", rest);
  }

  /**
   * A viewer reads an entry back as the task's name, category PERF, the
   * phase, pid 0, the thread id and the millisecond timestamp.
   */
  lemma ReadTaskEntry(taskName: string, phase: string, threadId: Long, millis: Long)
    requires '"' !in taskName && '"' !in phase
    ensures ParseEvent(TaskEntry(taskName, phase, threadId, millis))
         == Some(EventFields(taskName, PerfCategory, phase, 0, threadId, millis))
  {
    TaskEntryIsEventText(taskName, phase, threadId, millis);
    ParseToString(TraceEvent(taskName, PerfCategory, phase, threadId, millis));
  }

  /** What `buildFinished` prints for a list of entries. */
  function Output(entries: seq<string>): (r: string)
    ensures Header <= r
    ensures |Header| + 1 + |Footer| <= |r| && r[|r| - |Footer|..] == Footer
  {
    Header + (Join(",", entries) + "\n") + Footer
  }

  /**
   * The entries are printed in order, each followed by a comma except the
   * last, so n entries get n - 1 commas between them and no trailing comma;
   * an empty list prints an empty line.
   */
  lemma JoinedEntries(entries: seq<string>)
    ensures Join(",", entries) == Punctuated(entries, ",", "", |entries|)
    ensures entries == [] ==> Output(entries) == Header + "\n" + Footer
    ensures |entries| > 0 ==> |Join(",", entries)| == TotalLength(entries) + |entries| - 1
  {
    if entries != [] {
      PunctuatedIsJoin(entries, ",", "");
      assert "," + "" == ",";
      JoinLength(",", entries);
    }
  }

  class PrototypePlugin {
    /** The entries, in the order the task callbacks appended them. */
    var events: seq<string>
    /** What has been printed to the trace file. */
    var written: string

    constructor ()
      ensures events == [] && written == ""
    {
      events := [];
      written := "";
    }

    /** `TaskExecutionListener.beforeExecute`: appends the task's begin entry. */
    method BeforeExecute(taskName: string, threadId: Long, millisNow: Long)
      modifies this`events
      ensures events == old(events) + [TaskEntry(taskName, BeginPhase, threadId, millisNow)]
    {
      events := events + [TaskEntry(taskName, BeginPhase, threadId, millisNow)];
    }

    /** `TaskExecutionListener.afterExecute`: appends the task's end entry. */
    method AfterExecute(taskName: string, threadId: Long, millisNow: Long)
      modifies this`events
      ensures events == old(events) + [TaskEntry(taskName, EndPhase, threadId, millisNow)]
    {
      events := events + [TaskEntry(taskName, EndPhase, threadId, millisNow)];
    }

    /** `BuildListener.buildFinished`: prints the header, the joined entries and the footer. */
    method BuildFinished()
      modifies this`written
      ensures written == old(written) + Output(events)
    {
      var out := Header;
      out := out + (Join(",", events) + "\n");
      out := out + Footer;
      written := written + out;
    }
  }
}
