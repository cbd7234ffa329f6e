/**
 * The tracing plugin of src/main/java/org/gradle/trace/GradleTracingPlugin.java:
 * an append-only log of trace events that the build's lifecycle callbacks
 * feed, and the trace file written when the build finishes.
 *
 * Gradle's listener registration is not modelled: each callback is a method
 * that the host calls. The thread id and clock readings every callback would
 * take from the running thread and `System.nanoTime()` /
 * `System.currentTimeMillis()` are parameters, and the trace file
 * `build/trace/task-trace.json` is the string field `traceFile`, written with
 * "\n" as line separator.
 */
module Tracing {
  import opened JavaLong
  import opened Text
  import opened TraceReader
  import opened TraceEvents

  const BuildTaskGraph := "build task graph"
  const BuildDuration := "build duration"

  const TaskCategory := "TASK"
  const ResolveCategory := "RESOLVE"
  const EvaluateCategory := "EVALUATE"
  const PhaseCategory := "PHASE"

  /** What `buildFinished` prints before the events (`println` adds the last "\n"). */
  const Header := "{\n  \"traceEvents\": [\n" + "\n"

  /** What `buildFinished` prints after the events: the display time unit is "ns". */
  const Footer := "],\n  \"displayTimeUnit\": \"" + ("ns" + FooterEnd)

  /** The footer after the time unit (`println` adds the last "\n"). */
  const FooterEnd := "\",\n" + "  \"systemTraceEvents\": \"SystemTraceData\",\n" + "  \"otherData\": {\n"
                   + "    \"version\": \"My Application v1.0\"\n" + "  }\n" + "}\n" + "\n"

  /** A viewer reading the footer finds nanoseconds as the display time unit. */
  lemma FooterTimeUnit()
    ensures ReadTimeUnit(Footer) == Some("ns")
  {
    ReadTextConcat(UnitKey, "ns", FooterEnd);
  }

  /** The text of each event, in log order. */
  function Rendered(es: seq<TraceEvent>): (r: seq<string>)
    ensures |r| == |es|
  {
    if es == [] then [] else [ToString(es[0])] + Rendered(es[1..])
  }

  lemma {:induction false} RenderedAt(es: seq<TraceEvent>, k: nat)
    requires k < |es|
    ensures Rendered(es)[k] == ToString(es[k])
    decreases k
  {
    if k > 0 {
      RenderedAt(es[1..], k - 1);
    }
  }

  /**
   * The trace file for a log: the header, then every event on its own line,
   * followed by a comma on every line but the last, then the footer.
   */
  function Document(es: seq<TraceEvent>): (r: string)
    ensures Header <= r
    ensures |Header| + |Footer| <= |r| && r[|r| - |Footer|..] == Footer
  {
    Header + Punctuated(Rendered(es), ",", "\n", |es|) + Footer
  }

  /** The event section is `String.join(",\n", ...)` of the event texts, plus a final line break. */
  lemma DocumentIsJoin(es: seq<TraceEvent>)
    ensures Document(es) == Header + (if es == [] then "" else Join(",\n", Rendered(es)) + "\n") + Footer
  {
    if es != [] {
      PunctuatedIsJoin(Rendered(es), ",", "\n");
      assert "," + "\n" == ",\n";
    }
  }

  /**
   * `toNanoTime(timeInMillis)`: shifts a wall-clock time in milliseconds onto
   * the `System.nanoTime()` timeline, given one reading of each clock. The
   * subtractions wrap like Java's and the conversion to nanoseconds saturates
   * like `TimeUnit.MILLISECONDS.toNanos`.
   */
  function ToNanoTime(timeInMillis: Long, millisNow: Long, nanoNow: Long): (r: Long)
    ensures timeInMillis == millisNow ==> r == nanoNow
    ensures NoOverflow(timeInMillis, millisNow, nanoNow)
            ==> r == nanoNow - (millisNow - timeInMillis) * NanosPerMilli
  {
    var elapsedMillis := Wrap(millisNow - timeInMillis);
    var elapsedNanos := MillisToNanos(elapsedMillis);
    Wrap(nanoNow - elapsedNanos)
  }

  /** None of the steps of `toNanoTime` leaves the range of a `long`. */
  predicate NoOverflow(timeInMillis: int, millisNow: int, nanoNow: int)
  {
    var elapsed := millisNow - timeInMillis;
    MinLong <= elapsed <= MaxLong
    && MinLong <= elapsed * NanosPerMilli <= MaxLong
    && MinLong <= nanoNow - elapsed * NanosPerMilli <= MaxLong
  }

  /** A later build start maps to a later point on the nanosecond timeline. */
  lemma ToNanoTimeMonotone(start1: Long, start2: Long, millisNow: Long, nanoNow: Long)
    requires start1 <= start2
    requires NoOverflow(start1, millisNow, nanoNow) && NoOverflow(start2, millisNow, nanoNow)
    ensures ToNanoTime(start1, millisNow, nanoNow) <= ToNanoTime(start2, millisNow, nanoNow)
  {
  }

  function ShownAll(es: seq<TraceEvent>): (r: seq<EventFields>)
    ensures |r| == |es|
  {
    if es == [] then [] else [Shown(es[0])] + ShownAll(es[1..])
  }

  lemma {:induction false} ShownAllAt(es: seq<TraceEvent>, k: nat)
    requires k < |es|
    ensures ShownAll(es)[k] == Shown(es[k])
    decreases k
  {
    if k > 0 {
      ShownAllAt(es[1..], k - 1);
    }
  }

  lemma {:induction false} ParseAllRendered(es: seq<TraceEvent>)
    requires forall k :: 0 <= k < |es| ==> PlainEvent(es[k])
    ensures ParseAll(Rendered(es)) == Some(ShownAll(es))
    decreases |es|
  {
    if es != [] {
      var texts := Rendered(es);
      ParseToString(es[0]);
      assert texts[1..] == Rendered(es[1..]);
      ParseAllRendered(es[1..]);
      ParseAllCons(texts, Shown(es[0]), ShownAll(es[1..]));
    }
  }

  /** Reads a trace file: the header, the event section, then the footer. */
  function ReadTraceFile(s: string): Option<seq<EventFields>>
  {
    var rest :- StripPrefix(Header, s);
    var section :- StripSuffix(rest, Footer);
    ParseSection(section)
  }

  /** Reading a framed file strips the header and the footer and reads the section between. */
  lemma ReadFramed(section: string)
    ensures ReadTraceFile(Header + section + Footer) == ParseSection(section)
  {
    StripFrame(Header, section, Footer);
  }

  lemma RenderedSingleLines(es: seq<TraceEvent>)
    requires forall k :: 0 <= k < |es| ==> PlainEvent(es[k])
    ensures forall k :: 0 <= k < |es| ==> '\n' !in Rendered(es)[k]
  {
    forall k | 0 <= k < |es| ensures '\n' !in Rendered(es)[k] {
      RenderedAt(es, k);
      ToStringSingleLine(es[k]);
    }
  }

  /** The event section of a log, read line by line, gives its events. */
  lemma ReadPunctuatedSection(es: seq<TraceEvent>)
    requires forall k :: 0 <= k < |es| ==> PlainEvent(es[k])
    ensures ParseSection(Punctuated(Rendered(es), ",", "\n", |es|)) == Some(ShownAll(es))
  {
    RenderedSingleLines(es);
    ReadPunctuated(Rendered(es));
    ParseAllRendered(es);
  }

  /**
   * A trace file holds exactly the logged events, in log order, each with
   * its own fields and pid 0, one per line and with no trailing comma (the
   * reader rejects a comma after the last event), provided no name,
   * category or phase holds a quote or a line break.
   */
  lemma TraceFileRoundTrip(es: seq<TraceEvent>)
    requires forall k :: 0 <= k < |es| ==> PlainEvent(es[k])
    ensures ReadTraceFile(Document(es)) == Some(ShownAll(es))
  {
    var section := Punctuated(Rendered(es), ",", "\n", |es|);
    ReadFramed(section);
    ReadPunctuatedSection(es);
  }

  /** Reading a trace file back gives, at each position, that event's fields. */
  lemma ReadEachEvent(log: seq<TraceEvent>)
    requires forall k :: 0 <= k < |log| ==> PlainEvent(log[k])
    ensures ReadTraceFile(Document(log)).Some?
    ensures |ReadTraceFile(Document(log)).value| == |log|
    ensures forall k :: 0 <= k < |log| ==> ReadTraceFile(Document(log)).value[k] == Shown(log[k])
  {
    TraceFileRoundTrip(log);
    forall k | 0 <= k < |log| ensures ShownAll(log)[k] == Shown(log[k]) {
      ShownAllAt(log, k);
    }
  }

  /** The fixed names, categories and phases the plugin uses are plain text. */
  lemma PlainLabels()
    ensures Plain(TaskCategory) && Plain(PhaseCategory) && Plain(BuildDuration) && Plain(BuildTaskGraph)
    ensures Plain(BeginPhase) && Plain(EndPhase)
  {
  }

  class TracingPlugin {
    /** The event log, in the order the callbacks appended to it. */
    var events: seq<TraceEvent>
    /** The text of the trace file; empty until `BuildFinished` writes it. */
    var traceFile: string

    constructor ()
      ensures events == [] && traceFile == ""
    {
      events := [];
      traceFile := "";
    }

    /** `started(name, category)`: appends a begin event. */
    method Started(name: string, category: string, threadId: Long, nanoTime: Long)
      modifies this`events
      ensures events == old(events) + [TraceEvents.Started(name, category, threadId, nanoTime)]
    {
      events := events + [TraceEvents.Started(name, category, threadId, nanoTime)];
    }

    /** `finished(name, category)`: appends an end event; `List.add` always answers true. */
    method Finished(name: string, category: string, threadId: Long, nanoTime: Long) returns (added: bool)
      modifies this`events
      ensures added
      ensures events == old(events) + [TraceEvents.Finished(name, category, threadId, nanoTime)]
    {
      events := events + [TraceEvents.Finished(name, category, threadId, nanoTime)];
      added := true;
    }

    /** `TaskExecutionListener.beforeExecute`: the task's path, category TASK. */
    method BeforeExecute(taskPath: string, threadId: Long, nanoTime: Long)
      modifies this`events
      ensures events == old(events) + [TraceEvents.Started(taskPath, TaskCategory, threadId, nanoTime)]
    {
      Started(taskPath, TaskCategory, threadId, nanoTime);
    }

    /** `TaskExecutionListener.afterExecute`, whatever the task's outcome. */
    method AfterExecute(taskPath: string, threadId: Long, nanoTime: Long)
      modifies this`events
      ensures events == old(events) + [TraceEvents.Finished(taskPath, TaskCategory, threadId, nanoTime)]
    {
      var _ := Finished(taskPath, TaskCategory, threadId, nanoTime);
    }

    /** The `whenReady` action: the task graph is built. */
    method TaskGraphReady(threadId: Long, nanoTime: Long)
      modifies this`events
      ensures events == old(events) + [TraceEvents.Finished(BuildTaskGraph, PhaseCategory, threadId, nanoTime)]
    {
      var _ := Finished(BuildTaskGraph, PhaseCategory, threadId, nanoTime);
    }

    /** `DependencyResolutionListener.beforeResolve`: the dependency set's path, category RESOLVE. */
    method BeforeResolve(path: string, threadId: Long, nanoTime: Long)
      modifies this`events
      ensures events == old(events) + [TraceEvents.Started(path, ResolveCategory, threadId, nanoTime)]
    {
      Started(path, ResolveCategory, threadId, nanoTime);
    }

    /** `DependencyResolutionListener.afterResolve`. */
    method AfterResolve(path: string, threadId: Long, nanoTime: Long)
      modifies this`events
      ensures events == old(events) + [TraceEvents.Finished(path, ResolveCategory, threadId, nanoTime)]
    {
      var _ := Finished(path, ResolveCategory, threadId, nanoTime);
    }

    /** `ProjectEvaluationListener.beforeEvaluate`: the project's path, category EVALUATE. */
    method BeforeEvaluate(projectPath: string, threadId: Long, nanoTime: Long)
      modifies this`events
      ensures events == old(events) + [TraceEvents.Started(projectPath, EvaluateCategory, threadId, nanoTime)]
    {
      Started(projectPath, EvaluateCategory, threadId, nanoTime);
    }

    /** `ProjectEvaluationListener.afterEvaluate`, whatever the project's state. */
    method AfterEvaluate(projectPath: string, threadId: Long, nanoTime: Long)
      modifies this`events
      ensures events == old(events) + [TraceEvents.Finished(projectPath, EvaluateCategory, threadId, nanoTime)]
    {
      var _ := Finished(projectPath, EvaluateCategory, threadId, nanoTime);
    }

    /** `BuildListener.projectsEvaluated`: task graph construction begins. */
    method ProjectsEvaluated(threadId: Long, nanoTime: Long)
      modifies this`events
      ensures events == old(events) + [TraceEvents.Started(BuildTaskGraph, PhaseCategory, threadId, nanoTime)]
    {
      Started(BuildTaskGraph, PhaseCategory, threadId, nanoTime);
    }

    /**
     * `BuildListener.buildFinished`: brackets the whole build with a
     * "build duration" begin event at the build's start and an end event
     * now, then writes the trace file. `buildStartMillis` is the start time
     * the build's clock reports; `millisNow` and `nanoNow` are the clock
     * readings `toNanoTime` takes, and `finishNanos` the reading the end
     * event takes. The header is printed before the two events are added,
     * which does not change the text written.
     */
    method BuildFinished(buildStartMillis: Long, millisNow: Long, nanoNow: Long, finishNanos: Long, threadId: Long)
      modifies this`events, this`traceFile
      ensures events == old(events)
        + [ StartedAt(BuildDuration, PhaseCategory, threadId, ToNanoTime(buildStartMillis, millisNow, nanoNow)),
            TraceEvents.Finished(BuildDuration, PhaseCategory, threadId, finishNanos) ]
      ensures traceFile == Document(events)
    {
      events := events + [StartedAt(BuildDuration, PhaseCategory, threadId, ToNanoTime(buildStartMillis, millisNow, nanoNow))];
      var _ := Finished(BuildDuration, PhaseCategory, threadId, finishNanos);
      WriteTraceFile();
    }

    /**
     * The writing half of `buildFinished`: a fresh writer on the trace file
     * (`out` is what it has printed) gets the header, then, walking the log
     * with an iterator, each event's text and a comma when `hasNext()`, each
     * line ended by `println`, then the footer.
     */
    method WriteTraceFile()
      modifies this`traceFile
      ensures traceFile == Document(events)
    {
      var out := Header;
      var i := 0;
      while i < |events|
        invariant 0 <= i <= |events|
        invariant out == Header + Punctuated(Rendered(events), ",", "\n", i)
      {
        var line := ToString(events[i]);
        var comma := if i + 1 < |events| then "," else "";
        RenderedAt(events, i);
        PunctuatedNext(Header, Rendered(events), ",", "\n", i, line, comma);
        out := out + line;
        out := out + comma + "\n";
        i := i + 1;
      }
      traceFile := out + Footer;
    }
  }

  /**
   * A build that runs one task, end to end, on a fresh plugin:
   * `projectsEvaluated` opens the task graph phase, the `whenReady` action
   * closes it, the task runs, and `buildFinished` writes the file. Reading
   * the file back gives the task graph bracket, the task's begin and end
   * events, then the build-duration bracket; every event but the
   * build-duration begin is stamped by its own clock reading. Dependency resolution and project evaluation callbacks, which
   * a build may add, are not part of this scenario.
   */
  method OneTaskBuild(taskPath: string, threadId: Long, graphStart: Long, graphEnd: Long, taskStart: Long,
                      taskEnd: Long, buildStartMillis: Long, millisNow: Long, nanoNow: Long, finishNanos: Long)
    returns (read: Option<seq<EventFields>>)
    requires Plain(taskPath)
    ensures read.Some? && |read.value| == 6
    ensures read.value[0] == EventFields(BuildTaskGraph, PhaseCategory, BeginPhase, 0, threadId, Timestamp(graphStart))
    ensures read.value[1] == EventFields(BuildTaskGraph, PhaseCategory, EndPhase, 0, threadId, Timestamp(graphEnd))
    ensures read.value[2] == EventFields(taskPath, TaskCategory, BeginPhase, 0, threadId, Timestamp(taskStart))
    ensures read.value[3] == EventFields(taskPath, TaskCategory, EndPhase, 0, threadId, Timestamp(taskEnd))
    ensures read.value[4].name == BuildDuration && read.value[4].cat == PhaseCategory && read.value[4].ph == BeginPhase
    ensures read.value[5] == EventFields(BuildDuration, PhaseCategory, EndPhase, 0, threadId, Timestamp(finishNanos))
  {
    var log, file := RunOneTaskBuild(taskPath, threadId, graphStart, graphEnd, taskStart, taskEnd,
                                     buildStartMillis, millisNow, nanoNow, finishNanos);
    PlainLabels();
    assert PlainEvent(log[0]) && PlainEvent(log[1]) && PlainEvent(log[2]);
    assert PlainEvent(log[3]) && PlainEvent(log[4]) && PlainEvent(log[5]);
    ReadEachEvent(log);
    read := ReadTraceFile(file);
    assert read.value[0] == Shown(log[0]) && read.value[1] == Shown(log[1]) && read.value[2] == Shown(log[2]);
    assert read.value[3] == Shown(log[3]) && read.value[5] == Shown(log[5]);
  }

  /**
   * The callbacks of a one-task build on a fresh plugin, in the order a
   * build fires them; returns the log and the trace file text.
   */
  method RunOneTaskBuild(taskPath: string, threadId: Long, graphStart: Long, graphEnd: Long, taskStart: Long,
                         taskEnd: Long, buildStartMillis: Long, millisNow: Long, nanoNow: Long, finishNanos: Long)
    returns (log: seq<TraceEvent>, file: string)
    ensures log == [ TraceEvents.Started(BuildTaskGraph, PhaseCategory, threadId, graphStart),
                     TraceEvents.Finished(BuildTaskGraph, PhaseCategory, threadId, graphEnd),
                     TraceEvents.Started(taskPath, TaskCategory, threadId, taskStart),
                     TraceEvents.Finished(taskPath, TaskCategory, threadId, taskEnd),
                     StartedAt(BuildDuration, PhaseCategory, threadId, ToNanoTime(buildStartMillis, millisNow, nanoNow)),
                     TraceEvents.Finished(BuildDuration, PhaseCategory, threadId, finishNanos) ]
    ensures file == Document(log)
  {
    var plugin := new TracingPlugin();
    plugin.ProjectsEvaluated(threadId, graphStart);
    plugin.TaskGraphReady(threadId, graphEnd);
    plugin.BeforeExecute(taskPath, threadId, taskStart);
    plugin.AfterExecute(taskPath, threadId, taskEnd);
    ghost var ran := plugin.events;
    assert ran == [ TraceEvents.Started(BuildTaskGraph, PhaseCategory, threadId, graphStart),
                    TraceEvents.Finished(BuildTaskGraph, PhaseCategory, threadId, graphEnd),
                    TraceEvents.Started(taskPath, TaskCategory, threadId, taskStart),
                    TraceEvents.Finished(taskPath, TaskCategory, threadId, taskEnd) ];
    plugin.BuildFinished(buildStartMillis, millisNow, nanoNow, finishNanos, threadId);
    log, file := plugin.events, plugin.traceFile;
  }
}
