# gradle-trace: the trace event log and its trace file

This project models the core of gradle-trace, a Gradle plugin that records
when a build's tasks run, when dependencies are resolved and when projects are
evaluated. It writes these records as a trace file that a trace viewer such as
`chrome://tracing` can open. The model covers three source files.

- `TraceEvent.java` is the event record. An event holds a name, a category, a
  phase ("B" for begin, "E" for end), a thread id and a timestamp in
  microseconds. It renders as one JSON-like event object. It is modelled as a
  datatype with functions (`trace_event.dfy`, module `TraceEvents`).
- `org/gradle/trace/GradleTracingPlugin.java` is the plugin. Its lifecycle
  callbacks append events to an in-memory log. When the build finishes, it
  brackets the build with a "build duration" begin and end pair, then writes
  every event to `build/trace/task-trace.json`: one event per line, with a
  comma after every line but the last, between a fixed header and footer. It
  is modelled as the class `TracingPlugin`, whose `events` field is the log
  and whose `traceFile` field is the file's text (`tracing_plugin.dfy`, module
  `Tracing`). `toNanoTime` is a pure function there.
- `GradleTracingPlugin.java` in the default package is the earlier prototype.
  It stores each task's begin and end entries as ready-made strings (category
  PERF, timestamps in milliseconds) and prints them comma-joined on one line.
  It is modelled as the class `PrototypePlugin` (`prototype_plugin.dfy`,
  module `Prototype`).

Java's `long` arithmetic is modelled in `java_long.dfy`: the value range,
wrap-around of `+` and `-`, division that truncates toward zero, and
`TimeUnit.MILLISECONDS.toNanos`, which saturates. The `%d` rendering of a
`long`, `String.join` and the print-then-comma loop are modelled in
`text.dfy`.

The event text, the prototype's task entries and the tracing plugin's trace
file are each read back by an independent reader (`trace_reader.dfy`, module
`TraceReader`). It looks for the keys `name`, `cat`, `ph`, `pid`, `tid`
and `ts` in an event object and reads the value after each key. It splits the
event section into lines and rejects a comma after the last event. The main
results are round trips. The reader finds in each event object exactly the
event's fields, with pid 0. It finds in the whole trace file exactly the
logged events, in log order. The prototype's printed line of joined entries
is not read back. `JoinedEntries` ties it to the item-by-item form, where
each entry but the last is followed by a comma.

Facts about the code that shape the model:

- The log is a plain `ArrayList`, not a synchronized one. The model runs the
  callbacks one at a time.
- Names, categories and phases are inserted without escaping. So the output
  is not valid JSON in general, and the model does not claim it is.
  `UnescapedNamesCollide` shows two different events with the same text. The
  round trips require text fields without `"` or line breaks.
- The `BUILD_OPERATION` category and HTML output do not occur in these files,
  so they are not modelled.
- The three-argument `TraceEvent.started(name, category, nanoTime)` called at
  `GradleTracingPlugin.java:120` is not defined in `TraceEvent.java`. The
  model's `StartedAt` converts the reading as `getTimestamp` does. Its
  contract states only the name, the category and the "B" phase.

## Model

| member | source | states |
|---|---|---|
| JavaLong.Div | src/main/java/org/gradle/trace/TraceEvent.java:32 | Java's `/` by a positive divisor truncates toward zero. For a non-negative dividend the quotient q satisfies q*d <= a < q*d + d. For a negative dividend it satisfies q*d - d < a <= q*d and q <= 0. |
| JavaLong.Wrap | src/main/java/org/gradle/trace/GradleTracingPlugin.java:146-148 | A `long` subtraction yields a value congruent to the exact result modulo 2^64. It is the exact result whenever that fits in a `long`. |
| JavaLong.MillisToNanos | src/main/java/org/gradle/trace/GradleTracingPlugin.java:147 | `TimeUnit.MILLISECONDS.toNanos` equals the exact product with 1,000,000, clamped to the `long` range. |
| TraceEvents.Timestamp | src/main/java/org/gradle/trace/TraceEvent.java:31-33 | `getTimestamp` is the nanosecond reading divided by 1000 and truncated toward zero: bounds for both signs of the reading. |
| TraceEvents.TimestampMonotone | src/main/java/org/gradle/trace/TraceEvent.java:31-33 | A later clock reading never gives an earlier timestamp. |
| TraceEvents.TimestampSymmetric | src/main/java/org/gradle/trace/TraceEvent.java:31-33 | Negating the reading negates the timestamp. Truncation, unlike flooring, is symmetric about zero. |
| TraceEvents.New | src/main/java/org/gradle/trace/TraceEvent.java:10-16 | The constructor keeps the name, category, phase and thread id it is given. The timestamp is the reading in whole microseconds, truncated toward zero: bounds for both signs of the reading. |
| TraceEvents.Started | src/main/java/org/gradle/trace/TraceEvent.java:18-20 | `started` builds a "B" event with the given name and category, the current thread's id and the timestamp of the current reading (constructor, lines 10-16). |
| TraceEvents.Finished | src/main/java/org/gradle/trace/TraceEvent.java:22-24 | `finished` builds an "E" event with the given name and category, the current thread's id and the timestamp of the current reading. |
| TraceEvents.StartedAt | src/main/java/org/gradle/trace/GradleTracingPlugin.java:120 | The build-duration begin event has name "build duration", the given category and phase "B". Nothing more is claimed. |
| TraceEvents.BeginNotAfterEnd | src/main/java/org/gradle/trace/TraceEvent.java:18-24 | A begin event stamped no later than an end event has a timestamp no larger than the end event's. |
| TraceEvents.ToString | src/main/java/org/gradle/trace/TraceEvent.java:26-29 | The event text is one object that starts with `{` and ends with `}`. |
| TraceEvents.ParseToString | src/main/java/org/gradle/trace/TraceEvent.java:26-29 | Reading the text of an event gives back its name, category, phase, thread id and timestamp, with pid 0, whenever the text fields hold no quote. |
| TraceEvents.SameTextSameEvent | src/main/java/org/gradle/trace/TraceEvent.java:26-29 | For quote-free fields, equal text means equal events: the rendering loses nothing. |
| TraceEvents.UnescapedNamesCollide | src/main/java/org/gradle/trace/TraceEvent.java:28 | Without escaping, a name ending in the category key and a category starting with it give two different events the same text. |
| TraceEvents.ToStringSingleLine | src/main/java/org/gradle/trace/TraceEvent.java:26-29 | An event whose text fields hold no line break renders on one line. |
| Text.IntToString | src/main/java/org/gradle/trace/TraceEvent.java:28 | `%d` (in a default locale whose zero digit is '0') renders at least one character, all ASCII digits or `-`, and starts with `-` exactly when the number is negative. |
| Text.ParseIntToString | src/main/java/org/gradle/trace/TraceEvent.java:28 | The decimal rendering of a `long` reads back as the same number. |
| Text.Join | src/main/java/GradleTracingPlugin.java:64 | `String.join` of no items is the empty string. Otherwise the result starts with the first item. |
| Text.JoinLength | src/main/java/GradleTracingPlugin.java:64 | The length of `String.join` of n items is the items' total length plus n - 1 times the separator's length. |
| Text.PunctuatedIsJoin | src/main/java/org/gradle/trace/GradleTracingPlugin.java:123-127 | The loop that prints each item, then a comma if `hasNext()`, then a line break, writes the items joined by ",\n" plus a final line break. |
| Tracing.ToNanoTime | src/main/java/org/gradle/trace/GradleTracingPlugin.java:145-149 | `toNanoTime` of the current wall-clock time is the current nanosecond reading. Without overflow it is nanoNow - (millisNow - timeInMillis) * 1,000,000. |
| Tracing.ToNanoTimeMonotone | src/main/java/org/gradle/trace/GradleTracingPlugin.java:145-149 | Without overflow, a later start time maps to a later point on the nanosecond timeline. |
| Tracing.FooterTimeUnit | src/main/java/org/gradle/trace/GradleTracingPlugin.java:129-135 | A viewer reading the footer finds "ns" as the display time unit. |
| Tracing.Document | src/main/java/org/gradle/trace/GradleTracingPlugin.java:116-135 | The trace file starts with the header and ends with the footer. |
| Tracing.DocumentIsJoin | src/main/java/org/gradle/trace/GradleTracingPlugin.java:116-135 | The trace file is the header, then the event texts joined by ",\n" and followed by a line break (nothing for an empty log), then the footer. There is no comma after the last event. |
| Tracing.TraceFileRoundTrip | src/main/java/org/gradle/trace/GradleTracingPlugin.java:113-136 | Reading the trace file gives exactly the logged events, in log order, each with its own fields and pid 0, when no text field holds a quote or a line break. |
| Tracing.TracingPlugin.constructor | src/main/java/org/gradle/trace/GradleTracingPlugin.java:28 | The log starts empty and nothing is written yet. |
| Tracing.TracingPlugin.Started | src/main/java/org/gradle/trace/GradleTracingPlugin.java:35-37 | Appends one begin event to the end of the log and changes nothing else. |
| Tracing.TracingPlugin.Finished | src/main/java/org/gradle/trace/GradleTracingPlugin.java:39-41 | Appends one end event to the end of the log and answers true, as `List.add` does. |
| Tracing.TracingPlugin.BeforeExecute | src/main/java/org/gradle/trace/GradleTracingPlugin.java:47-49 | Appends a "B" event named by the task's path, category TASK. |
| Tracing.TracingPlugin.AfterExecute | src/main/java/org/gradle/trace/GradleTracingPlugin.java:52-54 | Appends an "E" event named by the task's path, category TASK. |
| Tracing.TracingPlugin.TaskGraphReady | src/main/java/org/gradle/trace/GradleTracingPlugin.java:57-62 | Appends an "E" event "build task graph", category PHASE. |
| Tracing.TracingPlugin.BeforeResolve | src/main/java/org/gradle/trace/GradleTracingPlugin.java:66-68 | Appends a "B" event named by the dependency set's path, category RESOLVE. |
| Tracing.TracingPlugin.AfterResolve | src/main/java/org/gradle/trace/GradleTracingPlugin.java:71-73 | Appends an "E" event named by the dependency set's path, category RESOLVE. |
| Tracing.TracingPlugin.BeforeEvaluate | src/main/java/org/gradle/trace/GradleTracingPlugin.java:78-80 | Appends a "B" event named by the project's path, category EVALUATE. |
| Tracing.TracingPlugin.AfterEvaluate | src/main/java/org/gradle/trace/GradleTracingPlugin.java:83-85 | Appends an "E" event named by the project's path, category EVALUATE. |
| Tracing.TracingPlugin.ProjectsEvaluated | src/main/java/org/gradle/trace/GradleTracingPlugin.java:107-110 | Appends a "B" event "build task graph", category PHASE. |
| Tracing.TracingPlugin.BuildFinished | src/main/java/org/gradle/trace/GradleTracingPlugin.java:112-136 | Appends exactly two events: the "build duration" begin at the converted build start, then its end now, both PHASE. Then the trace file holds the document of the whole log. |
| Tracing.TracingPlugin.WriteTraceFile | src/main/java/org/gradle/trace/GradleTracingPlugin.java:114-135 | The header, the iterator loop over the log and the footer write exactly the document of the log. |
| Tracing.OneTaskBuild | src/main/java/org/gradle/trace/GradleTracingPlugin.java:43-136 | On a fresh plugin, `projectsEvaluated`, the `whenReady` action, one task's `beforeExecute` and `afterExecute`, then `buildFinished`, give a trace file that reads back as the "build task graph" begin and end (PHASE), the task's begin and end (TASK), then the "build duration" begin and end (PHASE). Every event but the build-duration begin is stamped by its own reading; that one's timestamp is not stated (see `TraceEvents.StartedAt` below). Dependency resolution and project evaluation callbacks are not part of this scenario. |
| Tracing.ReadEachEvent | src/main/java/org/gradle/trace/GradleTracingPlugin.java:114-135 | Reading back the written file gives one entry per logged event, and the entry at each position holds that event's fields with pid 0. |
| Prototype.SameFrameButTimeUnit | src/main/java/GradleTracingPlugin.java:61-71 | The prototype prints the same header and the same footer after the time unit as the tracing plugin, but its footer differs. |
| Prototype.FooterTimeUnit | src/main/java/GradleTracingPlugin.java:65-71 | A viewer reading the prototype's footer finds "ms" as the display time unit. |
| Prototype.TaskEntry | src/main/java/GradleTracingPlugin.java:32-37 | A task entry, begin or end, is one object: it starts with `{` and ends with `}`. |
| Prototype.TaskEntryIsEventText | src/main/java/GradleTracingPlugin.java:32 | A prototype task entry is exactly the text `TraceEvent.toString` gives for the same name and phase, category PERF, with the millisecond reading as timestamp (given a default locale whose zero digit is '0' for `%d`; the prototype's `"" + long` always renders ASCII digits). |
| Prototype.ReadTaskEntry | src/main/java/GradleTracingPlugin.java:31-38 | Reading a task entry gives the task's name, category PERF, the phase, pid 0, the thread id and the millisecond reading. |
| Prototype.Output | src/main/java/GradleTracingPlugin.java:61-71 | What `buildFinished` prints starts with the header, ends with the footer, and has at least one character (the line break of the joined line) between them. |
| Prototype.JoinedEntries | src/main/java/GradleTracingPlugin.java:64 | The entries are printed in order with a comma between neighbours: n entries get n - 1 commas and no trailing comma. An empty log prints an empty line. |
| Prototype.PrototypePlugin.constructor | src/main/java/GradleTracingPlugin.java:17 | The list of entries starts empty and nothing is printed yet. |
| Prototype.PrototypePlugin.BeforeExecute | src/main/java/GradleTracingPlugin.java:31-33 | Appends the task's "B" entry to the end of the list. |
| Prototype.PrototypePlugin.AfterExecute | src/main/java/GradleTracingPlugin.java:36-38 | Appends the task's "E" entry to the end of the list. |
| Prototype.PrototypePlugin.BuildFinished | src/main/java/GradleTracingPlugin.java:59-72 | Prints the header, the comma-joined entries and the footer, each by `println`, after what was printed before. |

## Left out

- Listener registration (`apply`, `addTaskExecutionListener`, `addListener`, `addBuildListener`, `whenReady`) is left out. Each callback is a method the host calls directly.
- `System.nanoTime()`, `System.currentTimeMillis()`, `Thread.currentThread().getId()` and `getBuildTimeClock().getStartTime()` are left out as calls. Their readings are parameters.
- Concurrency is left out. The callbacks run one at a time, so the model does not capture what an unsynchronized `ArrayList` does under parallel task execution.
- File I/O is left out. `getTraceFile`, `mkdirs`, `getPrintWriter` and the `FileWriter` are replaced by a string field that holds the whole file text. The I/O error path of `getPrintWriter` is not modelled.
- `println` is modelled as appending "\n". The platform line separator is not modelled.
- TraceEvents.StartedAt: the timestamp of the build-duration begin event is not stated, because `TraceEvent.java` does not define the three-argument `TraceEvent.started` that `GradleTracingPlugin.java:120` calls, so its conversion of the reading is not known.
- Text.IntToString: models ASCII decimal digits. `%d` in `String.format`
  (`TraceEvent.java:28`) renders digits of the default locale, so the model
  assumes a default locale whose zero digit is '0'. The prototype's
  `"" + long` always renders ASCII digits.
- TraceEvents.ToString: the output is not claimed to be valid JSON, because names and categories are inserted without escaping. The round trips assume text fields without `"` and line breaks.
