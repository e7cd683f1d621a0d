/**
 * The frame profiler (Plywood.Graphics.Core/PwPerformanceProfiler.cs): named
 * sections with call counters, a stack of open sections, and named metrics.
 *
 * Sections are shared objects in the source: the dictionary, the stack and
 * every report refer to the same instance.  Here the dictionary owns the
 * section values and the stack and reports hold section names, which is
 * the same sharing since a name is entered once and never removed.
 * Stopwatch readings are parameters (`elapsed`); `float` is `real`.
 */
module Profilers {

  datatype Section = Section(name: string, lastTime: real, totalTime: real, callCount: nat)

  function NewSection(name: string): Section {
    Section(name, 0.0, 0.0, 0)
  }

  /** `PwProfileSection.End`: the reading becomes the last time, is added to the total, and one call is counted. */
  function EndSection(s: Section, elapsed: real): (r: Section)
    ensures r.name == s.name && r.callCount == s.callCount + 1
    ensures r.lastTime == elapsed && r.totalTime - s.totalTime == elapsed
  {
    s.(lastTime := elapsed, totalTime := s.totalTime + elapsed, callCount := s.callCount + 1)
  }

  /** `PwProfileSection.Reset`: every counter back to zero, the name kept. */
  function ResetSection(s: Section): (r: Section)
    ensures r == NewSection(s.name)
  {
    s.(lastTime := 0.0, totalTime := 0.0, callCount := 0)
  }

  /** `AverageTime`: total over count, 0 before the first call. */
  function AverageTime(s: Section): (r: real)
    ensures s.callCount == 0 ==> r == 0.0
    ensures s.callCount > 0 ==> r * (s.callCount as real) == s.totalTime
  {
    if s.callCount > 0 then s.totalTime / (s.callCount as real) else 0.0
  }

  /** The section after one `End` per reading, in order. */
  function EndEach(s: Section, readings: seq<real>): Section
    decreases |readings|
  {
    if readings == [] then s else EndEach(EndSection(s, readings[0]), readings[1..])
  }

  function Sum(xs: seq<real>): real
    decreases |xs|
  {
    if xs == [] then 0.0 else xs[0] + Sum(xs[1..])
  }

  lemma {:induction false} EndEachAccumulates(s: Section, readings: seq<real>)
    ensures EndEach(s, readings).name == s.name
    ensures EndEach(s, readings).callCount == s.callCount + |readings|
    ensures EndEach(s, readings).totalTime == s.totalTime + Sum(readings)
    decreases |readings|
  {
    if readings != [] {
      EndEachAccumulates(EndSection(s, readings[0]), readings[1..]);
    }
  }

  /** A section ended once per reading from zero counts the readings and averages them. */
  lemma AverageOfEndedSection(name: string, readings: seq<real>)
    ensures var s := EndEach(NewSection(name), readings);
      && s.callCount == |readings|
      && s.totalTime == Sum(readings)
      && AverageTime(s) == if readings == [] then 0.0 else Sum(readings) / (|readings| as real)
  {
    EndEachAccumulates(NewSection(name), readings);
  }

  datatype Profiler = Profiler(sections: map<string, Section>, stack: seq<string>, metrics: map<string, real>)

  const NewProfiler := Profiler(map[], [], map[])

  /** Sections are filed under their own names and every open section is filed. */
  predicate Inv(p: Profiler) {
    && (forall n | n in p.sections :: p.sections[n].name == n)
    && (forall i | 0 <= i < |p.stack| :: p.stack[i] in p.sections)
  }

  lemma NewProfilerInv()
    ensures Inv(NewProfiler)
  {
  }

  /** `BeginFrame`: every section's counters are zeroed; the set of sections, the stack and the metrics stay. */
  function BeginFrame(p: Profiler): (r: Profiler)
    ensures r.sections.Keys == p.sections.Keys
    ensures forall n | n in r.sections :: r.sections[n] == NewSection(p.sections[n].name)
    ensures r.stack == p.stack && r.metrics == p.metrics
    ensures Inv(p) ==> Inv(r)
  {
    p.(sections := map n | n in p.sections :: ResetSection(p.sections[n]))
  }

  /** The handle `BeginSection` returns; it does not remember which section it opened. */
  datatype Scope = Scope

  /** `BeginSection`: an unseen name gets a new section, a known one is reused; the section is pushed. */
  function BeginSection(p: Profiler, name: string): (r: (Profiler, Scope))
    ensures name in r.0.sections
    ensures r.0.sections.Keys == p.sections.Keys + {name}
    ensures forall n | n in p.sections :: r.0.sections[n] == p.sections[n]
    ensures name !in p.sections ==> r.0.sections[name] == NewSection(name)
    ensures r.0.stack == p.stack + [name] && r.0.metrics == p.metrics
    ensures Inv(p) ==> Inv(r.0)
  {
    var sections := if name in p.sections then p.sections else p.sections[name := NewSection(name)];
    (p.(sections := sections, stack := p.stack + [name]), Scope)
  }

  /** `EndCurrentSection`: nothing on an empty stack, else the top section is popped and ended. */
  function EndCurrentSection(p: Profiler, elapsed: real): (r: Profiler)
    requires Inv(p)
    ensures Inv(r)
    ensures p.stack == [] ==> r == p
    ensures p.stack != [] ==>
      var top := p.stack[|p.stack| - 1];
      && r.stack == p.stack[..|p.stack| - 1]
      && r.sections.Keys == p.sections.Keys
      && r.sections[top] == EndSection(p.sections[top], elapsed)
      && (forall n | n in p.sections && n != top :: r.sections[n] == p.sections[n])
    ensures r.metrics == p.metrics
  {
    if p.stack == [] then p
    else
      var top := p.stack[|p.stack| - 1];
      p.(sections := p.sections[top := EndSection(p.sections[top], elapsed)], stack := p.stack[..|p.stack| - 1])
  }

  /** `PwProfileSectionScope.Dispose`: ends whatever section is innermost, not the one the scope opened. */
  function Dispose(p: Profiler, scope: Scope, elapsed: real): (r: Profiler)
    requires Inv(p)
    ensures Inv(r)
    ensures r == EndCurrentSection(p, elapsed)
  {
    EndCurrentSection(p, elapsed)
  }

  /**
   * Disposing the outer scope of two nested ones ends the inner section:
   * the inner section gains a call, the outer one stays open and uncounted.
   */
  lemma OuterScopeEndsInnerSection(p: Profiler, outer: string, inner: string, elapsed: real)
    requires Inv(p) && outer != inner
    ensures
      var (p1, outerScope) := BeginSection(p, outer);
      var (p2, _) := BeginSection(p1, inner);
      var p3 := Dispose(p2, outerScope, elapsed);
      && p3.stack == p.stack + [outer]
      && p3.sections[inner].callCount == p2.sections[inner].callCount + 1
      && p3.sections[outer] == p2.sections[outer]
  {
    var (p1, outerScope) := BeginSection(p, outer);
    var (p2, _) := BeginSection(p1, inner);
    assert p2.stack == p.stack + [outer] + [inner];
    assert p2.stack[..|p2.stack| - 1] == p.stack + [outer];
  }

  /** Opening then ending a section restores the stack and counts exactly one call to it. */
  lemma BeginThenEndCountsOnce(p: Profiler, name: string, elapsed: real)
    requires Inv(p)
    ensures
      var p2 := EndCurrentSection(BeginSection(p, name).0, elapsed);
      && p2.stack == p.stack
      && p2.sections[name].callCount == (if name in p.sections then p.sections[name].callCount else 0) + 1
      && forall n | n in p.sections && n != name :: p2.sections[n] == p.sections[n]
  {
    var p1 := BeginSection(p, name).0;
    assert p1.stack[..|p1.stack| - 1] == p.stack;
  }

  /** `SetMetric`: the named metric is overwritten. */
  function SetMetric(p: Profiler, name: string, value: real): (r: Profiler)
    ensures r.sections == p.sections && r.stack == p.stack
    ensures r.metrics.Keys == p.metrics.Keys + {name}
  {
    p.(metrics := p.metrics[name := value])
  }

  /** `GetMetric`: the stored value, or 0 for a name never set. */
  function GetMetric(p: Profiler, name: string): (r: real)
    ensures name !in p.metrics ==> r == 0.0
  {
    if name in p.metrics then p.metrics[name] else 0.0
  }

  /** A metric reads back the last value set, and setting one leaves the others. */
  lemma MetricReadsLastSet(p: Profiler, name: string, other: string, value: real)
    requires other != name
    ensures GetMetric(SetMetric(p, name, value), name) == value
    ensures GetMetric(SetMetric(p, name, value), other) == GetMetric(p, other)
  {
  }

  const FrameTimeMetric := "Frame Time (ms)"
  const FpsMetric := "FPS"

  /**
   * `PwPerformanceReport`: the frame time and FPS read as metrics, the
   * sections (by reference, so by name here) and a copy of the metrics.
   */
  datatype Report = Report(frameTime: real, fps: real, sections: set<string>, metrics: map<string, real>)

  function GenerateReport(p: Profiler): (r: Report)
    ensures r.frameTime == GetMetric(p, FrameTimeMetric) && r.fps == GetMetric(p, FpsMetric)
    ensures r.sections == p.sections.Keys
    ensures r.metrics == p.metrics
  {
    Report(GetMetric(p, FrameTimeMetric), GetMetric(p, FpsMetric), p.sections.Keys, p.metrics)
  }

  /**
   * A report's metrics are a snapshot: a later `SetMetric` shows in a new
   * report but not in the issued one.  Its sections are the live objects:
   * after a `BeginFrame` they read as zero calls.
   */
  lemma ReportMetricsSnapshotSectionsLive(p: Profiler, name: string, value: real)
    requires name in p.metrics && p.metrics[name] != value
    ensures var r := GenerateReport(p);
      var later := SetMetric(p, name, value);
      && r.metrics[name] != GenerateReport(later).metrics[name]
      && forall n | n in r.sections :: BeginFrame(later).sections[n].callCount == 0
  {
  }
}
