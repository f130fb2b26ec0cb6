/**
 * `VideoThread`: the capture-and-process worker. One iteration of its
 * `while self.running` loop is `Step`, with the camera read, the clock and
 * the detector's answer passed in; a sequence of `Step` calls is a run of
 * the thread. Its flags are the controls the GUI calls; its results go
 * to the GUI through the bounded frame queue.
 */
module Pipeline {
  import opened Wrappers
  import opened Image
  import opened Channel
  import opened Benchmark
  import Faces

  /** The detection part of a published item: the detector's report, or the empty list when it was not called. */
  datatype Detections = NotRun | Ran(report: Faces.DetectorReport)

  /** The tuple put on the queue: `(frame, results, fps, latency, benchmark_active)`. */
  datatype Published = Published(frame: Frame, result: Detections, fps: real, latency: real, benchmarkActive: bool)

  /**
   * The thread's state between iterations: its fields, and `prev_frame_time`,
   * which `run` keeps in a local across iterations.
   */
  datatype ThreadState = ThreadState(
    running: bool,
    detectionActive: bool,
    benchmarkActive: bool,
    benchmarkStartTime: real,
    benchmarkDuration: real,
    benchmarkData: seq<real>,
    prevFrameTime: real)

  /** The state right after construction, before the first iteration. */
  const Initial := ThreadState(true, false, false, 0.0, 0.0, [], 0.0)

  /**
   * What one iteration gets from outside: whether the camera read succeeded
   * and the frame it gave, the clock reading, and what the detector returns
   * if it is called (its report and its latency in milliseconds).
   */
  datatype FrameInput = FrameInput(readOk: bool, frame: Frame, now: real, report: Faces.DetectorReport, latency: real)

  /** The FPS division is defined: a processed frame never comes at the very instant of the previous one. */
  predicate ClockTicks(s: ThreadState, input: FrameInput)
  {
    input.readOk && s.prevFrameTime > 0.0 ==> input.now != s.prevFrameTime
  }

  /** Instantaneous frame rate, `1 / (new - prev)`, or 0 before the first processed frame. */
  function Fps(prev: real, now: real): (fps: real)
    requires prev > 0.0 ==> now != prev
    ensures prev <= 0.0 ==> fps == 0.0
    ensures prev > 0.0 ==> fps * (now - prev) == 1.0
    ensures prev > 0.0 && now > prev ==> fps > 0.0
  {
    if prev > 0.0 then 1.0 / (now - prev) else 0.0
  }

  /**
   * One iteration of the loop: the new state and the item it offers to the
   * queue (`None` when the camera read failed and the iteration was skipped).
   */
  function Iterate(s: ThreadState, input: FrameInput): (r: (ThreadState, Option<Published>))
    requires ClockTicks(s, input)
    // A failed read changes nothing and publishes nothing.
    ensures !input.readOk ==> r == (s, None)
    ensures input.readOk ==> r.1.Some? && r.1.value.frame == input.frame
    // The detector runs exactly when detection or a benchmark is active.
    ensures input.readOk ==> (r.1.value.result.Ran? <==> s.detectionActive || s.benchmarkActive)
    ensures input.readOk && r.1.value.result.Ran? ==>
              r.1.value.result.report == input.report && r.1.value.latency == input.latency
    ensures input.readOk && r.1.value.result.NotRun? ==> r.1.value.latency == 0.0
    // While a benchmark is active, each processed frame adds exactly its own latency.
    ensures input.readOk && s.benchmarkActive ==> r.0.benchmarkData == s.benchmarkData + [input.latency]
    ensures !(input.readOk && s.benchmarkActive) ==> r.0.benchmarkData == s.benchmarkData
    // The session closes only once the elapsed time strictly exceeds the duration; nothing opens one.
    ensures input.readOk && s.benchmarkActive ==>
              (r.0.benchmarkActive <==> input.now - s.benchmarkStartTime <= s.benchmarkDuration)
    ensures !s.benchmarkActive ==> !r.0.benchmarkActive
    // The published flag is the one after the closing check.
    ensures input.readOk ==> r.1.value.benchmarkActive == r.0.benchmarkActive
    // Frame timing.
    ensures input.readOk ==> r.0.prevFrameTime == input.now && r.1.value.fps == Fps(s.prevFrameTime, input.now)
    // The controls and the session parameters are the GUI's to change.
    ensures r.0.running == s.running && r.0.detectionActive == s.detectionActive
    ensures r.0.benchmarkStartTime == s.benchmarkStartTime && r.0.benchmarkDuration == s.benchmarkDuration
  {
    if !input.readOk then (s, None)
    else
      var detect := s.detectionActive || s.benchmarkActive;
      var result := if detect then Ran(input.report) else NotRun;
      var latency := if detect then input.latency else 0.0;
      var data := if s.benchmarkActive then s.benchmarkData + [latency] else s.benchmarkData;
      var active := s.benchmarkActive && !(input.now - s.benchmarkStartTime > s.benchmarkDuration);
      var fps := Fps(s.prevFrameTime, input.now);
      var s' := s.(benchmarkActive := active, benchmarkData := data, prevFrameTime := input.now);
      (s', Some(Published(input.frame, result, fps, latency, active)))
  }

  /** `start_benchmark(duration)`: a fresh active session, whatever was running before. */
  function BenchmarkStarted(s: ThreadState, duration: real, now: real): (r: ThreadState)
    ensures r.benchmarkActive && r.benchmarkDuration == duration && r.benchmarkStartTime == now
    ensures r.benchmarkData == []
    ensures r.running == s.running && r.detectionActive == s.detectionActive && r.prevFrameTime == s.prevFrameTime
  {
    s.(benchmarkData := [], benchmarkDuration := duration, benchmarkStartTime := now, benchmarkActive := true)
  }

  /** The clock moves forward: every reading is later than `prev` and than every earlier reading. */
  predicate ClockAdvances(prev: real, inputs: seq<FrameInput>)
  {
    (forall i :: 0 <= i < |inputs| ==> inputs[i].now > prev) &&
    (forall i, j :: 0 <= i < j < |inputs| ==> inputs[i].now < inputs[j].now)
  }

  /** The state after the iterations `inputs`, one after another. */
  ghost function Run(s: ThreadState, inputs: seq<FrameInput>): (r: ThreadState)
    requires s.running
    requires ClockAdvances(s.prevFrameTime, inputs)
    ensures inputs == [] ==> r == s
    ensures inputs != [] ==> r.prevFrameTime <= inputs[|inputs| - 1].now
    ensures r.running == s.running && r.detectionActive == s.detectionActive
    ensures r.benchmarkStartTime == s.benchmarkStartTime && r.benchmarkDuration == s.benchmarkDuration
    // The loop never starts a benchmark, and samples are only ever appended.
    ensures !s.benchmarkActive ==> !r.benchmarkActive && r.benchmarkData == s.benchmarkData
    ensures |s.benchmarkData| <= |r.benchmarkData| <= |s.benchmarkData| + |inputs|
    ensures r.benchmarkData[..|s.benchmarkData|] == s.benchmarkData
    decreases |inputs|
  {
    if inputs == [] then s
    else
      var prefix := inputs[..|inputs| - 1];
      var before := Run(s, prefix);
      Iterate(before, inputs[|inputs| - 1]).0
  }

  /** The detector latencies the inputs carry, in order. */
  function Latencies(inputs: seq<FrameInput>): seq<real>
  {
    seq(|inputs|, i requires 0 <= i < |inputs| => inputs[i].latency)
  }

  /**
   * While every frame arrives within the window, the session stays active
   * and collects exactly one sample per frame, in order.
   */
  lemma {:induction false} WindowCollects(s: ThreadState, inputs: seq<FrameInput>)
    requires s.running
    requires ClockAdvances(s.prevFrameTime, inputs)
    requires s.benchmarkActive
    requires forall i :: 0 <= i < |inputs| ==>
               inputs[i].readOk && inputs[i].now - s.benchmarkStartTime <= s.benchmarkDuration
    ensures Run(s, inputs).benchmarkActive
    ensures Run(s, inputs).benchmarkData == s.benchmarkData + Latencies(inputs)
    decreases |inputs|
  {
    if inputs != [] {
      var n := |inputs| - 1;
      var prefix := inputs[..n];
      WindowCollects(s, prefix);
      assert Latencies(inputs) == Latencies(prefix) + [inputs[n].latency];
    }
  }

  /**
   * The first frame past the window closes the session; its own sample is
   * kept.
   */
  lemma WindowCloses(s: ThreadState, inputs: seq<FrameInput>, last: FrameInput)
    requires s.running
    requires ClockAdvances(s.prevFrameTime, inputs + [last])
    requires s.benchmarkActive
    requires forall i :: 0 <= i < |inputs| ==>
               inputs[i].readOk && inputs[i].now - s.benchmarkStartTime <= s.benchmarkDuration
    requires last.readOk && last.now - s.benchmarkStartTime > s.benchmarkDuration
    ensures !Run(s, inputs + [last]).benchmarkActive
    ensures Run(s, inputs + [last]).benchmarkData == s.benchmarkData + Latencies(inputs) + [last.latency]
  {
    var all := inputs + [last];
    assert all[..|all| - 1] == inputs && all[|all| - 1] == last;
    WindowCollects(s, inputs);
  }

  /**
   * A one-second benchmark fed a frame every 100 ms is still active after
   * the tenth frame and closes itself on the eleventh, with 11 samples.
   */
  lemma AutoCloseExample(s0: ThreadState, t0: real, f: Frame, report: Faces.DetectorReport, latency: real)
    requires s0.running && s0.prevFrameTime <= t0
    ensures var s := BenchmarkStarted(s0, 1.0, t0);
            var frames := seq(11, k requires 0 <= k < 11 => FrameInput(true, f, t0 + (k + 1) as real / 10.0, report, latency));
            ClockAdvances(s.prevFrameTime, frames[..10]) && Run(s, frames[..10]).benchmarkActive &&
            ClockAdvances(s.prevFrameTime, frames) && !Run(s, frames).benchmarkActive &&
            |Run(s, frames).benchmarkData| == 11
  {
    var s := BenchmarkStarted(s0, 1.0, t0);
    var frames := seq(11, k requires 0 <= k < 11 => FrameInput(true, f, t0 + (k + 1) as real / 10.0, report, latency));
    var first := frames[..10];
    assert frames == first + [frames[10]];
    assert ClockAdvances(s.prevFrameTime, frames);
    assert ClockAdvances(s.prevFrameTime, first);
    WindowCollects(s, first);
    WindowCloses(s, first, frames[10]);
  }

  /**
   * Restarting a benchmark discards every earlier sample: after a restart
   * and one processed frame, the results reflect that frame alone.
   */
  lemma RestartDiscardsSamples(s: ThreadState, duration: real, now: real, input: FrameInput)
    requires input.readOk
    requires ClockTicks(BenchmarkStarted(s, duration, now), input)
    ensures var after := Iterate(BenchmarkStarted(s, duration, now), input).0;
            after.benchmarkData == [input.latency] &&
            (input.latency > 0.0 ==> Averages(after.benchmarkData) == BenchmarkResult(1000.0 / input.latency, input.latency))
  {
    var after := Iterate(BenchmarkStarted(s, duration, now), input).0;
    assert after.benchmarkData == [input.latency];
    assert [input.latency][..0] == [];
    assert Sum([input.latency]) == input.latency;
  }

  class VideoThread {
    var running: bool
    var detectionActive: bool
    var benchmarkActive: bool
    var benchmarkStartTime: real
    var benchmarkDuration: real
    /** Latency samples of the current or last session, in milliseconds. */
    var benchmarkData: seq<real>
    /** `prev_frame_time`: the clock reading of the last processed frame, 0 before the first. */
    var prevFrameTime: real
    const frameQueue: FrameQueue<Published>

    ghost predicate Valid()
      reads this, frameQueue
    {
      frameQueue.Valid()
    }

    function State(): ThreadState
      reads this
    {
      ThreadState(running, detectionActive, benchmarkActive, benchmarkStartTime, benchmarkDuration,
                  benchmarkData, prevFrameTime)
    }

    /** `VideoThread.__init__` (the camera is opened outside the model). */
    constructor (frameQueue: FrameQueue<Published>)
      requires frameQueue.Valid()
      ensures Valid() && State() == Initial && this.frameQueue == frameQueue
    {
      running := true;
      detectionActive := false;
      benchmarkActive := false;
      benchmarkStartTime := 0.0;
      benchmarkDuration := 0.0;
      benchmarkData := [];
      prevFrameTime := 0.0;
      this.frameQueue := frameQueue;
    }

    /**
     * One iteration of `run`: read, maybe detect, record the benchmark
     * sample, compute the frame rate, and publish unless the queue is full.
     */
    method Step(readOk: bool, frame: Frame, now: real, report: Faces.DetectorReport, latency: real)
      requires Valid() && running
      requires ClockTicks(State(), FrameInput(readOk, frame, now, report, latency))
      modifies this, frameQueue
      ensures Valid()
      ensures State() == Iterate(old(State()), FrameInput(readOk, frame, now, report, latency)).0
      ensures var item := Iterate(old(State()), FrameInput(readOk, frame, now, report, latency)).1;
              frameQueue.items == if item.Some? then Offer(old(frameQueue.items), frameQueue.capacity, item.value)
                                  else old(frameQueue.items)
    {
      if !readOk {
        return;
      }
      var faces := NotRun;
      var frameLatency := 0.0;
      if detectionActive || benchmarkActive {
        faces := Ran(report);
        frameLatency := latency;
        if benchmarkActive {
          benchmarkData := benchmarkData + [frameLatency];
          if now - benchmarkStartTime > benchmarkDuration {
            benchmarkActive := false;
          }
        }
      }
      var newFrameTime := now;
      var fps := Fps(prevFrameTime, newFrameTime);
      prevFrameTime := newFrameTime;
      var full := frameQueue.IsFull();
      if !full {
        frameQueue.Put(Published(frame, faces, fps, frameLatency, benchmarkActive));
      }
    }

    /** `start_detection` */
    method StartDetection()
      requires Valid()
      modifies this
      ensures Valid() && State() == old(State()).(detectionActive := true)
    {
      detectionActive := true;
    }

    /** `stop_detection` */
    method StopDetection()
      requires Valid()
      modifies this
      ensures Valid() && State() == old(State()).(detectionActive := false)
    {
      detectionActive := false;
    }

    /** `start_benchmark(duration)`, with the clock reading passed in. */
    method StartBenchmark(duration: real, now: real)
      requires Valid()
      modifies this
      ensures Valid() && State() == BenchmarkStarted(old(State()), duration, now)
    {
      benchmarkData := [];
      benchmarkDuration := duration;
      benchmarkStartTime := now;
      benchmarkActive := true;
    }

    /** `get_benchmark_results` */
    function GetBenchmarkResults(): (r: BenchmarkResult)
      reads this
      ensures benchmarkData == [] ==> r == BenchmarkResult(0.0, 0.0)
      ensures r.avgLatency * |benchmarkData| as real == Sum(benchmarkData)
      ensures r.avgLatency > 0.0 ==> r.avgFps * r.avgLatency == 1000.0
      ensures r.avgLatency <= 0.0 ==> r.avgFps == 0.0
    {
      Averages(benchmarkData)
    }

    /** `stop`, without the join: the loop sees the flag at its next test. */
    method Stop()
      requires Valid()
      modifies this
      ensures Valid() && State() == old(State()).(running := false)
    {
      running := false;
    }
  }
}
