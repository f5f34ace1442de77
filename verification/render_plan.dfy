/**
 * The offline render as a plan rather than as signal processing: the output
 * format, the audio graph as a list of edges, the five equaliser filters, the
 * fade-out automation, the limiter preset, the tag insertion schedule and the
 * final normalisation step.
 */
module RenderPlan {
  import opened Wrappers
  import opened Numeric
  import opened Audio
  import opened Types
  import opened Normalize

  // ---------------------------------------------------------------------
  // Options and fixed policy constants
  // ---------------------------------------------------------------------

  /**
   * The per-render options.  `targetSampleRate` is optional; like any falsy
   * JavaScript number, a rate of 0 also means "keep the source rate".
   */
  datatype RenderOptions = RenderOptions(
    normalize: bool,
    fadeEnding: bool,
    tagInterval: real,
    targetSampleRate: Option<int>,
    limiter: bool)

  /** The fade-out always lasts three seconds. */
  const FadeSeconds: real := 3.0

  /** Tags stop once less than this much of the track remains. */
  const TagTailSeconds: real := 2.0

  /** Linear gain of every tag insertion. */
  const TagGain: real := 0.6

  /** The dynamics compressor settings used as a brick-wall limiter. */
  datatype LimiterPreset = LimiterPreset(threshold: real, knee: real, ratio: real, attack: real, release: real)

  const Limiter: LimiterPreset := LimiterPreset(-1.0, 0.0, 20.0, 0.005, 0.1)

  // ---------------------------------------------------------------------
  // Output format
  // ---------------------------------------------------------------------

  /** The render rate: the requested rate when one is given and non-zero, else the source rate. */
  function OutputRate(opts: RenderOptions, sourceRate: int): (r: int)
    ensures opts.targetSampleRate.Some? && opts.targetSampleRate.value != 0 ==> r == opts.targetSampleRate.value
    ensures opts.targetSampleRate == None || opts.targetSampleRate == Some(0) ==> r == sourceRate
  {
    match opts.targetSampleRate
    case Some(t) => if t != 0 then t else sourceRate
    case None => sourceRate
  }

  /** `duration * rate`, kept behind a name so that products stay out of larger proofs. */
  function Frames(duration: real, rate: int): real {
    duration * rate as real
  }

  /** `Math.ceil(duration * rate)`: the number of frames rendered. */
  function FrameCount(b: AudioBuffer, rate: int): (n: int)
    requires Valid(b)
    ensures n as real - 1.0 < Frames(Duration(b), rate) <= n as real
  {
    Ceil(Frames(Duration(b), rate))
  }

  lemma DurationTimesRate(len: nat, rate: int)
    requires rate > 0
    ensures (len as real / rate as real) * rate as real == len as real
  {
  }

  /** Rendering at the source's own rate keeps its length. */
  lemma NativeRateKeepsLength(b: AudioBuffer)
    requires Valid(b)
    ensures FrameCount(b, b.sampleRate) == Length(b)
  {
    DurationTimesRate(Length(b), b.sampleRate);
  }

  /** A two-second buffer at 44100 Hz rendered at 48000 Hz has 96000 frames. */
  lemma ResampledLengthExample(b: AudioBuffer)
    requires Valid(b) && b.sampleRate == 44100 && Length(b) == 88200
    ensures FrameCount(b, 48000) == 96000
  {
    assert Duration(b) == 2.0;
  }

  // ---------------------------------------------------------------------
  // Equaliser
  // ---------------------------------------------------------------------

  datatype FilterKind = LowShelf | Peaking | HighShelf

  datatype FilterSpec = FilterSpec(kind: FilterKind, frequency: real, gain: real)

  /** The five filters in chain order, each taking its gain from one band of the settings. */
  function EqChain(eq: EqSettings): (fs: seq<FilterSpec>)
    ensures |fs| == 5
  {
    [ FilterSpec(LowShelf, 60.0, eq.low),
      FilterSpec(Peaking, 250.0, eq.lowMid),
      FilterSpec(Peaking, 1000.0, eq.mid),
      FilterSpec(Peaking, 5000.0, eq.highMid),
      FilterSpec(HighShelf, 12000.0, eq.high) ]
  }

  /**
   * The chain carries the five band gains in band order, runs from low to high
   * frequency, and is shelf-peaking-peaking-peaking-shelf.
   */
  lemma EqChainShape(eq: EqSettings)
    ensures var fs := EqChain(eq);
      && (forall i :: 0 <= i < 5 ==> fs[i].gain == BandGains(eq)[i])
      && (forall i, j :: 0 <= i < j < 5 ==> fs[i].frequency < fs[j].frequency)
      && fs[0].kind == LowShelf && fs[4].kind == HighShelf
      && (forall i :: 1 <= i < 4 ==> fs[i].kind == Peaking)
  {
  }

  // ---------------------------------------------------------------------
  // Graph
  // ---------------------------------------------------------------------

  datatype Node =
    | MusicSource
    | EqFilter(index: nat)
    | MasterBus
    | FadeNode
    | LimiterNode
    | Destination
    | TagSource(k: nat)
    | TagGainNode(k: nat)

  datatype Edge = Edge(from: Node, to: Node)

  /** The master section: bus, fade gain, optional limiter, output. */
  function MasterEdges(limiter: bool): seq<Edge> {
    if limiter then [Edge(MasterBus, FadeNode), Edge(FadeNode, LimiterNode), Edge(LimiterNode, Destination)]
    else [Edge(MasterBus, FadeNode), Edge(FadeNode, Destination)]
  }

  /** Music source through every equaliser filter in turn into the bus. */
  function MusicEdges(): seq<Edge> {
    [ Edge(MusicSource, EqFilter(0)), Edge(EqFilter(0), EqFilter(1)), Edge(EqFilter(1), EqFilter(2)),
      Edge(EqFilter(2), EqFilter(3)), Edge(EqFilter(3), EqFilter(4)), Edge(EqFilter(4), MasterBus) ]
  }

  /** Each tag insertion: its source into its own gain node, that gain node into the bus. */
  function TagEdges(count: nat): (es: seq<Edge>)
    ensures |es| == 2 * count
    ensures forall i :: 0 <= i < count ==>
      es[2 * i] == Edge(TagSource(i), TagGainNode(i)) && es[2 * i + 1] == Edge(TagGainNode(i), MasterBus)
  {
    if count == 0 then [] else TagEdges(count - 1) + [Edge(TagSource(count - 1), TagGainNode(count - 1)), Edge(TagGainNode(count - 1), MasterBus)]
  }

  /** The whole graph for a render with `tags` tag insertions. */
  function GraphEdges(limiter: bool, tags: nat): seq<Edge> {
    MasterEdges(limiter) + MusicEdges() + TagEdges(tags)
  }

  /** Consecutive nodes of `p` are joined by edges of the graph. */
  predicate IsPath(edges: seq<Edge>, p: seq<Node>) {
    |p| >= 1 && forall i :: 0 <= i < |p| - 1 ==> Edge(p[i], p[i + 1]) in edges
  }

  /** Bus to output, through the limiter exactly when it is enabled. */
  function MasterPath(limiter: bool): seq<Node> {
    if limiter then [MasterBus, FadeNode, LimiterNode, Destination] else [MasterBus, FadeNode, Destination]
  }

  lemma MasterPathInGraph(limiter: bool, tags: nat)
    ensures IsPath(GraphEdges(limiter, tags), MasterPath(limiter))
  {
    var es := GraphEdges(limiter, tags);
    var p := MasterPath(limiter);
    forall i | 0 <= i < |p| - 1 ensures Edge(p[i], p[i + 1]) in es {
      assert es[i] == Edge(p[i], p[i + 1]);
    }
  }

  /** The music reaches the output through all five filters, in order, and then the master section. */
  lemma MusicPathInGraph(limiter: bool, tags: nat)
    ensures IsPath(GraphEdges(limiter, tags),
      [MusicSource, EqFilter(0), EqFilter(1), EqFilter(2), EqFilter(3), EqFilter(4)] + MasterPath(limiter))
  {
    var es := GraphEdges(limiter, tags);
    var m := |MasterEdges(limiter)|;
    var p := [MusicSource, EqFilter(0), EqFilter(1), EqFilter(2), EqFilter(3), EqFilter(4)] + MasterPath(limiter);
    MasterPathInGraph(limiter, tags);
    forall i | 0 <= i < |p| - 1 ensures Edge(p[i], p[i + 1]) in es {
      if i < 6 {
        assert es[m + i] == Edge(p[i], p[i + 1]);
      } else {
        assert p[i] == MasterPath(limiter)[i - 6] && p[i + 1] == MasterPath(limiter)[i - 5];
      }
    }
  }

  /** Every tag reaches the output through its own gain node and the master section, bypassing the equaliser. */
  lemma TagPathInGraph(limiter: bool, tags: nat, k: nat)
    requires k < tags
    ensures IsPath(GraphEdges(limiter, tags), [TagSource(k), TagGainNode(k)] + MasterPath(limiter))
  {
    var es := GraphEdges(limiter, tags);
    var off := |MasterEdges(limiter)| + |MusicEdges()|;
    var p := [TagSource(k), TagGainNode(k)] + MasterPath(limiter);
    MasterPathInGraph(limiter, tags);
    forall i | 0 <= i < |p| - 1 ensures Edge(p[i], p[i + 1]) in es {
      if i < 2 {
        assert es[off + 2 * k + i] == TagEdges(tags)[2 * k + i];
        assert es[off + 2 * k + i] == Edge(p[i], p[i + 1]);
      } else {
        assert p[i] == MasterPath(limiter)[i - 2] && p[i + 1] == MasterPath(limiter)[i - 1];
      }
    }
  }

  /**
   * The successor of each node in the signal chain: an independent statement
   * of where every node sends its output (none for the output itself).
   */
  function Next(limiter: bool, n: Node): Option<Node> {
    match n
    case MusicSource => Some(EqFilter(0))
    case EqFilter(i) => if i < 4 then Some(EqFilter(i + 1)) else if i == 4 then Some(MasterBus) else None
    case MasterBus => Some(FadeNode)
    case FadeNode => if limiter then Some(LimiterNode) else Some(Destination)
    case LimiterNode => if limiter then Some(Destination) else None
    case Destination => None
    case TagSource(k) => Some(TagGainNode(k))
    case TagGainNode(_) => Some(MasterBus)
  }

  lemma {:induction false} TagEdgesFollowNext(limiter: bool, count: nat)
    ensures forall e :: e in TagEdges(count) ==>
      Next(limiter, e.from) == Some(e.to) && (e.from.TagSource? || e.from.TagGainNode?) && e.from.k < count
  {
    if count > 0 {
      TagEdgesFollowNext(limiter, count - 1);
    }
  }

  /** Every edge of the graph goes from a node to its successor. */
  lemma GraphFollowsNext(limiter: bool, tags: nat)
    ensures forall e :: e in GraphEdges(limiter, tags) ==> Next(limiter, e.from) == Some(e.to)
  {
    TagEdgesFollowNext(limiter, tags);
    var es := GraphEdges(limiter, tags);
    assert forall e :: e in MasterEdges(limiter) ==> Next(limiter, e.from) == Some(e.to);
    assert forall e :: e in MusicEdges() ==> Next(limiter, e.from) == Some(e.to);
    forall e | e in es ensures Next(limiter, e.from) == Some(e.to) {
      assert e in MasterEdges(limiter) || e in MusicEdges() || e in TagEdges(tags);
    }
  }

  /**
   * The graph is a tree rooted at the output: no node feeds two places,
   * nothing leaves the output, and only the music chain feeds an equaliser filter.
   */
  lemma GraphIsTree(limiter: bool, tags: nat)
    ensures var es := GraphEdges(limiter, tags);
      && (forall e1, e2 :: e1 in es && e2 in es && e1.from == e2.from ==> e1 == e2)
      && (forall e :: e in es ==> e.from != Destination)
      && (forall e :: e in es && e.to.EqFilter? ==> e.from == MusicSource || e.from.EqFilter?)
  {
    GraphFollowsNext(limiter, tags);
  }

  /** The limiter is part of the graph exactly when it is enabled. */
  lemma LimiterInGraphIffEnabled(limiter: bool, tags: nat)
    ensures (exists e :: e in GraphEdges(limiter, tags) && e.to == LimiterNode) <==> limiter
  {
    var es := GraphEdges(limiter, tags);
    GraphFollowsNext(limiter, tags);
    if limiter {
      assert es[1] in es && es[1].to == LimiterNode;
    } else {
      forall e | e in es ensures e.to != LimiterNode {
        assert Next(limiter, e.from) == Some(e.to);
      }
    }
  }

  // ---------------------------------------------------------------------
  // Fade automation
  // ---------------------------------------------------------------------

  datatype Automation =
    | SetValueAtTime(value: real, time: real)
    | LinearRampToValueAtTime(value: real, time: real)

  /** When the fade starts: three seconds before the end, but never before the start. */
  function FadeStart(duration: real): (t: real)
    ensures t >= 0.0 && t >= duration - FadeSeconds
    ensures t == 0.0 || t == duration - FadeSeconds
  {
    Max(0.0, duration - FadeSeconds)
  }

  /** The automation events scheduled on the fade gain (none when fading is off). */
  function FadeEvents(fadeEnding: bool, duration: real): (ev: seq<Automation>)
    ensures !fadeEnding <==> ev == []
    ensures fadeEnding ==>
      ev == [SetValueAtTime(1.0, FadeStart(duration)), LinearRampToValueAtTime(0.0, duration)]
  {
    if fadeEnding then [SetValueAtTime(1.0, FadeStart(duration)), LinearRampToValueAtTime(0.0, duration)] else []
  }

  /**
   * The fade gain at time `t` for the two scheduled events, under the Web
   * Audio automation rules: the value set holds up to the fade start, then
   * falls linearly, reaching the ramp's value at the track's end and holding it.
   */
  function FadeGainAt(duration: real, t: real): (g: real)
    requires duration > 0.0
    ensures 0.0 <= g <= 1.0
  {
    var s := FadeStart(duration);
    if t <= s then 1.0
    else if t >= duration then 0.0
    else
      RampValue(duration, s, t);
      (duration - t) / (duration - s)
  }

  lemma RampValue(d: real, s: real, t: real)
    requires s < t < d
    ensures 0.0 < (d - t) / (d - s) < 1.0
  {
    FractionBelowOne(d - t, d - s);
  }

  lemma FractionBelowOne(a: real, b: real)
    requires 0.0 < a < b
    ensures 0.0 < a / b < 1.0
  {
    assert a / b + (b - a) / b == 1.0;
    assert (b - a) / b > 0.0;
  }

  /**
   * Holding and ramping: gain 1 until the fade start, gain 0 from the end on,
   * strictly between them in between, and never increasing.
   */
  lemma FadeEnvelope(duration: real, t: real, u: real)
    requires duration > 0.0
    ensures t <= FadeStart(duration) ==> FadeGainAt(duration, t) == 1.0
    ensures t >= duration ==> FadeGainAt(duration, t) == 0.0
    ensures FadeStart(duration) < t < duration ==> 0.0 < FadeGainAt(duration, t) < 1.0
    ensures t <= u ==> FadeGainAt(duration, u) <= FadeGainAt(duration, t)
  {
    var s := FadeStart(duration);
    if s < t < duration {
      RampValue(duration, s, t);
    }
    if t <= u && s < t && u < duration {
      RampMonotone(duration, s, t, u);
    }
  }

  lemma RampMonotone(d: real, s: real, t: real, u: real)
    requires s < t <= u < d
    ensures (d - u) / (d - s) <= (d - t) / (d - s)
  {
  }

  /** A ten-second track keeps full gain for its first seven seconds. */
  lemma FadeExample(t: real)
    requires 0.0 <= t <= 7.0
    ensures FadeGainAt(10.0, t) == 1.0 && FadeGainAt(10.0, 10.0) == 0.0
  {
  }

  // ---------------------------------------------------------------------
  // Tag schedule
  // ---------------------------------------------------------------------

  /** The k-th tag start, `k * interval`, kept behind a name. */
  function Tick(k: nat, interval: real): real {
    k as real * interval
  }

  /** How many tags fit: the number of k >= 0 with k*interval < duration - 2. */
  function TagCount(duration: real, interval: real): (n: nat)
    requires interval > 0.0
  {
    var room := duration - TagTailSeconds;
    if room <= 0.0 then 0 else Ceil(room / interval)
  }

  lemma TickStep(k: nat, interval: real)
    ensures Tick(k + 1, interval) == Tick(k, interval) + interval
  {
  }

  lemma TickNonNegative(k: nat, interval: real)
    requires interval > 0.0
    ensures Tick(k, interval) >= 0.0
  {
  }

  lemma DivCeilBounds(room: real, interval: real, k: nat, n: int)
    requires room > 0.0 && interval > 0.0
    requires n as real - 1.0 < room / interval <= n as real
    ensures k < n ==> k as real * interval < room
    ensures k >= n ==> k as real * interval >= room
  {
    if k < n {
      assert k as real <= n as real - 1.0;
      assert k as real < room / interval;
      assert k as real * interval < (room / interval) * interval;
    } else {
      assert k as real >= room / interval;
      assert k as real * interval >= (room / interval) * interval;
    }
  }

  /** The k-th start time is before the cut-off exactly when k is below the tag count. */
  lemma TagCountIsCutoff(duration: real, interval: real, k: nat)
    requires interval > 0.0
    ensures Tick(k, interval) < duration - TagTailSeconds <==> k < TagCount(duration, interval)
  {
    var room := duration - TagTailSeconds;
    TickNonNegative(k, interval);
    if room > 0.0 {
      DivCeilBounds(room, interval, k, Ceil(room / interval));
    }
  }

  /** The start times 0, interval, 2*interval, ... strictly before `duration - 2`. */
  function TagSchedule(duration: real, interval: real): (ts: seq<real>)
    requires interval > 0.0
    ensures |ts| == TagCount(duration, interval)
    ensures forall k :: 0 <= k < |ts| ==> ts[k] == Tick(k, interval)
  {
    seq(TagCount(duration, interval), k requires 0 <= k => Tick(k, interval))
  }

  /**
   * Exactly the multiples of the interval before the cut-off are scheduled,
   * in increasing order; none is scheduled when the track is 2 seconds or shorter.
   */
  lemma TagScheduleSpec(duration: real, interval: real)
    requires interval > 0.0
    ensures var ts := TagSchedule(duration, interval);
      && (forall k: nat :: k < |ts| <==> Tick(k, interval) < duration - TagTailSeconds)
      && (forall i, j :: 0 <= i < j < |ts| ==> ts[i] < ts[j])
      && (|ts| == 0 <==> duration <= TagTailSeconds)
  {
    var ts := TagSchedule(duration, interval);
    forall k: nat ensures k < |ts| <==> Tick(k, interval) < duration - TagTailSeconds {
      TagCountIsCutoff(duration, interval, k);
    }
    forall i, j | 0 <= i < j < |ts| ensures ts[i] < ts[j] {
      TickIncreasing(i, j, interval);
    }
    TagCountIsCutoff(duration, interval, 0);
  }

  lemma TickIncreasing(i: nat, j: nat, interval: real)
    requires i < j && interval > 0.0
    ensures Tick(i, interval) < Tick(j, interval)
  {
    assert (j as real - i as real) * interval > 0.0;
  }

  /** The schedule's boundary: at 65 s with a 30 s interval, three tags; at 62 s, two. */
  lemma TagScheduleExamples()
    ensures TagSchedule(65.0, 30.0) == [0.0, 30.0, 60.0]
    ensures TagSchedule(62.0, 30.0) == [0.0, 30.0]
  {
    assert TagCount(65.0, 30.0) == 3;
    assert TagCount(62.0, 30.0) == 2;
  }

  /**
   * The scheduling loop as written: start at 0, and while the start time is
   * before the cut-off record it and advance by the interval.  It ends for
   * every positive interval and yields the reference schedule.
   */
  method ScheduleTags(duration: real, interval: real) returns (ts: seq<real>)
    requires interval > 0.0
    ensures ts == TagSchedule(duration, interval)
  {
    var n := TagCount(duration, interval);
    ts := [];
    var startTime := 0.0;
    TagCountIsCutoff(duration, interval, 0);
    while startTime < duration - TagTailSeconds
      invariant |ts| <= n
      invariant startTime == Tick(|ts|, interval)
      invariant startTime < duration - TagTailSeconds <==> |ts| < n
      invariant forall k :: 0 <= k < |ts| ==> ts[k] == Tick(k, interval)
      decreases n - |ts|
    {
      ts := ts + [startTime];
      TickStep(|ts| - 1, interval);
      startTime := startTime + interval;
      TagCountIsCutoff(duration, interval, |ts|);
    }
  }

  datatype TagInsertion = TagInsertion(start: real, gain: real)

  /** Tags are inserted only with a tag buffer and a positive interval, each at gain 0.6. */
  function TagPlan(hasTag: bool, interval: real, duration: real): (ins: seq<TagInsertion>)
    ensures !hasTag || interval <= 0.0 ==> ins == []
    ensures hasTag && interval > 0.0 ==> (|ins| == TagCount(duration, interval)
      && forall k :: 0 <= k < |ins| ==> ins[k] == TagInsertion(Tick(k, interval), TagGain))
  {
    if hasTag && interval > 0.0 then
      var ts := TagSchedule(duration, interval);
      seq(|ts|, k requires 0 <= k < |ts| => TagInsertion(ts[k], TagGain))
    else []
  }

  // ---------------------------------------------------------------------
  // The plan
  // ---------------------------------------------------------------------

  /** Why a render context cannot be created: no positive rate, or no frames to render. */
  datatype RenderError = BadSampleRate | EmptyRender

  datatype Plan = Plan(
    channelCount: nat,
    frames: nat,
    sampleRate: int,
    filters: seq<FilterSpec>,
    edges: seq<Edge>,
    fade: seq<Automation>,
    limiter: Option<LimiterPreset>,
    tags: seq<TagInsertion>,
    normalize: bool)

  /**
   * Everything `renderProcessedAudio` decides before rendering.  A render
   * context needs a positive rate and at least one frame; otherwise the
   * render fails.
   */
  function BuildPlan(main: AudioBuffer, hasTag: bool, eq: EqSettings, opts: RenderOptions): (r: Result<Plan, RenderError>)
    requires Valid(main)
    ensures OutputRate(opts, main.sampleRate) <= 0 <==> r == Failure(BadSampleRate)
    ensures r == Failure(EmptyRender) <==>
      OutputRate(opts, main.sampleRate) > 0 && FrameCount(main, OutputRate(opts, main.sampleRate)) < 1
    ensures r.Success? ==>
      && r.value.channelCount == |main.channels|
      && r.value.frames == FrameCount(main, OutputRate(opts, main.sampleRate))
      && r.value.sampleRate == OutputRate(opts, main.sampleRate)
      && (r.value.limiter.Some? <==> opts.limiter)
      && (r.value.fade == [] <==> !opts.fadeEnding)
      && |r.value.filters| == 5
      && r.value.edges == GraphEdges(opts.limiter, |r.value.tags|)
      && r.value.filters == EqChain(eq)
      && r.value.fade == FadeEvents(opts.fadeEnding, Duration(main))
      && r.value.tags == TagPlan(hasTag, opts.tagInterval, Duration(main))
      && r.value.normalize == opts.normalize
  {
    var rate := OutputRate(opts, main.sampleRate);
    var frames := FrameCount(main, rate);
    if rate <= 0 then Failure(BadSampleRate)
    else if frames < 1 then Failure(EmptyRender)
    else
      var tags := TagPlan(hasTag, opts.tagInterval, Duration(main));
      Success(Plan(
        |main.channels|,
        frames,
        rate,
        EqChain(eq),
        GraphEdges(opts.limiter, |tags|),
        FadeEvents(opts.fadeEnding, Duration(main)),
        if opts.limiter then Some(Limiter) else None,
        tags,
        opts.normalize))
  }

  /** The limiter, when present, is the fixed brick-wall preset: hard knee, 20:1 above -1 dB. */
  lemma LimiterIsBrickWall(main: AudioBuffer, hasTag: bool, eq: EqSettings, opts: RenderOptions)
    requires Valid(main)
    requires BuildPlan(main, hasTag, eq, opts).Success?
    requires opts.limiter
    ensures var l := BuildPlan(main, hasTag, eq, opts).value.limiter.value;
      l.threshold == -1.0 && l.knee == 0.0 && l.ratio == 20.0 && l.attack == 0.005 && l.release == 0.1
  {
  }

  /**
   * The last step: the rendered buffer is normalised to `target` (the linear
   * value of -1 dBFS) exactly when the plan asks for it, and returned as it is
   * otherwise.
   */
  function PostProcess(plan: Plan, rendered: AudioBuffer, target: real): (out: AudioBuffer)
    requires target > 0.0
    ensures !plan.normalize ==> out == rendered
    ensures plan.normalize ==> out == NormalizeBuffer(rendered, target)
    ensures SameShape(out, rendered)
  {
    if plan.normalize then NormalizeBuffer(rendered, target) else rendered
  }

  /** With the native rate and no tags, the plan keeps the source's shape. */
  lemma PlanKeepsShape(main: AudioBuffer, eq: EqSettings, opts: RenderOptions)
    requires Valid(main) && Length(main) >= 1
    requires opts.targetSampleRate == None
    ensures BuildPlan(main, false, eq, opts).Success?
    ensures var p := BuildPlan(main, false, eq, opts).value;
      p.frames == Length(main) && p.sampleRate == main.sampleRate && p.channelCount == |main.channels|
      && p.tags == []
  {
    NativeRateKeepsLength(main);
  }
}
