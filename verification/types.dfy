/**
 * The application's shared domain types: equaliser settings, tag and render
 * options, the visualiser and colour-grade enumerations, text overlays and the
 * video settings record.
 */
module Types {
  import opened Wrappers

  /** Gain in decibels of each of the five equaliser bands. */
  datatype EqSettings = EqSettings(low: real, lowMid: real, mid: real, highMid: real, high: real)

  /** The five band gains, lowest band first. */
  function BandGains(eq: EqSettings): (g: seq<real>)
    ensures |g| == 5
    ensures g[0] == eq.low && g[1] == eq.lowMid && g[2] == eq.mid
    ensures g[3] == eq.highMid && g[4] == eq.high
  {
    [eq.low, eq.lowMid, eq.mid, eq.highMid, eq.high]
  }

  /** The equaliser the main screen starts with: every band flat. */
  const DefaultEq: EqSettings := EqSettings(0.0, 0.0, 0.0, 0.0, 0.0)

  /** The knobs span [-MaxEqDb, MaxEqDb]. */
  const MaxEqDb: real := 12.0

  /** The tag interval in seconds is one of 15, 20 and 30. */
  type TagInterval = x: int | x == 15 || x == 20 || x == 30 witness 30

  datatype TagSettings = TagSettings(interval: TagInterval, volume: real, enabled: bool)

  /** The export sample rate is one of 44100 and 48000 Hz. */
  type TargetRate = x: int | x == 44100 || x == 48000 witness 44100

  datatype AppState = AppState(
    isPlaying: bool,
    currentTime: real,
    duration: real,
    volume: real,
    normalize: bool,
    fadeEnding: bool,
    limiter: bool,
    targetSampleRate: TargetRate)

  datatype AspectRatio = Landscape | Portrait

  /** The pixel size of a generated video: 1920x1080 or 1080x1920. */
  function FrameSize(a: AspectRatio): (wh: (nat, nat))
    ensures wh.0 * wh.1 == 1920 * 1080
    ensures a == Landscape <==> wh.0 > wh.1
    ensures wh == (if a == Landscape then (1920, 1080) else (1080, 1920))
  {
    if a == Landscape then (1920, 1080) else (1080, 1920)
  }

  datatype BackgroundType = ImageBackground | VideoBackground

  datatype VisualizerKind =
    | Waveform | TrapNation | Particles | Bars | DualBars | Oscilloscope | Eclipse | Matrix

  datatype ColorGrade =
    | NoGrade | Sepia | HighContrast | Cyberpunk | Bw | Vhs | Glitch | Dreamy | Eighties | Noir

  /** Every visualiser kind, in declaration order. */
  const AllVisualizers: seq<VisualizerKind> :=
    [Waveform, TrapNation, Particles, Bars, DualBars, Oscilloscope, Eclipse, Matrix]

  /** Every colour grade, in declaration order. */
  const AllColorGrades: seq<ColorGrade> :=
    [NoGrade, Sepia, HighContrast, Cyberpunk, Bw, Vhs, Glitch, Dreamy, Eighties, Noir]

  /** The string tag the settings record stores for a visualiser. */
  function VisualizerName(v: VisualizerKind): string {
    match v
    case Waveform => "waveform"
    case TrapNation => "trap-nation"
    case Particles => "particles"
    case Bars => "bars"
    case DualBars => "dual-bars"
    case Oscilloscope => "oscilloscope"
    case Eclipse => "eclipse"
    case Matrix => "matrix"
  }

  function ParseVisualizer(s: string): Option<VisualizerKind> {
    if s == "waveform" then Some(Waveform)
    else if s == "trap-nation" then Some(TrapNation)
    else if s == "particles" then Some(Particles)
    else if s == "bars" then Some(Bars)
    else if s == "dual-bars" then Some(DualBars)
    else if s == "oscilloscope" then Some(Oscilloscope)
    else if s == "eclipse" then Some(Eclipse)
    else if s == "matrix" then Some(Matrix)
    else None
  }

  /** The string tag the settings record stores for a colour grade. */
  function ColorGradeName(g: ColorGrade): string {
    match g
    case NoGrade => "none"
    case Sepia => "sepia"
    case HighContrast => "high-contrast"
    case Cyberpunk => "cyberpunk"
    case Bw => "bw"
    case Vhs => "vhs"
    case Glitch => "glitch"
    case Dreamy => "dreamy"
    case Eighties => "1980s"
    case Noir => "noir"
  }

  function ParseColorGrade(s: string): Option<ColorGrade> {
    if s == "none" then Some(NoGrade)
    else if s == "sepia" then Some(Sepia)
    else if s == "high-contrast" then Some(HighContrast)
    else if s == "cyberpunk" then Some(Cyberpunk)
    else if s == "bw" then Some(Bw)
    else if s == "vhs" then Some(Vhs)
    else if s == "glitch" then Some(Glitch)
    else if s == "dreamy" then Some(Dreamy)
    else if s == "1980s" then Some(Eighties)
    else if s == "noir" then Some(Noir)
    else None
  }

  /** There are exactly eight visualisers; their tags are distinct and parse back. */
  lemma VisualizerEnumeration()
    ensures |AllVisualizers| == 8
    ensures forall v: VisualizerKind :: v in AllVisualizers
    ensures forall i, j :: 0 <= i < j < |AllVisualizers| ==> AllVisualizers[i] != AllVisualizers[j]
  {
    forall v: VisualizerKind ensures v in AllVisualizers {
      match v
      case Waveform => assert AllVisualizers[0] == v;
      case TrapNation => assert AllVisualizers[1] == v;
      case Particles => assert AllVisualizers[2] == v;
      case Bars => assert AllVisualizers[3] == v;
      case DualBars => assert AllVisualizers[4] == v;
      case Oscilloscope => assert AllVisualizers[5] == v;
      case Eclipse => assert AllVisualizers[6] == v;
      case Matrix => assert AllVisualizers[7] == v;
    }
  }

  /** Tags and parsing are mutually inverse. */
  lemma VisualizerTags()
    ensures forall v: VisualizerKind :: ParseVisualizer(VisualizerName(v)) == Some(v)
    ensures forall s, v :: ParseVisualizer(s) == Some(v) ==> VisualizerName(v) == s
  {
    forall s, v | ParseVisualizer(s) == Some(v) ensures VisualizerName(v) == s {
    }
  }

  /** There are exactly ten colour grades; their tags are distinct and parse back. */
  lemma ColorGradeEnumeration()
    ensures |AllColorGrades| == 10
    ensures forall g: ColorGrade :: g in AllColorGrades
    ensures forall i, j :: 0 <= i < j < |AllColorGrades| ==> AllColorGrades[i] != AllColorGrades[j]
  {
    forall g: ColorGrade ensures g in AllColorGrades {
      match g
      case NoGrade => assert AllColorGrades[0] == g;
      case Sepia => assert AllColorGrades[1] == g;
      case HighContrast => assert AllColorGrades[2] == g;
      case Cyberpunk => assert AllColorGrades[3] == g;
      case Bw => assert AllColorGrades[4] == g;
      case Vhs => assert AllColorGrades[5] == g;
      case Glitch => assert AllColorGrades[6] == g;
      case Dreamy => assert AllColorGrades[7] == g;
      case Eighties => assert AllColorGrades[8] == g;
      case Noir => assert AllColorGrades[9] == g;
    }
  }

  /** Tags and parsing are mutually inverse. */
  lemma ColorGradeTags()
    ensures forall g: ColorGrade :: ParseColorGrade(ColorGradeName(g)) == Some(g)
    ensures forall s, g :: ParseColorGrade(s) == Some(g) ==> ColorGradeName(g) == s
  {
    forall s, g | ParseColorGrade(s) == Some(g) ensures ColorGradeName(g) == s {
    }
  }

  /**
   * A text overlay.  `x` and `y` are fractions of the frame's width and
   * height; the overlay is drawn centred on that point.
   */
  datatype VideoOverlay = VideoOverlay(
    id: string,
    editorLabel: string,
    text: string,
    x: real,
    y: real,
    visible: bool,
    fontSize: real,
    color: string)

  /** The overlay's anchor lies inside the frame. */
  predicate Normalised(o: VideoOverlay) {
    0.0 <= o.x <= 1.0 && 0.0 <= o.y <= 1.0
  }

  datatype VideoSettings = VideoSettings(
    aspectRatio: AspectRatio,
    isGenerating: bool,
    previewUrl: Option<string>,
    artistName: string,
    videoDuration: real,
    fadeDuration: real,
    backgroundType: BackgroundType,
    backgroundUrl: Option<string>,
    logoUrl: Option<string>,
    logoScale: real,
    logoX: real,
    logoY: real,
    fontFamily: string,
    visualizer: VisualizerKind,
    motionBlur: bool,
    colorGrade: ColorGrade,
    showGrid: bool,
    snapToGrid: bool,
    overlays: seq<VideoOverlay>)

  /** The three overlay slots the editor starts with: producer, title and price. */
  const DefaultOverlays: seq<VideoOverlay> := [
    VideoOverlay("producer", "Producer / Artist Name", "PRODUCED BY BEATBOY", 0.5, 0.85, true, 60.0, "#ffffff"),
    VideoOverlay("title", "Track Title", "TRACK TITLE", 0.5, 0.15, true, 80.0, "#ffffff"),
    VideoOverlay("price", "Price Card", "$20 LEASE / $100 EXCLUSIVE", 0.9, 0.9, false, 30.0, "#ffffff")
  ]

  const DefaultVideoSettings: VideoSettings := VideoSettings(
    Landscape, false, None, "BEATBOY", 0.0, 2.0, ImageBackground, None, None,
    1.0, 0.05, 0.05, "sans-serif", Waveform, false, NoGrade, false, false,
    DefaultOverlays)

  /** The default overlays carry the ids producer, title and price, all anchored inside the frame. */
  lemma DefaultOverlaysWellFormed()
    ensures |DefaultVideoSettings.overlays| == 3
    ensures forall o :: o in DefaultVideoSettings.overlays ==> Normalised(o)
    ensures [DefaultOverlays[0].id, DefaultOverlays[1].id, DefaultOverlays[2].id] == ["producer", "title", "price"]
    ensures !DefaultOverlays[2].visible
  {
  }
}
