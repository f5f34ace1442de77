/**
 * Deriving the video title from the loaded file: the final extension is cut
 * off (the pattern `\.[^/.]+$`), the rest is upper-cased and becomes the text
 * of the overlay whose id is "title"; the video length follows the file.
 */
module TrackTitle {
  import opened Wrappers
  import opened Text
  import opened Types

  /**
   * `name[j..]` is what `\.[^/.]+$` matches: a dot, then at least one
   * character up to the end, none of them a dot or a slash.
   */
  predicate ExtensionAt(name: string, j: int) {
    && 0 <= j < |name| - 1
    && name[j] == '.'
    && forall k :: j < k < |name| ==> name[k] != '.' && name[k] != '/'
  }

  /** Scans backwards from position `i` for the start of the extension. */
  function FindExtension(name: string, i: nat): (r: Option<nat>)
    requires i <= |name|
    requires forall k :: i <= k < |name| ==> name[k] != '.' && name[k] != '/'
    ensures r.Some? ==> ExtensionAt(name, r.value)
    ensures r.None? ==> forall j :: 0 <= j < i ==> !ExtensionAt(name, j)
    decreases i
  {
    if i == 0 then None
    else if name[i - 1] == '.' then (if i < |name| then Some(i - 1) else None)
    else if name[i - 1] == '/' then None
    else FindExtension(name, i - 1)
  }

  /** `name.replace(/\.[^/.]+$/, "")`. */
  function StripExtension(name: string): (base: string)
    ensures |base| <= |name| && base == name[..|base|]
  {
    match FindExtension(name, |name|)
    case Some(j) => name[..j]
    case None => name
  }

  /** There is at most one place the pattern can match. */
  lemma ExtensionUnique(name: string, i: int, j: int)
    requires ExtensionAt(name, i) && ExtensionAt(name, j)
    ensures i == j
  {
  }

  /**
   * The extension is cut exactly when the pattern matches, and then exactly
   * at the match; otherwise the name is kept whole.
   */
  lemma StripExtensionSpec(name: string)
    ensures forall j :: ExtensionAt(name, j) ==> StripExtension(name) == name[..j]
    ensures (forall j :: !ExtensionAt(name, j)) ==> StripExtension(name) == name
  {
    forall j | ExtensionAt(name, j) ensures StripExtension(name) == name[..j] {
      var r := FindExtension(name, |name|);
      assert r.Some?;
      ExtensionUnique(name, r.value, j);
    }
  }

  /** The title shown for a file name. */
  function TitleOf(fileName: string): (t: string)
    ensures |t| <= |fileName|
    ensures forall i :: 0 <= i < |t| ==> t[i] == UpperChar(fileName[i])
  {
    ToUpper(StripExtension(fileName))
  }

  lemma TitleExamples()
    ensures TitleOf("beat.mp3") == "BEAT"
    ensures TitleOf("my.beat.wav") == "MY.BEAT"
    ensures TitleOf("noext") == "NOEXT"
    ensures TitleOf("trailing.") == "TRAILING."
    ensures TitleOf(".env") == ""
  {
    assert ExtensionAt("beat.mp3", 4);
    assert ExtensionAt("my.beat.wav", 7);
    assert ExtensionAt(".env", 0);
    StripExtensionSpec("beat.mp3");
    StripExtensionSpec("my.beat.wav");
    StripExtensionSpec(".env");
    assert FindExtension("noext", 5) == None;
    assert FindExtension("trailing.", 9) == None;
  }

  /** The loaded file as the title sync sees it. */
  datatype ActiveFile = ActiveFile(name: string, duration: real)

  /** Sets the title overlay's text; every other overlay is returned as it is. */
  function RetitleOverlays(overlays: seq<VideoOverlay>, title: string): (r: seq<VideoOverlay>)
    ensures |r| == |overlays|
    ensures forall i :: 0 <= i < |r| ==>
      if overlays[i].id == "title" then r[i] == overlays[i].(text := title) else r[i] == overlays[i]
  {
    seq(|overlays|, i requires 0 <= i < |overlays| =>
      if overlays[i].id == "title" then overlays[i].(text := title) else overlays[i])
  }

  /** The effect run when the active file changes; with no file nothing changes. */
  function SyncToFile(settings: VideoSettings, file: Option<ActiveFile>): (r: VideoSettings)
    ensures file.None? ==> r == settings
    ensures file.Some? ==>
      && r == settings.(videoDuration := file.value.duration, overlays := r.overlays)
      && |r.overlays| == |settings.overlays|
      && forall i :: 0 <= i < |r.overlays| ==>
        if settings.overlays[i].id == "title"
        then r.overlays[i] == settings.overlays[i].(text := TitleOf(file.value.name))
        else r.overlays[i] == settings.overlays[i]
  {
    match file
    case None => settings
    case Some(f) =>
      settings.(videoDuration := f.duration, overlays := RetitleOverlays(settings.overlays, TitleOf(f.name)))
  }

  /** Running the effect twice for the same file is the same as running it once. */
  lemma SyncIdempotent(settings: VideoSettings, file: Option<ActiveFile>)
    ensures SyncToFile(SyncToFile(settings, file), file) == SyncToFile(settings, file)
  {
    if file.Some? {
      var once := SyncToFile(settings, file);
      var twice := SyncToFile(once, file);
      assert twice.overlays == once.overlays;
    }
  }

  /** On the default overlays only the title slot changes. */
  lemma SyncDefaults(file: ActiveFile)
    ensures var r := SyncToFile(DefaultVideoSettings, Some(file));
      && r.overlays[0] == DefaultOverlays[0]
      && r.overlays[1].text == TitleOf(file.name)
      && r.overlays[2] == DefaultOverlays[2]
      && r.videoDuration == file.duration
  {
  }
}
