# Beatboy core, modelled in Dafny

Beatboy is a browser application for beat producers. It:

- loads beats and runs them through an offline Web Audio render (five-band equaliser, voice tags mixed in at a fixed interval, a fade-out, an optional brick-wall limiter, peak normalisation to -1 dBFS);
- writes the result as 16-bit PCM WAV, one file or a zipped batch;
- composes lyric-style videos from the track, with visualisers driven by the analyser's frequency bins, colour grades applied to the canvas pixels, and text overlays that can be dragged in a preview;
- offers producer tools (a hashtag generator, an SEO text generator, a price chart, a split sheet);
- is gated by a serial-number licence that the landing screen activates and the main screen re-validates in the background.

This project models the logic of that core as pure Dafny functions, plus a few methods where the source loops. It proves what each piece promises. One module follows each part of the program:

| module | file | models |
|---|---|---|
| `Numeric`, `Text`, `Wrappers` | numeric.dfy, text.dfy, wrappers.dfy | JavaScript number and string helpers (`Math.round`, `Math.floor`, truncation, `padStart`, `trim`, `toUpperCase` on ASCII, template literals) |
| `Types` | types.dfy | the records and string unions of `types.ts` and the default video settings |
| `Audio` | audio.dfy | the audio buffer: sample rate plus equal-length channels |
| `Wav` | wav.dfy | `bufferToWav` as written and as corrected (see "Findings"), and a reader for the files they write |
| `Normalize` | normalize.dfy | `normalizeBuffer` |
| `RenderPlan` | render_plan.dfy | `renderProcessedAudio` and `createLimiter`: output rate and length, node graph, fade automation, tag schedule, post-processing |
| `BulkExport` | bulk_export.dfy | `handleBulkExport`: batches of four, entry names, progress, abort on failure |
| `TapTempo` | tap_tempo.dfy | the tap-tempo widget |
| `TimeFormat` | time_format.dfy | `formatTime` |
| `TrackTitle` | track_title.dfy | the title overlay following the loaded file's name |
| `Visualizer` | visualizer.dfy | bass level, pulse and zoom factors, bin indices read by the visualisers |
| `Grading` | color_grade.dfy | the per-pixel colour grades and the red-channel shift |
| `OverlayEditor` | overlay_editor.dfy | hit test, drag, clamp and snap of the preview's text overlays |
| `LicenseApi` | license.dfy | the background licence check |
| `SerialEntry` | serial.dfy | the landing screen's serial field and activation request |
| `AppGate` | activation.dfy | the application shell's switch between landing and main screens |
| `Waveform` | waveform.dfy | the waveform strip: bars, playhead and scrubbing |
| `Knob` | knob.dfy | the rotary EQ knob |
| `ProducerTools` | producer_tools.dfy | the hashtag and SEO generators, price chart and split sheet |

Modelling conventions:

- **Numbers.** JavaScript numbers are `real`. Integer-valued quantities (sample counts, milliseconds, bytes) are `int`/`nat`.
- **Integer widths.** Where the source relies on a width, the model writes it out: `setUint16`/`setUint32` reduce modulo 2^16 and 2^32, `| 0` truncates toward zero, and a `Uint8ClampedArray` store clamps and rounds half to even.
- **JavaScript operators.** `%` on numbers keeps the sign of the dividend, `Math.round` rounds halves up, and `toFixed(1)` keeps a minus sign for any negative value.
- **Outside inputs.** Randomness, clocks and server replies are parameters. A server reply is a record of JSON-like fields, so that JavaScript's truthiness and strict equality can be modelled exactly.

## Model

| member | source | states |
|---|---|---|
| Types.BandGains | types.ts:10-16 | the five band gains are listed lowest band first and each is the matching settings field |
| Types.FrameSize | components/MainApp.tsx:1154-1155 | a 16:9 video is exactly 1920x1080 and a 9:16 video exactly 1080x1920, with the same pixel count either way and landscape exactly for 16:9 |
| Types.VisualizerEnumeration | types.ts:36 | there are exactly eight visualisers and they are distinct |
| Types.VisualizerTags | types.ts:36 | every visualiser's string tag parses back to it, and every tag that parses is that visualiser's tag |
| Types.ColorGradeEnumeration | types.ts:38 | there are exactly ten colour grades and they are distinct |
| Types.ColorGradeTags | types.ts:38 | colour-grade tags and parsing are mutually inverse |
| Types.DefaultOverlaysWellFormed | components/MainApp.tsx:169-173 | the editor starts with the producer, title and price overlays, all anchored inside the frame, the price card hidden |
| Wav.PcmSampleScale | utils/audioUtils.ts:219-221 | a sample is clamped to [-1, 1], scaled by 32768 only when it is below -0.5 and by 32767 otherwise, then truncated; full scale maps to 32767 and -32768 |
| Wav.PcmSampleQuirk | utils/audioUtils.ts:221 | -0.25 is written as -8191, not the -8192 a plain "negative times 32768" rule gives |
| Wav.PcmSampleMonotone | utils/audioUtils.ts:219-221 | the float-to-int16 conversion never reverses the order of two samples |
| Wav.MagicNumbersSpellTags | utils/audioUtils.ts:196-209 | the four 32-bit constants written little-endian spell "RIFF", "WAVE", "fmt " and "data" |
| Wav.U16RoundTrip | utils/audioUtils.ts:230-233 | a 16-bit little-endian field reads back as the value modulo 2^16 |
| Wav.U32RoundTrip | utils/audioUtils.ts:234-237 | a 32-bit little-endian field reads back as the value modulo 2^32 |
| Wav.I16RoundTrip | utils/audioUtils.ts:222 | an int16 sample reads back unchanged |
| Wav.PcmSample | utils/audioUtils.ts:219-221 | every stored code lies in the int16 range [-32768, 32767] |
| Wav.WavHeader | utils/audioUtils.ts:196-210 | the header is exactly 44 bytes |
| Wav.DataBytes | utils/audioUtils.ts:184-185 | the corrected data chunk holds two bytes per sample per channel |
| Wav.BufferToWav | utils/audioUtils.ts:184-187 | the corrected encoder's file is 44 header bytes plus two bytes per sample per channel, the size the source allocates |
| Wav.TagBytes | utils/audioUtils.ts:230-237 | a 32-bit value written little-endian gives its four base-256 digits, lowest first |
| Wav.HeaderSlices | utils/audioUtils.ts:196-210 | each of the thirteen header fields sits at its offset, in order |
| Wav.HeaderFields | utils/audioUtils.ts:196-210 | whatever data of the allocated length follows, the header holds the four tags, the RIFF size (file length - 8), PCM format 1, the channel count, the rate, the byte rate, the block alignment, 16 bits and the data size (file length - 44), all modulo their field widths |
| Wav.SampleOffset | utils/audioUtils.ts:213-226 | in the corrected encoder, frame p of channel c is stored at byte 44 + 2*(p*channels + c), as the converted sample |
| Wav.DeinterleaveEncoded | utils/audioUtils.ts:216-226 | de-interleaving the corrected encoder's data gives back every channel's converted samples |
| Wav.WavRoundTrip | utils/audioUtils.ts:184-238 | when the fields fit their widths, reading the corrected encoder's file gives the channel count, the sample rate and the converted samples of every channel |
| Wav.DataBytesAsWritten | utils/audioUtils.ts:185-226 | as written, the data chunk still has the allocated size, two bytes per sample per channel |
| Wav.BufferToWavAsWritten | utils/audioUtils.ts:183-238 | as written, the file has the allocated size, 44 bytes plus two per sample per channel |
| Wav.LoopBytesLength | utils/audioUtils.ts:216-226 | a loop over frames pos..n-1 writes two bytes per channel per frame, and never more than the data chunk holds |
| Wav.LoopSampleAt | utils/audioUtils.ts:216-226 | in the loop's output, frame pos + d of channel c sits at 2*(d*channels + c) |
| Wav.DataSampleAsWritten | utils/audioUtils.ts:192-226 | as written, frame 44 + q of channel c lands at byte 2*(q*channels + c) of the data chunk |
| Wav.SampleOffsetAsWritten | utils/audioUtils.ts:192-226 | as written, frame 44 + q of channel c is stored at byte 44 + 2*(q*channels + c) of the file, 44 frames before its place |
| Wav.ZeroTailAsWritten | utils/audioUtils.ts:186-226 | as written, every byte after the frames the loop reaches is zero, so a buffer of at most 44 frames gets an all-zero data chunk |
| Wav.DeinterleaveAsWritten | utils/audioUtils.ts:192-226 | as written, de-interleaving gives every channel's codes from frame 44 on, moved to the front and followed by zeros |
| Wav.ParseAsWritten | utils/audioUtils.ts:183-238 | as written, reading the file gives the right channel count and rate but frames 44..n-1 followed by silence in place of the samples |
| Wav.RoundTripFailsAsWritten | utils/audioUtils.ts:183-238 | a one-frame full-scale buffer converts to 32767, reads back as 0 from the file as written, and as 32767 from the corrected encoder |
| Normalize.ChannelPeakIsMax | utils/audioUtils.ts:33-39 | no sample of a channel exceeds its peak, and a non-zero peak is some sample's magnitude |
| Normalize.PeakIsMax | utils/audioUtils.ts:33-39 | the same over all channels |
| Normalize.PeakZeroIffSilent | utils/audioUtils.ts:41 | the peak is zero exactly when every sample is zero |
| Normalize.FindPeak | utils/audioUtils.ts:30-39 | the nested scan computes the reference peak |
| Normalize.PeakUnique | utils/audioUtils.ts:33-39 | the peak is the only value that bounds every sample and is zero or attained |
| Normalize.PeakScale | utils/audioUtils.ts:48-53 | multiplying every sample by a non-negative gain multiplies the peak by it |
| Normalize.GainHitsTarget | utils/audioUtils.ts:44 | the gain target/peak brings the peak to the target |
| Normalize.NormalizeBuffer | utils/audioUtils.ts:27-57 | the shape is kept; a silent buffer and an insignificant gain (within 0.001 of 1) leave the buffer unchanged; otherwise the new peak is the target |
| Normalize.NormalizeReachesTarget | utils/audioUtils.ts:44-54 | after normalising, a second pass would find an insignificant gain |
| Normalize.NormalizeIsUniformGain | utils/audioUtils.ts:48-53 | every output sample is its input times one common positive gain |
| Normalize.NormalizeIdempotent | utils/audioUtils.ts:27-57 | normalising twice to the same target equals normalising once |
| RenderPlan.OutputRate | utils/audioUtils.ts:74 | the requested rate is used when given and non-zero, the source rate otherwise |
| RenderPlan.FrameCount | utils/audioUtils.ts:77 | the render length is the ceiling of duration times rate |
| RenderPlan.NativeRateKeepsLength | utils/audioUtils.ts:74-77 | rendering at the source's own rate keeps its length |
| RenderPlan.ResampledLengthExample | utils/audioUtils.ts:77 | two seconds at 44100 Hz rendered at 48000 Hz gives 96000 frames |
| RenderPlan.EqChain | utils/audioUtils.ts:134-139 | the equaliser is a chain of exactly five filters |
| RenderPlan.EqChainShape | utils/audioUtils.ts:134-139 | the chain carries the five band gains in order, with strictly rising frequencies, shelf-peaking-peaking-peaking-shelf |
| RenderPlan.TagEdges | utils/audioUtils.ts:164-165 | each tag source feeds its own gain node, which feeds the master bus |
| RenderPlan.MasterPathInGraph | utils/audioUtils.ts:92-118 | the bus reaches the output through the fade node, and through the limiter exactly when enabled |
| RenderPlan.MusicPathInGraph | utils/audioUtils.ts:141-147 | the music passes through all five filters in order and then the master section |
| RenderPlan.TagPathInGraph | utils/audioUtils.ts:153-170 | every tag reaches the output through its gain node and the master section, bypassing the equaliser |
| RenderPlan.GraphFollowsNext | utils/audioUtils.ts:86-170 | every connection goes from a node to its successor in the independently stated signal chain |
| RenderPlan.GraphIsTree | utils/audioUtils.ts:86-170 | no node feeds two places, nothing leaves the output, and only the music chain feeds a filter |
| RenderPlan.LimiterInGraphIffEnabled | utils/audioUtils.ts:111-115 | the limiter is in the graph exactly when the option is on |
| RenderPlan.FadeStart | utils/audioUtils.ts:102-104 | the fade starts three seconds before the end but never before zero |
| RenderPlan.FadeEvents | utils/audioUtils.ts:100-108 | automation is scheduled exactly when fading is on, and then it is a set to 1 at the fade start followed by a linear ramp to 0 at the track's end |
| RenderPlan.FadeGainAt | utils/audioUtils.ts:100-108 | the fade gain never leaves [0, 1] |
| RenderPlan.FadeEnvelope | utils/audioUtils.ts:100-108 | the gain is 1 up to the fade start, 0 from the end on, strictly between in between, and never rises |
| RenderPlan.FadeExample | utils/audioUtils.ts:100-108 | a ten-second track keeps full gain for seven seconds and is silent at ten |
| RenderPlan.TagCountIsCutoff | utils/audioUtils.ts:157 | the k-th start time is before the cut-off (duration - 2) exactly when k is below the tag count |
| RenderPlan.TagScheduleSpec | utils/audioUtils.ts:154-170 | exactly the multiples of the interval before the cut-off are scheduled, in increasing order; none when the track lasts 2 s or less |
| RenderPlan.TagScheduleExamples | utils/audioUtils.ts:155-169 | at 65 s with a 30 s interval the tags start at 0, 30 and 60; at 62 s, at 0 and 30 |
| RenderPlan.ScheduleTags | utils/audioUtils.ts:155-169 | the while loop ends for every positive interval and yields the reference schedule |
| RenderPlan.TagPlan | utils/audioUtils.ts:154-170 | tags are inserted only with a tag buffer and a positive interval, each at the scheduled time with gain 0.6 |
| RenderPlan.BuildPlan | utils/audioUtils.ts:62-179 | the render fails for a non-positive rate or an empty length; otherwise the plan has the source's channel count, the computed length and rate, the limiter iff enabled, the five-band equaliser for the given settings, the fade events for the option and the track's duration, the tag insertions for the tag buffer and interval, the stated graph, and normalisation exactly when the option asks for it |
| RenderPlan.LimiterIsBrickWall | utils/audioUtils.ts:14-22 | the limiter has threshold -1 dB, knee 0, ratio 20, attack 0.005 s and release 0.1 s |
| RenderPlan.PostProcess | utils/audioUtils.ts:177-181 | the rendered buffer is normalised exactly when the plan asks for it (which `BuildPlan` ties to the option), and keeps its shape |
| RenderPlan.PlanKeepsShape | utils/audioUtils.ts:74-84 | at the native rate without tags the plan keeps the source's length, rate and channel count |
| BulkExport.EntryName | components/MainApp.tsx:691 | an archive entry is named "TAGGED_" + file name + ".wav" |
| BulkExport.Entries | components/MainApp.tsx:687-697 | there is never more than one entry per file |
| BulkExport.EntriesOfRendered | components/MainApp.tsx:687-697 | when every file renders, the entries are one per file, in order |
| BulkExport.EntriesSkipMissing | components/MainApp.tsx:688-697 | files without a buffer contribute no entry |
| BulkExport.Percent | components/MainApp.tsx:699 | the progress is between 0 and 100 and is 100 once all files are done |
| BulkExport.PercentMonotone | components/MainApp.tsx:699 | progress never goes down as more files are done |
| BulkExport.BatchCount | components/MainApp.tsx:684-685 | the batches of four cover all files, and one batch fewer would not |
| BulkExport.BatchCountUnique | components/MainApp.tsx:684-685 | the batch count is the least b with 4b at least the file count |
| BulkExport.UpdatesComplete | components/MainApp.tsx:699-704 | the progress updates of a full run end at all files and 100 percent and never go backwards |
| BulkExport.BulkExportRun | components/MainApp.tsx:676-720 | an empty queue does nothing; the export fails exactly when some render throws, after the updates of the batches before the failing one; otherwise it zips every rendered file's entry, in order |
| BulkExport.Batch | components/MainApp.tsx:686 | a batch holds one to four files and ends where the files covered by the next batch count begin |
| BulkExport.BatchStep | components/MainApp.tsx:686-697 | each batch's entries follow those of the files before it, and with no failure in either there is none in the whole |
| BulkExport.FailureInBatch | components/MainApp.tsx:683-719 | a failure in batch b with none before it aborts the run at batch b |
| TapTempo.KeepRecent | components/MainApp.tsx:80 | the kept taps are exactly the taps less than two seconds old |
| TapTempo.NewTapKept | components/MainApp.tsx:80 | the new tap is always kept, as the last tap |
| TapTempo.Intervals | components/MainApp.tsx:86-89 | the gaps are the differences of consecutive taps |
| TapTempo.SumIntervals | components/MainApp.tsx:90 | the gaps add up to the span from the first tap to the last |
| TapTempo.TempoOf | components/MainApp.tsx:85-93 | fewer than two taps give tempo 0 |
| TapTempo.HandleTap | components/MainApp.tsx:78-95 | the loop-and-average tempo equals the span-based reference, 0 for fewer than two taps |
| TapTempo.SteadyTaps | components/MainApp.tsx:85-91 | steady taps every g milliseconds read as round(60000 / g) |
| TapTempo.HalfSecondTaps | components/MainApp.tsx:85-91 | taps half a second apart read as 120 beats per minute |
| TapTempo.PauseResets | components/MainApp.tsx:80-93 | after a pause of two seconds the next tap resets the tempo to 0 |
| TimeFormat.JsRem60 | components/MainApp.tsx:59 | the remainder by 60 has the sign of the dividend and magnitude below 60 |
| TimeFormat.ClockFields | components/MainApp.tsx:58-59 | for a non-negative time the minutes and seconds are a whole-minute split of the whole seconds |
| TimeFormat.FormatTime | components/MainApp.tsx:56-61 | a missing or NaN time shows "00:00", and every display has at least five characters including a colon |
| TimeFormat.ClockReadsBack | components/MainApp.tsx:60 | two padded fields and a colon read back as the two numbers |
| TimeFormat.FormatTimeReadsBack | components/MainApp.tsx:56-61 | a time under 100 minutes shows as MM:SS, whose fields total the whole seconds |
| TimeFormat.FormatTimeZero | components/MainApp.tsx:56-61 | a missing or NaN time, and time zero, show "00:00" |
| TimeFormat.FormatTimeWhole | components/MainApp.tsx:56-61 | fractions of a second are dropped: 125.7 s shows "02:05" |
| TimeFormat.FormatTimeNegative | components/MainApp.tsx:56-61 | a negative time shows both fields signed: -30 s shows "-1:-30" |
| TrackTitle.FindExtension | components/MainApp.tsx:282 | the backward scan finds the one place the extension pattern matches, or reports that there is none |
| TrackTitle.ExtensionUnique | components/MainApp.tsx:282 | the extension pattern can match in at most one place |
| TrackTitle.StripExtension | components/MainApp.tsx:282 | the stripped name is a prefix of the file name |
| TrackTitle.StripExtensionSpec | components/MainApp.tsx:282 | the name is cut exactly at the match when the pattern matches, and kept whole otherwise |
| TrackTitle.TitleOf | components/MainApp.tsx:282 | the title is an upper-cased prefix of the file name |
| TrackTitle.TitleExamples | components/MainApp.tsx:282 | "beat.mp3" gives "BEAT", "my.beat.wav" gives "MY.BEAT", "trailing." is kept, ".env" gives "" |
| TrackTitle.SyncToFile | components/MainApp.tsx:280-289 | with no file nothing changes; otherwise only the duration and the title overlays' text change |
| TrackTitle.SyncIdempotent | components/MainApp.tsx:280-289 | running the effect twice for the same file equals running it once |
| TrackTitle.SyncDefaults | components/MainApp.tsx:280-289 | on the default overlays only the title slot changes |
| Visualizer.SumLowBins | components/MainApp.tsx:724-725 | the accumulation loop computes the sum of the lowest bins |
| Visualizer.Bass | components/MainApp.tsx:724-726 | the bass level lies in [0, 255] |
| Visualizer.Pulse | components/MainApp.tsx:727 | the pulse lies in [1, 1.15] |
| Visualizer.BackgroundZoom | components/MainApp.tsx:753 | the background zoom lies in [1, 1.05] |
| Visualizer.LogoScale | components/MainApp.tsx:1291-1295 | the live preview's logo scale lies in [1, 1.15] |
| Visualizer.PreviewSpectrum | components/MainApp.tsx:1284-1313 | the video frame receives the analyser's bins while live, and 256 bins of 10 otherwise |
| Visualizer.PreviewLogoScale | components/MainApp.tsx:1287-1310 | the logo scale lies in [1, 1.15], pulses with the four lowest bins while live, and is exactly 1 otherwise |
| Visualizer.IdleBass | components/MainApp.tsx:724-753 | while paused, the video frame's six-bin bass is the fill value 10, so the pulse is 1 + 1/170 and the background zoom 1 + 1/510 |
| Visualizer.TrapNationMirror | components/MainApp.tsx:815-817 | bar i and bar 120 - i of the ring read the same bin |
| Visualizer.ReadsInRange | components/MainApp.tsx:815-909 | no visualiser reads past bin 127 (126 apart from the matrix), so the 256 bins always suffice |
| Visualizer.BarLength | components/MainApp.tsx:818 | a bar's length grows from 0 at value 0 to the full length at 255 |
| Grading.ToUint8Clamp | components/MainApp.tsx:1041 | a stored value is clamped to [0, 255] and rounded to within half a unit |
| Grading.StoreByte | components/MainApp.tsx:1041 | storing a byte value keeps it |
| Grading.StoreMonotone | components/MainApp.tsx:1041 | storing is monotone |
| Grading.StoreHalves | components/MainApp.tsx:1041 | halves round to even: 0.5 to 0, 1.5 to 2, 2.5 to 2 |
| Grading.Process | components/MainApp.tsx:1046-1127 | grading one pixel keeps its alpha |
| Grading.Graded | components/MainApp.tsx:1046-1127 | every grade keeps the alpha byte |
| Grading.GreyGrades | components/MainApp.tsx:1046-1072 | black-and-white and noir give grey pixels |
| Grading.BwIsMean | components/MainApp.tsx:1068-1073 | black and white stores the mean of the three channels, rounded |
| Grading.HighContrastSaturates | components/MainApp.tsx:1074-1082 | high contrast keeps mid grey and saturates values far enough from it |
| Grading.ChannelCaps | components/MainApp.tsx:1083-1127 | cyberpunk caps green at 204; the 1980s grade keeps green and holds blue within [20, 224] |
| Grading.FilteredByte | components/MainApp.tsx:1036-1044 | byte 4k + c of the filtered frame is channel c of pixel k after grading |
| Grading.FilterPixels | components/MainApp.tsx:1036-1044 | the in-place loop produces the filtered frame |
| Grading.FilterKeepsAlpha | components/MainApp.tsx:1036-1044 | filtering leaves every alpha byte as it was |
| Grading.ShiftOffset | components/MainApp.tsx:1102 | the shift is 12 bytes, or 200 for a glitch frame, always whole pixels |
| Grading.ShiftRed | components/MainApp.tsx:1103-1106 | the shift loop, reading a copy, produces the shifted frame |
| Grading.ShiftTouchesOnlyRed | components/MainApp.tsx:1099-1106 | only red bytes change, each taking the red byte of the pixel off/4 places on, when there is one |
| OverlayEditor.BestHitUnique | components/MainApp.tsx:1328-1335 | at most one overlay is the nearest hit under the stable sort |
| OverlayEditor.HitTest | components/MainApp.tsx:1328-1338 | no hit exactly when no visible overlay is within 0.15; otherwise the nearest, earliest on ties |
| OverlayEditor.PointerDown | components/MainApp.tsx:1321-1341 | pointer down grabs the nearest hit, and keeps the previous drag when nothing is hit |
| OverlayEditor.ClampSafe | components/MainApp.tsx:1362-1363 | a coordinate is clamped into [0.05, 0.95] and kept when already inside |
| OverlayEditor.Snap | components/MainApp.tsx:1365-1372 | snapping moves a coordinate by at most 0.05, onto the nearest grid line or not at all |
| OverlayEditor.SnapOutcome | components/MainApp.tsx:1368-1371 | snapping reaches the nearest line unless the coordinate lies exactly half-way between two |
| OverlayEditor.SnapStaysSafe | components/MainApp.tsx:1362-1372 | snapping a clamped coordinate keeps it in the safe area |
| OverlayEditor.DragTarget | components/MainApp.tsx:1362-1372 | the drag target always lies in the safe area |
| OverlayEditor.MoveById | components/MainApp.tsx:1374-1377 | only overlays with the dragged id move; all others are returned as they are |
| OverlayEditor.PointerMove | components/MainApp.tsx:1343-1378 | without a drag only the cursor changes, to "move" exactly over a hit; with one the overlays move |
| OverlayEditor.DragMovesOnlyTarget | components/MainApp.tsx:1362-1377 | a drag changes only the dragged overlay's position, keeps it inside the safe area, and leaves the others untouched |
| OverlayEditor.DragIdempotent | components/MainApp.tsx:1374-1377 | dragging again to the same position changes nothing more |
| OverlayEditor.PointerUp | components/MainApp.tsx:1380-1383 | pointer up ends any drag |
| LicenseApi.RevokeReason | components/MainApp.tsx:239-244 | the message is the device-limit one exactly when reason or error says so, the administrator lock exactly when locked without the device limit, deactivated otherwise |
| LicenseApi.Validate | components/MainApp.tsx:217-250 | a missing or empty serial ends the session with "Session expired."; otherwise the session ends exactly when the reply exists and revokes, and then audio stops and the serial is cleared |
| LicenseApi.HealthyReplyKeeps | components/MainApp.tsx:230-235 | a reply confirming the licence with boolean fields keeps the session |
| LicenseApi.NetworkFailureKeeps | components/MainApp.tsx:248-250 | a failed request never ends a session with a saved serial |
| LicenseApi.LockReason | components/MainApp.tsx:231-246 | an administrator lock without the device limit is reported as such |
| LicenseApi.StringFalseActivatesThenRevokes | components/LandingScreen.tsx:88 | a reply whose `activated` is the string "false" is accepted by activation yet revoked by the background check |
| LicenseApi.AcceptedBooleanReplyKeeps | components/MainApp.tsx:230-235 | a boolean reply that activation accepts is revoked only when locked or invalid |
| SerialEntry.CleanSerial | components/LandingScreen.tsx:62 | cleaning keeps only upper-case letters and digits and never lengthens the text |
| SerialEntry.SerialCore | components/LandingScreen.tsx:62-63 | at most nine letters and digits are kept |
| SerialEntry.FormatSerial | components/LandingScreen.tsx:61-67 | the formatted field never exceeds 11 characters |
| SerialEntry.DashedShape | components/LandingScreen.tsx:65-67 | dashes appear exactly after the third and the sixth character, when more follow |
| SerialEntry.DashedRoundTrip | components/LandingScreen.tsx:65-67 | removing the dashes gives back the cleaned characters |
| SerialEntry.FormatSerialSpec | components/LandingScreen.tsx:61-67 | the field holds only serial characters and the inserted dashes, removing the dashes leaves the first nine cleaned characters, and it is 11 long exactly when nine were typed |
| SerialEntry.FormatIdempotent | components/LandingScreen.tsx:61-67 | reformatting the formatted value changes nothing |
| SerialEntry.FormatExamples | components/LandingScreen.tsx:61-67 | "ab-c" becomes "ABC" and "x1y2" becomes "X1Y-2" |
| SerialEntry.Initial | components/LandingScreen.tsx:29 | the landing screen shows the error it was given unless it is missing or empty |
| SerialEntry.Input | components/LandingScreen.tsx:61-71 | each keystroke reformats the field and clears the error |
| SerialEntry.Activate | components/LandingScreen.tsx:73-102 | an incomplete serial is refused without a request; a failed request shows the connection error; activation succeeds exactly when ok and activated are truthy, storing the serial |
| SerialEntry.RefusalMessage | components/LandingScreen.tsx:92-96 | a refusal is explained by the error field: device limit, not found, or a generic failure |
| SerialEntry.CompleteAfterNine | components/LandingScreen.tsx:61-77 | a serial is sent exactly when nine letters or digits have been typed |
| SerialEntry.StoredShape | components/LandingScreen.tsx:61-89 | a stored serial always has the XXX-XXX-XXX shape |
| AppGate.Init | App.tsx:7-10 | the app starts activated exactly when a non-empty serial is saved, with no error |
| AppGate.Lock | App.tsx:14-17 | locking leaves the app and replaces the error only with a non-empty message |
| AppGate.Success | App.tsx:19-22 | success enters the app and clears the error |
| AppGate.Render | App.tsx:24-28 | the landing screen, with the current error, shows exactly when not activated |
| AppGate.LockThenSuccess | App.tsx:14-28 | succeeding after a lock reaches the main screen with no error, whatever came before |
| AppGate.RevocationShowsReason | App.tsx:14-28 | a revoking background check brings up the landing screen showing the check's reason |
| AppGate.ActivationEntersApp | App.tsx:19-28 | a successful activation leads to the main screen with an eleven-character serial stored |
| Waveform.Step | components/Waveform.tsx:70 | the samples per pixel are the ceiling of length over width |
| Waveform.Bars | components/Waveform.tsx:68-94 | the strip draws one bar for every two pixels of width |
| Waveform.WindowPeak | components/Waveform.tsx:84-91 | the window's peak bounds every in-range sample and is zero or attained; reads past the end are ignored |
| Waveform.PeakOfWindow | components/Waveform.tsx:87-90 | the inner loop computes the window's peak |
| Waveform.DrawBars | components/Waveform.tsx:83-94 | the drawing loop computes every bar of the reference frame |
| Waveform.SilentBars | components/Waveform.tsx:83-94 | silence draws every bar at the one-pixel minimum |
| Waveform.BarsWithinScale | components/Waveform.tsx:71-94 | samples within full scale never draw a bar taller than 0.9 of the half height, or the one-pixel minimum |
| Waveform.PlayPosition | components/Waveform.tsx:65-66 | the playhead lies on the strip for times inside the track and reaches its end at the end |
| Waveform.ScrubTime | components/Waveform.tsx:142-149 | the scrub time lies in the track, 0 left of the strip and the duration right of it |
| Waveform.ScrubMonotone | components/Waveform.tsx:142-149 | dragging further right never moves the time back |
| Waveform.Handle | components/Waveform.tsx:151-171 | down starts a scrub only with a buffer, move scrubs only while dragging, up ends a drag |
| Waveform.RunBalanced | components/Waveform.tsx:151-171 | without a buffer nothing is reported; every scrub end follows its own start, and every scrub time lies in the track |
| Knob.DragValue | components/Knob.tsx:28-32 | the dragged value stays within [min, max] |
| Knob.DragMonotone | components/Knob.tsx:28-32 | dragging further up never lowers the value |
| Knob.DragInPlace | components/Knob.tsx:28-32 | releasing where the drag began gives back the starting value |
| Knob.DragFullSweep | components/Knob.tsx:30 | 200 pixels up from the minimum reach the maximum |
| Knob.Percent | components/Knob.tsx:52 | a value inside the range is a fraction in [0, 1], 0 at the minimum and 1 at the maximum |
| Knob.Angle | components/Knob.tsx:52-53 | the needle angle lies in [-135, 135], at the ends for the range's ends |
| Knob.ActiveAboveMiddle | components/Knob.tsx:81 | the arc is in the active colour exactly when the value is above the middle of the range |
| Knob.DashLength | components/Knob.tsx:83 | the arc's dash length lies in [0, 75], 0 at the minimum and 75 at the maximum |
| Knob.ArcFollowsNeedle | components/Knob.tsx:52-83 | for every value the dash length is the needle's turn from -135 degrees scaled by 75/270, so both show percent: the dash is percent·75 and the angle -135 + percent·270 |
| Knob.DashMonotone | components/Knob.tsx:83 | a larger value never draws a shorter arc |
| Knob.FlatIsUpright | components/Knob.tsx:52-53 | a flat EQ band points straight up, in the inactive colour |
| Knob.Label | components/Knob.tsx:106 | the label ends in "dB" and starts with '+' exactly for positive values |
| Knob.LabelReadsBack | components/Knob.tsx:106 | the label has '+' exactly for positive values, '-' exactly for negative ones, ends in "dB", and its digits read back within half a tenth |
| Knob.LabelExamples | components/Knob.tsx:106 | 0 shows "0.0dB", 3.25 "+3.3dB", -12 "-12.0dB", -0.04 "-0.0dB" |
| Knob.MouseMove | components/Knob.tsx:26-34 | a move reports a value, within the range, exactly while dragging |
| ProducerTools.MatchedTagsFrom | components/ProducerTools.tsx:142-145 | every matched tag belongs to a genre whose key occurs in the input |
| ProducerTools.MatchedTagsHas | components/ProducerTools.tsx:142-145 | every tag of a genre whose key occurs is matched |
| ProducerTools.PoolDistinct | components/ProducerTools.tsx:134-151 | no tag enters the pool twice |
| ProducerTools.PoolSpec | components/ProducerTools.tsx:134-151 | the pool has the base tags first and the fillers last, 14 tags plus four per matched genre, a genre's tags present exactly when its key occurs |
| ProducerTools.PoolExamples | components/ProducerTools.tsx:134-151 | an empty description gives 14 tags; "Dark Trap" matches only trap |
| ProducerTools.PickTags | components/ProducerTools.tsx:152 | the first min(25, pool size) shuffled tags are kept, all from the pool |
| ProducerTools.PickDistinct | components/ProducerTools.tsx:152 | the kept tags are distinct |
| ProducerTools.GenerateHashtags | components/ProducerTools.tsx:133-154 | splitting the displayed text at its spaces gives back exactly the picked tags, in order |
| Text.SplitJoin | components/ProducerTools.tsx:153 | joining pieces free of the separator and splitting the result gives the pieces back |
| ProducerTools.PickedHaveNoSpace | components/ProducerTools.tsx:134-152 | at least one tag is picked and no pool tag contains a space |
| ProducerTools.HashtagCount | components/ProducerTools.tsx:133-154 | the output has 25 distinct tags exactly when three or more genres match, and at least 14 always |
| ProducerTools.OrDefault | components/ProducerTools.tsx:180-181 | an empty field takes the default |
| ProducerTools.GenerateSeo | components/ProducerTools.tsx:179-207 | the generator always offers five titles |
| ProducerTools.TitleMentions | components/ProducerTools.tsx:182-188 | every title names the artist and the topic |
| ProducerTools.TitlesMention | components/ProducerTools.tsx:179-188 | the five titles name the artist and topic, with the defaults standing in for empty fields |
| ProducerTools.SeoDefaults | components/ProducerTools.tsx:179-207 | empty fields take the defaults in the titles, the tag line and the description |
| ProducerTools.ArtistHashtag | components/ProducerTools.tsx:204 | the artist hashtag starts with '#' and has no white space |
| ProducerTools.DescKeepsHashtags | components/ProducerTools.tsx:190-205 | trimming the description never cuts the artist and TypeBeat hashtags |
| ProducerTools.AddParty | components/ProducerTools.tsx:327 | adding a party appends one blank writer at 0% and keeps everything else |
| ProducerTools.AddPartyUndone | components/ProducerTools.tsx:327 | dropping the last party undoes the addition |
| ProducerTools.SetField | components/ProducerTools.tsx:269-271 | setting one field of a price row changes that field only |
| ProducerTools.EditPrice | components/ProducerTools.tsx:269-271 | editing one cell of the price chart changes only that cell |
| ProducerTools.EditPriceUndone | components/ProducerTools.tsx:269-271 | typing the old text back restores the chart |

## Left out

- Audio signal processing: the biquad filters, the compressor's dynamics, resampling, mixing and the offline render itself. The model covers what the render is set up to do (rate, length, graph, automation, schedule, presets), not the samples it produces.
- The Web Audio ramp is modelled only for the two events the code schedules. The general automation timeline is not modelled.
- `generateZip`, `Blob`, object URLs, downloads, `html2canvas`/`jsPDF` export, the clipboard and text downloads: these are browser and library I/O.
- `fetch`, `localStorage`, `getDeviceId` and the 5-second polling interval: a server reply is a parameter, and the device id and polling timing are not modelled.
- Canvas drawing: gradients, shapes, text layout, font scaling and the grid overlay. Only the numbers the drawing reads are modelled.
- Every use of `Math.random` is left out, because the model has no source of randomness: the particles (components/MainApp.tsx:771-777), the matrix rain (components/MainApp.tsx:859), the noir grain (components/MainApp.tsx:1048), the glitch shift choice (components/MainApp.tsx:1102), the glitch block copy (components/MainApp.tsx:1114-1117), the 1980s noise pass (components/MainApp.tsx:1130-1131), the custom font name (components/MainApp.tsx:627), the landing screen's simulated user counter (components/LandingScreen.tsx:49-54), the receipt tool's order number (components/ProducerTools.tsx:104) and the hashtag shuffle's comparator (components/ProducerTools.tsx:152). Where a result depends on one of them, the model takes it as a parameter: the noir grain, the glitch shift and the shuffle, which becomes an arbitrary permutation.
- Video recording: MediaRecorder, `requestAnimationFrame` timing and the render progress toast.
- IEEE-754 behaviour: rounding of products and quotients, NaN and Infinity, and -0. NaN reads past the end of a channel are modelled as skipped, which is what the comparison does with them.
- Case mapping outside ASCII: `toUpperCase`/`toLowerCase` on other scripts (for instance 'ı' and 'ſ' upper-case into A-Z) is not modelled.
- Knob.Percent: requires min < max. With min == max the source divides by zero and computes NaN or Infinity, which this model does not represent.
- Knob.Angle: requires min < max, for the same reason as `Knob.Percent`.
- Knob.DashLength: requires min < max, for the same reason as `Knob.Percent`.
- Waveform.Step: requires a positive width. A zero-width canvas would give an infinite step in the source.
- Waveform.ScrubTime: requires a positive width. A zero-width strip would divide by zero in the source.
- Waveform.Step: the canvas width is a whole number of pixels, so fractional widths are not modelled.
- Normalize.NormalizeBuffer: the linear target `10^(-1/20)` is a parameter `target > 0`, because the power is not computed.
- The receipt, caption and theme tools of the producer panel, split-sheet edits other than adding a party, and the toasts: these are display-only state.
- ProducerTools.GenerateHashtags: the order of the output is not stated, because the source shuffles with a random comparator; only its contents are.
- Knob.LabelReadsBack: `toFixed(1)` is modelled as rounding the exact decimal value half up, whereas the engine rounds the nearest double.
- BulkExport.BulkExportRun: the "Zipping Files..." 99 percent update after the batches is not part of its update list.
- RenderPlan.BuildPlan: the only failures modelled are a non-positive rate and a zero length. `new OfflineAudioContext` also throws for sample rates and channel counts the browser does not support, and those limits differ between browsers.

## Findings

| source | as written | input that shows it | evidently intended | confidence | as-written member | corrected member |
|---|---|---|---|---|---|---|
| utils/audioUtils.ts:192-226 | the header writes leave the shared `pos` at 44, and the sample loop reuses `pos` as its frame index, so it starts at frame 44: frames 0..43 are never written, frame p lands 44 frames early, and the last 44 frames of the data chunk stay zero | a one-channel buffer holding one frame at 1.0: its code 32767 is never written and the file reads back as the sample 0 | the loop writes every frame 0..n-1 from byte 44 on, so that reading the file gives back the converted samples | high, not executed | Wav.BufferToWavAsWritten, Wav.RoundTripFailsAsWritten | Wav.BufferToWav, Wav.WavRoundTrip |

Every WAV row above not marked "as written" is about the corrected encoder. BulkExport treats the WAV bytes as opaque, so it uses neither encoder. The program's own exports, single (components/MainApp.tsx:661) and bulk (components/MainApp.tsx:690), call the encoder as written.

## Notes on the code

- **WAV sample conversion.** Conventional PCM conversion scales every negative sample by 32768. This code tests `0.5 + s < 0`, so only samples below -0.5 are, and -0.25 is written as -8191 (`Wav.PcmSampleQuirk`). The result stays in range, so this is modelled as it is, not as a finding.
- **Bulk export.** Each file renders in its own promise, yet one `try` wraps the whole run. So any render that throws aborts the export and no archive is produced (`BulkExport.BulkExportRun`).
- **Licence checks.** The two checks read the same reply differently. Activation tests `ok` and `activated` for truthiness, while the background check tests for the literal values `false`, `"false"` and `"FALSE"`. So the reply `activated: "false"` activates and is then revoked (`LicenseApi.StringFalseActivatesThenRevokes`).
