# ConverterDaemon: command generation and the job slot, in Dafny

ConverterDaemon watches a source directory and converts one video file at a
time to Matroska/HEVC. It works in two stages, and this project models both.

- **Command generation** (`CommandCreator.kt`). It reads ffmpeg's probe lines
  for a source file. It parses the `Stream #0:…` lines into stream records and
  groups them by type. Files with no or several video streams, or with an
  unknown stream type, are rejected. For the rest it builds the ffmpeg argument
  list:
  - the video is copied when it is already HEVC, otherwise encoded with libx265;
  - audio and subtitle tracks are selected language by language ("deu", "ger",
    "eng");
  - an AC3 fallback track is added per language where the rule asks for one;
  - all attachments are copied;
  - the fixed encoder options and the temporary output file come last.

  It also computes the temporary file (`<destination>/<uuid>.mkv`), the
  mirrored output file and the frame count of the resulting `Task`.
- **The job slot** (`TaskService.kt`). The service holds at most one `Task`.
  `createTaskFor` does nothing while a task is held; otherwise it creates a
  `Task` and starts a worker. The worker follows ffmpeg's `frame=` progress
  lines. It then deletes a truncated result, or moves a good result into place,
  deletes the source, and removes the source's directory if that left it empty.
  Finally it empties the slot.

## Files

- `Text.dfy`: the Kotlin string functions the core relies on:
  - `trim`, `contains`, `substringAfter`, `substringBeforeLast`;
  - `toInt`, with `Int` overflow;
  - decimal rendering;
  - the character classes of the Java patterns.
- `Domain.dfy`: the `Task` record of `domain/Task.kt`, file references,
  the configuration, and one `Failure` constructor per exception
  `createCommand` can end in.
- `Streams.dfy`: `Stream.from`. The two whole-line patterns are written as
  recognisers. Each recogniser is proved to accept exactly the lines its pattern
  describes, with the same groups.
- `CommandCreator.dfy`:
  - the filter/parse/group pipeline and the checks;
  - `videoFormat`, `audioMappings`, `audioMappingsFor`, `subtitleMappings`,
    `attachmentMapping`, `escape` and `outputName`;
  - the output paths and `createCommand`.

  The three imperative members, `audioMappingsFor`, `subtitleMappings` and
  `escape`, are methods with loops. Each is proved equal to a function that
  states its result; the properties are proved about those functions.
- `TaskService.dfy`: `extractFrameFrom` and the class `TaskService`, with the
  fields `task` and `frame` and the filesystem as a set of paths. The getters
  `HasTask`, `CurrentFrame` and `FrameCount` are functions reading the fields.
  The methods are `CreateTaskFor`, `TranscodeVideoFile`,
  `HandleTruncatedResult`, `HandleSuccessfulResult`, and `RunWorker` (the
  worker thread). Each method is proved against a function (`Replay`,
  `Finalize`, `Worker`), and the lifecycle properties are lemmas about those
  functions.

## Where the code and the intended behaviour differ

The model follows the code in each case.

- **Subtitle indices.** The intended behaviour numbers selected subtitles 0, 1, 2, ….
  The code uses the current size of the argument list, which grows by four per
  subtitle. The j-th subtitle therefore gets `-c:s:<4j>`
  (`CommandCreator.SubtitleEntriesAt`).
- **AC3 fallback condition.** The intended behaviour adds the fallback when some track is
  outside the AC3 family and none matches the reference signature. The code
  adds it when some track is not AC3 and no track is an AC3 track whose codec
  does NOT end in "stereo, fltp, 192 kb/s". The intended behaviour also reads as one rule
  for the whole audio list; the code applies it to each language's group
  separately.
- **Unparsable lines.** The intended behaviour distinguishes a malformed stream line from
  a missing language. The code throws "Missing language for stream" for every
  line that neither pattern accepts (`Streams.FromOther`).
- **No video stream.** The intended behaviour guarantees one video stream. The code fails
  at the `!!` on `streams["Video"]`, before the other checks.
- **Output directory.** The intended behaviour strips the source root as a prefix. The
  code takes `substringAfter` of the first occurrence of the source directory,
  wherever it occurs, and keeps the whole parent when it does not occur.
- **Progress lines.** The intended behaviour updates the frame for lines matching
  `frame=<digits>`. The code looks at every line that starts with "frame", and
  takes the leftmost match of `frame=\s*(\d+)` anywhere in it. A line starting
  with "frame" that has no match throws; that ends the worker with the slot
  still taken.
- **Slot release.** The intended behaviour requires the slot to be released even when
  finalizing fails. In the code an exception in the worker skips
  `task = null`, so the slot stays taken (`Tasks.WorkerReleases`).
- **Frame counter.** `frame` is never reset, so a new `Task` starts with the
  last frame of the previous one (`Tasks.TaskService.CreateTaskFor`).

## Model

| member | source | states |
|---|---|---|
| Text.IndexOfFrom | src/main/kotlin/de/darkspirit510/converterdaemon/service/CommandCreator.kt:29 | `indexOf` from a position: the first occurrence at or after it, and no occurrence before it; `None` only when there is none |
| Text.ContainsIff | src/main/kotlin/de/darkspirit510/converterdaemon/service/CommandCreator.kt:29 | `contains("Stream")` holds exactly when the text occurs at some position |
| Text.LastIndexBefore | src/main/kotlin/de/darkspirit510/converterdaemon/service/CommandCreator.kt:149 | the last occurrence below a bound, with none between it and the bound; `None` only when none occurs below the bound |
| Text.LastIndexOf | src/main/kotlin/de/darkspirit510/converterdaemon/service/CommandCreator.kt:149 | `lastIndexOf`: an occurrence with none after it, or `None` when there is no occurrence |
| Text.SubstringAfter | src/main/kotlin/de/darkspirit510/converterdaemon/service/CommandCreator.kt:45 | `substringAfter`: the text after the FIRST occurrence of the delimiter; the whole string when it does not occur |
| Text.SubstringBeforeLast | src/main/kotlin/de/darkspirit510/converterdaemon/service/CommandCreator.kt:149 | `substringBeforeLast`: the text before the LAST occurrence; the whole string when it does not occur |
| Text.TrimStart | src/main/kotlin/de/darkspirit510/converterdaemon/service/CommandCreator.kt:28 | drops exactly the leading whitespace: the result is a suffix, what was removed is whitespace, and it does not begin with whitespace |
| Text.TrimEnd | src/main/kotlin/de/darkspirit510/converterdaemon/service/CommandCreator.kt:28 | drops exactly the trailing whitespace: the result is a prefix, what was removed is whitespace, and it does not end with whitespace |
| Text.Trim | src/main/kotlin/de/darkspirit510/converterdaemon/service/CommandCreator.kt:28 | `trim()`: a slice of the input whose removed head and tail are whitespace and whose ends are not whitespace |
| Text.TrimIdempotent | src/main/kotlin/de/darkspirit510/converterdaemon/service/CommandCreator.kt:28 | trimming a trimmed line changes nothing |
| Text.ToInt | src/main/kotlin/de/darkspirit510/converterdaemon/service/CommandCreator.kt:178 | `toInt()` on a non-empty digit run succeeds exactly when the value is at most 2147483647, and then returns that value |
| Text.NatToString | src/main/kotlin/de/darkspirit510/converterdaemon/service/CommandCreator.kt:116 | the decimal text in a string template: non-empty digits, no leading zero, whose value is the number |
| Text.NatToStringInjective | src/main/kotlin/de/darkspirit510/converterdaemon/service/CommandCreator.kt:116 | distinct indices render as distinct texts |
| Text.ToIntOfNatToString | src/main/kotlin/de/darkspirit510/converterdaemon/service/CommandCreator.kt:178 | reading a rendered index back with `toInt()` gives the index, for every index that fits in `Int` |
| Text.RunLength | src/main/kotlin/de/darkspirit510/converterdaemon/service/CommandCreator.kt:160 | the greedy `\d+`/`\w+`: the prefix it measures is all in the class, and the next character is not |
| Text.RunLengthOfConcat | src/main/kotlin/de/darkspirit510/converterdaemon/service/CommandCreator.kt:160 | a run followed by a character outside the class is measured exactly |
| Streams.MatchTypeCodec | src/main/kotlin/de/darkspirit510/converterdaemon/service/CommandCreator.kt:160-161 | what it accepts has the shape `<\w+>: <.*>`, with the groups it returns |
| Streams.MatchTypeCodecComplete | src/main/kotlin/de/darkspirit510/converterdaemon/service/CommandCreator.kt:160-161 | every text of that shape is accepted with exactly those groups |
| Streams.MatchIndex | src/main/kotlin/de/darkspirit510/converterdaemon/service/CommandCreator.kt:160-161 | `Stream #0:` followed by a maximal, non-empty digit run, and the rest |
| Streams.MatchIndexComplete | src/main/kotlin/de/darkspirit510/converterdaemon/service/CommandCreator.kt:160-161 | every such line is split at the end of its digit run |
| Streams.MatchLang | src/main/kotlin/de/darkspirit510/converterdaemon/service/CommandCreator.kt:160 | the tag `(<\w+>): ` with its language group |
| Streams.MatchLangComplete | src/main/kotlin/de/darkspirit510/converterdaemon/service/CommandCreator.kt:160 | every text with such a tag is accepted with that language |
| Streams.MatchWithLang | src/main/kotlin/de/darkspirit510/converterdaemon/service/CommandCreator.kt:160 | an accepted line matches the whole pattern with a language tag, with the four returned groups |
| Streams.MatchWithLangComplete | src/main/kotlin/de/darkspirit510/converterdaemon/service/CommandCreator.kt:160 | every line matching that pattern is accepted with the same groups, so the groups are unique |
| Streams.MatchWithoutLang | src/main/kotlin/de/darkspirit510/converterdaemon/service/CommandCreator.kt:161 | an accepted line matches the whole pattern without a language tag, with the three returned groups |
| Streams.MatchWithoutLangComplete | src/main/kotlin/de/darkspirit510/converterdaemon/service/CommandCreator.kt:161 | every line matching that pattern is accepted with the same groups |
| Streams.ShapesExclusive | src/main/kotlin/de/darkspirit510/converterdaemon/service/CommandCreator.kt:159-161 | no line matches both patterns |
| Streams.WordIsNotUnknown | src/main/kotlin/de/darkspirit510/converterdaemon/service/CommandCreator.kt:160 | a `\w+` language never equals the placeholder "???" |
| Streams.StreamOf | src/main/kotlin/de/darkspirit510/converterdaemon/service/CommandCreator.kt:178-192 | builds the stream of the groups exactly when the index fits in `Int`, and fails with the number error otherwise |
| Streams.From | src/main/kotlin/de/darkspirit510/converterdaemon/service/CommandCreator.kt:163-194 | fails only with "Missing language for stream" or a number error; the index fits in `Int`; "???" is given only to Video and Attachment streams |
| Streams.FromWithLang | src/main/kotlin/de/darkspirit510/converterdaemon/service/CommandCreator.kt:186-193 | a line matching the first pattern yields its index, language, type and codec (or the number error) |
| Streams.FromWithoutLang | src/main/kotlin/de/darkspirit510/converterdaemon/service/CommandCreator.kt:168-183 | a line matching only the second pattern is accepted only for Video and Attachment, with language "???"; other types fail with "Missing language" |
| Streams.FromOther | src/main/kotlin/de/darkspirit510/converterdaemon/service/CommandCreator.kt:173-174 | every line matching neither pattern, malformed ones included, fails with "Missing language for stream" |
| CommandCreator.CandidateLines | src/main/kotlin/de/darkspirit510/converterdaemon/service/CommandCreator.kt:28-30 | keeps exactly the trimmed lines that contain "Stream" and do not start with "Guessed" |
| CommandCreator.CandidateLinesConcat | src/main/kotlin/de/darkspirit510/converterdaemon/service/CommandCreator.kt:28-30 | filtering works line by line: the lines kept from `a + b` are those of `a` followed by those of `b`, so order and repetitions are kept |
| CommandCreator.CandidateLinesOne | src/main/kotlin/de/darkspirit510/converterdaemon/service/CommandCreator.kt:28-30 | a single line is kept, trimmed, exactly when its trimmed form contains "Stream" and does not start with "Guessed" |
| CommandCreator.Parsed | src/main/kotlin/de/darkspirit510/converterdaemon/service/CommandCreator.kt:31 | one parse result per candidate line |
| CommandCreator.Collect | src/main/kotlin/de/darkspirit510/converterdaemon/service/CommandCreator.kt:31-32 | a successful collection has one stream per result |
| CommandCreator.CollectOk | src/main/kotlin/de/darkspirit510/converterdaemon/service/CommandCreator.kt:31-32 | a successful collection holds every result's stream, in order |
| CommandCreator.CollectErr | src/main/kotlin/de/darkspirit510/converterdaemon/service/CommandCreator.kt:31-32 | a failed collection carries the error of the first failing result, all before it having succeeded |
| CommandCreator.ParseStreams | src/main/kotlin/de/darkspirit510/converterdaemon/service/CommandCreator.kt:31-32 | a successful parse has one stream per candidate line |
| CommandCreator.ParseStreamsOk | src/main/kotlin/de/darkspirit510/converterdaemon/service/CommandCreator.kt:31-32 | a successful parse holds `Stream.from` of every line, in input order |
| CommandCreator.ParseStreamsErr | src/main/kotlin/de/darkspirit510/converterdaemon/service/CommandCreator.kt:31-32 | a failed parse is the exception of the first line `Stream.from` rejects |
| CommandCreator.OfType | src/main/kotlin/de/darkspirit510/converterdaemon/service/CommandCreator.kt:32 | the streams of one type: exactly those of the input with that type, never more than the input |
| CommandCreator.OfTypeConcat | src/main/kotlin/de/darkspirit510/converterdaemon/service/CommandCreator.kt:32 | grouping works stream by stream: the group of `a + b` is that of `a` followed by that of `b`, so each group keeps the input order |
| CommandCreator.OfTypeOne | src/main/kotlin/de/darkspirit510/converterdaemon/service/CommandCreator.kt:32 | a single stream forms its own type's group and nothing else |
| CommandCreator.GroupByType | src/main/kotlin/de/darkspirit510/converterdaemon/service/CommandCreator.kt:32 | `groupBy { it.type }`: a key exactly for each type that occurs, each group non-empty and equal to that type's streams (in input order by `OfTypeConcat`) |
| CommandCreator.OfTypeTwo | src/main/kotlin/de/darkspirit510/converterdaemon/service/CommandCreator.kt:34-36 | a group has more than one stream exactly when two streams have that type |
| CommandCreator.OfTypeTwoSound | src/main/kotlin/de/darkspirit510/converterdaemon/service/CommandCreator.kt:34-36 | a group of more than one comes from two streams of that type |
| CommandCreator.OfTypeTwoComplete | src/main/kotlin/de/darkspirit510/converterdaemon/service/CommandCreator.kt:34-36 | two streams of a type give a group of more than one |
| CommandCreator.CheckGroups | src/main/kotlin/de/darkspirit510/converterdaemon/service/CommandCreator.kt:34-40 | passes exactly when a Video group exists with at most one stream and all types are known; fails only with the three validation errors |
| CommandCreator.CheckGroupsOf | src/main/kotlin/de/darkspirit510/converterdaemon/service/CommandCreator.kt:32-40 | the checks restated over the parsed streams: a Video key iff a Video stream, a group over one iff two Video streams, known keys iff known types |
| CommandCreator.CreateFromStreamsChecks | src/main/kotlin/de/darkspirit510/converterdaemon/service/CommandCreator.kt:34-40 | no Video stream fails (the `!!`); two Video streams fail as "Multiple video streams found" whatever else is wrong; otherwise an unknown type fails; success iff all checks pass and there is a media track |
| CommandCreator.VideoFormat | src/main/kotlin/de/darkspirit510/converterdaemon/service/CommandCreator.kt:98-103 | "copy" exactly when the single Video stream's codec starts with "hevc", "libx265" otherwise |
| CommandCreator.PositionsOfExactly | src/main/kotlin/de/darkspirit510/converterdaemon/service/CommandCreator.kt:107-113 | the selected positions are exactly those of the streams of the language, ascending and each once |
| CommandCreator.LanguagePairs | src/main/kotlin/de/darkspirit510/converterdaemon/service/CommandCreator.kt:107-113 | the pairs are the Audio streams of the language with their positions in the Audio group, in ascending order, and every such stream appears |
| CommandCreator.CopyMappings | src/main/kotlin/de/darkspirit510/converterdaemon/service/CommandCreator.kt:121-123 | one "copy" mapping per pair, in order |
| CommandCreator.LastNonAc3Position | src/main/kotlin/de/darkspirit510/converterdaemon/service/CommandCreator.kt:128 | `last { !startsWith("ac3") }`: a non-AC3 mapping with only AC3 mappings after it |
| CommandCreator.IndexOfMapping | src/main/kotlin/de/darkspirit510/converterdaemon/service/CommandCreator.kt:127-128 | `indexOf`: the first position holding an equal mapping |
| CommandCreator.FallbackLayout | src/main/kotlin/de/darkspirit510/converterdaemon/service/CommandCreator.kt:118-133 | one more mapping than pairs exactly when the fallback condition holds (so an empty group gets nothing); every action is "copy" or "ac3" |
| CommandCreator.AudioMappingsFor | src/main/kotlin/de/darkspirit510/converterdaemon/service/CommandCreator.kt:118-133 | the mutable-list loop and the insertion produce exactly the planned layout of the group |
| CommandCreator.FallbackPlacement | src/main/kotlin/de/darkspirit510/converterdaemon/service/CommandCreator.kt:125-130 | when the condition holds, the fallback is the first mapping with action "ac3", inserted right after the last non-AC3 mapping, all others kept in order |
| CommandCreator.NoFallbackCopiesAll | src/main/kotlin/de/darkspirit510/converterdaemon/service/CommandCreator.kt:125-132 | when the condition fails, the group is copied as is, every action "copy" |
| CommandCreator.FallbackLayoutCovers | src/main/kotlin/de/darkspirit510/converterdaemon/service/CommandCreator.kt:118-133 | every planned track comes from the group, and every stream of the group is planned as a copy |
| CommandCreator.AudioLayoutLanguages | src/main/kotlin/de/darkspirit510/converterdaemon/service/CommandCreator.kt:105-115 | only streams of the preferred languages get tracks ("???" and others are dropped), and each of them gets a "copy" track |
| CommandCreator.MappingArgsAt | src/main/kotlin/de/darkspirit510/converterdaemon/service/CommandCreator.kt:116 | the j-th planned track emits `-map 0:a:<position> -c:a:<j> <action>` at arguments 4j..4j+3, j counting over the whole list |
| CommandCreator.MappingArgsLength | src/main/kotlin/de/darkspirit510/converterdaemon/service/CommandCreator.kt:116 | four arguments per planned track |
| CommandCreator.AudioMappings | src/main/kotlin/de/darkspirit510/converterdaemon/service/CommandCreator.kt:105-116 | four arguments per planned track over all preferred languages |
| CommandCreator.AudioMappingsAt | src/main/kotlin/de/darkspirit510/converterdaemon/service/CommandCreator.kt:105-116 | the j-th planned track, German first, emits `-map 0:a:<position in the Audio group> -c:a:<j> <action>` |
| CommandCreator.SubtitleEntries | src/main/kotlin/de/darkspirit510/converterdaemon/service/CommandCreator.kt:141 | four arguments per selected subtitle |
| CommandCreator.SubtitleMappings | src/main/kotlin/de/darkspirit510/converterdaemon/service/CommandCreator.kt:135-147 | the nested loops produce exactly the entries of the language-then-position selection |
| CommandCreator.AppendSubtitlesOf | src/main/kotlin/de/darkspirit510/converterdaemon/service/CommandCreator.kt:139-143 | the inner loop appends the entries of one language's subtitles after those already selected |
| CommandCreator.SubtitleEntriesAt | src/main/kotlin/de/darkspirit510/converterdaemon/service/CommandCreator.kt:141 | the j-th selected subtitle emits `-map 0:s:<position> -c:s:<4j> copy` |
| CommandCreator.SubtitleOrderLanguages | src/main/kotlin/de/darkspirit510/converterdaemon/service/CommandCreator.kt:138-144 | exactly the subtitles of the preferred languages are selected |
| CommandCreator.NoAttachmentInAudio | src/main/kotlin/de/darkspirit510/converterdaemon/service/CommandCreator.kt:116 | no audio argument is "0:t" |
| CommandCreator.AudioLayoutActions | src/main/kotlin/de/darkspirit510/converterdaemon/service/CommandCreator.kt:122-129 | every planned audio action is "copy" or "ac3" |
| CommandCreator.NoAttachmentInSubtitles | src/main/kotlin/de/darkspirit510/converterdaemon/service/CommandCreator.kt:141 | no subtitle argument is "0:t" |
| CommandCreator.AttachmentMapOnlyInAttachments | src/main/kotlin/de/darkspirit510/converterdaemon/service/CommandCreator.kt:59-61 | "0:t" appears in neither the audio nor the subtitle block |
| CommandCreator.AttachmentArgs | src/main/kotlin/de/darkspirit510/converterdaemon/service/CommandCreator.kt:81-86 | non-empty exactly when there is an Attachment group, and then `-map 0:t -c:t copy` |
| CommandCreator.Escape | src/main/kotlin/de/darkspirit510/converterdaemon/service/CommandCreator.kt:88-96 | the loop of `replace` calls puts one backslash before every space, backtick, parenthesis, "!" and "?", as a single pass would |
| CommandCreator.ReplaceAfterEscape | src/main/kotlin/de/darkspirit510/converterdaemon/service/CommandCreator.kt:91-93 | replacing one more character after earlier replacements escapes it too, without re-escaping the backslashes already inserted |
| CommandCreator.EscapedWithNothing | src/main/kotlin/de/darkspirit510/converterdaemon/service/CommandCreator.kt:89 | before any replacement the name is unchanged |
| CommandCreator.UnescapeEscaped | src/main/kotlin/de/darkspirit510/converterdaemon/service/CommandCreator.kt:88-96 | escaping loses nothing: dropping the inserted backslashes gives the name back |
| CommandCreator.OutputName | src/main/kotlin/de/darkspirit510/converterdaemon/service/CommandCreator.kt:149 | everything from the last "." replaced by ".mkv"; ".mkv" appended to a name without a dot |
| CommandCreator.OutputFile | src/main/kotlin/de/darkspirit510/converterdaemon/service/CommandCreator.kt:43-47 | name from `outputName`; parent = destination, separator, and the source parent after the FIRST occurrence of the source directory, or the whole parent when it does not occur |
| CommandCreator.TemporaryOutputFile | src/main/kotlin/de/darkspirit510/converterdaemon/service/CommandCreator.kt:42 | the file `<uuid>.mkv` in the destination directory |
| CommandCreator.TemporaryOutputFileInjective | src/main/kotlin/de/darkspirit510/converterdaemon/service/CommandCreator.kt:42 | different UUIDs give different temporary paths |
| CommandCreator.MaxOf | src/main/kotlin/de/darkspirit510/converterdaemon/service/CommandCreator.kt:77 | the largest frame count: one of them, and none exceeds it |
| CommandCreator.BuildCommandLayout | src/main/kotlin/de/darkspirit510/converterdaemon/service/CommandCreator.kt:49-70 | for any blocks free of "0:t": the fixed head, the video choice at 7, the fixed tail ending in the temporary file, and "0:t" present exactly when the attachment block is, placed right before the tail |
| CommandCreator.BuildCommandBlocks | src/main/kotlin/de/darkspirit510/converterdaemon/service/CommandCreator.kt:49-70 | for any blocks: the audio, subtitle and attachment arguments follow the video choice in that order, each exactly as given, and nothing else lies between them and the encoder options |
| CommandCreator.CommandOfGroups | src/main/kotlin/de/darkspirit510/converterdaemon/service/CommandCreator.kt:49-86 | a validated stream set gives a command with that layout: "copy" exactly for an HEVC video, the attachment block exactly when there is an Attachment stream, and between the video choice and the encoder options exactly `audioMappings`, `subtitleMappings` and `attachmentMapping` of the groups, in that order |
| CommandCreator.CreateFromStreams | src/main/kotlin/de/darkspirit510/converterdaemon/service/CommandCreator.kt:34-78 | a task for the source, with `<destination>/<uuid>.mkv` as temporary file, the mirrored output file, the maximum frame count, and a command of that layout holding the audio, subtitle and attachment blocks of the groups in order |
| CommandCreator.CreateCommand | src/main/kotlin/de/darkspirit510/converterdaemon/service/CommandCreator.kt:22-79 | a stream line that fails to parse is the result; otherwise the result of the checks and assembly on the parsed streams, with the same task fields, command layout and blocks |
| Tasks.FrameAtSound | src/main/kotlin/de/darkspirit510/converterdaemon/service/TaskService.kt:21 | what is read at a position is the digit group of a match of `frame=\s*(\d+)` there |
| Tasks.FrameAtComplete | src/main/kotlin/de/darkspirit510/converterdaemon/service/TaskService.kt:21 | every match at a position is read, with its whole digit run |
| Tasks.FindFrame | src/main/kotlin/de/darkspirit510/converterdaemon/service/TaskService.kt:96 | `find()`: the leftmost position with a match, none before it; `None` only when no position matches |
| Tasks.FindFrameAt | src/main/kotlin/de/darkspirit510/converterdaemon/service/TaskService.kt:96 | the first matching position is what `find()` returns |
| Tasks.ExtractFrame | src/main/kotlin/de/darkspirit510/converterdaemon/service/TaskService.kt:95-98 | a result is a non-negative `Int` |
| Tasks.ExtractFrameOf | src/main/kotlin/de/darkspirit510/converterdaemon/service/TaskService.kt:95-98 | with the leftmost match carrying digits ds: their value, or failure when it exceeds `Int` |
| Tasks.ExtractFrameNoMatch | src/main/kotlin/de/darkspirit510/converterdaemon/service/TaskService.kt:95-98 | a line without any match fails (`group` after a failed `find`) |
| Tasks.Step | src/main/kotlin/de/darkspirit510/converterdaemon/service/TaskService.kt:67-69 | a line not starting with "frame" keeps the frame; one starting with "frame" is read by `extractFrameFrom`, and only such a line can fail |
| Tasks.ReplayIgnoresOtherLines | src/main/kotlin/de/darkspirit510/converterdaemon/service/TaskService.kt:67-70 | lines not starting with "frame" leave the frame unchanged |
| Tasks.ReplayCrashes | src/main/kotlin/de/darkspirit510/converterdaemon/service/TaskService.kt:67-69 | the worker fails exactly when some line starting with "frame" has no readable frame |
| Tasks.ReplayLastFrameLine | src/main/kotlin/de/darkspirit510/converterdaemon/service/TaskService.kt:63-71 | when the worker does not fail, the frame is that of the last line starting with "frame" |
| Tasks.FrameOfTwelve | src/main/kotlin/de/darkspirit510/converterdaemon/service/TaskService.kt:95-98 | "frame= 12 fps=24" reads as 12 |
| Tasks.FrameOfSeven | src/main/kotlin/de/darkspirit510/converterdaemon/service/TaskService.kt:95-98 | "frame=7" reads as 7 |
| Tasks.FrameMayGoBack | src/main/kotlin/de/darkspirit510/converterdaemon/service/TaskService.kt:69 | a later, smaller frame replaces a larger one: no monotonicity |
| Tasks.Ancestors | src/main/kotlin/de/darkspirit510/converterdaemon/service/TaskService.kt:77 | the directories `mkdirs` creates: exactly the output directory itself and its prefixes ending just before a `/` |
| Tasks.FinalizeSucceeds | src/main/kotlin/de/darkspirit510/converterdaemon/service/TaskService.kt:76-88 | with the temporary file and the source directory present and the paths distinct: completes, the output exists, the temporary file and the source are gone, and the source directory remains exactly when it still has an entry |
| Tasks.FinalizeFails | src/main/kotlin/de/darkspirit510/converterdaemon/service/TaskService.kt:78-84 | throws exactly when the temporary file is missing or the source directory is gone when listed |
| Tasks.FinalizeTouchesOnlyItsPaths | src/main/kotlin/de/darkspirit510/converterdaemon/service/TaskService.kt:76-88 | no path other than the created directories, the temporary and output files, the source and its directory changes |
| Tasks.WorkerReleases | src/main/kotlin/de/darkspirit510/converterdaemon/service/TaskService.kt:42-52 | the slot is released exactly when no frame line was unreadable and either the result was truncated or finalizing completed |
| Tasks.WorkerTruncated | src/main/kotlin/de/darkspirit510/converterdaemon/service/TaskService.kt:45-46 | a truncated result releases the slot and removes only the temporary file |
| Tasks.WorkerSucceeds | src/main/kotlin/de/darkspirit510/converterdaemon/service/TaskService.kt:42-52 | end to end: readable progress, a produced, non-truncated result and an existing source directory release the slot with the output in place and the temporary file and source gone |
| Tasks.TaskService.constructor | src/main/kotlin/de/darkspirit510/converterdaemon/service/TaskService.kt:23-24 | no task and frame 0 |
| Tasks.TaskService.HasTask | src/main/kotlin/de/darkspirit510/converterdaemon/service/TaskService.kt:26 | holds exactly when a task is held |
| Tasks.TaskService.CurrentFrame | src/main/kotlin/de/darkspirit510/converterdaemon/service/TaskService.kt:28 | the frame last read from ffmpeg's progress lines |
| Tasks.TaskService.FrameCount | src/main/kotlin/de/darkspirit510/converterdaemon/service/TaskService.kt:29 | the held `Task`'s frame count, or -1 without one |
| Tasks.TaskService.CreateTaskFor | src/main/kotlin/de/darkspirit510/converterdaemon/service/TaskService.kt:33-41 | while a task is held: nothing changes; otherwise a failed `createCommand` keeps the slot empty and starts nothing, a successful one stores its task; `frame` is never reset |
| Tasks.TaskService.TranscodeVideoFile | src/main/kotlin/de/darkspirit510/converterdaemon/service/TaskService.kt:63-71 | the loop leaves frame and failure as the line-by-line specification gives them |
| Tasks.TaskService.HandleTruncatedResult | src/main/kotlin/de/darkspirit510/converterdaemon/service/TaskService.kt:90-93 | only the temporary file is deleted |
| Tasks.TaskService.HandleSuccessfulResult | src/main/kotlin/de/darkspirit510/converterdaemon/service/TaskService.kt:76-88 | the step-by-step effects are exactly the specified finalize step, including where it throws |
| Tasks.TaskService.RunWorker | src/main/kotlin/de/darkspirit510/converterdaemon/service/TaskService.kt:42-52 | the worker's end state is the worker specification's; the slot is emptied exactly when the thread runs to its end, and kept otherwise |

The members without a row are of two kinds:

- definitions without a contract of their own: the character classes and
  string predicates, the recognisers' shape predicates, `Kept`,
  `PositionsOf`, the placement predicates `BlocksAt` and `GroupBlocksAt`, and the layout functions `AudioLayout`, `MappingArgs`,
  `SubtitleOrder`, `BuildCommand`, `Replay`, `Finalize` and `Worker`, whose
  properties are the lemmas above;
- proof helpers used inside the proofs above: `DigitChar`,
  `WithLangFromParts`, `WithoutLangFromParts`, `ParsedAt`, `ConcatAssoc`,
  `PositionsStep`, `SubtitleAppend`, `SubtitleOrderStep`, `ReplaceCharConcat`,
  `EscapedHead`, `DotOccurrences`, `TwoOfTypeCons`, `TwoOfTypeHead`,
  `PathIsNotAttachmentMap`, `CommandLayoutOf` and `SplitFour`.

## Left out

- `MediaInfoHelper.kt` is not part of this model.
  - Its truncation test is a floating-point comparison over mediainfo's JSON. It is the boolean input `truncated` of `RunWorker`.
  - The media tracks' frame counts are the input `trackFrameCounts`. An empty list fails as `NoMediaTracks`, in `maxOf`'s place.
  - A failure of `mediaInfo()` itself is not modelled.
- `FfmpegWrapperImpl.kt` and `ProcessBuilder` are not part of this model. Process invocation is outside the model: the probe lines and ffmpeg's output lines are inputs, and `produced` says whether ffmpeg wrote the temporary file.
- Threading is not modelled:
  - `@Async`, `@Synchronized` and the detached worker thread;
  - reads of `frame` concurrent with the worker.

  The worker is one sequential method run after a successful `CreateTaskFor`.
- The `isAlive`/`readLine` race is not modelled. Lines still buffered when the process exits are not read by the code; the model reads every given line.
- Paths are strings of the form `parent + "/" + name`. `java.io.File` normalisation and `absolutePath` are not modelled.
- The filesystem is a set of existing paths, which leaves out:
  - the difference between files and directories;
  - permissions;
  - `mkdirs` failing;
  - a move onto a non-empty directory;
  - `delete` returning false.
- The random UUID is a parameter of `CreateCommand`.
- Logging is left out; it has no effect on state.
- `TaskController.kt`, `DirectoryPoller.kt` and `ConverterDaemonApplication.kt` are not part of this model.
