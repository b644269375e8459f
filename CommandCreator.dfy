/** CommandCreator.kt: from ffmpeg's probe output for one source file to the
    ffmpeg argument list, the temporary and final output files and the frame
    count of a transcoding `Task`. */
module CommandCreator {
  import opened Text
  import opened Domain
  import opened Streams

  const KnownChannelTypes: set<string> := {"Video", "Audio", "Subtitle", "Attachment"}

  /** The preferred languages, in order: German (two tags), then English. */
  const DefaultLanguages: seq<string> := ["deu", "ger", "eng"]

  /** The codec description of an AC3 track that does not count as "another" AC3
      track when deciding whether to add the AC3 fallback. */
  const Ac3Reference: string := "stereo, fltp, 192 kb/s"

  /** One planned audio track: its position in the Audio group, its codec
      description and what ffmpeg is told to do with it ("copy" or "ac3"). */
  datatype Mapping = Mapping(index: nat, codec: string, action: string)

  // ===========================================================================
  // Selecting and grouping the stream lines
  // ===========================================================================

  /** A trimmed probe line that is handed to `Stream.from`. */
  predicate IsCandidate(line: string) {
    Contains(line, "Stream") && !StartsWith(line, "Guessed")
  }

  /** The `map { trim }`, `filter { contains("Stream") }` and
      `filter { !startsWith("Guessed") }` steps, in input order. */
  function CandidateLines(lines: seq<string>): (r: seq<string>)
    ensures |r| <= |lines|
    ensures forall x :: x in r ==> IsCandidate(x) && exists l :: l in lines && x == Trim(l)
    ensures forall l :: l in lines && IsCandidate(Trim(l)) ==> Trim(l) in r
  {
    if lines == [] then [] else Kept(lines[0]) + CandidateLines(lines[1..])
  }

  /** What the three steps make of one line: the trimmed line, or nothing. */
  function Kept(line: string): seq<string> {
    if IsCandidate(Trim(line)) then [Trim(line)] else []
  }

  /** Filtering works line by line: the lines kept from `a + b` are those kept
      from `a` followed by those kept from `b`, so input order and repetitions
      are preserved. */
  lemma {:induction false} CandidateLinesConcat(a: seq<string>, b: seq<string>)
    ensures CandidateLines(a + b) == CandidateLines(a) + CandidateLines(b)
  {
    if a == [] {
      assert a + b == b;
    } else {
      assert (a + b)[0] == a[0];
      assert (a + b)[1..] == a[1..] + b;
      CandidateLinesConcat(a[1..], b);
      assert CandidateLines(a + b) == Kept(a[0]) + CandidateLines(a[1..] + b);
    }
  }

  /** A single line is kept, trimmed, exactly when it is a candidate. */
  lemma CandidateLinesOne(line: string)
    ensures CandidateLines([line]) == Kept(line)
  {
    assert [line][1..] == [];
  }

  /** `map { Stream.from(it) }`: one parse result per line, in order. */
  function Parsed(cands: seq<string>): (rs: seq<Result<Stream>>)
    ensures |rs| == |cands|
  {
    if cands == [] then [] else [From(cands[0])] + Parsed(cands[1..])
  }

  lemma {:induction false} ParsedAt(cands: seq<string>, i: nat)
    requires i < |cands|
    ensures Parsed(cands)[i] == From(cands[i])
  {
    if i > 0 {
      ParsedAt(cands[1..], i - 1);
    }
  }

  /** The results taken in order: the first failure is the exception that
      escapes, otherwise every stream. */
  function Collect(rs: seq<Result<Stream>>): (r: Result<seq<Stream>>)
    ensures r.Ok? ==> |r.value| == |rs|
  {
    if rs == [] then Ok([])
    else
      match rs[0]
      case Err(e) => Err(e)
      case Ok(s) =>
        match Collect(rs[1..])
        case Err(e) => Err(e)
        case Ok(rest) => Ok([s] + rest)
  }

  lemma {:induction false} CollectOk(rs: seq<Result<Stream>>)
    requires Collect(rs).Ok?
    ensures forall i :: 0 <= i < |rs| ==> rs[i] == Ok(Collect(rs).value[i])
  {
    if rs != [] {
      CollectOk(rs[1..]);
    }
  }

  lemma {:induction false} CollectErr(rs: seq<Result<Stream>>)
    requires Collect(rs).Err?
    ensures exists i :: 0 <= i < |rs| && rs[i] == Err(Collect(rs).error)
                        && forall j :: 0 <= j < i ==> rs[j].Ok?
  {
    if rs[0].Ok? {
      var tail := rs[1..];
      CollectErr(tail);
      var i :| 0 <= i < |tail| && tail[i] == Err(Collect(tail).error)
               && forall j :: 0 <= j < i ==> tail[j].Ok?;
      assert rs[i + 1] == tail[i];
    } else {
      assert rs[0] == Err(Collect(rs).error);
    }
  }

  /** The parsed stream lines, or the exception of the first line that fails. */
  function ParseStreams(cands: seq<string>): (r: Result<seq<Stream>>)
    ensures r.Ok? ==> |r.value| == |cands|
  {
    Collect(Parsed(cands))
  }

  /** A successful parse holds `Stream.from` of every line, in order. */
  lemma ParseStreamsOk(cands: seq<string>)
    requires ParseStreams(cands).Ok?
    ensures forall i :: 0 <= i < |cands| ==> From(cands[i]) == Ok(ParseStreams(cands).value[i])
  {
    CollectOk(Parsed(cands));
    forall i | 0 <= i < |cands|
      ensures From(cands[i]) == Ok(ParseStreams(cands).value[i])
    {
      ParsedAt(cands, i);
    }
  }

  /** A failed parse carries the error of the first line that fails. */
  lemma ParseStreamsErr(cands: seq<string>)
    requires ParseStreams(cands).Err?
    ensures exists i :: 0 <= i < |cands| && From(cands[i]) == Err(ParseStreams(cands).error)
                        && forall j :: 0 <= j < i ==> From(cands[j]).Ok?
  {
    var rs := Parsed(cands);
    CollectErr(rs);
    var i :| 0 <= i < |rs| && rs[i] == Err(Collect(rs).error) && forall j :: 0 <= j < i ==> rs[j].Ok?;
    ParsedAt(cands, i);
    forall j | 0 <= j < i
      ensures From(cands[j]).Ok?
    {
      ParsedAt(cands, j);
    }
  }

  /** The streams of one type, in input order. */
  function OfType(ss: seq<Stream>, t: string): (r: seq<Stream>)
    ensures |r| <= |ss|
    ensures forall s :: s in r ==> s in ss && s.streamType == t
    ensures forall s :: s in ss && s.streamType == t ==> s in r
  {
    if ss == [] then []
    else (if ss[0].streamType == t then [ss[0]] else []) + OfType(ss[1..], t)
  }

  /** Grouping works stream by stream: the group of `a + b` is the group of `a`
      followed by the group of `b`, so each group keeps the input order. */
  lemma {:induction false} OfTypeConcat(a: seq<Stream>, b: seq<Stream>, t: string)
    ensures OfType(a + b, t) == OfType(a, t) + OfType(b, t)
  {
    if a == [] {
      assert a + b == b;
    } else {
      assert (a + b)[0] == a[0];
      assert (a + b)[1..] == a[1..] + b;
      var h := if a[0].streamType == t then [a[0]] else [];
      assert OfType(a, t) == h + OfType(a[1..], t);
      assert OfType(a + b, t) == h + OfType(a[1..] + b, t);
      OfTypeConcat(a[1..], b, t);
      ConcatAssoc(h, OfType(a[1..], t), OfType(b, t));
    }
  }

  /** Regrouping a concatenation, stated apart from the groups it is used on. */
  lemma ConcatAssoc<T>(x: seq<T>, y: seq<T>, z: seq<T>)
    ensures x + (y + z) == (x + y) + z
  {
  }

  /** A single stream forms its type's group and no other. */
  lemma OfTypeOne(s: Stream, t: string)
    ensures OfType([s], t) == if s.streamType == t then [s] else []
  {
    assert [s][1..] == [];
  }

  /** `groupBy { it.type }`: one non-empty group per type that occurs. */
  function GroupByType(ss: seq<Stream>): (g: map<string, seq<Stream>>)
    ensures forall t :: t in g <==> exists s :: s in ss && s.streamType == t
    ensures forall t :: t in g ==> g[t] == OfType(ss, t) && g[t] != []
  {
    map t | t in (set s | s in ss :: s.streamType) :: OfType(ss, t)
  }

  // ===========================================================================
  // Video
  // ===========================================================================

  /** `videoFormat`: copy a stream that is already HEVC, otherwise re-encode it
      with libx265. */
  function VideoFormat(g: map<string, seq<Stream>>): (f: string)
    requires "Video" in g && |g["Video"]| == 1
    ensures f == "copy" || f == "libx265"
    ensures f == "copy" <==> StartsWith(g["Video"][0].codec, "hevc")
  {
    if StartsWith(g["Video"][0].codec, "hevc") then "copy" else "libx265"
  }

  // ===========================================================================
  // Positions of the streams of one language
  // ===========================================================================

  /** The positions `i < n` of the streams in `ss` whose language is `lang`,
      ascending (`mapIndexedNotNull` / `forEachIndexed` with a language test). */
  function PositionsOf(ss: seq<Stream>, lang: string, n: nat): seq<nat>
    requires n <= |ss|
  {
    if n == 0 then []
    else PositionsOf(ss, lang, n - 1) + (if ss[n - 1].lang == lang then [n - 1] else [])
  }

  /** The positions are exactly those of the streams of that language, below `n`,
      each once and in ascending order. */
  lemma {:induction false} PositionsOfExactly(ss: seq<Stream>, lang: string, n: nat)
    requires n <= |ss|
    ensures forall k :: 0 <= k < |PositionsOf(ss, lang, n)| ==>
              PositionsOf(ss, lang, n)[k] < n && ss[PositionsOf(ss, lang, n)[k]].lang == lang
    ensures forall k, k' :: 0 <= k < k' < |PositionsOf(ss, lang, n)| ==>
              PositionsOf(ss, lang, n)[k] < PositionsOf(ss, lang, n)[k']
    ensures forall i :: 0 <= i < n && ss[i].lang == lang ==> i in PositionsOf(ss, lang, n)
  {
    if n > 0 { PositionsOfExactly(ss, lang, n - 1); }
  }

  // ===========================================================================
  // Audio
  // ===========================================================================

  /** The Audio group, or nothing (`streams["Audio"]?... ?: emptyList()`). */
  function AudioGroup(g: map<string, seq<Stream>>): seq<Stream> {
    if "Audio" in g then g["Audio"] else []
  }

  /** The (position, stream) pairs of the audio streams of one language. */
  function LanguagePairs(audio: seq<Stream>, lang: string): (pairs: seq<(nat, Stream)>)
    ensures forall k :: 0 <= k < |pairs| ==>
              pairs[k].0 < |audio| && pairs[k].1 == audio[pairs[k].0] && pairs[k].1.lang == lang
    ensures forall k, k' :: 0 <= k < k' < |pairs| ==> pairs[k].0 < pairs[k'].0
    ensures forall i :: 0 <= i < |audio| && audio[i].lang == lang ==> (i, audio[i]) in pairs
  {
    var ps := PositionsOf(audio, lang, |audio|);
    PositionsOfExactly(audio, lang, |audio|);
    var pairs := seq(|ps|, k requires 0 <= k < |ps| => (ps[k], audio[ps[k]]));
    assert forall k :: 0 <= k < |ps| ==> pairs[k] == (ps[k], audio[ps[k]]) && pairs[k] in pairs;
    pairs
  }

  predicate IsAc3(m: Mapping) { StartsWith(m.codec, "ac3") }

  /** An AC3 track whose description does not end in the stereo 192 kb/s one. */
  predicate IsOtherAc3(m: Mapping) { IsAc3(m) && !EndsWith(m.codec, Ac3Reference) }

  /** The condition of `audioMappingsFor` for adding an AC3 track: some track is
      not AC3, and no track is an AC3 track other than the stereo 192 kb/s one. */
  predicate NeedsFallback(ms: seq<Mapping>) {
    && (exists i :: 0 <= i < |ms| && !IsAc3(ms[i]))
    && !(exists i :: 0 <= i < |ms| && IsOtherAc3(ms[i]))
  }

  function CopyMapping(p: (nat, Stream)): Mapping {
    Mapping(p.0, p.1.codec, "copy")
  }

  /** One "copy" mapping per pair, in order. */
  function CopyMappings(pairs: seq<(nat, Stream)>): (ms: seq<Mapping>)
    ensures |ms| == |pairs|
    ensures forall k :: 0 <= k < |pairs| ==> ms[k] == CopyMapping(pairs[k])
  {
    seq(|pairs|, k requires 0 <= k < |pairs| => CopyMapping(pairs[k]))
  }

  /** Where `last { !it.codec.startsWith("ac3") }` finds its element. */
  function LastNonAc3Position(ms: seq<Mapping>): (p: nat)
    requires exists i :: 0 <= i < |ms| && !IsAc3(ms[i])
    ensures p < |ms| && !IsAc3(ms[p])
    ensures forall j :: p < j < |ms| ==> IsAc3(ms[j])
  {
    if !IsAc3(ms[|ms| - 1]) then |ms| - 1 else LastNonAc3Position(ms[..|ms| - 1])
  }

  /** `indexOf(m)`: the first position holding a mapping equal to `m`. */
  function IndexOfMapping(ms: seq<Mapping>, m: Mapping): (i: nat)
    requires m in ms
    ensures i < |ms| && ms[i] == m
    ensures forall j :: 0 <= j < i ==> ms[j] != m
  {
    if ms[0] == m then 0 else 1 + IndexOfMapping(ms[1..], m)
  }

  /** What `audioMappingsFor` returns for the pairs of one language: a "copy"
      mapping per pair and, when `NeedsFallback`, a copy of the first mapping with
      action "ac3" right after (the first mapping equal to) the last non-AC3 one. */
  function FallbackLayout(pairs: seq<(nat, Stream)>): (r: seq<Mapping>)
    ensures |r| == |pairs| + (if NeedsFallback(CopyMappings(pairs)) then 1 else 0)
    ensures forall m :: m in r ==> m.action == "copy" || m.action == "ac3"
  {
    var ms := CopyMappings(pairs);
    if NeedsFallback(ms) then
      var at := IndexOfMapping(ms, ms[LastNonAc3Position(ms)]) + 1;
      ms[..at] + [ms[0].(action := "ac3")] + ms[at..]
    else ms
  }

  /** `audioMappingsFor`: fills a mutable list, then inserts the fallback. */
  method AudioMappingsFor(pairs: seq<(nat, Stream)>) returns (mappings: seq<Mapping>)
    ensures mappings == FallbackLayout(pairs)
  {
    mappings := [];
    for k := 0 to |pairs|
      invariant |mappings| == k
      invariant forall j :: 0 <= j < k ==> mappings[j] == CopyMapping(pairs[j])
    {
      mappings := mappings + [Mapping(pairs[k].0, pairs[k].1.codec, "copy")];
    }
    assert mappings == CopyMappings(pairs);
    if NeedsFallback(mappings) {
      var lastNonAc3 := mappings[LastNonAc3Position(mappings)];
      var lastNonAc3Index := IndexOfMapping(mappings, lastNonAc3);
      mappings := mappings[..lastNonAc3Index + 1] + [mappings[0].(action := "ac3")]
                  + mappings[lastNonAc3Index + 1..];
      assert mappings == FallbackLayout(pairs);
    } else {
      assert mappings == FallbackLayout(pairs);
    }
  }

  /** With the pairs' positions distinct (as `LanguagePairs` gives them), the
      fallback lands immediately after the last non-AC3 mapping, is the first
      mapping with action "ac3", and every other mapping keeps "copy" and its
      relative order. */
  lemma {:induction false} FallbackPlacement(pairs: seq<(nat, Stream)>)
    requires forall k, k' :: 0 <= k < k' < |pairs| ==> pairs[k].0 != pairs[k'].0
    requires NeedsFallback(CopyMappings(pairs))
    ensures var ms := CopyMappings(pairs);
            exists p :: 0 <= p < |ms| && !IsAc3(ms[p])
              && (forall j :: p < j < |ms| ==> IsAc3(ms[j]))
              && FallbackLayout(pairs) == ms[..p + 1] + [CopyMapping(pairs[0]).(action := "ac3")] + ms[p + 1..]
  {
    var ms := CopyMappings(pairs);
    var p := LastNonAc3Position(ms);
    var i := IndexOfMapping(ms, ms[p]);
    assert ms[i].index == pairs[i].0 && ms[p].index == pairs[p].0;
    assert i == p;
    assert ms[0] == CopyMapping(pairs[0]);
    assert FallbackLayout(pairs) == ms[..p + 1] + [CopyMapping(pairs[0]).(action := "ac3")] + ms[p + 1..];
  }

  /** Without the condition nothing is inserted: the group is copied as is. */
  lemma NoFallbackCopiesAll(pairs: seq<(nat, Stream)>)
    requires !NeedsFallback(CopyMappings(pairs))
    ensures FallbackLayout(pairs) == CopyMappings(pairs)
    ensures forall m :: m in FallbackLayout(pairs) ==> m.action == "copy"
  {
  }

  /** Every planned track of a group is one of the group's streams, and every
      stream of the group is planned as a copy. */
  lemma {:induction false} FallbackLayoutCovers(pairs: seq<(nat, Stream)>)
    ensures forall m :: m in FallbackLayout(pairs) ==> exists k :: 0 <= k < |pairs| && m.index == pairs[k].0
    ensures forall k :: 0 <= k < |pairs| ==> CopyMapping(pairs[k]) in FallbackLayout(pairs)
  {
    var ms := CopyMappings(pairs);
    var r := FallbackLayout(pairs);
    forall k | 0 <= k < |pairs| ensures CopyMapping(pairs[k]) in r {
      assert ms[k] == CopyMapping(pairs[k]);
      if NeedsFallback(ms) {
        var at := IndexOfMapping(ms, ms[LastNonAc3Position(ms)]) + 1;
        if k < at { assert r[k] == ms[k]; } else { assert r[k + 1] == ms[k]; }
      }
    }
    forall m | m in r ensures exists k :: 0 <= k < |pairs| && m.index == pairs[k].0 {
      if m !in ms {
        assert m == ms[0].(action := "ac3");
        assert m.index == pairs[0].0;
      } else {
        var k :| 0 <= k < |ms| && ms[k] == m;
        assert m.index == pairs[k].0;
      }
    }
  }

  /** The planned audio tracks for the languages `langs`, language by language
      (`defaultLanguages.flatMap { ... }`). */
  function AudioLayout(audio: seq<Stream>, langs: seq<string>): seq<Mapping> {
    if langs == [] then []
    else AudioLayout(audio, langs[..|langs| - 1]) + FallbackLayout(LanguagePairs(audio, langs[|langs| - 1]))
  }

  /** Streams of other languages, "???" included, get no track; every stream of a
      listed language gets a "copy" track. */
  lemma {:induction false} AudioLayoutLanguages(audio: seq<Stream>, langs: seq<string>)
    ensures forall m :: m in AudioLayout(audio, langs) ==> m.index < |audio| && audio[m.index].lang in langs
    ensures forall i :: 0 <= i < |audio| && audio[i].lang in langs ==>
              Mapping(i, audio[i].codec, "copy") in AudioLayout(audio, langs)
  {
    if langs != [] {
      var init := langs[..|langs| - 1];
      var lang := langs[|langs| - 1];
      AudioLayoutLanguages(audio, init);
      var pairs := LanguagePairs(audio, lang);
      FallbackLayoutCovers(pairs);
      assert forall l :: l in init ==> l in langs;
      forall i | 0 <= i < |audio| && audio[i].lang == lang
        ensures Mapping(i, audio[i].codec, "copy") in FallbackLayout(pairs)
      {
        var ps := PositionsOf(audio, lang, |audio|);
        PositionsOfExactly(audio, lang, |audio|);
        var k :| 0 <= k < |ps| && ps[k] == i;
        assert CopyMapping(pairs[k]) == Mapping(i, audio[i].codec, "copy");
      }
    }
  }

  /** `flatMapIndexed`: four arguments per mapping, the k-th mapping of the whole
      list numbered `-c:a:k`. */
  function MappingArgs(ms: seq<Mapping>, k: nat): seq<string> {
    if ms == [] then []
    else ["-map", "0:a:" + NatToString(ms[0].index), "-c:a:" + NatToString(k), ms[0].action]
         + MappingArgs(ms[1..], k + 1)
  }

  /** The j-th mapping gives arguments 4j..4j+3: its Audio position and the
      output index `from + j`. */
  lemma {:induction false} MappingArgsAt(ms: seq<Mapping>, from: nat, j: nat)
    requires j < |ms|
    ensures |MappingArgs(ms, from)| == 4 * |ms|
    ensures MappingArgs(ms, from)[4 * j..4 * j + 4] ==
              ["-map", "0:a:" + NatToString(ms[j].index), "-c:a:" + NatToString(from + j), ms[j].action]
  {
    MappingArgsLength(ms, from);
    if j > 0 {
      MappingArgsAt(ms[1..], from + 1, j - 1);
      var head := ["-map", "0:a:" + NatToString(ms[0].index), "-c:a:" + NatToString(from), ms[0].action];
      assert MappingArgs(ms, from) == head + MappingArgs(ms[1..], from + 1);
      assert MappingArgs(ms, from)[4 * j..4 * j + 4] == MappingArgs(ms[1..], from + 1)[4 * (j - 1)..4 * (j - 1) + 4];
    }
  }

  lemma {:induction false} MappingArgsLength(ms: seq<Mapping>, from: nat)
    ensures |MappingArgs(ms, from)| == 4 * |ms|
  {
    if ms != [] { MappingArgsLength(ms[1..], from + 1); }
  }

  /** `audioMappings`: the argument list of all planned audio tracks. */
  function AudioMappings(g: map<string, seq<Stream>>): (r: seq<string>)
    ensures |r| == 4 * |AudioLayout(AudioGroup(g), DefaultLanguages)|
  {
    MappingArgsLength(AudioLayout(AudioGroup(g), DefaultLanguages), 0);
    MappingArgs(AudioLayout(AudioGroup(g), DefaultLanguages), 0)
  }

  /** The j-th planned track over all languages, German first, emits
      `-map 0:a:<its position in the Audio group> -c:a:<j> <action>`. */
  lemma AudioMappingsAt(g: map<string, seq<Stream>>, j: nat)
    requires j < |AudioLayout(AudioGroup(g), DefaultLanguages)|
    ensures var m := AudioLayout(AudioGroup(g), DefaultLanguages)[j];
            AudioMappings(g)[4 * j..4 * j + 4] ==
              ["-map", "0:a:" + NatToString(m.index), "-c:a:" + NatToString(j), m.action]
  {
    MappingArgsAt(AudioLayout(AudioGroup(g), DefaultLanguages), 0, j);
  }

  // ===========================================================================
  // Subtitles
  // ===========================================================================

  function SubtitleGroup(g: map<string, seq<Stream>>): seq<Stream> {
    if "Subtitle" in g then g["Subtitle"] else []
  }

  /** The Subtitle positions selected for the languages `langs`, language by
      language, ascending within a language. */
  function SubtitleOrder(subs: seq<Stream>, langs: seq<string>): seq<nat> {
    if langs == [] then []
    else SubtitleOrder(subs, langs[..|langs| - 1]) + PositionsOf(subs, langs[|langs| - 1], |subs|)
  }

  /** The four arguments of the j-th selected subtitle, at Subtitle position
      `pos`: its output index is the length of the list before it, 4j. */
  function SubtitleEntry(pos: nat, j: nat): seq<string> {
    ["-map", "0:s:" + NatToString(pos), "-c:s:" + NatToString(4 * j), "copy"]
  }

  function SubtitleEntries(sel: seq<nat>): (args: seq<string>)
    ensures |args| == 4 * |sel|
  {
    if sel == [] then []
    else SubtitleEntries(sel[..|sel| - 1]) + SubtitleEntry(sel[|sel| - 1], |sel| - 1)
  }

  /** What `subtitleMappings` returns for a Subtitle group. */
  function SubtitleArgs(subs: seq<Stream>): seq<string> {
    SubtitleEntries(SubtitleOrder(subs, DefaultLanguages))
  }

  /** `subtitleMappings`: nested loops appending to a mutable list, numbering
      each subtitle with the list's current size. */
  method SubtitleMappings(g: map<string, seq<Stream>>) returns (subtitleCommands: seq<string>)
    ensures subtitleCommands == SubtitleArgs(SubtitleGroup(g))
  {
    subtitleCommands := [];
    var subs := SubtitleGroup(g);
    for li := 0 to |DefaultLanguages|
      invariant subtitleCommands == SubtitleEntries(SubtitleOrder(subs, DefaultLanguages[..li]))
    {
      SubtitleOrderStep(subs, DefaultLanguages, li);
      if "Subtitle" in g {
        subtitleCommands := AppendSubtitlesOf(subs, DefaultLanguages[li], subtitleCommands,
                                              SubtitleOrder(subs, DefaultLanguages[..li]));
      } else {
        assert subs == [];
      }
    }
    assert DefaultLanguages[..3] == DefaultLanguages;
  }

  /** The inner loop of `subtitleMappings` (`forEachIndexed` over the Subtitle
      group): appends the entries of the subtitles of language `lang`, after the
      entries already selected (`sel`). */
  method AppendSubtitlesOf(subs: seq<Stream>, lang: string, commands: seq<string>, ghost sel: seq<nat>)
    returns (subtitleCommands: seq<string>)
    requires commands == SubtitleEntries(sel)
    ensures subtitleCommands == SubtitleEntries(sel + PositionsOf(subs, lang, |subs|))
  {
    subtitleCommands := commands;
    ghost var taken := sel;
    for idx := 0 to |subs|
      invariant taken == sel + PositionsOf(subs, lang, idx)
      invariant subtitleCommands == SubtitleEntries(taken)
    {
      PositionsStep(subs, lang, idx, sel);
      if subs[idx].lang == lang {
        SubtitleAppend(subtitleCommands, taken, idx);
        subtitleCommands := subtitleCommands
          + ["-map", "0:s:" + NatToString(idx), "-c:s:" + NatToString(|subtitleCommands|), "copy"];
        taken := taken + [idx];
      }
    }
  }

  /** One more position examined by the inner loop of `subtitleMappings`. */
  lemma PositionsStep(ss: seq<Stream>, lang: string, idx: nat, before: seq<nat>)
    requires idx < |ss|
    ensures before + PositionsOf(ss, lang, idx + 1) ==
            before + PositionsOf(ss, lang, idx) + (if ss[idx].lang == lang then [idx] else [])
  {
  }

  /** Appending with the list's size as output index extends the entries by one
      subtitle. */
  lemma SubtitleAppend(commands: seq<string>, sel: seq<nat>, pos: nat)
    requires commands == SubtitleEntries(sel)
    ensures commands + ["-map", "0:s:" + NatToString(pos), "-c:s:" + NatToString(|commands|), "copy"]
            == SubtitleEntries(sel + [pos])
  {
    assert (sel + [pos])[..|sel|] == sel;
  }

  /** One step of the outer loop of `subtitleMappings`. */
  lemma SubtitleOrderStep(subs: seq<Stream>, langs: seq<string>, li: nat)
    requires li < |langs|
    ensures SubtitleOrder(subs, langs[..li + 1]) == SubtitleOrder(subs, langs[..li]) + PositionsOf(subs, langs[li], |subs|)
  {
    assert langs[..li + 1][..li] == langs[..li];
  }

  /** The j-th selected subtitle gets arguments 4j..4j+3 and the output index 4j:
      the index advances by four per subtitle, not by one. */
  lemma {:induction false} SubtitleEntriesAt(sel: seq<nat>, j: nat)
    requires j < |sel|
    ensures SubtitleEntries(sel)[4 * j..4 * j + 4] == SubtitleEntry(sel[j], j)
  {
    var init := sel[..|sel| - 1];
    if j < |sel| - 1 {
      SubtitleEntriesAt(init, j);
      assert init[j] == sel[j];
      assert SubtitleEntries(sel)[4 * j..4 * j + 4] == SubtitleEntries(init)[4 * j..4 * j + 4];
    }
  }

  /** Subtitles of other languages are dropped; every subtitle of a listed
      language is selected. */
  lemma {:induction false} SubtitleOrderLanguages(subs: seq<Stream>, langs: seq<string>)
    ensures forall p :: p in SubtitleOrder(subs, langs) ==> p < |subs| && subs[p].lang in langs
    ensures forall i :: 0 <= i < |subs| && subs[i].lang in langs ==> i in SubtitleOrder(subs, langs)
  {
    if langs != [] {
      var init := langs[..|langs| - 1];
      SubtitleOrderLanguages(subs, init);
      PositionsOfExactly(subs, langs[|langs| - 1], |subs|);
      assert forall l :: l in init ==> l in langs;
      assert forall l :: l in langs ==> l in init || l == langs[|langs| - 1];
    }
  }

  // ===========================================================================
  // Attachments
  // ===========================================================================

  /** `attachmentMapping`: all attachments copied as one block, if any exist. */
  function AttachmentArgs(g: map<string, seq<Stream>>): (r: seq<string>)
    ensures r != [] <==> "Attachment" in g
    ensures r != [] ==> r == AttachmentBlock
  {
    if "Attachment" in g then AttachmentBlock else []
  }

  // ===========================================================================
  // escape (defined in the class, called nowhere)
  // ===========================================================================

  /** The characters `escape` puts a backslash in front of. */
  const EscapeCharacters: seq<char> := [' ', '`', '(', ')', '!', '?']

  /** `s.replace(c, r)` for a one-character target: every `c` becomes `r`. */
  function ReplaceChar(s: string, c: char, r: string): string {
    if s == [] then [] else (if s[0] == c then r else [s[0]]) + ReplaceChar(s[1..], c, r)
  }

  lemma {:induction false} ReplaceCharConcat(a: string, b: string, c: char, r: string)
    ensures ReplaceChar(a + b, c, r) == ReplaceChar(a, c, r) + ReplaceChar(b, c, r)
  {
    if a == [] {
      assert a + b == b;
    } else {
      assert (a + b)[1..] == a[1..] + b;
      ReplaceCharConcat(a[1..], b, c, r);
    }
  }

  /** `s` with a backslash in front of every character of `cs`, in one pass. */
  function EscapedWith(s: string, cs: set<char>): string {
    if s == [] then [] else (if s[0] in cs then ['\\', s[0]] else [s[0]]) + EscapedWith(s[1..], cs)
  }

  lemma {:induction false} EscapedWithNothing(s: string)
    ensures EscapedWith(s, {}) == s
  {
    if s != [] {
      EscapedWithNothing(s[1..]);
      assert s == [s[0]] + s[1..];
    }
  }

  /** Replacing one more character, itself not a backslash, escapes it as well. */
  lemma {:induction false} ReplaceAfterEscape(s: string, cs: set<char>, c: char)
    requires c !in cs && c != '\\'
    ensures ReplaceChar(EscapedWith(s, cs), c, ['\\', c]) == EscapedWith(s, cs + {c})
  {
    if s != [] {
      var head := if s[0] in cs then ['\\', s[0]] else [s[0]];
      ReplaceCharConcat(head, EscapedWith(s[1..], cs), c, ['\\', c]);
      ReplaceAfterEscape(s[1..], cs, c);
      if s[0] in cs {
        assert ReplaceChar(head, c, ['\\', c]) == head by {
          assert head[1..][1..] == [];
        }
      }
    }
  }

  function CharSet(cs: seq<char>): set<char> {
    set c | c in cs
  }

  /** `escape`: one `replace` per escape character, reassigning a variable. */
  method Escape(filename: string) returns (escapedFilename: string)
    ensures escapedFilename == EscapedWith(filename, CharSet(EscapeCharacters))
  {
    escapedFilename := filename;
    EscapedWithNothing(filename);
    assert CharSet(EscapeCharacters[..0]) == {};
    for k := 0 to |EscapeCharacters|
      invariant escapedFilename == EscapedWith(filename, CharSet(EscapeCharacters[..k]))
    {
      var c := EscapeCharacters[k];
      var done := CharSet(EscapeCharacters[..k]);
      assert c !in done;
      ReplaceAfterEscape(filename, done, c);
      escapedFilename := ReplaceChar(escapedFilename, c, ['\\', c]);
      assert CharSet(EscapeCharacters[..k + 1]) == done + {c} by {
        assert EscapeCharacters[..k + 1] == EscapeCharacters[..k] + [c];
      }
    }
    assert EscapeCharacters[..|EscapeCharacters|] == EscapeCharacters;
  }

  /** Drops the backslash in front of each escaped character. */
  function Unescaped(t: string, cs: set<char>): string {
    if t == [] then []
    else if t[0] == '\\' && |t| > 1 && t[1] in cs then [t[1]] + Unescaped(t[2..], cs)
    else [t[0]] + Unescaped(t[1..], cs)
  }

  lemma {:induction false} EscapedHead(s: string, cs: set<char>)
    requires '\\' !in cs && s != []
    ensures EscapedWith(s, cs) != [] && EscapedWith(s, cs)[0] !in cs
  {
  }

  /** Escaping loses nothing: unescaping gives the name back, so distinct names
      stay distinct. */
  lemma {:induction false} UnescapeEscaped(s: string, cs: set<char>)
    requires '\\' !in cs
    ensures Unescaped(EscapedWith(s, cs), cs) == s
  {
    if s != [] {
      var rest := EscapedWith(s[1..], cs);
      UnescapeEscaped(s[1..], cs);
      if s[0] in cs {
        assert EscapedWith(s, cs) == ['\\', s[0]] + rest;
        assert (['\\', s[0]] + rest)[2..] == rest;
      } else {
        assert EscapedWith(s, cs) == [s[0]] + rest;
        assert ([s[0]] + rest)[1..] == rest;
        if s[0] == '\\' && rest != [] {
          EscapedHead(s[1..], cs);
        }
      }
      assert s == [s[0]] + s[1..];
    }
  }

  // ===========================================================================
  // Output paths and frame count
  // ===========================================================================

  /** `outputName`: everything from the last "." on replaced by ".mkv"; a name
      without a dot gets ".mkv" appended. */
  function OutputName(filename: string): (r: string)
    ensures (forall i :: 0 <= i < |filename| ==> filename[i] != '.') ==> r == filename + ".mkv"
    ensures (exists i :: 0 <= i < |filename| && filename[i] == '.') ==>
              exists i :: 0 <= i < |filename| && filename[i] == '.' && r == filename[..i] + ".mkv"
                       && forall j :: i < j < |filename| ==> filename[j] != '.'
  {
    DotOccurrences(filename);
    SubstringBeforeLast(filename, ".") + ".mkv"
  }

  /** An occurrence of the string "." is a '.' character. */
  lemma DotOccurrences(s: string)
    ensures forall j: nat :: OccursAt(s, ".", j) <==> j < |s| && s[j] == '.'
  {
    forall j: nat ensures OccursAt(s, ".", j) <==> j < |s| && s[j] == '.' {
      if j < |s| { assert s[j..j + 1] == [s[j]]; }
    }
  }

  /** `File(destination, "<uuid>.mkv")`. */
  function TemporaryOutputFile(cfg: Config, uuid: string): (f: FileRef)
    ensures f.parent == cfg.destinationDirectory && f.name == uuid + ".mkv"
    ensures f.Path() == cfg.destinationDirectory + "/" + uuid + ".mkv"
  {
    FileRef(cfg.destinationDirectory, uuid + ".mkv")
  }

  /** Temporary files of different UUIDs never collide. */
  lemma TemporaryOutputFileInjective(cfg: Config, u1: string, u2: string)
    requires TemporaryOutputFile(cfg, u1).Path() == TemporaryOutputFile(cfg, u2).Path()
    ensures u1 == u2
  {
    var n := |cfg.destinationDirectory| + 1;
    var p1, p2 := TemporaryOutputFile(cfg, u1).Path(), TemporaryOutputFile(cfg, u2).Path();
    assert |u1| == |u2|;
    assert p1[n..n + |u1|] == u1;
    assert p2[n..n + |u2|] == u2;
  }

  /** `File(destination + separator + parent.substringAfter(sourceDirectory),
      outputName(name))`: the source's place below the source root, mirrored
      below the destination root. */
  function OutputFile(cfg: Config, source: FileRef): (f: FileRef)
    ensures f.name == OutputName(source.name)
    ensures !Contains(source.parent, cfg.sourceDirectory) ==>
              f.parent == cfg.destinationDirectory + "/" + source.parent
    ensures Contains(source.parent, cfg.sourceDirectory) ==>
              exists i: nat :: OccursAt(source.parent, cfg.sourceDirectory, i)
                && (forall j: nat :: j < i ==> !OccursAt(source.parent, cfg.sourceDirectory, j))
                && f.parent == cfg.destinationDirectory + "/" + source.parent[i + |cfg.sourceDirectory|..]
  {
    FileRef(cfg.destinationDirectory + "/" + SubstringAfter(source.parent, cfg.sourceDirectory),
            OutputName(source.name))
  }

  /** `maxOf { it.frameCount }` over a non-empty list of media tracks. */
  function MaxOf(xs: seq<int>): (m: int)
    requires xs != []
    ensures m in xs
    ensures forall x :: x in xs ==> x <= m
  {
    if |xs| == 1 then xs[0]
    else
      var rest := MaxOf(xs[1..]);
      assert forall x :: x in xs ==> x == xs[0] || x in xs[1..];
      if xs[0] >= rest then xs[0] else rest
  }

  // ===========================================================================
  // createCommand
  // ===========================================================================

  const CommandTail: seq<string> := ["-crf", "17", "-preset", "medium", "-max_muxing_queue_size", "9999"]

  /** The checks `createCommand` makes after grouping, in the order it makes them. */
  function CheckGroups(g: map<string, seq<Stream>>): (r: Result<()>)
    ensures r.Ok? <==> "Video" in g && |g["Video"]| <= 1 && g.Keys <= KnownChannelTypes
    ensures r.Err? ==> r.error in {NoVideoStream, MultipleVideoStreams, UnknownStreamType}
  {
    if "Video" !in g then Err(NoVideoStream)
    else if |g["Video"]| > 1 then Err(MultipleVideoStreams)
    else if exists t :: t in g && t !in KnownChannelTypes then Err(UnknownStreamType)
    else Ok(())
  }

  /** The argument list for validated groups, in its fixed order: input and
      video, audio, subtitles, attachments, encoder options, output file. */
  function BuildCommand(source: FileRef, temporary: FileRef, video: string, audio: seq<string>,
                        subtitles: seq<string>, attachments: seq<string>): seq<string>
  {
    ["ffmpeg", "-n", "-i", source.Path(), "-map", "0:v", "-c:v", video]
    + audio + subtitles + attachments + CommandTail + [temporary.Path()]
  }

  /** `createCommand` once the stream lines have been parsed. */
  function CreateFromStreams(cfg: Config, source: FileRef, uuid: string, ss: seq<Stream>,
                             trackFrameCounts: seq<int>): (r: Result<Task>)
    ensures r.Ok? ==> r.value.sourceFile == source
    ensures r.Ok? ==> r.value.temporaryOutputFile == TemporaryOutputFile(cfg, uuid)
    ensures r.Ok? ==> r.value.outputFile == OutputFile(cfg, source)
    ensures r.Ok? ==> r.value.frameCount in trackFrameCounts
    ensures r.Ok? ==> forall c :: c in trackFrameCounts ==> c <= r.value.frameCount
    ensures r.Ok? ==> CommandLayout(r.value.command, source, TemporaryOutputFile(cfg, uuid), ss)
    ensures r.Ok? ==> GroupBlocksAt(r.value.command, GroupByType(ss))
  {
    var g := GroupByType(ss);
    match CheckGroups(g)
    case Err(e) => Err(e)
    case Ok(_) =>
      if trackFrameCounts == [] then Err(NoMediaTracks)
      else
        var temporary := TemporaryOutputFile(cfg, uuid);
        var command := BuildCommand(source, temporary, VideoFormat(g), AudioMappings(g),
                                    SubtitleArgs(SubtitleGroup(g)), AttachmentArgs(g));
        CommandOfGroups(source, temporary, ss);
        Ok(Task(source, command, temporary, OutputFile(cfg, source), MaxOf(trackFrameCounts)))
  }

  /** The layout every command has: the input and the video choice first,
      "copy" exactly for an HEVC Video stream; the fixed encoder options and the
      temporary file last; and the attachment block right before that tail
      exactly when there is an Attachment stream, "0:t" appearing nowhere
      otherwise. */
  predicate CommandLayout(c: seq<string>, source: FileRef, temporary: FileRef, ss: seq<Stream>) {
    && |c| >= 15
    && c[..7] == ["ffmpeg", "-n", "-i", source.Path(), "-map", "0:v", "-c:v"]
    && (c[7] == "copy" || c[7] == "libx265")
    && (forall s :: s in ss && s.streamType == "Video" ==> (c[7] == "copy" <==> StartsWith(s.codec, "hevc")))
    && c[|c| - 7..] == CommandTail + [temporary.Path()]
    && ((exists s :: s in ss && s.streamType == "Attachment") <==> "0:t" in c)
    && ((exists s :: s in ss && s.streamType == "Attachment") ==> c[|c| - 11..|c| - 7] == AttachmentBlock)
  }

  /** Between the video choice and the encoder options the command holds the
      audio, subtitle and attachment arguments, in that order and nothing else. */
  predicate BlocksAt(c: seq<string>, audio: seq<string>, subtitles: seq<string>, attachments: seq<string>) {
    && |c| == 15 + |audio| + |subtitles| + |attachments|
    && c[8..8 + |audio|] == audio
    && c[8 + |audio|..8 + |audio| + |subtitles|] == subtitles
    && c[8 + |audio| + |subtitles|..|c| - 7] == attachments
  }

  /** The blocks `audioMappings`, `subtitleMappings` and `attachmentMapping`
      compute from the groups sit in the command in that order. */
  predicate GroupBlocksAt(c: seq<string>, g: map<string, seq<Stream>>) {
    BlocksAt(c, AudioMappings(g), SubtitleArgs(SubtitleGroup(g)), AttachmentArgs(g))
  }

  /** Assembling places each block where `BlocksAt` says, whatever it holds. */
  lemma BuildCommandBlocks(source: FileRef, temporary: FileRef, video: string,
                           audio: seq<string>, subtitles: seq<string>, attachments: seq<string>)
    ensures BlocksAt(BuildCommand(source, temporary, video, audio, subtitles, attachments),
                     audio, subtitles, attachments)
  {
    var head := ["ffmpeg", "-n", "-i", source.Path(), "-map", "0:v", "-c:v", video];
    var tail := CommandTail + [temporary.Path()];
    var c := BuildCommand(source, temporary, video, audio, subtitles, attachments);
    var a, b := 8 + |audio|, 8 + |audio| + |subtitles|;
    assert c == head + audio + subtitles + attachments + tail;
    assert c[8..a] == audio;
    assert c[a..b] == subtitles;
    assert c[b..|c| - 7] == attachments;
  }

  /** Groups that passed the checks give a command with that layout, holding
      their audio, subtitle and attachment blocks in order. */
  lemma CommandOfGroups(source: FileRef, temporary: FileRef, ss: seq<Stream>)
    requires CheckGroups(GroupByType(ss)).Ok?
    ensures var g := GroupByType(ss);
            CommandLayout(BuildCommand(source, temporary, VideoFormat(g), AudioMappings(g),
                                       SubtitleArgs(SubtitleGroup(g)), AttachmentArgs(g)),
                          source, temporary, ss)
    ensures var g := GroupByType(ss);
            GroupBlocksAt(BuildCommand(source, temporary, VideoFormat(g), AudioMappings(g),
                                       SubtitleArgs(SubtitleGroup(g)), AttachmentArgs(g)), g)
  {
    var g := GroupByType(ss);
    CheckGroupsOf(ss);
    AttachmentMapOnlyInAttachments(g);
    var video := VideoFormat(g);
    forall s | s in ss && s.streamType == "Video"
      ensures video == "copy" <==> StartsWith(s.codec, "hevc")
    {
      assert s in g["Video"];
    }
    CommandLayoutOf(source, temporary, ss, video, AudioMappings(g),
                    SubtitleArgs(SubtitleGroup(g)), AttachmentArgs(g));
    BuildCommandBlocks(source, temporary, video, AudioMappings(g),
                       SubtitleArgs(SubtitleGroup(g)), AttachmentArgs(g));
  }

  /** The layout from what each block is known to hold. */
  lemma CommandLayoutOf(source: FileRef, temporary: FileRef, ss: seq<Stream>, video: string,
                        audio: seq<string>, subtitles: seq<string>, attachments: seq<string>)
    requires video == "copy" || video == "libx265"
    requires forall s :: s in ss && s.streamType == "Video" ==> (video == "copy" <==> StartsWith(s.codec, "hevc"))
    requires "0:t" !in audio && "0:t" !in subtitles
    requires attachments != [] <==> exists s :: s in ss && s.streamType == "Attachment"
    requires attachments == [] || attachments == AttachmentBlock
    ensures CommandLayout(BuildCommand(source, temporary, video, audio, subtitles, attachments),
                          source, temporary, ss)
  {
    var c := BuildCommand(source, temporary, video, audio, subtitles, attachments);
    BuildCommandLayout(source, temporary, video, audio, subtitles, attachments);
    assert c[..7] == c[..8][..7];
  }

  /** `createCommand(source)`. The probe output `probe`, the frame counts of the
      media tracks `trackFrameCounts` and the random `uuid` are inputs. A stream
      line that cannot be parsed fails first. */
  function CreateCommand(cfg: Config, source: FileRef, uuid: string, probe: seq<string>,
                         trackFrameCounts: seq<int>): (r: Result<Task>)
    ensures r.Ok? ==> r.value.sourceFile == source
    ensures r.Ok? ==> r.value.temporaryOutputFile == TemporaryOutputFile(cfg, uuid)
    ensures r.Ok? ==> r.value.outputFile == OutputFile(cfg, source)
    ensures r.Ok? ==> r.value.frameCount in trackFrameCounts
    ensures r.Ok? ==> forall c :: c in trackFrameCounts ==> c <= r.value.frameCount
    ensures ParseStreams(CandidateLines(probe)).Err? ==> r == Err(ParseStreams(CandidateLines(probe)).error)
    ensures ParseStreams(CandidateLines(probe)).Ok? ==>
              r == CreateFromStreams(cfg, source, uuid, ParseStreams(CandidateLines(probe)).value, trackFrameCounts)
    ensures r.Ok? ==> ParseStreams(CandidateLines(probe)).Ok?
    ensures r.Ok? ==> CommandLayout(r.value.command, source, TemporaryOutputFile(cfg, uuid),
                                    ParseStreams(CandidateLines(probe)).value)
    ensures r.Ok? ==> GroupBlocksAt(r.value.command, GroupByType(ParseStreams(CandidateLines(probe)).value))
  {
    match ParseStreams(CandidateLines(probe))
    case Err(e) => Err(e)
    case Ok(ss) => CreateFromStreams(cfg, source, uuid, ss, trackFrameCounts)
  }

  // ===========================================================================
  // What createCommand promises
  // ===========================================================================

  /** Two of the streams have type `t`. */
  predicate TwoOfType(ss: seq<Stream>, t: string) {
    exists i, j :: 0 <= i < j < |ss| && ss[i].streamType == t && ss[j].streamType == t
  }

  lemma TwoOfTypeCons(ss: seq<Stream>, t: string)
    requires ss != [] && TwoOfType(ss[1..], t)
    ensures TwoOfType(ss, t)
  {
    var i, j :| 0 <= i < j < |ss[1..]| && ss[1..][i].streamType == t && ss[1..][j].streamType == t;
    assert ss[i + 1].streamType == t && ss[j + 1].streamType == t;
  }

  lemma TwoOfTypeHead(ss: seq<Stream>, t: string, s: Stream)
    requires ss != [] && ss[0].streamType == t && s in ss[1..] && s.streamType == t
    ensures TwoOfType(ss, t)
  {
    var j :| 0 <= j < |ss[1..]| && ss[1..][j] == s;
    assert ss[j + 1] == s;
  }

  /** A group of more than one stream comes from two streams of that type. */
  lemma {:induction false} OfTypeTwoSound(ss: seq<Stream>, t: string)
    requires |OfType(ss, t)| > 1
    ensures TwoOfType(ss, t)
  {
    var tail := ss[1..];
    assert OfType(ss, t) == (if ss[0].streamType == t then [ss[0]] else []) + OfType(tail, t);
    if ss[0].streamType == t {
      var s := OfType(tail, t)[0];
      assert s in OfType(tail, t);
      TwoOfTypeHead(ss, t, s);
    } else {
      OfTypeTwoSound(tail, t);
      TwoOfTypeCons(ss, t);
    }
  }

  /** Two streams of a type give a group of more than one. */
  lemma {:induction false} OfTypeTwoComplete(ss: seq<Stream>, t: string, i: nat, j: nat)
    requires i < j < |ss| && ss[i].streamType == t && ss[j].streamType == t
    ensures |OfType(ss, t)| > 1
  {
    var tail := ss[1..];
    assert tail[j - 1] == ss[j];
    if i == 0 {
      assert ss[j] in OfType(tail, t);
    } else {
      assert tail[i - 1] == ss[i];
      OfTypeTwoComplete(tail, t, i - 1, j - 1);
    }
  }

  lemma OfTypeTwo(ss: seq<Stream>, t: string)
    ensures |OfType(ss, t)| > 1 <==> TwoOfType(ss, t)
  {
    if |OfType(ss, t)| > 1 {
      OfTypeTwoSound(ss, t);
    }
    if TwoOfType(ss, t) {
      var i, j :| 0 <= i < j < |ss| && ss[i].streamType == t && ss[j].streamType == t;
      OfTypeTwoComplete(ss, t, i, j);
    }
  }

  /** The checks on the groups in terms of the streams they were built from. */
  lemma CheckGroupsOf(ss: seq<Stream>)
    ensures var g := GroupByType(ss);
            && ("Video" in g <==> exists s :: s in ss && s.streamType == "Video")
            && ("Video" in g ==> (|g["Video"]| > 1 <==> TwoOfType(ss, "Video")))
            && (g.Keys <= KnownChannelTypes <==> forall s :: s in ss ==> s.streamType in KnownChannelTypes)
  {
    OfTypeTwo(ss, "Video");
    var g := GroupByType(ss);
    if exists s :: s in ss && s.streamType !in KnownChannelTypes {
      var s :| s in ss && s.streamType !in KnownChannelTypes;
      assert s.streamType in g;
    }
  }

  /** The checks of `createCommand` in terms of the parsed streams: no Video
      stream fails at the `!!`; two fail as "Multiple video streams found", and
      that check comes first; otherwise an unknown type fails as "Unknown stream
      type found"; and a file passing them all fails only for want of media
      tracks. */
  lemma CreateFromStreamsChecks(cfg: Config, source: FileRef, uuid: string, ss: seq<Stream>,
                                trackFrameCounts: seq<int>)
    ensures (forall s :: s in ss ==> s.streamType != "Video") ==>
              CreateFromStreams(cfg, source, uuid, ss, trackFrameCounts) == Err(NoVideoStream)
    ensures TwoOfType(ss, "Video") ==>
              CreateFromStreams(cfg, source, uuid, ss, trackFrameCounts) == Err(MultipleVideoStreams)
    ensures (exists s :: s in ss && s.streamType == "Video") && !TwoOfType(ss, "Video")
            && (exists s :: s in ss && s.streamType !in KnownChannelTypes) ==>
              CreateFromStreams(cfg, source, uuid, ss, trackFrameCounts) == Err(UnknownStreamType)
    ensures CreateFromStreams(cfg, source, uuid, ss, trackFrameCounts).Ok? <==>
              && (exists s :: s in ss && s.streamType == "Video") && !TwoOfType(ss, "Video")
              && (forall s :: s in ss ==> s.streamType in KnownChannelTypes)
              && trackFrameCounts != []
  {
    CheckGroupsOf(ss);
  }

  /** "0:t" is never an audio argument. */
  lemma {:induction false} NoAttachmentInAudio(ms: seq<Mapping>, k: nat)
    requires forall m :: m in ms ==> m.action == "copy" || m.action == "ac3"
    ensures "0:t" !in MappingArgs(ms, k)
  {
    if ms != [] {
      assert ms[0] in ms;
      assert forall m :: m in ms[1..] ==> m in ms;
      NoAttachmentInAudio(ms[1..], k + 1);
      assert |"0:a:" + NatToString(ms[0].index)| > 3;
    }
  }

  lemma {:induction false} AudioLayoutActions(audio: seq<Stream>, langs: seq<string>)
    ensures forall m :: m in AudioLayout(audio, langs) ==> m.action == "copy" || m.action == "ac3"
  {
    if langs != [] { AudioLayoutActions(audio, langs[..|langs| - 1]); }
  }

  /** "0:t" is never a subtitle argument. */
  lemma {:induction false} NoAttachmentInSubtitles(sel: seq<nat>)
    ensures "0:t" !in SubtitleEntries(sel)
  {
    if sel != [] {
      NoAttachmentInSubtitles(sel[..|sel| - 1]);
      assert |"0:s:" + NatToString(sel[|sel| - 1])| > 3;
    }
  }

  const AttachmentBlock: seq<string> := ["-map", "0:t", "-c:t", "copy"]

  /** A path holds a separator, so it is never the bare "0:t". */
  lemma PathIsNotAttachmentMap(f: FileRef)
    ensures f.Path() != "0:t"
  {
    assert f.Path()[|f.parent|] == '/';
  }

  /** The layout of an assembled command: the input and the video choice first,
      the fixed encoder options and the temporary file last, and, when no other
      block holds "0:t", the attachment block right before that tail exactly when
      it is not empty. */
  lemma {:induction false} BuildCommandLayout(source: FileRef, temporary: FileRef, video: string,
                                              audio: seq<string>, subtitles: seq<string>,
                                              attachments: seq<string>)
    requires video != "0:t" && "0:t" !in audio && "0:t" !in subtitles
    requires attachments == [] || attachments == AttachmentBlock
    ensures var c := BuildCommand(source, temporary, video, audio, subtitles, attachments);
            && |c| >= 15
            && c[..8] == ["ffmpeg", "-n", "-i", source.Path(), "-map", "0:v", "-c:v", video]
            && c[|c| - 7..] == CommandTail + [temporary.Path()]
            && (attachments == AttachmentBlock <==> "0:t" in c)
            && (attachments == AttachmentBlock ==> c[|c| - 11..|c| - 7] == AttachmentBlock)
  {
    var head := ["ffmpeg", "-n", "-i", source.Path(), "-map", "0:v", "-c:v", video];
    var tail := CommandTail + [temporary.Path()];
    var c := BuildCommand(source, temporary, video, audio, subtitles, attachments);
    PathIsNotAttachmentMap(source);
    PathIsNotAttachmentMap(temporary);
    assert "0:t" !in head;
    assert "0:t" !in tail;
    assert c == head + (audio + subtitles + attachments + tail);
    if attachments == AttachmentBlock {
      assert c[|c| - 10] == "0:t";
      assert c[|c| - 11..|c| - 7] == attachments;
    } else {
      assert c == head + audio + subtitles + tail;
    }
  }

  /** No audio or subtitle argument is "0:t". */
  lemma AttachmentMapOnlyInAttachments(g: map<string, seq<Stream>>)
    ensures "0:t" !in AudioMappings(g) && "0:t" !in SubtitleArgs(SubtitleGroup(g))
  {
    AudioLayoutActions(AudioGroup(g), DefaultLanguages);
    NoAttachmentInAudio(AudioLayout(AudioGroup(g), DefaultLanguages), 0);
    NoAttachmentInSubtitles(SubtitleOrder(SubtitleGroup(g), DefaultLanguages));
  }

}
