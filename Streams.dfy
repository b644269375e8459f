/** `Stream.from` of CommandCreator.kt: one line of ffmpeg's probe output read as
    a stream record. The two Java patterns

      Stream #0:(?<index>\d+)\((?<lang>\w+)\): (?<type>\w+): (?<codec>.*)
      Stream #0:(?<index>\d+): (?<type>\w+): (?<codec>.*)

    are matched against the whole line; here each is a hand-written recogniser,
    proved to accept exactly the lines the pattern describes (the `...Shape`
    predicates) and to return the same groups. */
module Streams {
  import opened Text
  import opened Domain

  datatype Stream = Stream(index: nat, lang: string, streamType: string, codec: string)

  const StreamPrefix: string := "Stream #0:"

  /** The language `Stream.from` gives a stream whose line has no language tag. */
  const UnknownLanguage: string := "???"

  // ---------------------------------------------------------------------------
  // The languages of the two patterns
  // ---------------------------------------------------------------------------

  /** `s` is `<type>: <codec>` with `type` a `\w+` and `codec` a `.*`. */
  predicate TypeCodecShape(s: string, t: string, c: string) {
    && |t| > 0 && All(t, IsWordChar) && All(c, IsPatternDot)
    && s == t + ": " + c
  }

  /** `raw` matches the pattern with a language tag, with these four groups. */
  predicate WithLangShape(raw: string, d: string, l: string, t: string, c: string) {
    && |d| > 0 && All(d, IsDigit)
    && |l| > 0 && All(l, IsWordChar)
    && |t| > 0 && All(t, IsWordChar)
    && All(c, IsPatternDot)
    && raw == StreamPrefix + d + "(" + l + "): " + t + ": " + c
  }

  /** `raw` matches the pattern without a language tag, with these three groups. */
  predicate WithoutLangShape(raw: string, d: string, t: string, c: string) {
    && |d| > 0 && All(d, IsDigit)
    && |t| > 0 && All(t, IsWordChar)
    && All(c, IsPatternDot)
    && raw == StreamPrefix + d + ": " + t + ": " + c
  }

  // ---------------------------------------------------------------------------
  // Recognisers
  // ---------------------------------------------------------------------------

  /** The common tail `(?<type>\w+): (?<codec>.*)` of both patterns. */
  function MatchTypeCodec(s: string): (r: Option<(string, string)>)
    ensures r.Some? ==> TypeCodecShape(s, r.value.0, r.value.1)
  {
    var m := RunLength(s, IsWordChar);
    if m == 0 || !StartsWith(s[m..], ": ") || !All(s[m + 2..], IsPatternDot) then None
    else
      assert s == s[..m] + ": " + s[m + 2..];
      Some((s[..m], s[m + 2..]))
  }

  lemma MatchTypeCodecComplete(s: string, t: string, c: string)
    requires TypeCodecShape(s, t, c)
    ensures MatchTypeCodec(s) == Some((t, c))
  {
    assert s == t + (": " + c);
    RunLengthOfConcat(t, ": " + c, IsWordChar);
    assert s[|t|..] == ": " + c;
    assert s[|t| + 2..] == c;
  }

  /** The common head `Stream #0:(?<index>\d+)` of both patterns; `rest` is what
      follows the greedy digit run. */
  function MatchIndex(raw: string): (r: Option<(string, string)>)
    ensures r.Some? ==> |r.value.0| > 0 && All(r.value.0, IsDigit)
    ensures r.Some? ==> r.value.1 == [] || !IsDigit(r.value.1[0])
    ensures r.Some? ==> raw == StreamPrefix + r.value.0 + r.value.1
  {
    if !StartsWith(raw, StreamPrefix) then None
    else
      var r1 := raw[|StreamPrefix|..];
      var n := RunLength(r1, IsDigit);
      if n == 0 then None
      else
        assert raw == StreamPrefix + r1[..n] + r1[n..];
        Some((r1[..n], r1[n..]))
  }

  lemma MatchIndexComplete(raw: string, d: string, rest: string)
    requires |d| > 0 && All(d, IsDigit) && (rest == [] || !IsDigit(rest[0]))
    requires raw == StreamPrefix + d + rest
    ensures MatchIndex(raw) == Some((d, rest))
  {
    assert raw[|StreamPrefix|..] == d + rest;
    RunLengthOfConcat(d, rest, IsDigit);
    assert (d + rest)[..|d|] == d && (d + rest)[|d|..] == rest;
  }

  /** The language tag `\((?<lang>\w+)\): ` of the first pattern. */
  function MatchLang(s: string): (r: Option<(string, string)>)
    ensures r.Some? ==> |r.value.0| > 0 && All(r.value.0, IsWordChar)
    ensures r.Some? ==> s == "(" + r.value.0 + "): " + r.value.1
  {
    if !StartsWith(s, "(") then None
    else
      var w := RunLength(s[1..], IsWordChar);
      if w == 0 || !StartsWith(s[1..][w..], "): ") then None
      else
        assert s == "(" + s[1..][..w] + "): " + s[1..][w + 3..];
        Some((s[1..][..w], s[1..][w + 3..]))
  }

  lemma MatchLangComplete(s: string, l: string, rest: string)
    requires |l| > 0 && All(l, IsWordChar)
    requires s == "(" + l + "): " + rest
    ensures MatchLang(s) == Some((l, rest))
  {
    assert s[1..] == l + ("): " + rest);
    RunLengthOfConcat(l, "): " + rest, IsWordChar);
    assert s[1..][|l|..] == "): " + rest;
    assert s[1..][|l| + 3..] == rest;
  }

  /** The three stages of the first pattern put together. */
  lemma WithLangFromParts(raw: string, d: string, rest: string, l: string, tail: string, t: string, c: string)
    requires |d| > 0 && All(d, IsDigit) && raw == StreamPrefix + d + rest
    requires |l| > 0 && All(l, IsWordChar) && rest == "(" + l + "): " + tail
    requires TypeCodecShape(tail, t, c)
    ensures WithLangShape(raw, d, l, t, c)
  {
    assert raw == StreamPrefix + d + ("(" + l + "): " + (t + ": " + c));
  }

  /** Whole-line match of the pattern with a language tag. */
  function MatchWithLang(raw: string): (r: Option<(string, string, string, string)>)
    ensures r.Some? ==> WithLangShape(raw, r.value.0, r.value.1, r.value.2, r.value.3)
  {
    match MatchIndex(raw)
    case None => None
    case Some((d, rest)) =>
      match MatchLang(rest)
      case None => None
      case Some((l, tail)) =>
        match MatchTypeCodec(tail)
        case None => None
        case Some((t, c)) =>
          WithLangFromParts(raw, d, rest, l, tail, t, c);
          Some((d, l, t, c))
  }

  /** The two stages of the second pattern put together. */
  lemma WithoutLangFromParts(raw: string, d: string, rest: string, t: string, c: string)
    requires |d| > 0 && All(d, IsDigit) && raw == StreamPrefix + d + rest
    requires StartsWith(rest, ": ") && TypeCodecShape(rest[2..], t, c)
    ensures WithoutLangShape(raw, d, t, c)
  {
    assert rest == ": " + rest[2..];
    assert raw == StreamPrefix + d + (": " + (t + ": " + c));
  }

  /** Whole-line match of the pattern without a language tag. */
  function MatchWithoutLang(raw: string): (r: Option<(string, string, string)>)
    ensures r.Some? ==> WithoutLangShape(raw, r.value.0, r.value.1, r.value.2)
  {
    match MatchIndex(raw)
    case None => None
    case Some((d, rest)) =>
      if !StartsWith(rest, ": ") then None
      else
        match MatchTypeCodec(rest[2..])
        case None => None
        case Some((t, c)) =>
          WithoutLangFromParts(raw, d, rest, t, c);
          Some((d, t, c))
  }

  /** Every line the pattern with a language tag describes is recognised, with the
      same groups: the recogniser is complete, and the groups are unique. */
  lemma {:induction false} MatchWithLangComplete(raw: string, d: string, l: string, t: string, c: string)
    requires WithLangShape(raw, d, l, t, c)
    ensures MatchWithLang(raw) == Some((d, l, t, c))
  {
    var tail := t + ": " + c;
    var rest := "(" + l + "): " + tail;
    assert raw == StreamPrefix + d + rest;
    MatchIndexComplete(raw, d, rest);
    MatchLangComplete(rest, l, tail);
    MatchTypeCodecComplete(tail, t, c);
  }

  /** Every line the pattern without a language tag describes is recognised, with
      the same groups. */
  lemma {:induction false} MatchWithoutLangComplete(raw: string, d: string, t: string, c: string)
    requires WithoutLangShape(raw, d, t, c)
    ensures MatchWithoutLang(raw) == Some((d, t, c))
  {
    var tail := t + ": " + c;
    var rest := ": " + tail;
    assert raw == StreamPrefix + d + rest;
    MatchIndexComplete(raw, d, rest);
    assert rest[2..] == tail;
    MatchTypeCodecComplete(tail, t, c);
  }

  /** No line matches both patterns: after the index comes `(` in one and `:` in
      the other. */
  lemma {:induction false} ShapesExclusive(raw: string, d: string, t: string, c: string)
    requires WithoutLangShape(raw, d, t, c)
    ensures MatchWithLang(raw).None?
  {
    var rest := ": " + t + ": " + c;
    assert raw == StreamPrefix + d + rest;
    MatchIndexComplete(raw, d, rest);
    assert !StartsWith(rest, "(");
  }

  // ---------------------------------------------------------------------------
  // Stream.from
  // ---------------------------------------------------------------------------

  /** A `\w+` language tag is never the placeholder "???". */
  lemma WordIsNotUnknown(l: string)
    requires All(l, IsWordChar)
    ensures l != UnknownLanguage
  {
    assert !IsWordChar(UnknownLanguage[0]);
  }

  /** The stream built from the groups of a match; `toInt` on the index fails
      beyond `Int`. */
  function StreamOf(d: string, l: string, t: string, c: string): (r: Result<Stream>)
    requires |d| > 0 && All(d, IsDigit)
    ensures r.Ok? <==> DigitsValue(d) <= IntMax
    ensures r.Err? ==> r.error == InvalidNumber
    ensures r.Ok? ==> r.value == Stream(DigitsValue(d), l, t, c) && r.value.index <= IntMax
  {
    match ToInt(d)
    case None => Err(InvalidNumber)
    case Some(n) => Ok(Stream(n, l, t, c))
  }

  /** `Stream.from(raw)`: the pattern with a language tag first; otherwise the one
      without, accepted only for Video and Attachment streams, which get the
      language "???"; every other line fails with "Missing language for stream". */
  function From(raw: string): (r: Result<Stream>)
    ensures r.Err? ==> r.error == MissingLanguage || r.error == InvalidNumber
    ensures r.Ok? ==> r.value.index <= IntMax
    ensures r.Ok? && r.value.lang == UnknownLanguage ==>
              r.value.streamType == "Video" || r.value.streamType == "Attachment"
  {
    match MatchWithLang(raw)
    case Some((d, l, t, c)) =>
      WordIsNotUnknown(l);
      StreamOf(d, l, t, c)
    case None =>
      match MatchWithoutLang(raw)
      case None => Err(MissingLanguage)
      case Some((d, t, c)) =>
        if t != "Video" && t != "Attachment" then Err(MissingLanguage)
        else StreamOf(d, UnknownLanguage, t, c)
  }

  /** A line of the first shape yields its index, language, type and codec. */
  lemma FromWithLang(raw: string, d: string, l: string, t: string, c: string)
    requires WithLangShape(raw, d, l, t, c)
    ensures From(raw) == if DigitsValue(d) <= IntMax then Ok(Stream(DigitsValue(d), l, t, c))
                         else Err(InvalidNumber)
  {
    MatchWithLangComplete(raw, d, l, t, c);
  }

  /** A line of the second shape is accepted only for Video and Attachment
      streams, with the language "???". */
  lemma FromWithoutLang(raw: string, d: string, t: string, c: string)
    requires WithoutLangShape(raw, d, t, c)
    ensures From(raw) ==
      if t != "Video" && t != "Attachment" then Err(MissingLanguage)
      else if DigitsValue(d) <= IntMax then Ok(Stream(DigitsValue(d), UnknownLanguage, t, c))
      else Err(InvalidNumber)
  {
    ShapesExclusive(raw, d, t, c);
    MatchWithoutLangComplete(raw, d, t, c);
  }

  /** Every line of neither shape, malformed ones included, fails with the same
      "Missing language for stream". */
  lemma FromOther(raw: string)
    requires forall d, l, t, c :: !WithLangShape(raw, d, l, t, c)
    requires forall d, t, c :: !WithoutLangShape(raw, d, t, c)
    ensures From(raw) == Err(MissingLanguage)
  {
    if MatchWithLang(raw).Some? {
      assert false;
    } else if MatchWithoutLang(raw).Some? {
      assert false;
    }
  }
}
