// Facts about the text of a printed master playlist that filtering and link
// rewriting rely on.
module PrintedLines {
  import opened Prelude
  import opened Strings
  import opened Ladder
  import opened MasterPlaylist

  const MARKER := STREAM_INF
  const DEFAULT_NO := "DEFAULT=NO"
  const DEFAULT_YES := "DEFAULT=YES"

  // ---- Titles and languages are printed as they are ----------------------------------

  ghost predicate TracksLack(tracks: seq<Track>, c: char) {
    forall i | 0 <= i < |tracks| :: Lacks(tracks[i].title, c) && Lacks(tracks[i].language, c)
  }

  ghost predicate TrackContains(t: Track, sub: string) { Contains(t.title, sub) || Contains(t.language, sub) }

  // Some title or language contains a text the handler searches for.
  ghost predicate TracksContain(tracks: seq<Track>, sub: string) {
    exists i | 0 <= i < |tracks| :: TrackContains(tracks[i], sub)
  }

  // What finding the URI attribute relies on.
  ghost predicate QuoteSafe(s: string) { Lacks(s, '"') && !HasSuffix(s, "URI=") }

  ghost predicate TracksQuoteSafe(tracks: seq<Track>) {
    forall i | 0 <= i < |tracks| :: QuoteSafe(tracks[i].title) && QuoteSafe(tracks[i].language)
  }

  // Codec names are path segments.
  ghost predicate CleanVariant(p: Params, v: Variant) {
    v.codec.name != "" && !IsSpace(v.codec.name[0]) && v.codec.name[0] != '#' && Lacks(v.codec.name, '/')
    && Lacks(v.codec.name, '\n') && Lacks(v.quality.name, '\n') && Lacks(p.codecs(v), '\n')
  }

  ghost predicate CleanVariants(p: Params, vs: seq<Variant>) {
    Lacks(p.frameRate, '\n') && forall i | 0 <= i < |vs| :: CleanVariant(p, vs[i])
  }

  // What every filter needs: each printed line is one line.
  ghost predicate LineParams(p: Params) {
    TracksLack(p.audio, '\n') && TracksLack(p.subtitles, '\n') && CleanVariants(p, p.variants)
  }

  // What the track filter and link rewriting need besides.
  ghost predicate CleanParams(p: Params) {
    LineParams(p) && TracksQuoteSafe(p.audio) && TracksQuoteSafe(p.subtitles) && !TracksContain(p.audio, DEFAULT_NO)
  }

  lemma LacksSuffix(s: string)
    requires Lacks(s, '=')
    ensures !HasSuffix(s, "URI=")
  {
    if |s| >= 4 {
      assert s[|s| - 4..][3] == s[|s| - 1];
    }
  }

  lemma NumberIsSafe(a: string, k: nat)
    requires Lacks(a, '"')
    ensures QuoteSafe(a + " " + Decimal(k))
  {
    var s := a + " " + Decimal(k);
    DecimalLacks(k, '"');
    DecimalLacks(k, '=');
    assert s[|s| - 1] == Decimal(k)[|Decimal(k)| - 1];
    assert |s| >= 4 ==> s[|s| - 4..][3] == s[|s| - 1];
  }

  // The texts that the filters search for.
  ghost predicate Searched(sub: string) {
    sub != "" && Lacks(sub, ' ') && Lacks(sub, '"') && Lacks(sub, '\n') && (sub[0] == '#' || sub[0] == 'D')
  }

  lemma MarkersAreSearched()
    ensures Searched(MARKER) && Searched(DEFAULT_NO)
  {
  }

  lemma SpacedContains(a: string, k: nat, sub: string)
    requires Searched(sub)
    ensures Contains(a + " " + Decimal(k), sub) <==> Contains(a, sub)
  {
    ContainsAcross(a, ' ', Decimal(k), sub);
    DecimalLacks(k, sub[0]);
    NoFirstChar(Decimal(k), sub);
    assert a + " " + Decimal(k) == a + [' '] + Decimal(k);
  }

  lemma FallbacksContain(sub: string)
    requires Searched(sub)
    ensures !Contains("Track", sub) && !Contains("und", sub) && !Contains("", sub)
  {
    NoFirstChar("Track", sub);
    NoFirstChar("und", sub);
    NoFirstChar("", sub);
  }

  lemma FallbacksAreSafe()
    ensures QuoteSafe("Track") && QuoteSafe("und")
  {
    LacksSuffix("Track");
    LacksSuffix("und");
  }

  lemma TrackNumbered(i: nat)
    ensures "Track " + Decimal(i + 1) == "Track" + " " + Decimal(i + 1)
  {
  }

  // What a title or language contains, its printed line contains, and nothing else.
  lemma PrintedNameContains(tracks: seq<Track>, i: nat, sub: string)
    requires i < |tracks| && Searched(sub)
    ensures Contains(RenditionName(DisplayNames(tracks), i), sub) || Contains(Language(tracks[i]), sub)
            <==> TrackContains(tracks[i], sub)
  {
    FallbacksContain(sub);
    TrackNumbered(i);
    SpacedContains("Track", i + 1, sub);
    var base := DisplayNames(tracks)[i];
    SpacedContains(base, Occurrences(DisplayNames(tracks), base, i + 1), sub);
  }

  lemma PrintedNameLacks(tracks: seq<Track>, i: nat, c: char)
    requires i < |tracks| && TracksLack(tracks, c) && (c == '\n' || c == '"')
    ensures Lacks(RenditionName(DisplayNames(tracks), i), c) && Lacks(Language(tracks[i]), c)
  {
    var base := DisplayNames(tracks)[i];
    DecimalLacks(i + 1, c);
    DecimalLacks(Occurrences(DisplayNames(tracks), base, i + 1), c);
  }

  lemma PrintedNameIsSafe(tracks: seq<Track>, i: nat)
    requires i < |tracks| && TracksQuoteSafe(tracks)
    ensures QuoteSafe(RenditionName(DisplayNames(tracks), i)) && QuoteSafe(Language(tracks[i]))
  {
    var base := DisplayNames(tracks)[i];
    FallbacksAreSafe();
    TrackNumbered(i);
    NumberIsSafe("Track", i + 1);
    NumberIsSafe(base, Occurrences(DisplayNames(tracks), base, i + 1));
  }

  // ---- Tags -------------------------------------------------------------------------------

  const AUDIO_TAG := "#EXT-X-MEDIA:TYPE=AUDIO,"
  const SUBTITLES_TAG := "#EXT-X-MEDIA:TYPE=SUBTITLES,"

  // Text without line breaks, quotes and markers.
  ghost predicate Inert(s: string) { Lacks(s, '\n') && Lacks(s, '"') && !Contains(s, MARKER) }

  // The fixed parts of a tag are inert, and only the last key announces a URI.
  ghost predicate TagShape(attrs: seq<Attr>) {
    |attrs| >= 1 && attrs[0].key != "" && attrs[0].key[0] == '#'
    && (forall i | 0 <= i < |attrs| :: Inert(attrs[i].key))
    && (forall i | 0 <= i < |attrs| - 1 :: !HasSuffix(attrs[i].key, "URI="))
    && HasSuffix(attrs[|attrs| - 1].key, "URI=") && Inert(attrs[|attrs| - 1].value)
  }

  ghost predicate ValuesLack(attrs: seq<Attr>, c: char) { forall i | 0 <= i < |attrs| :: Lacks(attrs[i].value, c) }

  // The values do not mislead the search for the URI either.
  ghost predicate CleanTag(attrs: seq<Attr>) {
    TagShape(attrs) && ValuesLack(attrs, '"')
    && forall i | 0 <= i < |attrs| - 1 :: !HasSuffix(attrs[i].value, "URI=")
  }

  lemma {:induction false} TagLacks(attrs: seq<Attr>, c: char)
    requires (forall i | 0 <= i < |attrs| :: Lacks(attrs[i].key, c)) && ValuesLack(attrs, c) && c != '"'
    ensures Lacks(TagText(attrs), c)
  {
    if attrs != [] {
      TagLacks(attrs[1..], c);
    }
  }

  // A text without quotes is contained in a piece of the tag or not at all.
  lemma {:induction false} TagContains(attrs: seq<Attr>, sub: string)
    requires sub != "" && Lacks(sub, '"')
    ensures Contains(TagText(attrs), sub)
            <==> exists i | 0 <= i < |attrs| :: Contains(attrs[i].key, sub) || Contains(attrs[i].value, sub)
  {
    if attrs == [] {
      NoFirstChar("", sub);
    } else {
      var rest := attrs[1..];
      TagContains(rest, sub);
      TagContainsFirst(attrs[0], TagText(rest), sub);
      if i :| 0 <= i < |attrs| && (Contains(attrs[i].key, sub) || Contains(attrs[i].value, sub)) {
        assert i > 0 ==> rest[i - 1] == attrs[i];
      }
      if i :| 0 <= i < |rest| && (Contains(rest[i].key, sub) || Contains(rest[i].value, sub)) {
        assert attrs[i + 1] == rest[i];
      }
    }
  }

  lemma TagContainsFirst(first: Attr, rest: string, sub: string)
    requires sub != "" && Lacks(sub, '"')
    ensures Contains(first.key + "\"" + (first.value + "\"" + rest), sub)
            <==> Contains(first.key, sub) || Contains(first.value, sub) || Contains(rest, sub)
  {
    ContainsAcross(first.value, '"', rest, sub);
    ContainsAcross(first.key, '"', first.value + ['"'] + rest, sub);
    assert first.key + "\"" + (first.value + "\"" + rest) == first.key + ['"'] + (first.value + ['"'] + rest);
  }

  lemma {:induction false} TagEnds(attrs: seq<Attr>)
    requires attrs != []
    ensures TagText(attrs) != "" && TagText(attrs)[|TagText(attrs)| - 1] == '"'
  {
    if |attrs| > 1 {
      TagEnds(attrs[1..]);
    } else {
      assert TagText(attrs[1..]) == "";
    }
  }

  lemma TagStarts(attrs: seq<Attr>, p: string)
    requires attrs != [] && |p| <= |attrs[0].key|
    ensures HasPrefix(TagText(attrs), p) <==> HasPrefix(attrs[0].key, p)
  {
    assert TagText(attrs)[..|p|] == attrs[0].key[..|p|];
  }

  // The URI attribute of a clean tag is its last value.
  lemma {:induction false} TagUri(attrs: seq<Attr>, value: string)
    requires attrs != []
    requires forall i | 0 <= i < |attrs| :: Lacks(attrs[i].key, '"') && Lacks(attrs[i].value, '"')
    requires forall i | 0 <= i < |attrs| - 1 :: !HasSuffix(attrs[i].key, "URI=") && !HasSuffix(attrs[i].value, "URI=")
    requires HasSuffix(attrs[|attrs| - 1].key, "URI=")
    ensures var n := |attrs| - 1;
            UriValue(TagText(attrs)) == Some(attrs[n].value)
            && ReplaceUri(TagText(attrs), value) == TagText(attrs[n := Attr(attrs[n].key, value)])
  {
    var n := |attrs| - 1;
    var first, rest := attrs[0], attrs[1..];
    var changed := attrs[n := Attr(attrs[n].key, value)];
    if n == 0 {
      UriHere(first.key, first.value, TagText(rest), value);
      assert changed[1..] == rest;
    } else {
      TagUri(rest, value);
      UriSkips(first.value, TagText(rest), value);
      UriSkips(first.key, first.value + "\"" + TagText(rest), value);
      assert changed[1..] == rest[n - 1 := Attr(rest[n - 1].key, value)];
    }
  }

  // Replacing text that occurs in the key of attribute k and nowhere before.
  lemma {:induction false} TagReplace(attrs: seq<Attr>, k: nat, was: string, now: string)
    requires k < |attrs| && was != [] && Lacks(was, '"')
    requires forall i | 0 <= i < k :: !Contains(attrs[i].key, was) && !Contains(attrs[i].value, was)
    requires Contains(attrs[k].key, was)
    ensures ReplaceFirst(TagText(attrs), was, now)
            == TagText(attrs[k := Attr(ReplaceFirst(attrs[k].key, was, now), attrs[k].value)])
  {
    var first, rest := attrs[0], attrs[1..];
    var changed := attrs[k := Attr(ReplaceFirst(attrs[k].key, was, now), attrs[k].value)];
    if k == 0 {
      ReplaceHere(first.key, first.value + "\"" + TagText(rest), was, now);
      assert changed[1..] == rest;
    } else {
      TagReplace(rest, k - 1, was, now);
      ReplaceSkips(first.value, TagText(rest), was, now);
      ReplaceSkips(first.key, first.value + "\"" + TagText(rest), was, now);
      assert changed[1..] == rest[k - 1 := Attr(ReplaceFirst(attrs[k].key, was, now), attrs[k].value)];
    }
  }

  lemma {:induction false} TagReplaceNone(attrs: seq<Attr>, was: string, now: string)
    requires was != [] && Lacks(was, '"')
    requires forall i | 0 <= i < |attrs| :: !Contains(attrs[i].key, was) && !Contains(attrs[i].value, was)
    ensures ReplaceFirst(TagText(attrs), was, now) == TagText(attrs)
  {
    if attrs == [] {
      NoFirstChar("", was);
      IndexNone("", was);
    } else {
      var first, rest := attrs[0], attrs[1..];
      TagReplaceNone(rest, was, now);
      ReplaceSkips(first.value, TagText(rest), was, now);
      ReplaceSkips(first.key, first.value + "\"" + TagText(rest), was, now);
    }
  }

  // ---- Clean lines --------------------------------------------------------------------

  // A fixed line is blank or a tag the filters do not look for.
  ghost predicate PlainText(s: string) {
    Lacks(s, '\n')
    && (s == "" || (s[0] == '#' && (forall i | 0 < i < |s| :: s[i] != '#')
                    && !HasPrefix(s, MARKER) && !HasPrefix(s, AUDIO_TAG) && !HasPrefix(s, SUBTITLES_TAG)))
  }

  ghost predicate OneLine(l: Line) {
    match l
    case Fixed(text) => PlainText(text)
    case AudioMedia(language, name, _, _, _) => Lacks(language, '\n') && Lacks(name, '\n')
    case SubtitleMedia(language, name, _, _) => Lacks(language, '\n') && Lacks(name, '\n')
    case ImageStream(_) => true
    case StreamInf(_, _, resolution, codecs, frameRate, _, _, name) =>
      Lacks(resolution, '\n') && Lacks(codecs, '\n') && Lacks(frameRate, '\n') && Lacks(name, '\n')
    case Uri(v) =>
      v.codec.name != "" && !IsSpace(v.codec.name[0]) && v.codec.name[0] != '#' && Lacks(v.codec.name, '/')
      && Lacks(v.codec.name, '\n') && Lacks(v.quality.name, '\n')
  }

  ghost predicate OneLines(ls: seq<Line>) { forall i | 0 <= i < |ls| :: OneLine(ls[i]) }

  ghost predicate CleanLine(l: Line) {
    OneLine(l)
    && (l.AudioMedia? || l.SubtitleMedia? ==> QuoteSafe(l.language) && QuoteSafe(l.name))
    && (l.AudioMedia? ==> !Contains(l.language, DEFAULT_NO) && !Contains(l.name, DEFAULT_NO))
  }

  ghost predicate CleanLines(ls: seq<Line>) { forall i | 0 <= i < |ls| :: CleanLine(ls[i]) }

  // Lines other than those of the variants.
  ghost predicate HeadLine(l: Line) { !l.StreamInf? && !l.Uri? && (l.Fixed? ==> PlainText(l.text)) }

  ghost predicate HeadOnly(ls: seq<Line>) { forall i | 0 <= i < |ls| :: HeadLine(ls[i]) }

  lemma PreambleIsPlain()
    ensures HeadOnly(PREAMBLE) && CleanLines(PREAMBLE)
    ensures HeadLine(BLANK) && CleanLine(BLANK)
  {
    ExtM3UIsPlain();
    VersionIsPlain();
    IndependentIsPlain();
  }

  lemma ExtM3UIsPlain()
    ensures PlainText("#EXTM3U")
  {
    assert STREAM_INF[4] == AUDIO_TAG[4] == SUBTITLES_TAG[4] == '-';
    OtherTagIsPlain("#EXTM3U", 4);
  }

  lemma VersionIsPlain()
    ensures PlainText("#EXT-X-VERSION:6")
  {
    assert STREAM_INF[7] == 'S' && AUDIO_TAG[7] == SUBTITLES_TAG[7] == 'M';
    OtherTagIsPlain("#EXT-X-VERSION:6", 7);
  }

  lemma IndependentIsPlain()
    ensures PlainText("#EXT-X-INDEPENDENT-SEGMENTS")
  {
    assert STREAM_INF[7] == 'S' && AUDIO_TAG[7] == SUBTITLES_TAG[7] == 'M';
    OtherTagIsPlain("#EXT-X-INDEPENDENT-SEGMENTS", 7);
  }

  // A tag that differs from the ones searched for at position k.
  lemma OtherTagIsPlain(s: string, k: nat)
    requires k < |s| && k < |STREAM_INF| && k < |AUDIO_TAG| && k < |SUBTITLES_TAG|
    requires s[k] != STREAM_INF[k] && s[k] != AUDIO_TAG[k] && s[k] != SUBTITLES_TAG[k]
    requires QuietTag(s)
    ensures PlainText(s)
  {
  }

  // Where the lines before the variants come from.
  lemma HeadMembers(p: Params, audio: seq<Line>, subtitles: seq<Line>)
    ensures forall l | l in HeadLines(p, audio, subtitles) ::
              l in PREAMBLE || l in audio || l == BLANK || l in subtitles || l.ImageStream?
  {
  }

  lemma RenditionsAreHead(p: Params)
    ensures HeadOnly(HeadLines(p, AudioLines(p.audio), SubtitleLines(p.subtitles)))
  {
    PreambleIsPlain();
    HeadMembers(p, AudioLines(p.audio), SubtitleLines(p.subtitles));
    forall l | l in HeadLines(p, AudioLines(p.audio), SubtitleLines(p.subtitles)) ensures HeadLine(l) {
      assert l in PREAMBLE || l in AudioLines(p.audio) || l == BLANK || l in SubtitleLines(p.subtitles) || l.ImageStream?;
    }
  }

  lemma HeadIsOneLine(p: Params)
    requires TracksLack(p.audio, '\n') && TracksLack(p.subtitles, '\n')
    ensures OneLines(HeadLines(p, AudioLines(p.audio), SubtitleLines(p.subtitles)))
  {
    PreambleIsPlain();
    HeadMembers(p, AudioLines(p.audio), SubtitleLines(p.subtitles));
    forall i | 0 <= i < |p.audio| ensures OneLine(AudioLines(p.audio)[i]) {
      PrintedNameLacks(p.audio, i, '\n');
    }
    forall i | 0 <= i < |p.subtitles| ensures OneLine(SubtitleLines(p.subtitles)[i]) {
      PrintedNameLacks(p.subtitles, i, '\n');
    }
    forall l | l in HeadLines(p, AudioLines(p.audio), SubtitleLines(p.subtitles)) ensures OneLine(l) {
      assert l in PREAMBLE || l in AudioLines(p.audio) || l == BLANK || l in SubtitleLines(p.subtitles) || l.ImageStream?;
    }
  }

  lemma HeadIsClean(p: Params)
    requires CleanParams(p)
    ensures CleanLines(HeadLines(p, AudioLines(p.audio), SubtitleLines(p.subtitles)))
  {
    PreambleIsPlain();
    MarkersAreSearched();
    HeadIsOneLine(p);
    HeadMembers(p, AudioLines(p.audio), SubtitleLines(p.subtitles));
    AudioLinesAreSafe(p.audio);
    SubtitleLinesAreSafe(p.subtitles);
    forall l | l in HeadLines(p, AudioLines(p.audio), SubtitleLines(p.subtitles)) ensures CleanLine(l) {
      assert l in PREAMBLE || l in AudioLines(p.audio) || l == BLANK || l in SubtitleLines(p.subtitles) || l.ImageStream?;
    }
  }

  lemma AudioLinesAreSafe(tracks: seq<Track>)
    requires TracksQuoteSafe(tracks) && !TracksContain(tracks, DEFAULT_NO)
    ensures forall l | l in AudioLines(tracks) ::
              QuoteSafe(l.language) && QuoteSafe(l.name)
              && !Contains(l.language, DEFAULT_NO) && !Contains(l.name, DEFAULT_NO)
  {
    MarkersAreSearched();
    forall i | 0 <= i < |tracks|
      ensures var l := AudioLines(tracks)[i];
              QuoteSafe(l.language) && QuoteSafe(l.name)
              && !Contains(l.language, DEFAULT_NO) && !Contains(l.name, DEFAULT_NO)
    {
      PrintedNameIsSafe(tracks, i);
      PrintedNameContains(tracks, i, DEFAULT_NO);
    }
  }

  lemma SubtitleLinesAreSafe(tracks: seq<Track>)
    requires TracksQuoteSafe(tracks)
    ensures forall l | l in SubtitleLines(tracks) :: QuoteSafe(l.language) && QuoteSafe(l.name)
  {
    forall i | 0 <= i < |tracks|
      ensures QuoteSafe(SubtitleLines(tracks)[i].language) && QuoteSafe(SubtitleLines(tracks)[i].name)
    {
      PrintedNameIsSafe(tracks, i);
    }
  }

  lemma StreamLineIsClean(p: Params, v: Variant)
    requires CleanVariant(p, v) && Lacks(p.frameRate, '\n')
    ensures CleanLine(StreamLine(p, v)) && CleanLine(Uri(v))
  {
    DecimalLacks(v.quality.height, '\n');
    DecimalLacks(v.quality.width, '\n');
    DecimalLacks(v.quality.height * 16 / 9 + (v.quality.height * 16 / 9) % 2, '\n');
  }

  lemma {:induction false} VariantLinesAreClean(p: Params, vs: seq<Variant>)
    requires CleanVariants(p, vs)
    ensures CleanLines(VariantLines(p, vs))
  {
    if vs != [] {
      VariantLinesAreClean(p, vs[1..]);
      StreamLineIsClean(p, vs[0]);
      PreambleIsPlain();
    }
  }

  // ---- Printed tags are clean -------------------------------------------------------------

  ghost predicate Quiet(s: string) {
    forall i | 0 <= i < |s| :: s[i] != '\n' && s[i] != '"' && s[i] != '#'
  }

  lemma QuietIsInert(s: string)
    requires Quiet(s)
    ensures Inert(s)
  {
    NoFirstChar(s, MARKER);
  }

  // A tag starts with its only hash.
  ghost predicate QuietTag(s: string) {
    s != "" && s[0] == '#' && forall i | 0 < i < |s| :: s[i] != '\n' && s[i] != '"' && s[i] != '#'
  }

  // The start of a tag other than STREAM-INF.
  lemma HeadIsInert(s: string)
    requires QuietTag(s) && |s| > 7 && s[7] != 'S'
    ensures Inert(s) && !HasPrefix(s, MARKER)
  {
    assert MARKER[7] == 'S';
    OnlyAtStart(s, MARKER);
  }

  lemma NumberIsQuiet(n: nat)
    ensures Quiet(Decimal(n))
  {
    DecimalLacks(n, '\n');
    DecimalLacks(n, '"');
    DecimalLacks(n, '#');
  }

  lemma NoUriSuffix(s: string)
    requires |s| < 4 || s[|s| - 2] != 'I'
    ensures !HasSuffix(s, "URI=")
  {
    if |s| >= 4 {
      assert s[|s| - 4..][2] == s[|s| - 2];
    }
  }

  lemma UriSuffix(a: string)
    ensures HasSuffix(a + ",URI=", "URI=")
  {
    var s := a + ",URI=";
    assert s[|s| - 4..] == "URI=";
  }

  lemma LanguageKeyIsQuiet()
    ensures Quiet(",LANGUAGE=") && !HasSuffix(",LANGUAGE=", "URI=")
  {
    NoUriSuffix(",LANGUAGE=");
  }

  lemma NameKeyIsQuiet()
    ensures Quiet(",NAME=") && !HasSuffix(",NAME=", "URI=")
  {
    NoUriSuffix(",NAME=");
  }

  lemma UriKeyIsQuiet()
    ensures Quiet(",URI=") && HasSuffix(",URI=", "URI=")
  {
    UriSuffix("");
    assert "" + ",URI=" == ",URI=";
  }

  lemma MediaHeadIsInert(s: string)
    requires QuietTag(s) && |s| > 7 && s[7] == 'M' && s[|s| - 2] == 'D'
    ensures Inert(s) && !HasSuffix(s, "URI=")
  {
    NoUriSuffix(s);
    HeadIsInert(s);
  }

  lemma AudioHeadIsInert()
    ensures Inert(AUDIO_HEAD) && !HasSuffix(AUDIO_HEAD, "URI=")
  {
    MediaHeadIsInert(AUDIO_HEAD);
  }

  lemma SubtitlesHeadIsInert()
    ensures Inert(SUBTITLES_HEAD) && !HasSuffix(SUBTITLES_HEAD, "URI=")
  {
    MediaHeadIsInert(SUBTITLES_HEAD);
  }

  lemma GroupsAreQuiet()
    ensures Quiet("audio") && Quiet("subs") && Quiet("jpeg")
    ensures !HasSuffix("audio", "URI=") && !HasSuffix("subs", "URI=") && !HasSuffix("jpeg", "URI=")
  {
    NoUriSuffix("audio");
    NoUriSuffix("subs");
    NoUriSuffix("jpeg");
  }

  lemma FlagsAreInert(a: string, b: string, c: string, d: string)
    requires Quiet(a) && Quiet(b) && Quiet(c) && Quiet(d)
    ensures Inert(a + b + c + d + ",URI=") && HasSuffix(a + b + c + d + ",URI=", "URI=")
  {
    UriSuffix(a + b + c + d);
    UriKeyIsQuiet();
    QuietIsInert(a + b + c + d + ",URI=");
  }

  lemma YesNoIsQuiet(b: bool)
    ensures Quiet(YesNo(b))
  {
  }

  lemma AudioFlagsAreInert(def: bool, autoselect: bool)
    ensures Inert(AudioFlags(def, autoselect)) && HasSuffix(AudioFlags(def, autoselect), "URI=")
  {
    YesNoIsQuiet(def);
    YesNoIsQuiet(autoselect);
    FlagsAreInert(",DEFAULT=", YesNo(def), ",AUTOSELECT=", YesNo(autoselect));
  }

  lemma SubtitleFlagsAreInert(autoselect: bool)
    ensures Inert(SubtitleFlags(autoselect)) && HasSuffix(SubtitleFlags(autoselect), "URI=")
  {
    YesNoIsQuiet(autoselect);
    FlagsAreInert(",DEFAULT=NO,AUTOSELECT=", YesNo(autoselect), ",FORCED=NO", "");
    assert ",DEFAULT=NO,AUTOSELECT=" + YesNo(autoselect) + ",FORCED=NO" + "" + ",URI=" == SubtitleFlags(autoselect);
  }

  lemma UriIsInert(dir: string, index: nat)
    requires Quiet(dir)
    ensures Inert(dir + Decimal(index) + "/index.m3u8")
  {
    NumberIsQuiet(index);
    QuietIsInert(dir + Decimal(index) + "/index.m3u8");
  }

  lemma MediaShape(head: string, group: string, language: string, name: string, flags: string, uri: string)
    requires head != "" && head[0] == '#' && Inert(head) && !HasSuffix(head, "URI=")
    requires Inert(flags) && HasSuffix(flags, "URI=") && Inert(uri)
    ensures TagShape([Attr(head, group), Attr(",LANGUAGE=", language), Attr(",NAME=", name), Attr(flags, uri)])
  {
    LanguageKeyIsQuiet();
    NameKeyIsQuiet();
    QuietIsInert(",LANGUAGE=");
    QuietIsInert(",NAME=");
  }

  lemma AudioShape(language: string, name: string, def: bool, autoselect: bool, index: nat)
    ensures TagShape(AudioAttrs(language, name, def, autoselect, index)) && Inert("audio")
  {
    AudioHeadIsInert();
    AudioFlagsAreInert(def, autoselect);
    UriIsInert("audio/", index);
    GroupsAreQuiet();
    QuietIsInert("audio");
    MediaShape(AUDIO_HEAD, "audio", language, name, AudioFlags(def, autoselect), AudioUri(index));
  }

  lemma SubtitleShape(language: string, name: string, autoselect: bool, index: nat)
    ensures TagShape(SubtitleAttrs(language, name, autoselect, index)) && Inert("subs")
  {
    SubtitlesHeadIsInert();
    SubtitleFlagsAreInert(autoselect);
    UriIsInert("subs/", index);
    GroupsAreQuiet();
    QuietIsInert("subs");
    MediaShape(SUBTITLES_HEAD, "subs", language, name, SubtitleFlags(autoselect), SubtitleUri(index));
  }

  lemma ImageTagIsClean(m: Images)
    ensures CleanTag(ImageAttrs(m)) && Inert("jpeg")
  {
    NumberIsQuiet(m.bandwidth);
    NumberIsQuiet(m.width);
    NumberIsQuiet(m.height);
    NumbersAreQuiet(Decimal(m.bandwidth), Decimal(m.width), Decimal(m.height));
    ImageKeyIsInert(ImageNumbers(Decimal(m.bandwidth), Decimal(m.width), Decimal(m.height)));
    GroupsAreQuiet();
    QuietIsInert("jpeg");
    UriKeyIsQuiet();
    QuietIsInert(",URI=");
    QuietIsInert(IMAGES_URI);
  }

  lemma NumbersAreQuiet(a: string, b: string, c: string)
    requires Quiet(a) && Quiet(b) && Quiet(c)
    ensures Quiet(ImageNumbers(a, b, c)) && |ImageNumbers(a, b, c)| > 2
    ensures ImageNumbers(a, b, c)[|ImageNumbers(a, b, c)| - 2] == 'S'
  {
  }

  lemma ImageKeyIsInert(numbers: string)
    requires Quiet(numbers) && |numbers| > 2 && numbers[|numbers| - 2] == 'S'
    ensures Inert(IMAGES_HEAD + numbers) && !HasSuffix(IMAGES_HEAD + numbers, "URI=")
  {
    var key := IMAGES_HEAD + numbers;
    assert QuietTag(IMAGES_HEAD) && IMAGES_HEAD[7] == 'I';
    assert forall i | 0 < i < |key| :: key[i] == if i < |IMAGES_HEAD| then IMAGES_HEAD[i] else numbers[i - |IMAGES_HEAD|];
    HeadIsInert(key);
    NoUriSuffix(key);
  }

  lemma ShapeOfTag(l: Line)
    requires IsTag(l)
    ensures TagShape(Attrs(l)) && Inert(GroupOf(l)) && !HasSuffix(GroupOf(l), "URI=")
  {
    GroupsAreQuiet();
    match l
    case AudioMedia(language, name, def, autoselect, index) =>
      AudioShape(language, name, def, autoselect, index);
    case SubtitleMedia(language, name, autoselect, index) =>
      SubtitleShape(language, name, autoselect, index);
    case ImageStream(images) => ImageTagIsClean(images);
  }

  // The first value of a tag.
  function GroupOf(l: Line): string
    requires IsTag(l)
  {
    Attrs(l)[0].value
  }

  lemma TagIsClean(l: Line)
    requires CleanLine(l) && IsTag(l)
    ensures CleanTag(Attrs(l))
  {
    match l
    case AudioMedia(language, name, def, autoselect, index) =>
      AudioTagIsClean(language, name, def, autoselect, index);
    case SubtitleMedia(language, name, autoselect, index) =>
      SubtitleTagIsClean(language, name, autoselect, index);
    case ImageStream(images) => ImageTagIsClean(images);
  }

  lemma AudioTagIsClean(language: string, name: string, def: bool, autoselect: bool, index: nat)
    requires QuoteSafe(language) && QuoteSafe(name)
    ensures CleanTag(AudioAttrs(language, name, def, autoselect, index))
  {
    AudioShape(language, name, def, autoselect, index);
    GroupsAreQuiet();
    MediaIsClean(AudioAttrs(language, name, def, autoselect, index));
  }

  lemma SubtitleTagIsClean(language: string, name: string, autoselect: bool, index: nat)
    requires QuoteSafe(language) && QuoteSafe(name)
    ensures CleanTag(SubtitleAttrs(language, name, autoselect, index))
  {
    SubtitleShape(language, name, autoselect, index);
    GroupsAreQuiet();
    MediaIsClean(SubtitleAttrs(language, name, autoselect, index));
  }

  lemma MediaIsClean(attrs: seq<Attr>)
    requires TagShape(attrs) && |attrs| == 4 && Inert(attrs[0].value) && !HasSuffix(attrs[0].value, "URI=")
    requires QuoteSafe(attrs[1].value) && QuoteSafe(attrs[2].value)
    ensures CleanTag(attrs)
  {
  }

  lemma TagIsOneLine(l: Line)
    requires OneLine(l) && IsTag(l)
    ensures Lacks(Text(l), '\n')
  {
    match l
    case AudioMedia(language, name, def, autoselect, index) =>
      AudioShape(language, name, def, autoselect, index);
      FourAreOneLine(AudioAttrs(language, name, def, autoselect, index));
    case SubtitleMedia(language, name, autoselect, index) =>
      SubtitleShape(language, name, autoselect, index);
      FourAreOneLine(SubtitleAttrs(language, name, autoselect, index));
    case ImageStream(images) =>
      ImageTagIsClean(images);
      TwoAreOneLine(ImageAttrs(images));
  }

  lemma FourAreOneLine(attrs: seq<Attr>)
    requires TagShape(attrs) && |attrs| == 4 && Inert(attrs[0].value)
    requires Lacks(attrs[1].value, '\n') && Lacks(attrs[2].value, '\n')
    ensures Lacks(TagText(attrs), '\n')
  {
    TagLacks(attrs, '\n');
  }

  lemma TwoAreOneLine(attrs: seq<Attr>)
    requires TagShape(attrs) && |attrs| == 2 && Inert(attrs[0].value)
    ensures Lacks(TagText(attrs), '\n')
  {
    TagLacks(attrs, '\n');
  }

  // The marker occurs in a printed tag only as part of a title or language.
  ghost predicate Marked(l: Line) {
    (l.AudioMedia? || l.SubtitleMedia?) && (Contains(l.language, MARKER) || Contains(l.name, MARKER))
  }

  lemma TagMarked(l: Line)
    requires IsTag(l)
    ensures Contains(Text(l), MARKER) <==> Marked(l)
  {
    MarkersAreSearched();
    ShapeOfTag(l);
    match l
    case AudioMedia(_, _, _, _, _) => FourMarked(Attrs(l));
    case SubtitleMedia(_, _, _, _) => FourMarked(Attrs(l));
    case ImageStream(_) => TagContains(Attrs(l), MARKER);
  }

  lemma FourMarked(attrs: seq<Attr>)
    requires TagShape(attrs) && |attrs| == 4 && Inert(attrs[0].value) && Searched(MARKER)
    ensures Contains(TagText(attrs), MARKER) <==> Contains(attrs[1].value, MARKER) || Contains(attrs[2].value, MARKER)
  {
    TagContains(attrs, MARKER);
  }
}
