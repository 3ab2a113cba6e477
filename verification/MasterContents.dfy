// The printed master playlist as a whole: which tags it has, in which order, and
// that every group a variant refers to exists.
module MasterContents {
  import opened Strings
  import opened AttributeLists
  import opened Ladder
  import opened MasterPlaylist
  import opened PrintedLines
  import opened ManifestFilter
  import opened FilterAgreement
  import opened TrackAgreement
  import opened ManifestRewrite
  import opened ServedMaster
  import opened MasterReading

  // ---- Tags in their order --------------------------------------------------------------------

  function Tagger(tag: string): string -> seq<string> { line => if HasPrefix(line, tag) then [line] else [] }

  // The lines of a text that start with a tag.
  function Tagged(text: string, tag: string): seq<string> { FlatMap(Split(text, '\n'), Tagger(tag)) }

  // STREAM-INF lines, each with the line behind it.
  function Announced(lines: seq<string>): seq<(string, string)> {
    if |lines| < 2 then []
    else (if HasPrefix(lines[0], STREAM_INF) then [(lines[0], lines[1])] else []) + Announced(lines[1..])
  }

  // ---- Which line is which tag ----------------------------------------------------------------

  // A line that the printer may produce.
  ghost predicate Known(l: Line) { OneLine(l) && (l.Fixed? ==> l in PREAMBLE) }

  lemma TagPrefixes(l: Line)
    requires IsTag(l)
    ensures HasPrefix(Text(l), MEDIA_TAG) <==> l.AudioMedia? || l.SubtitleMedia?
    ensures HasPrefix(Text(l), IMAGES_HEAD) <==> l.ImageStream?
    ensures !HasPrefix(Text(l), STREAM_INF)
  {
    TagKind(l);
    HeadKinds();
    ImagesAreNoMedia();
    TagStarts(Attrs(l), MEDIA_TAG);
    TagStarts(Attrs(l), IMAGES_HEAD);
  }

  lemma ImagesAreNoMedia()
    ensures forall s: string :: !HasPrefix(IMAGES_HEAD + s, MEDIA_TAG) && HasPrefix(IMAGES_HEAD + s, IMAGES_HEAD)
    ensures !HasPrefix(AUDIO_HEAD, IMAGES_HEAD) && !HasPrefix(SUBTITLES_HEAD, IMAGES_HEAD)
  {
    assert MEDIA_TAG[7] == 'M' && IMAGES_HEAD[7] == 'I' && AUDIO_HEAD[7] == SUBTITLES_HEAD[7] == 'M';
    assert forall s: string :: (IMAGES_HEAD + s)[7] == 'I';
    assert forall s: string :: (IMAGES_HEAD + s)[..|IMAGES_HEAD|] == IMAGES_HEAD;
  }

  lemma StreamPrefixes(s: string)
    requires HasPrefix(s, STREAM_INF)
    ensures !HasPrefix(s, MEDIA_TAG) && !HasPrefix(s, IMAGES_HEAD) && !HasPrefix(s, AUDIO_TAG) && !HasPrefix(s, SUBTITLES_TAG)
  {
    InfIsUntouched(s);
    StreamTextIsOther(s);
  }

  lemma UriPrefixes(v: Variant)
    requires OneLine(Uri(v))
    ensures VariantUri(v) != "" && VariantUri(v)[0] != '#'
  {
    assert VariantUri(v)[0] == v.codec.name[0];
  }

  lemma TagsHaveHashes()
    ensures MEDIA_TAG[0] == '#' && IMAGES_HEAD[0] == '#' && STREAM_INF[0] == '#' && AUDIO_TAG[0] == '#'
            && SUBTITLES_TAG[0] == '#'
    ensures MEDIA_TAG != "" && IMAGES_HEAD != "" && STREAM_INF != "" && AUDIO_TAG != "" && SUBTITLES_TAG != ""
  {
  }

  // Which tag a printed line is.
  lemma LinePrefixes(l: Line)
    requires Known(l)
    ensures HasPrefix(Text(l), AUDIO_TAG) <==> l.AudioMedia?
    ensures HasPrefix(Text(l), SUBTITLES_TAG) <==> l.SubtitleMedia?
    ensures HasPrefix(Text(l), MEDIA_TAG) <==> l.AudioMedia? || l.SubtitleMedia?
    ensures HasPrefix(Text(l), IMAGES_HEAD) <==> l.ImageStream?
    ensures HasPrefix(Text(l), STREAM_INF) <==> l.StreamInf?
  {
    TagsHaveHashes();
    if IsTag(l) {
      TagKind(l);
      TagPrefixes(l);
    } else if l.StreamInf? {
      assert HasPrefix(Text(l), STREAM_INF);
      StreamPrefixes(Text(l));
    } else if l.Uri? {
      UriPrefixes(l.variant);
    } else {
      PreambleIsUntouched();
    }
  }

  lemma BlankPrefixes(tag: string)
    requires tag != ""
    ensures !HasPrefix("", tag)
  {
  }

  // ---- The lines of a kind ----------------------------------------------------------------------

  lemma {:induction false} FlatMapOfTexts(lines: seq<Line>, f: string -> seq<string>, keep: Line -> seq<Line>)
    requires forall i | 0 <= i < |lines| :: f(Text(lines[i])) == Texts(keep(lines[i]))
    ensures FlatMap(Texts(lines), f) == Texts(FlatMap(lines, keep))
  {
    if lines != [] {
      FlatMapOfTexts(lines[1..], f, keep);
      assert Texts(lines)[1..] == Texts(lines[1..]);
      TextsAppend(keep(lines[0]), FlatMap(lines[1..], keep));
    }
  }

  function Keeper(pick: Line -> bool): Line -> seq<Line> { l => if pick(l) then [l] else [] }

  ghost predicate AllKnown(lines: seq<Line>) { forall i | 0 <= i < |lines| :: Known(lines[i]) }

  lemma TagOrNothing(l: Line, tag: string, pick: Line -> bool)
    requires HasPrefix(Text(l), tag) <==> pick(l)
    ensures Tagger(tag)(Text(l)) == Texts(Keeper(pick)(l))
  {
    assert Texts([l]) == [Text(l)] && Texts([]) == [];
  }

  lemma TaggedLines(lines: seq<Line>, tag: string, pick: Line -> bool)
    requires AllKnown(lines) && tag != ""
    requires forall i | 0 <= i < |lines| :: HasPrefix(Text(lines[i]), tag) <==> pick(lines[i])
    ensures Tagged(Print(lines), tag) == Texts(FlatMap(lines, Keeper(pick)))
  {
    SplitPrinted(lines);
    forall i | 0 <= i < |lines| ensures Tagger(tag)(Text(lines[i])) == Texts(Keeper(pick)(lines[i])) {
      TagOrNothing(lines[i], tag, pick);
    }
    FlatMapOfTexts(lines, Tagger(tag), Keeper(pick));
    BlankPrefixes(tag);
    BlankIsDropped(Texts(lines), Tagger(tag));
  }

  lemma BlankIsDropped(lines: seq<string>, f: string -> seq<string>)
    requires f("") == []
    ensures FlatMap(lines + [""], f) == FlatMap(lines, f)
  {
    FlatMapAppend(lines, [""], f);
    FlatMapNone([""], f);
  }

  // The parts of a master playlist, one after another.
  lemma MasterParts(p: Params, f: Line -> seq<Line>)
    ensures FlatMap(MasterLines(p), f)
            == FlatMap(PREAMBLE, f) + FlatMap(AudioLines(p.audio), f) + FlatMap(BlankIf(p.audio != []), f)
               + FlatMap(SubtitleLines(p.subtitles), f) + FlatMap(BlankIf(p.subtitles != []), f)
               + FlatMap(ImageLines(p), f) + FlatMap(VariantLines(p, p.variants), f)
  {
    var a, b := AudioLines(p.audio), BlankIf(p.audio != []);
    var c, d := SubtitleLines(p.subtitles), BlankIf(p.subtitles != []);
    FlatMapAppend(PREAMBLE, a, f);
    FlatMapAppend(PREAMBLE + a, b, f);
    FlatMapAppend(PREAMBLE + a + b, c, f);
    FlatMapAppend(PREAMBLE + a + b + c, d, f);
    FlatMapAppend(PREAMBLE + a + b + c + d, ImageLines(p), f);
    FlatMapAppend(PREAMBLE + a + b + c + d + ImageLines(p), VariantLines(p, p.variants), f);
  }

  // Fixed lines, in particular blank ones, are of no kind.
  ghost predicate OfTags(pick: Line -> bool) { forall l: Line | pick(l) :: IsTag(l) }

  lemma NoFixed(p: Params, pick: Line -> bool)
    requires OfTags(pick)
    ensures FlatMap(PREAMBLE, Keeper(pick)) == [] && FlatMap(BlankIf(p.audio != []), Keeper(pick)) == []
    ensures FlatMap(BlankIf(p.subtitles != []), Keeper(pick)) == []
    ensures FlatMap(VariantLines(p, p.variants), Keeper(pick)) == []
  {
    NoTags(PREAMBLE, pick);
    NoTags(BlankIf(p.audio != []), pick);
    NoTags(BlankIf(p.subtitles != []), pick);
    VariantsAreNoTags(p, p.variants);
    NoTags(VariantLines(p, p.variants), pick);
  }

  lemma NoTags(lines: seq<Line>, pick: Line -> bool)
    requires OfTags(pick) && forall i | 0 <= i < |lines| :: !IsTag(lines[i])
    ensures FlatMap(lines, Keeper(pick)) == []
  {
    FlatMapNone(lines, Keeper(pick));
  }

  lemma {:induction false} VariantsAreNoTags(p: Params, vs: seq<Variant>)
    ensures forall i | 0 <= i < |VariantLines(p, vs)| :: !IsTag(VariantLines(p, vs)[i])
  {
    if vs != [] {
      VariantsAreNoTags(p, vs[1..]);
    }
  }

  const IS_AUDIO := (l: Line) => l.AudioMedia?
  const IS_SUBTITLE := (l: Line) => l.SubtitleMedia?
  const IS_IMAGES := (l: Line) => l.ImageStream?

  lemma Padded<T>(x: seq<T>, y: seq<T>, z: seq<T>)
    ensures [] + x + [] + y + [] + z + [] == x + y + z
  {
  }

  lemma TagParts(p: Params, pick: Line -> bool)
    requires OfTags(pick)
    ensures FlatMap(MasterLines(p), Keeper(pick))
            == FlatMap(AudioLines(p.audio), Keeper(pick)) + FlatMap(SubtitleLines(p.subtitles), Keeper(pick))
               + FlatMap(ImageLines(p), Keeper(pick))
  {
    MasterParts(p, Keeper(pick));
    NoFixed(p, pick);
    Padded(FlatMap(AudioLines(p.audio), Keeper(pick)), FlatMap(SubtitleLines(p.subtitles), Keeper(pick)),
           FlatMap(ImageLines(p), Keeper(pick)));
  }

  lemma AllKept(lines: seq<Line>, pick: Line -> bool)
    requires forall i | 0 <= i < |lines| :: pick(lines[i])
    ensures FlatMap(lines, Keeper(pick)) == lines
  {
    FlatMapIdentity(lines, Keeper(pick));
  }

  lemma NoneKept(lines: seq<Line>, pick: Line -> bool)
    requires forall i | 0 <= i < |lines| :: !pick(lines[i])
    ensures FlatMap(lines, Keeper(pick)) == []
  {
    FlatMapNone(lines, Keeper(pick));
  }

  lemma AudioPart(p: Params)
    ensures FlatMap(MasterLines(p), Keeper(IS_AUDIO)) == AudioLines(p.audio)
  {
    TagParts(p, IS_AUDIO);
    AllKept(AudioLines(p.audio), IS_AUDIO);
    NoneKept(SubtitleLines(p.subtitles), IS_AUDIO);
    NoneKept(ImageLines(p), IS_AUDIO);
  }

  lemma SubtitlePart(p: Params)
    ensures FlatMap(MasterLines(p), Keeper(IS_SUBTITLE)) == SubtitleLines(p.subtitles)
  {
    TagParts(p, IS_SUBTITLE);
    AllKept(SubtitleLines(p.subtitles), IS_SUBTITLE);
    NoneKept(AudioLines(p.audio), IS_SUBTITLE);
    NoneKept(ImageLines(p), IS_SUBTITLE);
  }

  lemma ImagePart(p: Params)
    ensures FlatMap(MasterLines(p), Keeper(IS_IMAGES)) == if p.images.Some? then [ImageStream(p.images.value)] else []
  {
    TagParts(p, IS_IMAGES);
    NoneKept(AudioLines(p.audio), IS_IMAGES);
    NoneKept(SubtitleLines(p.subtitles), IS_IMAGES);
    if p.images.Some? {
      FlatMapOne(ImageLines(p), Keeper(IS_IMAGES), 0);
    }
  }

  lemma MasterIsKnown(p: Params)
    requires LineParams(p)
    ensures AllKnown(MasterLines(p))
  {
    HeadIsOneLine(p);
    HeadIsPrintable(p);
    VariantLinesAreClean(p, p.variants);
    VariantsArePrintable(p, p.variants, "");
  }

  lemma MasterTagged(p: Params)
    requires LineParams(p)
    ensures var text := Print(MasterLines(p));
            Tagged(text, AUDIO_TAG) == Texts(AudioLines(p.audio))
            && Tagged(text, SUBTITLES_TAG) == Texts(SubtitleLines(p.subtitles))
            && Tagged(text, IMAGES_HEAD) == Texts(if p.images.Some? then [ImageStream(p.images.value)] else [])
  {
    MasterIsKnown(p);
    TagsHaveHashes();
    forall i | 0 <= i < |MasterLines(p)| {
      LinePrefixes(MasterLines(p)[i]);
    }
    TaggedLines(MasterLines(p), AUDIO_TAG, IS_AUDIO);
    TaggedLines(MasterLines(p), SUBTITLES_TAG, IS_SUBTITLE);
    TaggedLines(MasterLines(p), IMAGES_HEAD, IS_IMAGES);
    AudioPart(p);
    SubtitlePart(p);
    ImagePart(p);
  }

  // ---- Variants -----------------------------------------------------------------------------------

  function StreamPairs(p: Params, vs: seq<Variant>): seq<(string, string)> {
    seq(|vs|, i requires 0 <= i < |vs| => (Text(StreamLine(p, vs[i])), VariantUri(vs[i])))
  }

  lemma {:induction false} AnnouncedHead(head: seq<string>, rest: seq<string>)
    requires rest != [] && forall i | 0 <= i < |head| :: !HasPrefix(head[i], STREAM_INF)
    ensures Announced(head + rest) == Announced(rest)
  {
    if head == [] {
      assert head + rest == rest;
    } else {
      AnnouncedHead(head[1..], rest);
      assert (head + rest)[1..] == head[1..] + rest;
    }
  }

  lemma AnnouncedTriple(inf: string, uri: string, rest: seq<string>)
    requires rest != [] && HasPrefix(inf, STREAM_INF) && !HasPrefix(uri, STREAM_INF) && !HasPrefix("", STREAM_INF)
    ensures Announced([inf, uri, ""] + rest) == [(inf, uri)] + Announced(rest)
  {
    var lines := [inf, uri, ""] + rest;
    assert lines[1..] == [uri, ""] + rest;
    AnnouncedHead([uri, ""], rest);
  }

  lemma {:induction false} AnnouncedVariants(p: Params, vs: seq<Variant>)
    requires CleanVariants(p, vs)
    ensures Announced(Texts(VariantLines(p, vs)) + [""]) == StreamPairs(p, vs)
  {
    if vs == [] {
      assert Texts(VariantLines(p, vs)) + [""] == [""];
    } else {
      AnnouncedVariants(p, vs[1..]);
      AnnouncedVariant(p, vs[0], Texts(VariantLines(p, vs[1..])) + [""]);
      TripleTexts(p, vs);
      PairsStep(p, vs);
    }
  }

  lemma AnnouncedVariant(p: Params, v: Variant, rest: seq<string>)
    requires CleanVariant(p, v) && Lacks(p.frameRate, '\n') && rest != []
    ensures Announced([Text(StreamLine(p, v)), VariantUri(v), ""] + rest)
            == [(Text(StreamLine(p, v)), VariantUri(v))] + Announced(rest)
  {
    TagsHaveHashes();
    StreamLineIsClean(p, v);
    UriPrefixes(v);
    AnnouncedTriple(Text(StreamLine(p, v)), VariantUri(v), rest);
  }

  lemma PairsStep(p: Params, vs: seq<Variant>)
    requires vs != []
    ensures StreamPairs(p, vs) == [(Text(StreamLine(p, vs[0])), VariantUri(vs[0]))] + StreamPairs(p, vs[1..])
  {
  }

  lemma TripleTexts(p: Params, vs: seq<Variant>)
    requires vs != []
    ensures Texts(VariantLines(p, vs)) + [""]
            == [Text(StreamLine(p, vs[0])), VariantUri(vs[0]), ""] + (Texts(VariantLines(p, vs[1..])) + [""])
  {
    TextsAppend([StreamLine(p, vs[0]), Uri(vs[0]), BLANK], VariantLines(p, vs[1..]));
    assert Texts([StreamLine(p, vs[0]), Uri(vs[0]), BLANK]) == [Text(StreamLine(p, vs[0])), VariantUri(vs[0]), ""];
  }

  lemma MasterAnnounced(p: Params)
    requires LineParams(p)
    ensures Announced(Split(Print(MasterLines(p)), '\n')) == StreamPairs(p, p.variants)
  {
    MasterIsKnown(p);
    SplitPrinted(MasterLines(p));
    TextsAppend(Head(p), VariantLines(p, p.variants));
    RenditionsAreHead(p);
    forall i | 0 <= i < |Head(p)| ensures !HasPrefix(Texts(Head(p))[i], STREAM_INF) {
      assert Head(p)[i] == MasterLines(p)[i];
      LinePrefixes(Head(p)[i]);
    }
    AnnouncedHead(Texts(Head(p)), Texts(VariantLines(p, p.variants)) + [""]);
    AnnouncedVariants(p, p.variants);
    Regrouped2(Texts(Head(p)), Texts(VariantLines(p, p.variants)));
  }

  lemma Regrouped2(a: seq<string>, b: seq<string>)
    ensures a + b + [""] == a + (b + [""])
  {
  }

  // ---- The contents ------------------------------------------------------------------------------

  function LanguageOf(t: Track): string { if t.language == "" then "und" else t.language }

  // The name of track i: its title, else its language, else its number; from the
  // second use on, with the number of the use.
  ghost predicate NameGiven(tracks: seq<Track>, i: nat, name: string)
    requires i < |tracks|
  {
    var base := DisplayName(tracks[i], i);
    (tracks[i].title != "" ==> base == tracks[i].title)
    && (tracks[i].title == "" && tracks[i].language != "" ==> base == tracks[i].language)
    && (tracks[i].title == "" && tracks[i].language == "" ==> base == "Track " + Decimal(i + 1))
    && var uses := |set k | 0 <= k <= i && DisplayName(tracks[k], k) == base|;
       name == if uses == 1 then base else base + " " + Decimal(uses)
  }

  lemma {:induction false} OccurrencesCount(names: seq<string>, name: string, n: nat)
    requires n <= |names|
    ensures Occurrences(names, name, n) == |set k | 0 <= k < n && names[k] == name|
  {
    var uses := set k | 0 <= k < n && names[k] == name;
    if n == 0 {
      assert uses == {};
    } else {
      OccurrencesCount(names, name, n - 1);
      var before := set k | 0 <= k < n - 1 && names[k] == name;
      assert uses == if names[n - 1] == name then before + {n - 1} else before;
    }
  }

  lemma PrintedName(tracks: seq<Track>, i: nat)
    requires i < |tracks|
    ensures NameGiven(tracks, i, RenditionName(DisplayNames(tracks), i))
  {
    var base := DisplayName(tracks[i], i);
    OccurrencesCount(DisplayNames(tracks), base, i + 1);
    assert (set k | 0 <= k < i + 1 && DisplayNames(tracks)[k] == base)
        == set k | 0 <= k <= i && DisplayName(tracks[k], k) == base;
  }

  // What is read for an audio or subtitle track.
  ghost predicate AudioTrackReads(tracks: seq<Track>, i: nat, tag: string)
    requires i < |tracks|
  {
    exists name :: NameGiven(tracks, i, name)
      && MediaReads(tag, "AUDIO", "audio", LanguageOf(tracks[i]), name, i == 0,
                    forall k | 0 <= k < i :: LanguageOf(tracks[k]) != LanguageOf(tracks[i]),
                    "audio/" + Decimal(tracks[i].index) + "/index.m3u8")
  }

  ghost predicate SubtitleTrackReads(tracks: seq<Track>, i: nat, tag: string)
    requires i < |tracks|
  {
    exists name :: NameGiven(tracks, i, name)
      && MediaReads(tag, "SUBTITLES", "subs", LanguageOf(tracks[i]), name, false,
                    forall k | 0 <= k < i :: LanguageOf(tracks[k]) != LanguageOf(tracks[i]),
                    "subs/" + Decimal(tracks[i].index) + "/index.m3u8")
  }

  ghost predicate VariantAnnounced(p: Params, v: Variant, pair: (string, string)) {
    pair.1 == v.codec.name + "/" + v.quality.name + "/index.m3u8"
    && exists bandwidth, average, width :: StreamReads(p, v, pair.0, bandwidth, average, width)
  }

  function ImagesText(m: Images): string {
    "#EXT-X-IMAGE-STREAM-INF:BANDWIDTH=" + Decimal(m.bandwidth) + ",RESOLUTION=" + Decimal(m.width) + "x"
    + Decimal(m.height) + ",CODECS=\"jpeg\",URI=\"images/index.m3u8\""
  }

  // What a player finds in a master playlist printed for these parameters.
  ghost predicate Describes(text: string, p: Params) {
    var lines := Split(text, '\n');
    var audio, subtitles := Tagged(text, "#EXT-X-MEDIA:TYPE=AUDIO,"), Tagged(text, "#EXT-X-MEDIA:TYPE=SUBTITLES,");
    var variants := Announced(lines);
    Preamble(lines)
    && |audio| == |p.audio| && (forall i | 0 <= i < |p.audio| :: AudioTrackReads(p.audio, i, audio[i]))
    && |subtitles| == |p.subtitles| && (forall i | 0 <= i < |p.subtitles| :: SubtitleTrackReads(p.subtitles, i, subtitles[i]))
    && Tagged(text, "#EXT-X-IMAGE-STREAM-INF:") == (if p.images.Some? then [ImagesText(p.images.value)] else [])
    && |variants| == |p.variants| && forall i | 0 <= i < |p.variants| :: VariantAnnounced(p, p.variants[i], variants[i])
  }

  lemma ImagesLine(m: Images)
    ensures Text(ImageStream(m)) == ImagesText(m)
  {
    var attrs := ImageAttrs(m);
    TagTextFrom(attrs, 0);
    TagTextFrom(attrs, 1);
    ImagePieces(Decimal(m.bandwidth), Decimal(m.width), Decimal(m.height));
  }

  lemma ImagePieces(bandwidth: string, width: string, height: string)
    ensures (IMAGES_HEAD + ImageNumbers(bandwidth, width, height)) + "\"" + ("jpeg" + "\"" + (",URI=" + "\"" + (IMAGES_URI + "\"" + "")))
            == "#EXT-X-IMAGE-STREAM-INF:BANDWIDTH=" + bandwidth + ",RESOLUTION=" + width + "x" + height
               + ",CODECS=\"jpeg\",URI=\"images/index.m3u8\""
  {
    assert IMAGES_HEAD + "BANDWIDTH=" == "#EXT-X-IMAGE-STREAM-INF:BANDWIDTH=";
    ImageEnd();
    ImageMiddle(IMAGES_HEAD, "BANDWIDTH=", bandwidth, ",RESOLUTION=", width, "x", height, ",CODECS=",
                "\"" + ("jpeg" + "\"" + (",URI=" + "\"" + (IMAGES_URI + "\"" + ""))));
  }

  lemma ImageEnd()
    ensures ",CODECS=" + ("\"" + ("jpeg" + "\"" + (",URI=" + "\"" + (IMAGES_URI + "\"" + ""))))
            == ",CODECS=\"jpeg\",URI=\"images/index.m3u8\""
  {
    ImageUri();
    ImageCodecs(",URI=" + "\"" + (IMAGES_URI + "\"" + ""));
    ImageLast();
  }

  lemma ImageUri()
    ensures ",URI=" + "\"" + (IMAGES_URI + "\"" + "") == ",URI=\"images/index.m3u8\""
  {
  }

  lemma ImageCodecs(tail: string)
    ensures ",CODECS=" + ("\"" + ("jpeg" + "\"" + tail)) == ",CODECS=\"jpeg\"" + tail
  {
    assert ",CODECS=\"jpeg\"" == ",CODECS=" + "\"" + "jpeg" + "\"";
  }

  lemma ImageLast()
    ensures ",CODECS=\"jpeg\"" + ",URI=\"images/index.m3u8\"" == ",CODECS=\"jpeg\",URI=\"images/index.m3u8\""
  {
  }

  lemma ImageMiddle(a: string, b: string, c: string, d: string, e: string, f: string, g: string, h: string, i: string)
    ensures (a + (b + c + d + e + f + g + h)) + i == (a + b) + c + d + e + f + g + (h + i)
  {
  }

  lemma PrintedAudio(p: Params, i: nat)
    requires TracksLack(p.audio, '"') && i < |p.audio|
    ensures AudioTrackReads(p.audio, i, Text(AudioLines(p.audio)[i]))
  {
    PrintedName(p.audio, i);
    PrintedNameLacks(p.audio, i, '"');
    AudioReads(AudioLines(p.audio)[i]);
  }

  lemma PrintedSubtitle(p: Params, i: nat)
    requires TracksLack(p.subtitles, '"') && i < |p.subtitles|
    ensures SubtitleTrackReads(p.subtitles, i, Text(SubtitleLines(p.subtitles)[i]))
  {
    PrintedName(p.subtitles, i);
    PrintedNameLacks(p.subtitles, i, '"');
    SubtitleReads(SubtitleLines(p.subtitles)[i]);
  }

  lemma FirstLine(p: Params)
    requires LineParams(p)
    ensures Preamble(Split(Print(MasterLines(p)), '\n'))
  {
    MasterIsKnown(p);
    SplitPrinted(MasterLines(p));
    StartsWithPreamble(p);
    TextsOfPreamble(MasterLines(p));
  }

  lemma StartsWithPreamble(p: Params)
    ensures PREAMBLE <= MasterLines(p)
  {
  }

  lemma TextsOfPreamble(lines: seq<Line>)
    requires PREAMBLE <= lines
    ensures Preamble(Texts(lines) + [""])
  {
    assert lines[0] == PREAMBLE[0] && lines[1] == PREAMBLE[1] && lines[2] == PREAMBLE[2];
  }

  ghost predicate Preamble(lines: seq<string>) {
    |lines| >= 3 && lines[0] == "#EXTM3U" && lines[1] == "#EXT-X-VERSION:6" && lines[2] == "#EXT-X-INDEPENDENT-SEGMENTS"
  }

  lemma MasterIsDescribed(p: Params)
    requires ReadableParams(p)
    ensures Describes(Print(MasterLines(p)), p)
  {
    FirstLine(p);
    MasterTagged(p);
    MasterAnnounced(p);
    TracksAreRead(p);
    forall i | 0 <= i < |p.variants| ensures VariantAnnounced(p, p.variants[i], StreamPairs(p, p.variants)[i]) {
      PairIsAnnounced(p, p.variants[i]);
    }
    if p.images.Some? {
      ImagesLine(p.images.value);
      assert Texts([ImageStream(p.images.value)]) == [ImagesText(p.images.value)];
    }
  }

  lemma TracksAreRead(p: Params)
    requires TracksLack(p.audio, '"') && TracksLack(p.subtitles, '"')
    ensures forall i | 0 <= i < |p.audio| :: AudioTrackReads(p.audio, i, Texts(AudioLines(p.audio))[i])
    ensures forall i | 0 <= i < |p.subtitles| :: SubtitleTrackReads(p.subtitles, i, Texts(SubtitleLines(p.subtitles))[i])
  {
    forall i | 0 <= i < |p.audio| ensures AudioTrackReads(p.audio, i, Texts(AudioLines(p.audio))[i]) {
      PrintedAudio(p, i);
    }
    forall i | 0 <= i < |p.subtitles| ensures SubtitleTrackReads(p.subtitles, i, Texts(SubtitleLines(p.subtitles))[i]) {
      PrintedSubtitle(p, i);
    }
  }

  lemma PairIsAnnounced(p: Params, v: Variant)
    requires ReadableVariant(p, v) && Lacks(p.frameRate, '"') && Lacks(p.frameRate, ',')
    ensures VariantAnnounced(p, v, (Text(StreamLine(p, v)), VariantUri(v)))
  {
    var bandwidth, average, width := VariantReads(p, v);
  }

  // Section 4.3.4.2 of RFC 8216: a variant refers to a group exactly if the
  // playlist has a rendition of that type and group.
  ghost predicate GroupsExist(text: string) {
    var lines := Split(text, '\n');
    forall x, kind, group | x in lines && HasPrefix(x, "#EXT-X-STREAM-INF:") && (kind == "AUDIO" || kind == "SUBTITLES") ::
      TagGives(x, "#EXT-X-STREAM-INF:", kind, Quoted(group)) <==> HasRendition(lines, kind, group)
  }

  ghost predicate HasRendition(lines: seq<string>, kind: string, group: string) {
    exists y | y in lines :: GivesRendition(y, kind, group)
  }

  lemma LineRendition(p: Params, l: Line, kind: string, group: string)
    requires ReadableParams(p) && l in MasterLines(p) && (kind == "AUDIO" || kind == "SUBTITLES")
    ensures GivesRendition(Text(l), kind, group) <==> IsRendition(l, kind, group)
  {
    MasterIsKnown(p);
    LinePrefixes(l);
    MasterMedia(p, l);
    QuotedInjective(group, "audio");
    QuotedInjective(group, "subs");
    if l.AudioMedia? {
      AudioReads(l);
    } else if l.SubtitleMedia? {
      SubtitleReads(l);
    }
  }

  lemma QuotedInjective(a: string, b: string)
    ensures Quoted(a) == Quoted(b) <==> a == b
  {
    assert Quoted(a)[1..|Quoted(a)| - 1] == a && Quoted(b)[1..|Quoted(b)| - 1] == b;
  }

  lemma MasterMedia(p: Params, l: Line)
    requires TracksLack(p.audio, '"') && TracksLack(p.subtitles, '"') && l in MasterLines(p)
    ensures l.AudioMedia? || l.SubtitleMedia? ==> Lacks(l.language, '"') && Lacks(l.name, '"')
    ensures l.AudioMedia? ==> p.audio != []
    ensures l.SubtitleMedia? ==> p.subtitles != []
  {
    HeadMembers(p, AudioLines(p.audio), SubtitleLines(p.subtitles));
    VariantsAreNoTags(p, p.variants);
    PreambleIsFixed();
    if l.AudioMedia? {
      assert l in AudioLines(p.audio);
      var i :| 0 <= i < |p.audio| && AudioLines(p.audio)[i] == l;
      PrintedNameLacks(p.audio, i, '"');
    }
    if l.SubtitleMedia? {
      assert l in SubtitleLines(p.subtitles);
      var i :| 0 <= i < |p.subtitles| && SubtitleLines(p.subtitles)[i] == l;
      PrintedNameLacks(p.subtitles, i, '"');
    }
  }

  ghost predicate IsRendition(l: Line, kind: string, group: string) {
    (l.AudioMedia? && kind == "AUDIO" && group == "audio") || (l.SubtitleMedia? && kind == "SUBTITLES" && group == "subs")
  }

  ghost predicate GivesRendition(y: string, kind: string, group: string) {
    TagGives(y, "#EXT-X-MEDIA:", "TYPE", kind) && TagGives(y, "#EXT-X-MEDIA:", "GROUP-ID", Quoted(group))
  }

  lemma AmongTexts(lines: seq<Line>, kind: string, group: string)
    requires forall i | 0 <= i < |lines| ::
               GivesRendition(Texts(lines)[i], kind, group) <==> IsRendition(lines[i], kind, group)
    ensures HasRendition(Texts(lines) + [""], kind, group) <==> exists l | l in lines :: IsRendition(l, kind, group)
  {
    BlankGivesNothing(kind, group);
    if y :| y in Texts(lines) + [""] && GivesRendition(y, kind, group) {
      var i :| 0 <= i < |lines| && Texts(lines)[i] == y;
      assert lines[i] in lines;
    }
    if l :| l in lines && IsRendition(l, kind, group) {
      var i :| 0 <= i < |lines| && lines[i] == l;
      assert Texts(lines)[i] in Texts(lines) + [""];
    }
  }

  lemma BlankGivesNothing(kind: string, group: string)
    ensures !GivesRendition("", kind, group)
  {
    TagsHaveHashes();
  }

  lemma RenditionAmongLines(p: Params, kind: string, group: string)
    requires ReadableParams(p)
    ensures (exists l | l in MasterLines(p) :: IsRendition(l, kind, group))
            <==> (p.audio != [] && kind == "AUDIO" && group == "audio")
                 || (p.subtitles != [] && kind == "SUBTITLES" && group == "subs")
  {
    if l :| l in MasterLines(p) && IsRendition(l, kind, group) {
      MasterMedia(p, l);
    }
    RenditionsInHead(p);
    if p.audio != [] {
      assert AudioLines(p.audio)[0] in Head(p) && AudioLines(p.audio)[0] in MasterLines(p);
    }
    if p.subtitles != [] {
      assert SubtitleLines(p.subtitles)[0] in Head(p) && SubtitleLines(p.subtitles)[0] in MasterLines(p);
    }
  }

  lemma PrintedRenditions(p: Params, kind: string, group: string)
    requires ReadableParams(p) && (kind == "AUDIO" || kind == "SUBTITLES")
    ensures HasRendition(Split(Print(MasterLines(p)), '\n'), kind, group)
            <==> (p.audio != [] && kind == "AUDIO" && group == "audio")
                 || (p.subtitles != [] && kind == "SUBTITLES" && group == "subs")
  {
    var lines := MasterLines(p);
    MasterIsKnown(p);
    SplitPrinted(lines);
    forall i | 0 <= i < |lines|
      ensures GivesRendition(Texts(lines)[i], kind, group) <==> IsRendition(lines[i], kind, group)
    {
      LineRendition(p, lines[i], kind, group);
    }
    AmongTexts(lines, kind, group);
    RenditionAmongLines(p, kind, group);
  }

  lemma RenditionsInHead(p: Params)
    ensures forall l | l in AudioLines(p.audio) || l in SubtitleLines(p.subtitles) :: l in Head(p)
  {
  }

  lemma PrintedGroups(p: Params)
    requires ReadableParams(p)
    ensures GroupsExist(Print(MasterLines(p)))
  {
    var lines := MasterLines(p);
    var texts := Split(Print(lines), '\n');
    MasterIsKnown(p);
    SplitPrinted(lines);
    TagsHaveHashes();
    forall x, kind, group | x in texts && HasPrefix(x, STREAM_INF) && (kind == "AUDIO" || kind == "SUBTITLES")
      ensures TagGives(x, STREAM_INF, kind, Quoted(group)) <==> HasRendition(texts, kind, group)
    {
      var i :| 0 <= i < |lines| && Texts(lines)[i] == x;
      LinePrefixes(lines[i]);
      StreamGroups(p, lines[i], kind, group);
      PrintedRenditions(p, kind, group);
    }
  }

  lemma StreamGroups(p: Params, l: Line, kind: string, group: string)
    requires ReadableParams(p) && l in MasterLines(p) && l.StreamInf? && (kind == "AUDIO" || kind == "SUBTITLES")
    ensures TagGives(Text(l), STREAM_INF, kind, Quoted(group))
            <==> (p.audio != [] && kind == "AUDIO" && group == "audio")
                 || (p.subtitles != [] && kind == "SUBTITLES" && group == "subs")
  {
    var v := StreamOf(p, l);
    StreamLineIsReadable(p, v);
    StreamGivesEach(l, Quoted(group));
    QuotedInjective(group, "audio");
    QuotedInjective(group, "subs");
  }

  lemma StreamOf(p: Params, l: Line) returns (v: Variant)
    requires l in MasterLines(p) && l.StreamInf?
    ensures v in p.variants && l == StreamLine(p, v)
  {
    RenditionsAreHead(p);
    assert l in VariantLines(p, p.variants);
    v := StreamAmong(p, p.variants, l);
  }

  lemma {:induction false} StreamAmong(p: Params, vs: seq<Variant>, l: Line) returns (v: Variant)
    requires l in VariantLines(p, vs) && l.StreamInf?
    ensures v in vs && l == StreamLine(p, v)
  {
    if l == StreamLine(p, vs[0]) {
      v := vs[0];
    } else {
      v := StreamAmong(p, vs[1..], l);
    }
  }

  // Writing the master playlist.
  method WriteMaster(p: Params) returns (text: string)
    requires ReadableParams(p)
    ensures Describes(text, p) && GroupsExist(text)
  {
    text := WriteMasterManifest(p);
    MasterIsDescribed(p);
    PrintedGroups(p);
  }
}
