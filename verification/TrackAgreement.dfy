// Filtering a printed master playlist by track agrees with printing the kept
// renditions.
module TrackAgreement {
  import opened Prelude
  import opened Strings
  import opened Ladder
  import opened MasterPlaylist
  import opened PrintedLines
  import opened ManifestFilter
  import opened FilterAgreement

  // What the filter means for a line: the chosen audio rendition becomes the
  // default one, other renditions of a group with a choice are dropped.
  function KeepLine(l: Line, audio: string, subs: string): seq<Line> {
    match l
    case AudioMedia(_, _, _, _, index) =>
      if audio == "" then [l] else if Decimal(index) == audio then [l.(def := true)] else []
    case SubtitleMedia(_, _, _, index) => if subs == "" || Decimal(index) == subs then [l] else []
    case _ => [l]
  }

  function LineKeeper(audio: string, subs: string): Line -> seq<Line> { l => KeepLine(l, audio, subs) }

  // ---- The URI segment ----------------------------------------------------------------

  // A pattern with a character that can only match at one place.
  lemma OnlyAsPrefix(s: string, sub: string, k: nat)
    requires k < |sub| && forall i | 0 <= i < |s| && i != k :: s[i] != sub[k]
    ensures Contains(s, sub) <==> HasPrefix(s, sub)
  {
    AtStartIsPrefix(s, sub);
    if Contains(s, sub) {
      var i :| 0 <= i <= |s| && At(s, sub, i);
      assert s[i + k] == sub[k];
    }
  }

  lemma SegmentInUri(dir: string, number: string, wanted: string, k: nat)
    requires Lacks(number, '/') && Lacks(wanted, '/')
    requires k < |dir| && Lacks(number, dir[k]) && Lacks("/index.m3u8", dir[k])
    requires forall i | 0 <= i < |dir| && i != k :: dir[i] != dir[k]
    ensures Contains(dir + number + "/index.m3u8", dir + wanted + "/") <==> number == wanted
  {
    var file := "index.m3u8";
    var s, sub := dir + (number + "/" + file), dir + (wanted + "/");
    assert "/" + file == "/index.m3u8";
    SpreadLacks(dir, number, k);
    assert s == dir + number + "/index.m3u8" && sub == dir + wanted + "/";
    OnlyAsPrefix(s, sub, k);
    FirstSegment(number, file, wanted);
    assert s[|dir|..] == number + "/" + file && sub[|dir|..] == wanted + "/";
    PrefixBehind(dir, number + "/" + file, wanted + "/");
  }

  lemma SpreadLacks(dir: string, number: string, k: nat)
    requires k < |dir| && Lacks(number, dir[k]) && Lacks("/index.m3u8", dir[k])
    requires forall i | 0 <= i < |dir| && i != k :: dir[i] != dir[k]
    ensures var s := dir + number + "/index.m3u8"; forall i | 0 <= i < |s| && i != k :: s[i] != dir[k]
  {
  }

  lemma PrefixBehind(dir: string, s: string, sub: string)
    ensures HasPrefix(dir + s, dir + sub) <==> HasPrefix(s, sub)
  {
    if HasPrefix(dir + s, dir + sub) {
      assert (dir + s)[|dir|..][..|sub|] == sub;
    }
  }

  lemma AudioSegment(index: nat, wanted: string)
    requires Lacks(wanted, '/')
    ensures Contains(AudioUri(index), "audio/" + wanted + "/") <==> Decimal(index) == wanted
  {
    DecimalLacks(index, '/');
    DecimalLacks(index, 'a');
    SegmentInUri("audio/", Decimal(index), wanted, 0);
  }

  lemma SubtitleSegment(index: nat, wanted: string)
    requires Lacks(wanted, '/')
    ensures Contains(SubtitleUri(index), "subs/" + wanted + "/") <==> Decimal(index) == wanted
  {
    DecimalLacks(index, '/');
    DecimalLacks(index, 'b');
    SegmentInUri("subs/", Decimal(index), wanted, 2);
  }

  // ---- The DEFAULT attribute ----------------------------------------------------------

  lemma NoCharOf(s: string, sub: string, k: nat)
    requires k < |sub| && Lacks(s, sub[k])
    ensures !Contains(s, sub)
  {
    if i :| 0 <= i <= |s| && At(s, sub, i) {
      AtChar(s, sub, i, k);
    }
  }

  lemma NoDefault(s: string)
    requires Lacks(s, 'F')
    ensures !Contains(s, DEFAULT_NO)
  {
    assert DEFAULT_NO[2] == 'F';
    NoCharOf(s, DEFAULT_NO, 2);
  }

  lemma DefaultAt(rest: string)
    ensures ReplaceFirst(",DEFAULT=NO" + rest, DEFAULT_NO, DEFAULT_YES) == ",DEFAULT=YES" + rest
    ensures Contains(",DEFAULT=NO" + rest, DEFAULT_NO)
  {
    var s := ",DEFAULT=NO" + rest;
    DefaultAtOne(s);
    IndexIs(s, DEFAULT_NO, 1);
    assert s[11..] == rest && s[..1] == ",";
    assert "," + DEFAULT_YES == ",DEFAULT=YES";
  }

  lemma DefaultAtOne(s: string)
    requires HasPrefix(s, ",DEFAULT=NO")
    ensures At(s, DEFAULT_NO, 1) && !At(s, DEFAULT_NO, 0) && |DEFAULT_NO| == 10
  {
    var start := ",DEFAULT=NO";
    assert start[1..] == DEFAULT_NO && |start| == 11;
    forall k | 0 <= k < |DEFAULT_NO| ensures s[1 + k] == DEFAULT_NO[k] {
      assert s[1 + k] == start[1..][k];
    }
    assert DEFAULT_NO[0] == 'D' && start[0] == ',' && s[0] == start[0];
    if At(s, DEFAULT_NO, 0) {
      AtFirstChar(s, DEFAULT_NO, 0);
    }
  }

  lemma DefaultElsewhere(rest: string)
    requires forall i | 0 <= i < |rest| :: rest[i] != 'D'
    ensures !Contains(",DEFAULT=YES" + rest, DEFAULT_NO)
  {
    var s := ",DEFAULT=YES" + rest;
    assert s[9] == 'Y' && DEFAULT_NO[0] == 'D' && DEFAULT_NO[8] == 'N';
    assert forall i | 0 <= i < |s| && i != 1 :: s[i] != 'D';
    if i :| 0 <= i <= |s| && At(s, DEFAULT_NO, i) {
      AtChar(s, DEFAULT_NO, i, 8);
      AtFirstChar(s, DEFAULT_NO, i);
    }
  }

  lemma AudioFlagsSplit(def: bool, autoselect: bool)
    ensures var rest := ",AUTOSELECT=" + YesNo(autoselect) + ",URI=";
            AudioFlags(def, autoselect) == (if def then ",DEFAULT=YES" else ",DEFAULT=NO") + rest
            && forall i | 0 <= i < |rest| :: rest[i] != 'D'
  {
    assert ",DEFAULT=" + "YES" == ",DEFAULT=YES" && ",DEFAULT=" + "NO" == ",DEFAULT=NO";
  }

  lemma ForcedFlags(def: bool, autoselect: bool)
    ensures Contains(AudioFlags(def, autoselect), DEFAULT_NO) <==> !def
    ensures !def ==> ReplaceFirst(AudioFlags(def, autoselect), DEFAULT_NO, DEFAULT_YES) == AudioFlags(true, autoselect)
  {
    AudioFlagsSplit(def, autoselect);
    AudioFlagsSplit(true, autoselect);
    var rest := ",AUTOSELECT=" + YesNo(autoselect) + ",URI=";
    if def {
      DefaultElsewhere(rest);
    } else {
      DefaultAt(rest);
    }
  }

  lemma AudioKeysLackDefault(index: nat)
    ensures !Contains(AUDIO_HEAD, DEFAULT_NO) && !Contains("audio", DEFAULT_NO)
    ensures !Contains(",LANGUAGE=", DEFAULT_NO) && !Contains(",NAME=", DEFAULT_NO)
    ensures !Contains(AudioUri(index), DEFAULT_NO)
  {
    NoDefault(AUDIO_HEAD);
    NoDefault("audio");
    NoDefault(",LANGUAGE=");
    NoDefault(",NAME=");
    DecimalLacks(index, 'F');
    NoDefault(AudioUri(index));
  }

  // Forcing the default on a printed audio tag prints the tag with DEFAULT=YES.
  lemma ForceDefaultText(l: Line)
    requires l.AudioMedia? && !Contains(l.language, DEFAULT_NO) && !Contains(l.name, DEFAULT_NO)
    ensures ForceDefault(Text(l)) == Text(l.(def := true))
  {
    var attrs := Attrs(l);
    AudioKeysLackDefault(l.index);
    ForcedFlags(l.def, l.autoselect);
    MarkersAreSearched();
    if l.def {
      TagReplaceNone(attrs, DEFAULT_NO, DEFAULT_YES);
    } else {
      TagReplace(attrs, 3, DEFAULT_NO, DEFAULT_YES);
      assert attrs[3 := Attr(AudioFlags(true, l.autoselect), attrs[3].value)] == Attrs(l.(def := true));
    }
  }

  lemma {:induction false} TagTextAppend(a: seq<Attr>, b: seq<Attr>)
    ensures TagText(a + b) == TagText(a) + TagText(b)
  {
    if a == [] {
      assert a + b == b;
    } else {
      assert (a + b)[1..] == a[1..] + b;
      TagTextAppend(a[1..], b);
    }
  }

  // The first replacement happens in the front part, if the text occurs there.
  lemma ReplacedInFront(front: string, back: string, other: string)
    requires Contains(front, DEFAULT_NO)
    ensures ReplaceFirst(front + back, DEFAULT_NO, DEFAULT_YES) != front + other
  {
    var s := front + back;
    IndexFirst(front, DEFAULT_NO);
    var i := Index(front, DEFAULT_NO);
    DefaultTexts();
    AtChar(front, DEFAULT_NO, i, 8);
    AtInFront(front, back, i);
    IndexIs(s, DEFAULT_NO, i);
    ReplaceAt(s, DEFAULT_NO, DEFAULT_YES, i);
    assert Cut(s, i, i + |DEFAULT_NO|, DEFAULT_YES)[i + 8] == DEFAULT_YES[8];
    assert (front + other)[i + 8] == front[i + 8];
  }

  lemma DefaultTexts()
    ensures |DEFAULT_NO| == 10 && |DEFAULT_YES| == 11 && DEFAULT_NO[8] == 'N' && DEFAULT_YES[8] == 'Y'
  {
  }

  lemma AtInFront(front: string, back: string, i: nat)
    requires At(front, DEFAULT_NO, i) && forall k | 0 <= k < i :: !At(front, DEFAULT_NO, k)
    ensures At(front + back, DEFAULT_NO, i) && forall k | 0 <= k < i :: !At(front + back, DEFAULT_NO, k)
  {
    AtIsLocal(front, back, DEFAULT_NO, i);
    forall k | 0 <= k < i ensures !At(front + back, DEFAULT_NO, k) {
      AtIsLocal(front, back, DEFAULT_NO, k);
    }
  }

  lemma AtIsLocal(front: string, back: string, sub: string, k: nat)
    requires k + |sub| <= |front|
    ensures At(front + back, sub, k) <==> At(front, sub, k)
  {
    var s := front + back;
    if At(s, sub, k) {
      forall n | 0 <= n < |sub| ensures front[k + n] == sub[n] {
        AtChar(s, sub, k, n);
      }
    }
    if At(front, sub, k) {
      forall n | 0 <= n < |sub| ensures s[k + n] == sub[n] {
        AtChar(front, sub, k, n);
      }
    }
  }

  // It does so only then: the first occurrence is replaced, wherever it is.
  lemma ForceDefaultExactly(l: Line)
    requires l.AudioMedia?
    ensures ForceDefault(Text(l)) == Text(l.(def := true))
            <==> !Contains(l.language, DEFAULT_NO) && !Contains(l.name, DEFAULT_NO)
  {
    if !Contains(l.language, DEFAULT_NO) && !Contains(l.name, DEFAULT_NO) {
      ForceDefaultText(l);
    } else {
      var attrs, forced := Attrs(l), Attrs(l.(def := true));
      var front := attrs[..3];
      MarkersAreSearched();
      assert attrs == front + attrs[3..] && forced == front + forced[3..];
      TagTextAppend(front, attrs[3..]);
      TagTextAppend(front, forced[3..]);
      assert front[1].value == l.language && front[2].value == l.name;
      TagContains(front, DEFAULT_NO);
      ReplacedInFront(TagText(front), TagText(attrs[3..]), TagText(forced[3..]));
    }
  }

  // ---- One line -------------------------------------------------------------------------

  lemma TagTrims(l: Line)
    requires IsTag(l)
    ensures TrimSpace(Text(l)) == Text(l)
  {
    TagKind(l);
    TagEnds(Attrs(l));
    TrimNothing(Text(l));
  }

  lemma TagValue(l: Line)
    requires CleanLine(l) && IsTag(l)
    ensures var attrs := Attrs(l); UriValue(Text(l)) == Some(attrs[|attrs| - 1].value)
  {
    TagIsClean(l);
    TagUri(Attrs(l), "");
  }

  lemma KeepAudio(l: Line, audio: string, subs: string)
    requires CleanLine(l) && l.AudioMedia? && Lacks(audio, '/')
    ensures KeepTrack(Text(l), audio, subs) == Texts(KeepLine(l, audio, subs))
  {
    TagTrims(l);
    TagKind(l);
    TagValue(l);
    AudioSegment(l.index, audio);
    ForceDefaultText(l);
  }

  lemma KeepSubtitle(l: Line, audio: string, subs: string)
    requires CleanLine(l) && l.SubtitleMedia? && Lacks(subs, '/')
    ensures KeepTrack(Text(l), audio, subs) == Texts(KeepLine(l, audio, subs))
  {
    TagTrims(l);
    TagKind(l);
    TagValue(l);
    SubtitleSegment(l.index, subs);
  }

  // Text that is neither rendition tag is kept.
  lemma KeepOther(s: string, audio: string, subs: string)
    requires s == "" || (!IsSpace(s[0]) && !HasPrefix(s, AUDIO_TAG) && !HasPrefix(s, SUBTITLES_TAG))
    ensures KeepTrack(s, audio, subs) == [s]
  {
    if s != "" {
      MediaTagsEnd();
      TrimKeepsPrefix(s, AUDIO_TAG);
      TrimKeepsPrefix(s, SUBTITLES_TAG);
    }
  }

  lemma MediaTagsEnd()
    ensures AUDIO_TAG != [] && !IsSpace(AUDIO_TAG[|AUDIO_TAG| - 1]) && AUDIO_TAG[0] == '#'
    ensures SUBTITLES_TAG != [] && !IsSpace(SUBTITLES_TAG[|SUBTITLES_TAG| - 1]) && SUBTITLES_TAG[0] == '#'
  {
    assert AUDIO_TAG[|AUDIO_TAG| - 1] == ',' && SUBTITLES_TAG[|SUBTITLES_TAG| - 1] == ',';
  }

  lemma StreamTextIsOther(s: string)
    requires HasPrefix(s, STREAM_INF)
    ensures s != "" && s[0] == '#' && !HasPrefix(s, AUDIO_TAG) && !HasPrefix(s, SUBTITLES_TAG)
  {
    assert STREAM_INF[7] == 'S' && AUDIO_TAG[7] == SUBTITLES_TAG[7] == 'M' && STREAM_INF[0] == '#';
    assert s[7] == STREAM_INF[7] && s[0] == STREAM_INF[0];
  }

  lemma UriIsOther(v: Variant)
    requires OneLine(Uri(v))
    ensures var s := VariantUri(v);
            s != "" && !IsSpace(s[0]) && !HasPrefix(s, AUDIO_TAG) && !HasPrefix(s, SUBTITLES_TAG)
  {
    MediaTagsEnd();
    var s := VariantUri(v);
    assert s[0] == v.codec.name[0];
  }

  lemma OtherText(l: Line)
    requires OneLine(l) && !l.AudioMedia? && !l.SubtitleMedia?
    ensures var s := Text(l); s == "" || (!IsSpace(s[0]) && !HasPrefix(s, AUDIO_TAG) && !HasPrefix(s, SUBTITLES_TAG))
  {
    match l
    case ImageStream(_) => TagKind(l);
    case StreamInf(_, _, _, _, _, _, _, _) => StreamTextIsOther(Text(l));
    case Uri(v) => UriIsOther(v);
    case Fixed(_) =>
  }

  lemma KeepOtherText(l: Line, audio: string, subs: string)
    requires OneLine(l) && !l.AudioMedia? && !l.SubtitleMedia?
    ensures KeepTrack(Text(l), audio, subs) == [Text(l)]
  {
    OtherText(l);
    KeepOther(Text(l), audio, subs);
  }

  lemma KeepTrackText(l: Line, audio: string, subs: string)
    requires CleanLine(l) && Lacks(audio, '/') && Lacks(subs, '/')
    ensures KeepTrack(Text(l), audio, subs) == Texts(KeepLine(l, audio, subs))
  {
    if l.AudioMedia? {
      KeepAudio(l, audio, subs);
    } else if l.SubtitleMedia? {
      KeepSubtitle(l, audio, subs);
    } else {
      KeepOtherText(l, audio, subs);
    }
  }

  // ---- All lines --------------------------------------------------------------------------

  // A filter that acts on texts as `keep` acts on lines acts so on whole playlists.
  lemma {:induction false} FlatMapTexts(lines: seq<Line>, f: string -> seq<string>, keep: Line -> seq<Line>)
    requires forall i | 0 <= i < |lines| :: f(Text(lines[i])) == Texts(keep(lines[i]))
    requires f("") == [""]
    ensures FlatMap(Texts(lines) + [""], f) == Texts(FlatMap(lines, keep)) + [""]
  {
    var rest := Texts(lines) + [""];
    if lines == [] {
      assert rest == [""] && rest[1..] == [];
    } else {
      FlatMapTexts(lines[1..], f, keep);
      assert rest[1..] == Texts(lines[1..]) + [""];
      TextsPrepend(keep(lines[0]), FlatMap(lines[1..], keep));
    }
  }

  lemma KeepTexts(lines: seq<Line>, audio: string, subs: string)
    requires CleanLines(lines) && Lacks(audio, '/') && Lacks(subs, '/')
    ensures FlatMap(Texts(lines) + [""], TrackKeeper(audio, subs))
            == Texts(FlatMap(lines, LineKeeper(audio, subs))) + [""]
  {
    forall i | 0 <= i < |lines|
      ensures TrackKeeper(audio, subs)(Text(lines[i])) == Texts(LineKeeper(audio, subs)(lines[i]))
    {
      KeepTrackText(lines[i], audio, subs);
    }
    KeepOther("", audio, subs);
    FlatMapTexts(lines, TrackKeeper(audio, subs), LineKeeper(audio, subs));
  }

  lemma {:induction false} KeptTracksAreClean(lines: seq<Line>, audio: string, subs: string)
    requires CleanLines(lines)
    ensures CleanLines(FlatMap(lines, LineKeeper(audio, subs)))
  {
    if lines != [] {
      KeptTracksAreClean(lines[1..], audio, subs);
      assert CleanLines(KeepLine(lines[0], audio, subs));
    }
  }

  // On every playlist made of clean lines the filter does to the text what
  // KeepLine does to the lines.
  lemma TracksOnPrinted(lines: seq<Line>, audio: string, subs: string)
    requires CleanLines(lines) && Lacks(audio, '/') && Lacks(subs, '/')
    ensures TracksFiltered(Print(lines), audio, subs) == Print(FlatMap(lines, LineKeeper(audio, subs)))
  {
    SplitPrinted(lines);
    KeepTexts(lines, audio, subs);
    KeptTracksAreClean(lines, audio, subs);
    SplitPrinted(FlatMap(lines, LineKeeper(audio, subs)));
  }

  lemma {:induction false} FlatMapAppend<A, B>(a: seq<A>, b: seq<A>, f: A -> seq<B>)
    ensures FlatMap(a + b, f) == FlatMap(a, f) + FlatMap(b, f)
  {
    if a == [] {
      assert a + b == b;
    } else {
      assert (a + b)[1..] == a[1..] + b;
      FlatMapAppend(a[1..], b, f);
    }
  }

  lemma {:induction false} FlatMapIdentity<A>(xs: seq<A>, f: A -> seq<A>)
    requires forall i | 0 <= i < |xs| :: f(xs[i]) == [xs[i]]
    ensures FlatMap(xs, f) == xs
  {
    if xs != [] {
      FlatMapIdentity(xs[1..], f);
      assert [xs[0]] + xs[1..] == xs;
    }
  }

  lemma {:induction false} FlatMapNone<A, B>(xs: seq<A>, f: A -> seq<B>)
    requires forall i | 0 <= i < |xs| :: f(xs[i]) == []
    ensures FlatMap(xs, f) == []
  {
    if xs != [] {
      FlatMapNone(xs[1..], f);
    }
  }

  lemma {:induction false} FlatMapOne<A, B>(xs: seq<A>, f: A -> seq<B>, i: nat)
    requires i < |xs| && forall k | 0 <= k < |xs| && k != i :: f(xs[k]) == []
    ensures FlatMap(xs, f) == f(xs[i])
  {
    if i == 0 {
      FlatMapNone(xs[1..], f);
    } else {
      FlatMapOne(xs[1..], f, i - 1);
    }
  }

  ghost predicate NoMedia(lines: seq<Line>) {
    forall i | 0 <= i < |lines| :: !lines[i].AudioMedia? && !lines[i].SubtitleMedia?
  }

  lemma KeepsNoMedia(lines: seq<Line>, audio: string, subs: string)
    requires NoMedia(lines)
    ensures FlatMap(lines, LineKeeper(audio, subs)) == lines
  {
    FlatMapIdentity(lines, LineKeeper(audio, subs));
  }

  lemma {:induction false} VariantLinesNoMedia(p: Params, vs: seq<Variant>, codec: string)
    ensures NoMedia(VariantLines(p, vs)) && NoMedia(KeptLines(p, vs, codec))
  {
    if vs != [] {
      VariantLinesNoMedia(p, vs[1..], codec);
    }
  }

  // The filter changes the two rendition groups of a printed playlist only.
  lemma KeepsHead(p: Params, audioLines: seq<Line>, subtitleLines: seq<Line>, audio: string, subs: string)
    ensures FlatMap(HeadLines(p, audioLines, subtitleLines), LineKeeper(audio, subs))
            == HeadLines(p, FlatMap(audioLines, LineKeeper(audio, subs)), FlatMap(subtitleLines, LineKeeper(audio, subs)))
  {
    var f := LineKeeper(audio, subs);
    var a, b, c := PREAMBLE + audioLines, BlankIf(p.audio != []), BlankIf(p.subtitles != []);
    assert NoMedia(PREAMBLE);
    KeepsNoMedia(PREAMBLE, audio, subs);
    KeepsNoMedia(b, audio, subs);
    KeepsNoMedia(c, audio, subs);
    KeepsNoMedia(ImageLines(p), audio, subs);
    FlatMapAppend(PREAMBLE, audioLines, f);
    FlatMapAppend(a, b, f);
    FlatMapAppend(a + b, subtitleLines, f);
    FlatMapAppend(a + b + subtitleLines, c, f);
    FlatMapAppend(a + b + subtitleLines + c, ImageLines(p), f);
  }

  lemma KeepsMaster(p: Params, head: seq<Line>, vs: seq<Variant>, codec: string, audio: string, subs: string)
    ensures FlatMap(head + VariantLines(p, vs), LineKeeper(audio, subs))
            == FlatMap(head, LineKeeper(audio, subs)) + VariantLines(p, vs)
    ensures FlatMap(head + KeptLines(p, vs, codec), LineKeeper(audio, subs))
            == FlatMap(head, LineKeeper(audio, subs)) + KeptLines(p, vs, codec)
  {
    VariantLinesNoMedia(p, vs, codec);
    FlatMapAppend(head, VariantLines(p, vs), LineKeeper(audio, subs));
    FlatMapAppend(head, KeptLines(p, vs, codec), LineKeeper(audio, subs));
    KeepsNoMedia(VariantLines(p, vs), audio, subs);
    KeepsNoMedia(KeptLines(p, vs, codec), audio, subs);
  }

  // ---- The chosen renditions -----------------------------------------------------------

  ghost predicate DistinctIndices(tracks: seq<Track>) {
    forall i, k | 0 <= i < k < |tracks| :: tracks[i].index != tracks[k].index
  }

  // The query parameter for a choice, and the lines that should remain.
  function Wanted(tracks: seq<Track>, choice: Option<nat>): string
    requires choice.Some? ==> choice.value < |tracks|
  {
    if choice.Some? then Decimal(tracks[choice.value].index) else ""
  }

  function AsDefault(l: Line): Line { if l.AudioMedia? then l.(def := true) else l }

  function ChosenAudio(tracks: seq<Track>, choice: Option<nat>): seq<Line>
    requires choice.Some? ==> choice.value < |tracks|
  {
    if choice.Some? then [AsDefault(AudioLines(tracks)[choice.value])] else AudioLines(tracks)
  }

  function ChosenSubtitles(tracks: seq<Track>, choice: Option<nat>): seq<Line>
    requires choice.Some? ==> choice.value < |tracks|
  {
    if choice.Some? then [SubtitleLines(tracks)[choice.value]] else SubtitleLines(tracks)
  }

  lemma KeepsChosenAudio(tracks: seq<Track>, choice: Option<nat>, subs: string)
    requires DistinctIndices(tracks) && (choice.Some? ==> choice.value < |tracks|)
    ensures FlatMap(AudioLines(tracks), LineKeeper(Wanted(tracks, choice), subs)) == ChosenAudio(tracks, choice)
  {
    var f := LineKeeper(Wanted(tracks, choice), subs);
    if choice.None? {
      FlatMapIdentity(AudioLines(tracks), f);
    } else {
      var i := choice.value;
      forall k | 0 <= k < |tracks| && k != i ensures f(AudioLines(tracks)[k]) == [] {
        OtherNumber(tracks[k].index, tracks[i].index);
      }
      FlatMapOne(AudioLines(tracks), f, i);
    }
  }

  lemma KeepsChosenSubtitles(tracks: seq<Track>, choice: Option<nat>, audio: string)
    requires DistinctIndices(tracks) && (choice.Some? ==> choice.value < |tracks|)
    ensures FlatMap(SubtitleLines(tracks), LineKeeper(audio, Wanted(tracks, choice))) == ChosenSubtitles(tracks, choice)
  {
    var f := LineKeeper(audio, Wanted(tracks, choice));
    if choice.None? {
      FlatMapIdentity(SubtitleLines(tracks), f);
    } else {
      var i := choice.value;
      forall k | 0 <= k < |tracks| && k != i ensures f(SubtitleLines(tracks)[k]) == [] {
        OtherNumber(tracks[k].index, tracks[i].index);
      }
      FlatMapOne(SubtitleLines(tracks), f, i);
    }
  }

  lemma OtherNumber(n: nat, m: nat)
    requires n != m
    ensures Decimal(n) != Decimal(m)
  {
    if Decimal(n) == Decimal(m) {
      DecimalInjective(n, m);
    }
  }

  // A requested track present in the playlist is the only one of its group that
  // remains; if it is an audio track it says DEFAULT=YES. Nothing else changes.
  lemma TrackFilterAgreesWithPrinting(p: Params, audio: Option<nat>, subs: Option<nat>)
    requires CleanParams(p) && DistinctIndices(p.audio) && DistinctIndices(p.subtitles)
    requires (audio.Some? ==> audio.value < |p.audio|) && (subs.Some? ==> subs.value < |p.subtitles|)
    ensures TracksFiltered(Print(MasterLines(p)), Wanted(p.audio, audio), Wanted(p.subtitles, subs))
            == Print(HeadLines(p, ChosenAudio(p.audio, audio), ChosenSubtitles(p.subtitles, subs))
                     + VariantLines(p, p.variants))
  {
    var a, s := Wanted(p.audio, audio), Wanted(p.subtitles, subs);
    WantedLacks(p.audio, audio);
    WantedLacks(p.subtitles, subs);
    MasterIsClean(p);
    TracksOnPrinted(MasterLines(p), a, s);
    KeepsMaster(p, HeadLines(p, AudioLines(p.audio), SubtitleLines(p.subtitles)), p.variants, "", a, s);
    KeepsHead(p, AudioLines(p.audio), SubtitleLines(p.subtitles), a, s);
    KeepsChosenAudio(p.audio, audio, s);
    KeepsChosenSubtitles(p.subtitles, subs, a);
  }

  lemma WantedLacks(tracks: seq<Track>, choice: Option<nat>)
    requires choice.Some? ==> choice.value < |tracks|
    ensures Lacks(Wanted(tracks, choice), '/')
  {
    if choice.Some? {
      DecimalLacks(tracks[choice.value].index, '/');
    }
  }

  lemma MasterIsClean(p: Params)
    requires CleanParams(p)
    ensures CleanLines(Head(p)) && CleanLines(MasterLines(p))
  {
    HeadIsClean(p);
    VariantLinesAreClean(p, p.variants);
  }
}
