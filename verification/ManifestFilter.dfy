// The filters the manifest proxy applies to a master playlist.
module ManifestFilter {
  import opened Strings
  import opened AttributeLists
  import opened Ladder
  import opened MasterPlaylist
  import opened PrintedLines

  // ---- filterMasterByCodec ------------------------------------------------------------

  // What a line means to the filter. Behind a STREAM-INF line, a blank line, a
  // comment or a URL of the codec lets it through; any other URL drops it.
  datatype Kind = Inf | Passes | Blocks

  function KindOf(line: string, codec: string): Kind {
    var trimmed := TrimSpace(line);
    if HasPrefix(trimmed, STREAM_INF) then Inf
    else if trimmed == "" || HasPrefix(trimmed, "#") || HasPrefix(trimmed, codec + "/") then Passes
    else Blocks
  }

  // The lines kept from here on, `pending` being a STREAM-INF line still held
  // back; one held back at the end is lost.
  function KeepCodec(lines: seq<string>, kind: string -> Kind, pending: string): seq<string> {
    if lines == [] then []
    else
      var line, rest := lines[0], lines[1..];
      match kind(line)
      case Inf => KeepCodec(rest, kind, line)
      case Passes => (if pending == "" then [line] else [pending, line]) + KeepCodec(rest, kind, "")
      case Blocks => (if pending == "" then [line] else []) + KeepCodec(rest, kind, "")
  }

  function CodecKind(codec: string): string -> Kind { line => KindOf(line, codec) }

  function CodecFiltered(content: string, codec: string): string {
    var result := Join(KeepCodec(Split(content, '\n'), CodecKind(codec), ""), '\n');
    if Contains(result, STREAM_INF) then result else content
  }

  method FilterMasterByCodec(content: string, codec: string) returns (result: string)
    ensures result == CodecFiltered(content, codec)
  {
    var out := KeepCodecLoop(Split(content, '\n'), CodecKind(codec));
    result := Join(out, '\n');
    if !Contains(result, STREAM_INF) {
      return content;
    }
  }

  ghost predicate KeptSoFar(
      out: seq<string>, lines: seq<string>, i: nat, kind: string -> Kind, pending: string, all: seq<string>)
  {
    i <= |lines| && out + KeepCodec(lines[i..], kind, pending) == all
  }

  lemma KeepStep(
      out: seq<string>, lines: seq<string>, i: nat, kind: string -> Kind, pending: string, all: seq<string>)
    requires i < |lines| && KeptSoFar(out, lines, i, kind, pending, all)
    ensures match kind(lines[i])
            case Inf => KeptSoFar(out, lines, i + 1, kind, lines[i], all)
            case Passes => KeptSoFar(out + if pending == "" then [lines[i]] else [pending, lines[i]], lines, i + 1, kind, "", all)
            case Blocks => KeptSoFar(if pending == "" then out + [lines[i]] else out, lines, i + 1, kind, "", all)
  {
    assert lines[i..][1..] == lines[i + 1..];
  }

  lemma KeptAll(out: seq<string>, lines: seq<string>, kind: string -> Kind, pending: string, all: seq<string>)
    requires KeptSoFar(out, lines, |lines|, kind, pending, all)
    ensures out == all
  {
  }

  method KeepCodecLoop(lines: seq<string>, kind: string -> Kind) returns (out: seq<string>)
    ensures out == KeepCodec(lines, kind, "")
  {
    out := [];
    var pendingInf := "";
    ghost var all := KeepCodec(lines, kind, "");
    assert lines[0..] == lines;
    for i := 0 to |lines|
      invariant KeptSoFar(out, lines, i, kind, pendingInf, all)
    {
      var line := lines[i];
      KeepStep(out, lines, i, kind, pendingInf, all);
      if kind(line) == Inf {
        pendingInf := line;
        continue;
      }
      if pendingInf != "" {
        if kind(line) == Passes {
          out := out + [pendingInf, line];
        }
        pendingInf := "";
        continue;
      }
      out := out + [line];
    }
    KeptAll(out, lines, kind, pendingInf, all);
  }

  // ---- filterMasterByTracks -------------------------------------------------------------

  predicate ContainsUriSegment(line: string, segment: string) {
    UriValue(line).Some? && Contains(UriValue(line).value, segment)
  }

  function ForceDefault(line: string): string { ReplaceFirst(line, DEFAULT_NO, DEFAULT_YES) }

  // What becomes of one line: itself, changed, or nothing.
  function KeepTrack(line: string, audio: string, subs: string): seq<string> {
    var trimmed := TrimSpace(line);
    if HasPrefix(trimmed, AUDIO_TAG) then
      if audio == "" then [line]
      else if ContainsUriSegment(trimmed, "audio/" + audio + "/") then [ForceDefault(trimmed)]
      else []
    else if HasPrefix(trimmed, SUBTITLES_TAG) then
      if subs == "" || ContainsUriSegment(trimmed, "subs/" + subs + "/") then [line] else []
    else [line]
  }

  function FlatMap<A, B>(xs: seq<A>, f: A -> seq<B>): seq<B> {
    if xs == [] then [] else f(xs[0]) + FlatMap(xs[1..], f)
  }

  function TrackKeeper(audio: string, subs: string): string -> seq<string> { line => KeepTrack(line, audio, subs) }

  function TracksFiltered(content: string, audio: string, subs: string): string {
    Join(FlatMap(Split(content, '\n'), TrackKeeper(audio, subs)), '\n')
  }

  method FilterMasterByTracks(content: string, audioIdx: string, subsIdx: string) returns (result: string)
    ensures result == TracksFiltered(content, audioIdx, subsIdx)
  {
    var out := KeepTracksLoop(Split(content, '\n'), TrackKeeper(audioIdx, subsIdx));
    result := Join(out, '\n');
  }

  method KeepTracksLoop(lines: seq<string>, keep: string -> seq<string>) returns (out: seq<string>)
    ensures out == FlatMap(lines, keep)
  {
    out := [];
    for i := 0 to |lines|
      invariant out + FlatMap(lines[i..], keep) == FlatMap(lines, keep)
    {
      assert lines[i..][0] == lines[i] && lines[i..][1..] == lines[i + 1..];
      out := out + keep(lines[i]);
    }
  }

  // ---- What the filters see in a printed line -------------------------------------------

  lemma AudioStarts(attrs: seq<Attr>)
    requires attrs != [] && attrs[0].key == AUDIO_HEAD
    ensures HasPrefix(TagText(attrs), AUDIO_TAG) && !HasPrefix(TagText(attrs), SUBTITLES_TAG)
    ensures !HasPrefix(TagText(attrs), STREAM_INF) && TagText(attrs) != "" && TagText(attrs)[0] == '#'
  {
    assert AUDIO_HEAD[18] == 'A' && SUBTITLES_TAG[18] == 'S' && AUDIO_HEAD[7] == 'M' && STREAM_INF[7] == 'S';
    TagStarts(attrs, AUDIO_TAG);
    TagStarts(attrs, SUBTITLES_TAG);
    TagStarts(attrs, STREAM_INF);
    TagStarts(attrs, "#");
  }

  lemma SubtitlesStart(attrs: seq<Attr>)
    requires attrs != [] && attrs[0].key == SUBTITLES_HEAD
    ensures HasPrefix(TagText(attrs), SUBTITLES_TAG) && !HasPrefix(TagText(attrs), AUDIO_TAG)
    ensures !HasPrefix(TagText(attrs), STREAM_INF) && TagText(attrs) != "" && TagText(attrs)[0] == '#'
  {
    assert SUBTITLES_HEAD[18] == 'S' && AUDIO_TAG[18] == 'A' && SUBTITLES_HEAD[7] == 'M' && STREAM_INF[7] == 'S';
    TagStarts(attrs, AUDIO_TAG);
    TagStarts(attrs, SUBTITLES_TAG);
    TagStarts(attrs, STREAM_INF);
    TagStarts(attrs, "#");
  }

  lemma ImagesStart(attrs: seq<Attr>)
    requires attrs != [] && HasPrefix(attrs[0].key, IMAGES_HEAD) && |attrs[0].key| >= |SUBTITLES_TAG|
    ensures !HasPrefix(TagText(attrs), SUBTITLES_TAG) && !HasPrefix(TagText(attrs), AUDIO_TAG)
    ensures !HasPrefix(TagText(attrs), STREAM_INF) && TagText(attrs) != "" && TagText(attrs)[0] == '#'
  {
    assert IMAGES_HEAD[7] == 'I' && attrs[0].key[7] == IMAGES_HEAD[7];
    assert SUBTITLES_TAG[7] == AUDIO_TAG[7] == 'M' && STREAM_INF[7] == 'S';
    TagStarts(attrs, AUDIO_TAG);
    TagStarts(attrs, SUBTITLES_TAG);
    TagStarts(attrs, STREAM_INF);
    TagStarts(attrs, "#");
  }

  // Which of the searched tags a printed tag is.
  lemma TagKind(l: Line)
    requires IsTag(l)
    ensures HasPrefix(Text(l), AUDIO_TAG) <==> l.AudioMedia?
    ensures HasPrefix(Text(l), SUBTITLES_TAG) <==> l.SubtitleMedia?
    ensures !HasPrefix(Text(l), STREAM_INF) && Text(l) != "" && Text(l)[0] == '#'
  {
    var attrs := Attrs(l);
    match l
    case AudioMedia(_, _, _, _, _) => AudioStarts(attrs);
    case SubtitleMedia(_, _, _, _) => SubtitlesStart(attrs);
    case ImageStream(_) => ImagesStart(attrs);
  }

  // A line with a visible first character is a STREAM-INF line only if it starts like one.
  lemma NotInf(s: string, codec: string)
    requires s != "" && !IsSpace(s[0]) && !HasPrefix(s, STREAM_INF)
    ensures KindOf(s, codec) != Inf
  {
    TrimKeepsPrefix(s, STREAM_INF);
  }

  // Titles and languages cannot turn a head line into a STREAM-INF line.
  lemma HeadLineKind(l: Line, codec: string)
    requires HeadLine(l)
    ensures KindOf(Text(l), codec) != Inf
  {
    if IsTag(l) {
      TagKind(l);
      NotInf(Text(l), codec);
    } else if l.text == "" {
      BlankPasses(codec);
    } else {
      NotInf(l.text, codec);
    }
  }

  lemma HeadLineMarked(l: Line)
    requires HeadLine(l)
    ensures Contains(Text(l), MARKER) <==> Marked(l)
  {
    if IsTag(l) {
      TagMarked(l);
    } else if l.text == "" {
      NoFirstChar(l.text, MARKER);
    } else {
      OnlyAtStart(l.text, MARKER);
    }
  }

  lemma StreamText(l: Line, codec: string)
    requires OneLine(l) && l.StreamInf?
    ensures Lacks(Text(l), '\n') && KindOf(Text(l), codec) == Inf && Contains(Text(l), MARKER) && Text(l) != ""
  {
    DecimalLacks(l.bandwidth, '\n');
    DecimalLacks(l.average, '\n');
    StreamAttributesLack(l);
    var s := STREAM_INF + StreamAttributes(l);
    assert Text(l) == s && s[0] == '#' && HasPrefix(s, STREAM_INF);
    TrimKeepsPrefix(s, STREAM_INF);
    AtStartIsPrefix(s, MARKER);
  }

  lemma StreamAttributesLack(l: Line)
    requires OneLine(l) && l.StreamInf? && Lacks(Decimal(l.bandwidth), '\n') && Lacks(Decimal(l.average), '\n')
    ensures Lacks(StreamAttributes(l), '\n')
  {
    StreamFieldsAre(l);
    forall f | f in StreamFields(l) ensures Lacks(f.key, '\n') && Lacks(f.value, '\n') {
      StreamHasLacks(l, f.key, f.value);
    }
    FieldsLack(StreamFields(l));
  }

  lemma StreamHasLacks(l: Line, key: string, value: string)
    requires OneLine(l) && l.StreamInf? && Lacks(Decimal(l.bandwidth), '\n') && Lacks(Decimal(l.average), '\n')
    requires StreamHas(l, key, value)
    ensures Lacks(key, '\n') && Lacks(value, '\n')
  {
    StreamKeysLack('\n');
    GroupsLack();
    QuotedLacks(l.codecs);
    QuotedLacks(l.name);
    QuotedLacks("audio");
    QuotedLacks("subs");
  }

  lemma QuotedLacks(s: string)
    requires Lacks(s, '\n')
    ensures Lacks(Quoted(s), '\n')
  {
  }

  lemma GroupsLack()
    ensures Lacks("audio", '\n') && Lacks("subs", '\n') && Lacks("NONE", '\n')
  {
  }

  lemma FieldsLack(fields: seq<Field>)
    requires forall f | f in fields :: Lacks(f.key, '\n') && Lacks(f.value, '\n')
    ensures Lacks(ListText(fields), '\n')
  {
    forall i | 0 <= i < |fields| ensures Lacks(FieldTexts(fields)[i], '\n') {
      assert fields[i] in fields;
    }
    JoinLacks(FieldTexts(fields), ',', '\n');
  }

  lemma UriText(v: Variant, codec: string)
    requires OneLine(Uri(v)) && Lacks(codec, '/')
    ensures Lacks(VariantUri(v), '\n') && TrimSpace(VariantUri(v)) == VariantUri(v)
    ensures KindOf(VariantUri(v), codec) == if v.codec.name == codec then Passes else Blocks
  {
    var s := VariantUri(v);
    var name := v.codec.name;
    assert s == name + "/" + (v.quality.name + "/index.m3u8");
    assert s[0] == name[0] && s[|s| - 1] == '8';
    TrimNothing(s);
    assert s[0] != '#' && STREAM_INF[0] == '#';
    FirstSegment(name, v.quality.name + "/index.m3u8", codec);
  }

  // A slash-free text is the first path segment or it is not.
  lemma FirstSegment(name: string, rest: string, codec: string)
    requires Lacks(name, '/') && Lacks(codec, '/')
    ensures HasPrefix(name + "/" + rest, codec + "/") <==> name == codec
  {
    var s := name + "/" + rest;
    CharIndex(name, '/', rest);
    assert s == name + ['/'] + rest && s[..|name|] == name;
    if HasPrefix(s, codec + "/") {
      var after := s[|codec| + 1..];
      assert s == codec + ['/'] + after && s[..|codec|] == codec;
      CharIndex(codec, '/', after);
    }
  }

  // ---- Filtering by codec agrees with printing ---------------------------------------------

  lemma TextIsOneLine(l: Line)
    requires OneLine(l)
    ensures Lacks(Text(l), '\n')
  {
    if l.StreamInf? {
      StreamText(l, "");
    } else if l.Uri? {
      UriText(l.variant, "");
    } else if IsTag(l) {
      TagIsOneLine(l);
    }
  }

  lemma TextsAreLines(lines: seq<Line>)
    requires OneLines(lines)
    ensures forall i | 0 <= i < |lines| :: Lacks(Texts(lines)[i], '\n')
  {
    forall i | 0 <= i < |lines| ensures Lacks(Texts(lines)[i], '\n') {
      TextIsOneLine(lines[i]);
    }
  }

  lemma SplitPrinted(lines: seq<Line>)
    requires OneLines(lines)
    ensures Split(Print(lines), '\n') == Texts(lines) + [""]
    ensures Join(Texts(lines) + [""], '\n') == Print(lines)
  {
    TextsAreLines(lines);
    SplitUnlines(Texts(lines));
    UnlinesIsJoin(Texts(lines));
  }

  // The variant lines the codec filter keeps: the blank line behind a dropped
  // variant stays.
  function KeptLines(p: Params, vs: seq<Variant>, codec: string): seq<Line> {
    if vs == [] then []
    else
      (if vs[0].codec.name == codec then [StreamLine(p, vs[0]), Uri(vs[0]), BLANK] else [BLANK])
      + KeptLines(p, vs[1..], codec)
  }

  function Select(vs: seq<Variant>, codec: string): seq<Variant> {
    if vs == [] then []
    else (if vs[0].codec.name == codec then [vs[0]] else []) + Select(vs[1..], codec)
  }

  function NonBlank(lines: seq<string>): seq<string> {
    if lines == [] then []
    else (if lines[0] == "" then [] else [lines[0]]) + NonBlank(lines[1..])
  }

  lemma {:induction false} NonBlankAppend(a: seq<string>, b: seq<string>)
    ensures NonBlank(a + b) == NonBlank(a) + NonBlank(b)
  {
    if a == [] {
      assert a + b == b;
    } else {
      assert (a + b)[1..] == a[1..] + b;
      NonBlankAppend(a[1..], b);
    }
  }

  // Some line held back is lost: behind it comes another one, a URL of another
  // codec or the end. `pending` tells whether one is held back at the start.
  predicate Swallows(lines: seq<string>, kind: string -> Kind, pending: bool) {
    if lines == [] then pending
    else
      match kind(lines[0])
      case Inf => pending || Swallows(lines[1..], kind, true)
      case Passes => Swallows(lines[1..], kind, false)
      case Blocks => pending || Swallows(lines[1..], kind, false)
  }

  function Held(pending: string): seq<string> { if pending == "" then [] else [pending] }

  lemma {:induction false} NothingLost(lines: seq<string>, kind: string -> Kind, pending: string)
    requires kind("") == Passes && !Swallows(lines, kind, pending != "")
    ensures KeepCodec(lines, kind, pending) == Held(pending) + lines
  {
    if lines != [] {
      assert lines == [lines[0]] + lines[1..];
      NothingLost(lines[1..], kind, if kind(lines[0]) == Inf then lines[0] else "");
    }
  }

  // The filter keeps all lines or makes them fewer.
  lemma {:induction false} SomethingLost(lines: seq<string>, kind: string -> Kind, pending: string)
    requires kind("") == Passes
    ensures var (kept, all) := (|NonBlank(KeepCodec(lines, kind, pending))|, |NonBlank(lines)| + |Held(pending)|);
            kept <= all && (Swallows(lines, kind, pending != "") ==> kept < all)
  {
    if lines != [] {
      var next := if kind(lines[0]) == Inf then lines[0] else "";
      var rest := KeepCodec(lines[1..], kind, next);
      SomethingLost(lines[1..], kind, next);
      if kind(lines[0]) != Inf {
        var first := if kind(lines[0]) == Passes then Held(pending) + [lines[0]]
                     else if pending == "" then [lines[0]] else [];
        NonBlankAppend(first, rest);
        NonBlankOfTwo(pending, lines[0]);
      }
    }
  }

  lemma NonBlankOfTwo(pending: string, line: string)
    ensures NonBlank([line]) == Held(line) && NonBlank(Held(pending) + [line]) == Held(pending) + Held(line)
  {
    NonBlankAppend(Held(pending), [line]);
    assert [line][1..] == [] && [pending][1..] == [];
  }

  lemma {:induction false} NoInfNothingSwallowed(lines: seq<string>, kind: string -> Kind)
    requires forall i | 0 <= i < |lines| :: kind(lines[i]) != Inf
    ensures !Swallows(lines, kind, false)
  {
    if lines != [] {
      NoInfNothingSwallowed(lines[1..], kind);
    }
  }

  // Nothing is held back across a line that is not a STREAM-INF line.
  lemma {:induction false} KeepHead(head: seq<string>, rest: seq<string>, kind: string -> Kind, pending: string)
    requires head != [] && kind(head[|head| - 1]) != Inf
    ensures KeepCodec(head + rest, kind, pending) == KeepCodec(head, kind, pending) + KeepCodec(rest, kind, "")
  {
    assert (head + rest)[1..] == head[1..] + rest;
    if |head| == 1 {
      assert head[1..] + rest == rest;
    } else {
      KeepHead(head[1..], rest, kind, if kind(head[0]) == Inf then head[0] else "");
    }
  }

  // A variant's three lines pass or are dropped together, but for the blank one.
  lemma KeepTriple(inf: string, uri: string, rest: seq<string>, kind: string -> Kind)
    requires kind(inf) == Inf && inf != "" && kind(uri) != Inf && kind("") == Passes
    ensures KeepCodec([inf, uri, ""] + rest, kind, "")
            == (if kind(uri) == Passes then [inf, uri, ""] else [""]) + KeepCodec(rest, kind, "")
  {
    var lines := [inf, uri, ""] + rest;
    assert lines[1..] == [uri, ""] + rest;
    assert ([uri, ""] + rest)[1..] == [""] + rest;
    assert ([""] + rest)[1..] == rest;
    assert KeepCodec(lines, kind, "") == KeepCodec([uri, ""] + rest, kind, inf);
    assert KeepCodec([uri, ""] + rest, kind, inf)
        == (if kind(uri) == Passes then [inf, uri] else []) + KeepCodec([""] + rest, kind, "");
    assert KeepCodec([""] + rest, kind, "") == [""] + KeepCodec(rest, kind, "");
  }

  lemma TextsAppend(a: seq<Line>, b: seq<Line>)
    ensures Texts(a + b) == Texts(a) + Texts(b)
  {
  }

  lemma KeepTripleLines(inf: Line, uri: Line, rest: seq<Line>, kind: string -> Kind)
    requires kind(Text(inf)) == Inf && Text(inf) != "" && kind(Text(uri)) != Inf && kind("") == Passes
    ensures KeepCodec(Texts([inf, uri, BLANK] + rest) + [""], kind, "")
            == Texts(if kind(Text(uri)) == Passes then [inf, uri, BLANK] else [BLANK])
               + KeepCodec(Texts(rest) + [""], kind, "")
  {
    TextsAppend([inf, uri, BLANK], rest);
    KeepTriple(Text(inf), Text(uri), Texts(rest) + [""], kind);
    assert Texts([inf, uri, BLANK]) == [Text(inf), Text(uri), ""] && Texts([BLANK]) == [""];
    assert Texts([inf, uri, BLANK] + rest) + [""] == [Text(inf), Text(uri), ""] + (Texts(rest) + [""]);
  }

  lemma {:induction false} KeepVariants(p: Params, vs: seq<Variant>, codec: string, kind: string -> Kind)
    requires CleanVariants(p, vs) && Lacks(codec, '/')
    requires forall s :: kind(s) == KindOf(s, codec)
    ensures KeepCodec(Texts(VariantLines(p, vs)) + [""], kind, "") == Texts(KeptLines(p, vs, codec)) + [""]
  {
    BlankPasses(codec);
    assert kind("") == Passes;
    if vs == [] {
      assert Texts(VariantLines(p, vs)) + [""] == [""] && [""][1..] == [];
    } else {
      KeepVariants(p, vs[1..], codec, kind);
      VariantKinds(p, vs[0], codec);
      KeepTripleLines(StreamLine(p, vs[0]), Uri(vs[0]), VariantLines(p, vs[1..]), kind);
      TextsPrepend(if vs[0].codec.name == codec then [StreamLine(p, vs[0]), Uri(vs[0]), BLANK] else [BLANK],
                   KeptLines(p, vs[1..], codec));
    }
  }

  lemma TextsPrepend(a: seq<Line>, b: seq<Line>)
    ensures Texts(a + b) + [""] == Texts(a) + (Texts(b) + [""])
  {
  }

  lemma BlankPasses(codec: string)
    ensures KindOf("", codec) == Passes
  {
    assert TrimSpace("") == "";
  }

  lemma VariantKinds(p: Params, v: Variant, codec: string)
    requires CleanVariant(p, v) && Lacks(p.frameRate, '\n') && Lacks(codec, '/')
    ensures KindOf(Text(StreamLine(p, v)), codec) == Inf && Text(StreamLine(p, v)) != ""
    ensures KindOf(Text(Uri(v)), codec) == if v.codec.name == codec then Passes else Blocks
  {
    StreamLineIsClean(p, v);
    StreamText(StreamLine(p, v), codec);
    UriText(v, codec);
  }
}
