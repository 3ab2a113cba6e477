// Filtering a printed master playlist by codec agrees with printing the variants
// of that codec - and exactly when, for all titles and languages.
module FilterAgreement {
  import opened Strings
  import opened Ladder
  import opened MasterPlaylist
  import opened PrintedLines
  import opened ManifestFilter

  // ---- The kept variants ----------------------------------------------------------------

  lemma {:induction false} KeptAreClean(p: Params, vs: seq<Variant>, codec: string)
    requires CleanVariants(p, vs)
    ensures CleanLines(KeptLines(p, vs, codec)) && OneLines(KeptLines(p, vs, codec))
  {
    PreambleIsPlain();
    if vs != [] {
      KeptAreClean(p, vs[1..], codec);
      StreamLineIsClean(p, vs[0]);
    }
  }

  lemma {:induction false} SelectedAreClean(p: Params, vs: seq<Variant>, codec: string)
    requires CleanVariants(p, vs)
    ensures CleanVariants(p, Select(vs, codec))
    ensures forall v :: v in Select(vs, codec) <==> v in vs && v.codec.name == codec
  {
    if vs != [] {
      SelectedAreClean(p, vs[1..], codec);
      assert vs == [vs[0]] + vs[1..];
    }
  }

  lemma {:induction false} KeptUpToBlanks(p: Params, vs: seq<Variant>, codec: string)
    ensures NonBlank(Texts(KeptLines(p, vs, codec))) == NonBlank(Texts(VariantLines(p, Select(vs, codec))))
  {
    if vs != [] {
      var v, rest := vs[0], vs[1..];
      KeptUpToBlanks(p, rest, codec);
      if v.codec.name == codec {
        var lines := [StreamLine(p, v), Uri(v), BLANK];
        assert Select(vs, codec)[1..] == Select(rest, codec);
        TextsAppend(lines, KeptLines(p, rest, codec));
        TextsAppend(lines, VariantLines(p, Select(rest, codec)));
        NonBlankAppend(Texts(lines), Texts(KeptLines(p, rest, codec)));
        NonBlankAppend(Texts(lines), Texts(VariantLines(p, Select(rest, codec))));
      } else {
        assert Select(vs, codec) == Select(rest, codec);
        TextsAppend([BLANK], KeptLines(p, rest, codec));
        NonBlankAppend(Texts([BLANK]), Texts(KeptLines(p, rest, codec)));
        assert Texts([BLANK]) == [""] && NonBlank([""]) == [];
      }
    }
  }

  lemma VariantsAreNotBlank(p: Params, vs: seq<Variant>)
    requires CleanVariants(p, vs) && vs != []
    ensures NonBlank(Texts(VariantLines(p, vs))) != []
  {
    StreamLineIsClean(p, vs[0]);
    StreamText(StreamLine(p, vs[0]), "");
    FirstIsNotBlank(VariantLines(p, vs));
  }

  lemma FirstIsNotBlank(lines: seq<Line>)
    requires lines != [] && Text(lines[0]) != ""
    ensures NonBlank(Texts(lines)) != []
  {
    assert Texts(lines)[0] == Text(lines[0]);
  }

  ghost predicate MarkedText(lines: seq<string>) { exists i | 0 <= i < |lines| :: Contains(lines[i], MARKER) }

  lemma MarkedAppend(a: seq<string>, b: seq<string>)
    ensures MarkedText(a + b) <==> MarkedText(a) || MarkedText(b)
  {
    if i :| 0 <= i < |a| && Contains(a[i], MARKER) {
      assert (a + b)[i] == a[i];
    }
    if i :| 0 <= i < |b| && Contains(b[i], MARKER) {
      assert (a + b)[|a| + i] == b[i];
    }
  }

  lemma {:induction false} KeptMarked(p: Params, vs: seq<Variant>, codec: string)
    requires CleanVariants(p, vs)
    ensures MarkedText(Texts(KeptLines(p, vs, codec))) <==> Select(vs, codec) != []
  {
    if vs != [] {
      var rest := KeptLines(p, vs[1..], codec);
      KeptMarked(p, vs[1..], codec);
      if vs[0].codec.name == codec {
        StreamLineIsClean(p, vs[0]);
        StreamText(StreamLine(p, vs[0]), codec);
        assert Contains(Texts(KeptLines(p, vs, codec))[0], MARKER);
      } else {
        TextsAppend([BLANK], rest);
        MarkedAppend([""], Texts(rest));
        NoFirstChar("", MARKER);
        assert Texts([BLANK]) == [""];
      }
    }
  }

  // ---- What the filter makes of any head followed by printed variants -------------------------

  // Lines that end with one that holds nothing back.
  ghost predicate TextHead(head: seq<string>, codec: string) {
    head != [] && (forall i | 0 <= i < |head| :: Lacks(head[i], '\n')) && KindOf(head[|head| - 1], codec) != Inf
  }

  function KeptHead(head: seq<string>, codec: string): seq<string> { KeepCodec(head, CodecKind(codec), "") }

  lemma {:induction false} KeptFrom(lines: seq<string>, kind: string -> Kind, pending: string)
    ensures forall l | l in KeepCodec(lines, kind, pending) :: l in lines || l == pending || l == ""
  {
    if lines != [] {
      var next := if kind(lines[0]) == Inf then lines[0] else "";
      KeptFrom(lines[1..], kind, next);
      forall l | l in KeepCodec(lines, kind, pending) ensures l in lines || l == pending || l == "" {
        assert l in KeepCodec(lines[1..], kind, next) || l == pending || l == lines[0];
      }
    }
  }

  lemma KeptHeadIsLines(head: seq<string>, codec: string)
    requires forall i | 0 <= i < |head| :: Lacks(head[i], '\n')
    ensures forall i | 0 <= i < |KeptHead(head, codec)| :: Lacks(KeptHead(head, codec)[i], '\n')
  {
    KeptFrom(head, CodecKind(codec), "");
    forall i | 0 <= i < |KeptHead(head, codec)| ensures Lacks(KeptHead(head, codec)[i], '\n') {
      assert KeptHead(head, codec)[i] in KeptHead(head, codec);
    }
  }

  lemma AppendLines(a: seq<string>, b: seq<string>)
    requires forall i | 0 <= i < |a| :: Lacks(a[i], '\n')
    requires forall i | 0 <= i < |b| :: Lacks(b[i], '\n')
    ensures forall i | 0 <= i < |a + b| :: Lacks((a + b)[i], '\n')
    ensures Split(Unlines(a + b), '\n') == a + b + [""] && Join(a + b + [""], '\n') == Unlines(a + b)
  {
    SplitUnlines(a + b);
    UnlinesIsJoin(a + b);
  }

  lemma CodecKeeps(p: Params, head: seq<string>, vs: seq<Variant>, codec: string)
    requires TextHead(head, codec) && CleanVariants(p, vs) && Lacks(codec, '/')
    ensures KeepCodec(Split(Unlines(head + Texts(VariantLines(p, vs))), '\n'), CodecKind(codec), "")
            == KeptHead(head, codec) + Texts(KeptLines(p, vs, codec)) + [""]
  {
    var variants := Texts(VariantLines(p, vs));
    VariantLinesAreClean(p, vs);
    TextsAreLines(VariantLines(p, vs));
    AppendLines(head, variants);
    assert head + variants + [""] == head + (variants + [""]);
    KeepHead(head, variants + [""], CodecKind(codec), "");
    KeepVariants(p, vs, codec, CodecKind(codec));
    Regrouped(KeptHead(head, codec), Texts(KeptLines(p, vs, codec)));
  }

  lemma Regrouped(a: seq<string>, b: seq<string>)
    ensures a + (b + [""]) == a + b + [""]
  {
  }

  lemma JoinMarked(lines: seq<string>)
    ensures Contains(Join(lines + [""], '\n'), MARKER) <==> MarkedText(lines)
  {
    MarkersAreSearched();
    ContainsJoin(lines + [""], '\n', MARKER);
    MarkedAppend(lines, [""]);
    NoFirstChar("", MARKER);
  }

  // The text that the filter leaves: without a marker it falls back to everything.
  function LeftText(p: Params, head: seq<string>, vs: seq<Variant>, codec: string, marked: bool): seq<string> {
    if marked then KeptHead(head, codec) + Texts(KeptLines(p, vs, codec)) else head + Texts(VariantLines(p, vs))
  }

  lemma CodecOnText(p: Params, head: seq<string>, vs: seq<Variant>, codec: string)
    requires TextHead(head, codec) && CleanVariants(p, vs) && Lacks(codec, '/')
    ensures CodecFiltered(Unlines(head + Texts(VariantLines(p, vs))), codec)
            == Unlines(LeftText(p, head, vs, codec, Select(vs, codec) != [] || MarkedText(KeptHead(head, codec))))
  {
    var kept := KeptHead(head, codec) + Texts(KeptLines(p, vs, codec));
    CodecKeeps(p, head, vs, codec);
    UnlinesIsJoin(kept);
    JoinMarked(kept);
    MarkedAppend(KeptHead(head, codec), Texts(KeptLines(p, vs, codec)));
    KeptMarked(p, vs, codec);
  }

  // ---- The head of a printed playlist ----------------------------------------------------

  function Head(p: Params): seq<Line> { HeadLines(p, AudioLines(p.audio), SubtitleLines(p.subtitles)) }

  // The lines of its text, whatever line breaks the titles contain.
  function HeadText(p: Params): seq<string> { AllLines(Texts(Head(p))) }

  lemma HeadEndsBlank(p: Params)
    ensures Head(p) != [] && Head(p)[|Head(p)| - 1] == BLANK
  {
  }

  lemma HeadTextIsHead(p: Params, codec: string)
    ensures TextHead(HeadText(p), codec)
  {
    var texts := Texts(Head(p));
    HeadEndsBlank(p);
    BlankPasses(codec);
    assert texts == texts[..|texts| - 1] + [""];
    AllLinesAppend(texts[..|texts| - 1], [""]);
    AllLinesOfLines([""]);
  }

  lemma UnlinesTexts(head: seq<Line>, tail: seq<Line>)
    ensures Print(head + tail) == Unlines(AllLines(Texts(head)) + Texts(tail))
  {
    TextsAppend(head, tail);
    UnlinesAppend(Texts(head), Texts(tail));
    UnlinesAllLines(Texts(head));
    UnlinesAppend(AllLines(Texts(head)), Texts(tail));
  }

  lemma MasterText(p: Params, vs: seq<Variant>)
    ensures Print(MasterLines(p.(variants := vs))) == Unlines(HeadText(p) + Texts(VariantLines(p, vs)))
  {
    SameVariantLines(p, p.(variants := vs), vs);
    UnlinesTexts(Head(p), VariantLines(p, vs));
  }

  lemma {:induction false} SameVariantLines(p: Params, q: Params, vs: seq<Variant>)
    requires q == p.(variants := q.variants)
    ensures VariantLines(q, vs) == VariantLines(p, vs)
  {
    if vs != [] {
      SameVariantLines(p, q, vs[1..]);
      assert StreamLine(q, vs[0]) == StreamLine(p, vs[0]);
    }
  }

  // ---- Agreement ---------------------------------------------------------------------------

  ghost predicate SameLines(a: string, b: string) {
    NonBlank(Split(a, '\n')) == NonBlank(Split(b, '\n'))
  }

  // For a codec that some variant has, the filter yields, up to blank lines, the
  // playlist printed from the variants of that codec; otherwise nothing changes.
  ghost predicate CodecAgrees(p: Params, codec: string) {
    var text := Print(MasterLines(p));
    if exists v | v in p.variants :: v.codec.name == codec then
      SameLines(CodecFiltered(text, codec), Print(MasterLines(p.(variants := Select(p.variants, codec)))))
    else CodecFiltered(text, codec) == text
  }

  lemma SelectedExists(p: Params, codec: string)
    requires CleanVariants(p, p.variants)
    ensures Select(p.variants, codec) != [] <==> exists v | v in p.variants :: v.codec.name == codec
  {
    SelectedAreClean(p, p.variants, codec);
    if Select(p.variants, codec) != [] {
      assert Select(p.variants, codec)[0] in Select(p.variants, codec);
    }
  }

  lemma SameUpToBlanks(a: seq<string>, b: seq<string>)
    requires forall i | 0 <= i < |a| :: Lacks(a[i], '\n')
    requires forall i | 0 <= i < |b| :: Lacks(b[i], '\n')
    ensures SameLines(Unlines(a), Unlines(b)) <==> NonBlank(a) == NonBlank(b)
  {
    SplitUnlines(a);
    SplitUnlines(b);
    BlankEnd(a);
    BlankEnd(b);
  }

  lemma BlankEnd(a: seq<string>)
    ensures NonBlank(a + [""]) == NonBlank(a)
  {
    NonBlankAppend(a, [""]);
    assert [""][1..] == [];
  }

  // The head survives exactly if nothing in it is swallowed.
  lemma KeptHeadAgrees(head: seq<string>, codec: string)
    ensures !Swallows(head, CodecKind(codec), false) ==> KeptHead(head, codec) == head
    ensures |NonBlank(KeptHead(head, codec))| <= |NonBlank(head)|
    ensures Swallows(head, CodecKind(codec), false) ==> |NonBlank(KeptHead(head, codec))| < |NonBlank(head)|
  {
    BlankPasses(codec);
    SomethingLost(head, CodecKind(codec), "");
    if !Swallows(head, CodecKind(codec), false) {
      NothingLost(head, CodecKind(codec), "");
    }
  }

  lemma MatchedAgrees(p: Params, head: seq<string>, vs: seq<Variant>, codec: string)
    requires TextHead(head, codec) && CleanVariants(p, vs) && CleanVariants(p, Select(vs, codec))
    ensures SameLines(Unlines(KeptHead(head, codec) + Texts(KeptLines(p, vs, codec))),
                      Unlines(head + Texts(VariantLines(p, Select(vs, codec)))))
            <==> !Swallows(head, CodecKind(codec), false)
  {
    var kept, lines, printed := KeptHead(head, codec), KeptLines(p, vs, codec), VariantLines(p, Select(vs, codec));
    KeptHeadIsLines(head, codec);
    KeptAreClean(p, vs, codec);
    VariantLinesAreClean(p, Select(vs, codec));
    TextsAreLines(lines);
    TextsAreLines(printed);
    AppendLines(kept, Texts(lines));
    AppendLines(head, Texts(printed));
    SameUpToBlanks(kept + Texts(lines), head + Texts(printed));
    NonBlankAppend(kept, Texts(lines));
    NonBlankAppend(head, Texts(printed));
    KeptUpToBlanks(p, vs, codec);
    KeptHeadAgrees(head, codec);
  }

  lemma {:induction false} KeptWithoutMatch(p: Params, vs: seq<Variant>, codec: string)
    requires Select(vs, codec) == []
    ensures NonBlank(Texts(KeptLines(p, vs, codec))) == [] && (vs == [] ==> KeptLines(p, vs, codec) == [])
  {
    KeptUpToBlanks(p, vs, codec);
  }

  lemma UnmatchedAgrees(p: Params, head: seq<string>, vs: seq<Variant>, codec: string)
    requires TextHead(head, codec) && CleanVariants(p, vs) && Select(vs, codec) == []
    ensures Unlines(KeptHead(head, codec) + Texts(KeptLines(p, vs, codec))) == Unlines(head + Texts(VariantLines(p, vs)))
            <==> vs == [] && !Swallows(head, CodecKind(codec), false)
  {
    var kept, lines, printed := KeptHead(head, codec), KeptLines(p, vs, codec), VariantLines(p, vs);
    KeptHeadIsLines(head, codec);
    KeptAreClean(p, vs, codec);
    VariantLinesAreClean(p, vs);
    TextsAreLines(lines);
    TextsAreLines(printed);
    AppendLines(kept, Texts(lines));
    AppendLines(head, Texts(printed));
    UnlinesInjective(kept + Texts(lines), head + Texts(printed));
    NonBlankAppend(kept, Texts(lines));
    NonBlankAppend(head, Texts(printed));
    KeptWithoutMatch(p, vs, codec);
    KeptHeadAgrees(head, codec);
    if vs != [] {
      VariantsAreNotBlank(p, vs);
    }
  }

  // For every title and language: with a matching variant the filter agrees with
  // printing exactly if no line of the head is swallowed; without one, exactly if
  // no marker is left to prevent the fallback or there is nothing to drop.
  lemma CodecFilterAgreesExactly(p: Params, codec: string)
    requires CleanVariants(p, p.variants) && Lacks(codec, '/')
    ensures var swallows := Swallows(HeadText(p), CodecKind(codec), false);
            CodecAgrees(p, codec)
            <==> if exists v | v in p.variants :: v.codec.name == codec then !swallows
                 else !MarkedText(KeptHead(HeadText(p), codec)) || (p.variants == [] && !swallows)
  {
    var vs := p.variants;
    assert p.(variants := vs) == p;
    HeadTextIsHead(p, codec);
    MasterText(p, vs);
    MasterText(p, Select(vs, codec));
    SelectedExists(p, codec);
    SelectedAreClean(p, vs, codec);
    CodecOnText(p, HeadText(p), vs, codec);
    if Select(vs, codec) != [] {
      MatchedAgrees(p, HeadText(p), vs, codec);
    } else {
      UnmatchedAgrees(p, HeadText(p), vs, codec);
    }
  }

  // ---- Titles without line breaks -----------------------------------------------------------

  lemma HeadTextWithoutBreaks(p: Params, codec: string)
    requires TracksLack(p.audio, '\n') && TracksLack(p.subtitles, '\n')
    ensures HeadText(p) == Texts(Head(p)) == KeptHead(HeadText(p), codec)
    ensures !Swallows(HeadText(p), CodecKind(codec), false)
  {
    HeadIsOneLine(p);
    TextsAreLines(Head(p));
    AllLinesOfLines(Texts(Head(p)));
    RenditionsAreHead(p);
    forall i | 0 <= i < |Head(p)| ensures CodecKind(codec)(Texts(Head(p))[i]) != Inf {
      HeadLineKind(Head(p)[i], codec);
    }
    NoInfNothingSwallowed(Texts(Head(p)), CodecKind(codec));
    KeptHeadAgrees(HeadText(p), codec);
  }

  lemma TextsMarked(lines: seq<Line>)
    requires HeadOnly(lines)
    ensures MarkedText(Texts(lines)) <==> exists i | 0 <= i < |lines| :: Marked(lines[i])
  {
    forall i | 0 <= i < |lines| ensures Contains(Texts(lines)[i], MARKER) <==> Marked(lines[i]) {
      HeadLineMarked(lines[i]);
    }
  }

  lemma RenditionsMarked(p: Params)
    ensures forall i | 0 <= i < |p.audio| :: Marked(AudioLines(p.audio)[i]) <==> TrackContains(p.audio[i], MARKER)
    ensures forall i | 0 <= i < |p.subtitles| ::
              Marked(SubtitleLines(p.subtitles)[i]) <==> TrackContains(p.subtitles[i], MARKER)
  {
    MarkersAreSearched();
    forall i | 0 <= i < |p.audio|
      ensures Marked(AudioLines(p.audio)[i]) <==> TrackContains(p.audio[i], MARKER)
    {
      PrintedNameContains(p.audio, i, MARKER);
    }
    forall i | 0 <= i < |p.subtitles|
      ensures Marked(SubtitleLines(p.subtitles)[i]) <==> TrackContains(p.subtitles[i], MARKER)
    {
      PrintedNameContains(p.subtitles, i, MARKER);
    }
  }

  ghost predicate TitlesMarked(p: Params) { TracksContain(p.audio, MARKER) || TracksContain(p.subtitles, MARKER) }

  // The head contains the marker exactly if a title or language does.
  lemma HeadMarked(p: Params)
    ensures MarkedText(Texts(Head(p))) <==> TitlesMarked(p)
  {
    RenditionsAreHead(p);
    TextsMarked(Head(p));
    RenditionsMarked(p);
    if i :| 0 <= i < |Head(p)| && Marked(Head(p)[i]) {
      HeadMembers(p, AudioLines(p.audio), SubtitleLines(p.subtitles));
      PreambleIsUnmarked();
      assert Head(p)[i] in AudioLines(p.audio) || Head(p)[i] in SubtitleLines(p.subtitles);
    }
    if i :| 0 <= i < |p.audio| && TrackContains(p.audio[i], MARKER) {
      var l := AudioLines(p.audio)[i];
      assert l in Head(p);
    }
    if i :| 0 <= i < |p.subtitles| && TrackContains(p.subtitles[i], MARKER) {
      var l := SubtitleLines(p.subtitles)[i];
      assert l in Head(p);
    }
  }

  lemma PreambleIsUnmarked()
    ensures forall l | l in PREAMBLE :: !Marked(l)
  {
  }

  // Without line breaks in titles and languages the filter agrees with printing
  // unless no variant matches and a title or language contains the marker.
  lemma CodecFilterAgreesWithPrinting(p: Params, codec: string)
    requires LineParams(p) && Lacks(codec, '/')
    ensures CodecAgrees(p, codec)
            <==> (exists v | v in p.variants :: v.codec.name == codec) || p.variants == [] || !TitlesMarked(p)
  {
    CodecFilterAgreesExactly(p, codec);
    HeadTextWithoutBreaks(p, codec);
    HeadMarked(p);
  }

  // The lines left of a printed playlist without line breaks in its titles.
  ghost function TailFor(p: Params, codec: string): seq<Line> {
    if Select(p.variants, codec) != [] || TitlesMarked(p) then KeptLines(p, p.variants, codec)
    else VariantLines(p, p.variants)
  }

  lemma CodecOnPrinted(p: Params, codec: string)
    requires LineParams(p) && Lacks(codec, '/')
    ensures CodecFiltered(Print(MasterLines(p)), codec) == Print(Head(p) + TailFor(p, codec))
  {
    assert p.(variants := p.variants) == p;
    HeadTextIsHead(p, codec);
    HeadTextWithoutBreaks(p, codec);
    HeadMarked(p);
    MasterText(p, p.variants);
    CodecOnText(p, HeadText(p), p.variants, codec);
    TextsAppend(Head(p), TailFor(p, codec));
  }

  // ---- A title with line breaks ----------------------------------------------------------------

  lemma {:induction false} SwallowsAt(lines: seq<string>, kind: string -> Kind, pending: bool, i: nat)
    requires i + 1 < |lines| && kind(lines[i]) == Inf && kind(lines[i + 1]) == Blocks
    ensures Swallows(lines, kind, pending)
  {
    if i > 0 {
      SwallowsAt(lines[1..], kind, kind(lines[0]) == Inf, i - 1);
    } else {
      assert lines[1..][0] == lines[1];
    }
  }

  const MISLEADING := "\n" + STREAM_INF + "\n/"

  lemma SlashBlocks(s: string, codec: string)
    requires s != "" && s[0] == '/' && codec != "" && Lacks(codec, '/')
    ensures KindOf(s, codec) == Blocks
  {
    NotInf(s, codec);
    TrimKeepsPrefix(s, "/");
    assert (codec + "/")[0] == codec[0];
  }

  lemma InfIsInf(codec: string)
    ensures KindOf(STREAM_INF, codec) == Inf && Lacks(STREAM_INF, '\n')
  {
    TrimNothing(STREAM_INF);
  }

  lemma FirstOfSplit(s: string, sep: char)
    requires s != "" && s[0] != sep
    ensures Split(s, sep)[0] != "" && Split(s, sep)[0][0] == s[0]
  {
  }

  // A line with that text inside falls into a STREAM-INF line and a URL.
  lemma MisleadingText(before: string, after: string, codec: string) returns (i: nat)
    requires codec != "" && Lacks(codec, '/')
    ensures var lines := Split(before + MISLEADING + after, '\n');
            i + 1 < |lines| && KindOf(lines[i], codec) == Inf && KindOf(lines[i + 1], codec) == Blocks
  {
    var url := "/" + after;
    InfIsInf(codec);
    Misleading(before, after);
    SplitAcross(STREAM_INF, '\n', url);
    SplitBoth(before, '\n', STREAM_INF + ['\n'] + url);
    FirstOfSplit(url, '\n');
    SlashBlocks(Split(url, '\n')[0], codec);
    i := |Split(before, '\n')|;
  }

  lemma Misleading(before: string, after: string)
    ensures before + MISLEADING + after == before + ['\n'] + (STREAM_INF + ['\n'] + ("/" + after))
  {
    assert MISLEADING == ['\n'] + STREAM_INF + ['\n'] + "/";
  }

  lemma TagAround(l: Line, title: string, rest: string) returns (before: string, after: string)
    requires l.AudioMedia? && l.name == title + rest
    ensures Text(l) == before + title + after
  {
    var attrs := Attrs(l);
    var end := TagText(attrs[3..]);
    before := attrs[0].key + "\"" + (attrs[0].value + "\"" + (attrs[1].key + "\"" + (attrs[1].value + "\"" + (attrs[2].key + "\""))));
    after := rest + ("\"" + end);
    TagTextOfFour(attrs);
    assert attrs[2].value == title + rest;
    Around(attrs[0].key, attrs[0].value, attrs[1].key, attrs[1].value, attrs[2].key, title, rest, end);
  }

  lemma TagTextOfFour(attrs: seq<Attr>)
    requires |attrs| == 4
    ensures TagText(attrs)
            == attrs[0].key + "\"" + (attrs[0].value + "\"" + (attrs[1].key + "\"" + (attrs[1].value + "\""
               + (attrs[2].key + "\"" + (attrs[2].value + "\"" + TagText(attrs[3..]))))))
  {
    TagTextFrom(attrs, 0);
    TagTextFrom(attrs, 1);
    TagTextFrom(attrs, 2);
  }

  lemma TagTextFrom(attrs: seq<Attr>, k: nat)
    requires k < |attrs|
    ensures TagText(attrs[k..]) == attrs[k].key + "\"" + (attrs[k].value + "\"" + TagText(attrs[k + 1..]))
    ensures attrs[0..] == attrs
  {
    assert attrs[k..][1..] == attrs[k + 1..];
  }

  lemma Around(a: string, b: string, c: string, d: string, e: string, title: string, rest: string, end: string)
    ensures a + "\"" + (b + "\"" + (c + "\"" + (d + "\"" + (e + "\"" + ((title + rest) + "\"" + end)))))
            == (a + "\"" + (b + "\"" + (c + "\"" + (d + "\"" + (e + "\""))))) + title + (rest + ("\"" + end))
  {
  }

  lemma NameStartsWithTitle(tracks: seq<Track>, i: nat) returns (rest: string)
    requires i < |tracks| && tracks[i].title != ""
    ensures RenditionName(DisplayNames(tracks), i) == tracks[i].title + rest
  {
    var k := Occurrences(DisplayNames(tracks), tracks[i].title, i + 1);
    assert DisplayNames(tracks)[i] == tracks[i].title;
    rest := if k == 1 then "" else " " + Decimal(k);
  }

  lemma PieceOfAll(pieces: seq<string>, k: nat) returns (offset: nat)
    requires k < |pieces|
    ensures offset + |Split(pieces[k], '\n')| <= |AllLines(pieces)|
    ensures forall i | 0 <= i < |Split(pieces[k], '\n')| :: AllLines(pieces)[offset + i] == Split(pieces[k], '\n')[i]
  {
    var before, after := pieces[..k], pieces[k + 1..];
    assert pieces == before + ([pieces[k]] + after);
    AllLinesAppend(before, [pieces[k]] + after);
    assert ([pieces[k]] + after)[1..] == after;
    offset := |AllLines(before)|;
  }

  // Line breaks have to be excluded: with such a title, the filter loses part of
  // the audio group of every playlist that has a variant of the codec.
  lemma LineBreaksMislead(p: Params, codec: string, i: nat)
    requires CleanVariants(p, p.variants) && codec != "" && Lacks(codec, '/')
    requires i < |p.audio| && p.audio[i].title == MISLEADING
    requires exists v | v in p.variants :: v.codec.name == codec
    ensures !CodecAgrees(p, codec)
  {
    var l := AudioLines(p.audio)[i];
    assert l in Head(p);
    var k :| 0 <= k < |Head(p)| && Head(p)[k] == l;
    var before, after := MisleadingLine(p.audio, i);
    var n := MisleadingText(before, after, codec);
    MisleadingPiece(Texts(Head(p)), k, n, codec);
    CodecFilterAgreesExactly(p, codec);
  }

  lemma MisleadingLine(tracks: seq<Track>, i: nat) returns (before: string, after: string)
    requires i < |tracks| && tracks[i].title == MISLEADING
    ensures Text(AudioLines(tracks)[i]) == before + MISLEADING + after
  {
    assert MISLEADING[0] == '\n';
    var rest := NameStartsWithTitle(tracks, i);
    before, after := TagAround(AudioLines(tracks)[i], MISLEADING, rest);
  }

  lemma MisleadingPiece(pieces: seq<string>, k: nat, n: nat, codec: string)
    requires k < |pieces| && n + 1 < |Split(pieces[k], '\n')|
    requires KindOf(Split(pieces[k], '\n')[n], codec) == Inf && KindOf(Split(pieces[k], '\n')[n + 1], codec) == Blocks
    ensures Swallows(AllLines(pieces), CodecKind(codec), false)
  {
    var offset := PieceOfAll(pieces, k);
    assert AllLines(pieces)[offset + n] == Split(pieces[k], '\n')[n];
    assert AllLines(pieces)[offset + (n + 1)] == Split(pieces[k], '\n')[n + 1];
    SwallowsAt(AllLines(pieces), CodecKind(codec), false, offset + n);
  }
}
