// The two filters give the same text in either order - and exactly when.
module FilterOrder {
  import opened Strings
  import opened Ladder
  import opened MasterPlaylist
  import opened PrintedLines
  import opened ManifestFilter
  import opened FilterAgreement
  import opened TrackAgreement

  lemma TracksOnText(lines: seq<string>, audio: string, subs: string)
    requires forall i | 0 <= i < |lines| :: Lacks(lines[i], '\n')
    ensures TracksFiltered(Unlines(lines), audio, subs) == Unlines(FlatMap(lines, TrackKeeper(audio, subs)))
  {
    var keep := TrackKeeper(audio, subs);
    SplitUnlines(lines);
    KeepOther("", audio, subs);
    BlankIsKept(lines, keep);
    UnlinesIsJoin(FlatMap(lines, keep));
  }

  lemma BlankIsKept(lines: seq<string>, keep: string -> seq<string>)
    requires keep("") == [""]
    ensures FlatMap(lines + [""], keep) == FlatMap(lines, keep) + [""]
  {
    FlatMapAppend(lines, [""], keep);
    assert FlatMap([""], keep) == [""] + FlatMap([""][1..], keep);
  }

  lemma NoMediaTexts(lines: seq<Line>, audio: string, subs: string)
    requires OneLines(lines) && NoMedia(lines)
    ensures FlatMap(Texts(lines), TrackKeeper(audio, subs)) == Texts(lines)
  {
    forall i | 0 <= i < |lines| ensures TrackKeeper(audio, subs)(Texts(lines)[i]) == [Texts(lines)[i]] {
      KeepOtherText(lines[i], audio, subs);
    }
    FlatMapIdentity(Texts(lines), TrackKeeper(audio, subs));
  }

  // Where the first DEFAULT=NO of an audio tag can be.
  lemma ForcedStarts(s: string)
    requires HasPrefix(s, AUDIO_TAG)
    ensures ForceDefault(s) != "" && ForceDefault(s)[0] == '#' && !HasPrefix(ForceDefault(s), STREAM_INF)
  {
    assert STREAM_INF[7] == 'S' && AUDIO_TAG[7] == 'M' && AUDIO_TAG[0] == '#' && |AUDIO_TAG| >= 8;
    assert s[7] == 'M' && s[0] == '#';
    ReplaceAt(s, DEFAULT_NO, DEFAULT_YES, Index(s, DEFAULT_NO));
    if Contains(s, DEFAULT_NO) {
      IndexFirst(s, DEFAULT_NO);
      AtFirstChar(s, DEFAULT_NO, Index(s, DEFAULT_NO));
      NoEarlyD(s, Index(s, DEFAULT_NO));
    } else {
      IndexNone(s, DEFAULT_NO);
    }
  }

  lemma NoEarlyD(s: string, i: nat)
    requires HasPrefix(s, AUDIO_TAG) && i < |s| && s[i] == DEFAULT_NO[0]
    ensures 8 <= i
  {
    assert forall k | 0 <= k < 8 :: s[k] == AUDIO_TAG[k] && AUDIO_TAG[k] != DEFAULT_NO[0];
  }

  lemma ForcedLacks(s: string, c: char)
    requires Lacks(s, c) && c == '\n'
    ensures Lacks(ForceDefault(s), c)
  {
    var i := Index(s, DEFAULT_NO);
    ReplaceAt(s, DEFAULT_NO, DEFAULT_YES, i);
    assert Lacks(DEFAULT_YES, c);
  }

  // Forcing the default makes no marker.
  lemma ForcedContains(s: string)
    requires Contains(ForceDefault(s), MARKER)
    ensures Contains(s, MARKER)
  {
    var i := Index(s, DEFAULT_NO);
    ReplaceAt(s, DEFAULT_NO, DEFAULT_YES, i);
    if i >= 0 {
      MarkerAndDefault();
      var t := s[..i] + (DEFAULT_YES + s[i + 10..]);
      assert Cut(s, i, i + 10, DEFAULT_YES) == t;
      MarkerAcross(s[..i], DEFAULT_YES, s[i + 10..]);
      if Contains(s[..i], MARKER) {
        var n :| 0 <= n <= i && At(s[..i], MARKER, n);
        assert At(s, MARKER, n);
      } else {
        var n :| 0 <= n <= |s| - i - 10 && At(s[i + 10..], MARKER, n);
        AtShifted(s, i + 10, MARKER, n);
      }
    }
  }

  lemma MarkerAndDefault()
    ensures |DEFAULT_NO| == 10 && DEFAULT_YES[0] == 'D' && Lacks(MARKER, 'D') && MARKER != ""
    ensures Lacks(DEFAULT_YES, MARKER[0])
  {
  }

  // A marker does not reach into a word that starts with a foreign letter.
  lemma MarkerAcross(before: string, word: string, after: string)
    requires word != "" && Lacks(MARKER, word[0]) && MARKER != "" && Lacks(word, MARKER[0])
    ensures Contains(before + (word + after), MARKER) <==> Contains(before, MARKER) || Contains(after, MARKER)
  {
    var rest := word[1..];
    assert before + (word + after) == before + [word[0]] + (rest + after);
    ContainsAcross(before, word[0], rest + after, MARKER);
    FrontWithoutMarker(rest, after);
  }

  lemma {:induction false} FrontWithoutMarker(word: string, after: string)
    requires MARKER != "" && Lacks(word, MARKER[0])
    ensures Contains(word + after, MARKER) <==> Contains(after, MARKER)
  {
    var s := word + after;
    assert s[|word|..] == after;
    if i :| 0 <= i <= |s| && At(s, MARKER, i) {
      AtFirstChar(s, MARKER, i);
      assert |word| <= i;
      forall k | 0 <= k < |MARKER| ensures after[i - |word| + k] == MARKER[k] {
        AtChar(s, MARKER, i, k);
      }
      assert At(after, MARKER, i - |word|);
    }
    if i :| 0 <= i <= |after| && At(after, MARKER, i) {
      AtShifted(s, |word|, MARKER, i);
    }
  }

  // What the track filter leaves of a line is a line, no STREAM-INF line if it
  // was none, and without a marker if it had none.
  lemma KeptTrackText(line: string, audio: string, subs: string, codec: string)
    requires QuietLine(line, codec)
    ensures KeepsQuiet(line, TrackKeeper(audio, subs), codec)
  {
    var trimmed := TrimSpace(line);
    if HasPrefix(trimmed, AUDIO_TAG) && ContainsUriSegment(trimmed, "audio/" + audio + "/") {
      TrimSpaceWithin(line, '\n');
      ForcedLacks(trimmed, '\n');
      ForcedStarts(trimmed);
      NotInf(ForceDefault(trimmed), codec);
      if Contains(ForceDefault(trimmed), MARKER) {
        ForcedContains(trimmed);
        TrimContains(line, MARKER);
      }
    }
  }

  // A line that the codec filter does not hold back.
  ghost predicate QuietLine(line: string, codec: string) { Lacks(line, '\n') && KindOf(line, codec) != Inf }

  ghost predicate QuietLines(lines: seq<string>, codec: string) {
    forall i | 0 <= i < |lines| :: QuietLine(lines[i], codec)
  }

  ghost predicate KeepsQuiet(line: string, keep: string -> seq<string>, codec: string) {
    QuietLines(keep(line), codec) && (MarkedText(keep(line)) ==> Contains(line, MARKER))
  }

  lemma {:induction false} FlatMapKeepsQuiet(head: seq<string>, keep: string -> seq<string>, codec: string)
    requires forall i | 0 <= i < |head| :: KeepsQuiet(head[i], keep, codec)
    ensures QuietLines(FlatMap(head, keep), codec) && (MarkedText(FlatMap(head, keep)) ==> MarkedText(head))
  {
    if head != [] {
      var first, rest := keep(head[0]), FlatMap(head[1..], keep);
      FlatMapKeepsQuiet(head[1..], keep, codec);
      assert KeepsQuiet(head[0], keep, codec);
      MarkedAppend(first, rest);
      if MarkedText(rest) {
        var i :| 0 <= i < |head[1..]| && Contains(head[1..][i], MARKER);
        assert head[i + 1] == head[1..][i];
      }
    }
  }

  lemma KeptTrackTexts(head: seq<string>, audio: string, subs: string, codec: string)
    requires QuietLines(head, codec)
    ensures var kept := FlatMap(head, TrackKeeper(audio, subs));
            QuietLines(kept, codec) && (MarkedText(kept) ==> MarkedText(head))
  {
    forall i | 0 <= i < |head| ensures KeepsQuiet(head[i], TrackKeeper(audio, subs), codec) {
      KeptTrackText(head[i], audio, subs, codec);
    }
    FlatMapKeepsQuiet(head, TrackKeeper(audio, subs), codec);
  }

  lemma KeptIsTextHead(head: seq<string>, audio: string, subs: string, codec: string)
    requires head != [] && head[|head| - 1] == ""
    requires QuietLines(head, codec)
    ensures var kept := FlatMap(head, TrackKeeper(audio, subs));
            TextHead(head, codec) && TextHead(kept, codec)
            && KeptHead(head, codec) == head && KeptHead(kept, codec) == kept
  {
    KeptTrackTexts(head, audio, subs, codec);
    KeepOther("", audio, subs);
    EndsBlank(head, TrackKeeper(audio, subs));
    QuietHead(head, codec);
    QuietHead(FlatMap(head, TrackKeeper(audio, subs)), codec);
  }

  lemma EndsBlank(head: seq<string>, keep: string -> seq<string>)
    requires keep("") == [""] && head != [] && head[|head| - 1] == ""
    ensures FlatMap(head, keep) != []
  {
    assert head == head[..|head| - 1] + [""];
    BlankIsKept(head[..|head| - 1], keep);
  }

  lemma QuietHead(head: seq<string>, codec: string)
    requires head != []
    requires QuietLines(head, codec)
    ensures TextHead(head, codec) && KeptHead(head, codec) == head
  {
    NoInfNothingSwallowed(head, CodecKind(codec));
    KeptHeadAgrees(head, codec);
  }

  // The two filters on the text of a head followed by printed variants.
  lemma CommuteOnText(p: Params, head: seq<string>, vs: seq<Variant>, codec: string, audio: string, subs: string)
    requires head != [] && head[|head| - 1] == "" && CleanVariants(p, vs) && Lacks(codec, '/')
    requires QuietLines(head, codec)
    ensures var text := Unlines(head + Texts(VariantLines(p, vs)));
            var kept := FlatMap(head, TrackKeeper(audio, subs));
            TracksFiltered(CodecFiltered(text, codec), audio, subs)
            == Unlines(LeftText(p, kept, vs, codec, Select(vs, codec) != [] || MarkedText(head)))
            && CodecFiltered(TracksFiltered(text, audio, subs), codec)
               == Unlines(LeftText(p, kept, vs, codec, Select(vs, codec) != [] || MarkedText(kept)))
  {
    var kept := FlatMap(head, TrackKeeper(audio, subs));
    KeptIsTextHead(head, audio, subs, codec);
    CodecOnText(p, head, vs, codec);
    CodecOnText(p, kept, vs, codec);
    VariantLinesNoMedia(p, vs, codec);
    VariantLinesAreClean(p, vs);
    KeptAreClean(p, vs, codec);
    KeepsTail(p, head, VariantLines(p, vs), audio, subs);
    KeepsTail(p, head, KeptLines(p, vs, codec), audio, subs);
  }

  lemma KeepsTail(p: Params, head: seq<string>, tail: seq<Line>, audio: string, subs: string)
    requires OneLines(tail) && NoMedia(tail) && forall i | 0 <= i < |head| :: Lacks(head[i], '\n')
    ensures TracksFiltered(Unlines(head + Texts(tail)), audio, subs)
            == Unlines(FlatMap(head, TrackKeeper(audio, subs)) + Texts(tail))
  {
    TextsAreLines(tail);
    AppendLines(head, Texts(tail));
    TracksOnText(head + Texts(tail), audio, subs);
    FlatMapAppend(head, Texts(tail), TrackKeeper(audio, subs));
    NoMediaTexts(tail, audio, subs);
  }

  // The filters give the same text in either order unless no variant matches and
  // the track filter removes the last marker: then only the second order falls
  // back to all variants.
  lemma FiltersCommute(p: Params, codec: string, audio: string, subs: string)
    requires LineParams(p) && Lacks(codec, '/')
    ensures var text := Print(MasterLines(p));
            TracksFiltered(CodecFiltered(text, codec), audio, subs)
            == CodecFiltered(TracksFiltered(text, audio, subs), codec)
            <==> (exists v | v in p.variants :: v.codec.name == codec) || p.variants == []
                 || (TitlesMarked(p) ==> MarkedText(FlatMap(HeadText(p), TrackKeeper(audio, subs))))
  {
    var head, vs := HeadText(p), p.variants;
    assert p.(variants := vs) == p;
    MasterText(p, vs);
    HeadTextWithoutBreaks(p, codec);
    HeadMarked(p);
    HeadKinds(p, codec);
    SelectedExists(p, codec);
    CommuteOnText(p, head, vs, codec, audio, subs);
    KeptTrackTexts(head, audio, subs, codec);
    KeptIsTextHead(head, audio, subs, codec);
    if Select(vs, codec) == [] {
      UnmatchedAgrees(p, FlatMap(head, TrackKeeper(audio, subs)), vs, codec);
    }
  }

  lemma HeadKinds(p: Params, codec: string)
    requires LineParams(p)
    ensures HeadText(p) != [] && HeadText(p)[|HeadText(p)| - 1] == ""
    ensures QuietLines(HeadText(p), codec)
  {
    HeadTextWithoutBreaks(p, codec);
    HeadEndsBlank(p);
    EndsInBlankText(Head(p));
    HeadIsOneLine(p);
    RenditionsAreHead(p);
    LineKinds(Head(p), codec);
  }

  lemma EndsInBlankText(lines: seq<Line>)
    requires lines != [] && lines[|lines| - 1] == BLANK
    ensures Texts(lines) != [] && Texts(lines)[|Texts(lines)| - 1] == ""
  {
  }

  lemma LineKinds(lines: seq<Line>, codec: string)
    requires OneLines(lines) && HeadOnly(lines)
    ensures QuietLines(Texts(lines), codec)
  {
    TextsAreLines(lines);
    forall i | 0 <= i < |lines| ensures KindOf(Texts(lines)[i], codec) != Inf {
      HeadLineKind(lines[i], codec);
    }
  }
}
