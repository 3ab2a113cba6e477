// What the choice of a track does to the rendition rules of RFC 8216.
module AutoselectRule {
  import opened Prelude
  import opened Strings
  import opened MasterPlaylist
  import opened PrintedLines
  import opened ManifestFilter
  import opened FilterAgreement
  import opened TrackAgreement

  // The attributes of a tag are separated by commas outside its quotes.
  ghost predicate HasAttribute(line: string, attribute: string) { InPieces(Split(line, '"'), attribute) }

  ghost predicate InPieces(pieces: seq<string>, attribute: string) {
    exists i: nat | 2 * i < |pieces| :: attribute in Split(pieces[2 * i], ',')
  }

  // Section 4.3.4.1 of RFC 8216: DEFAULT=YES requires that AUTOSELECT is not NO.
  ghost predicate BreaksAutoselect(line: string) {
    HasPrefix(line, AUDIO_TAG) && HasAttribute(line, "DEFAULT=YES") && HasAttribute(line, "AUTOSELECT=NO")
  }

  function Pieces(attrs: seq<Attr>): seq<string> {
    if attrs == [] then [] else [attrs[0].key, attrs[0].value] + Pieces(attrs[1..])
  }

  lemma {:induction false} PieceIs(attrs: seq<Attr>, i: nat)
    requires i < |attrs|
    ensures |Pieces(attrs)| == 2 * |attrs| && Pieces(attrs)[2 * i] == attrs[i].key
  {
    if i > 0 {
      PieceIs(attrs[1..], i - 1);
    } else if |attrs| > 1 {
      PieceIs(attrs[1..], 0);
    } else {
      assert Pieces(attrs[1..]) == [];
    }
  }

  lemma {:induction false} TagPieces(attrs: seq<Attr>)
    requires forall i | 0 <= i < |attrs| :: Lacks(attrs[i].key, '"') && Lacks(attrs[i].value, '"')
    ensures Split(TagText(attrs), '"') == Pieces(attrs) + [""]
  {
    if attrs != [] {
      TagPieces(attrs[1..]);
      FirstPieces(attrs[0], TagText(attrs[1..]));
      assert [attrs[0].key, attrs[0].value] + (Pieces(attrs[1..]) + [""]) == Pieces(attrs) + [""];
    }
  }

  lemma FirstPieces(first: Attr, rest: string)
    requires Lacks(first.key, '"') && Lacks(first.value, '"')
    ensures Split(first.key + "\"" + (first.value + "\"" + rest), '"') == [first.key, first.value] + Split(rest, '"')
  {
    SplitAcross(first.value, '"', rest);
    SplitAcross(first.key, '"', first.value + ['"'] + rest);
    assert first.key + "\"" + (first.value + "\"" + rest) == first.key + ['"'] + (first.value + ['"'] + rest);
  }

  lemma TagAttribute(attrs: seq<Attr>, attribute: string)
    requires attrs != [] && attribute != ""
    requires forall i | 0 <= i < |attrs| :: Lacks(attrs[i].key, '"') && Lacks(attrs[i].value, '"')
    ensures HasAttribute(TagText(attrs), attribute)
            <==> exists i | 0 <= i < |attrs| :: attribute in Split(attrs[i].key, ',')
  {
    TagPieces(attrs);
    PiecesHave(attrs, attribute);
  }

  lemma PiecesHave(attrs: seq<Attr>, attribute: string)
    requires attrs != [] && attribute != ""
    ensures InPieces(Pieces(attrs) + [""], attribute)
            <==> exists i | 0 <= i < |attrs| :: attribute in Split(attrs[i].key, ',')
  {
    var pieces := Pieces(attrs) + [""];
    PieceIs(attrs, 0);
    forall i | 0 <= i < |attrs| ensures pieces[2 * i] == attrs[i].key {
      PieceIs(attrs, i);
    }
    if i :| 0 <= i < |attrs| && attribute in Split(attrs[i].key, ',') {
      assert attribute in Split(pieces[2 * i], ',');
    }
    if i: nat :| 2 * i < |pieces| && attribute in Split(pieces[2 * i], ',') {
      assert Split("", ',') == [""];
      assert i < |attrs|;
    }
  }

  lemma SplitFlags(d: string, a: string)
    requires Lacks(d, ',') && Lacks(a, ',')
    ensures Split(",DEFAULT=" + d + ",AUTOSELECT=" + a + ",URI=", ',') == ["", "DEFAULT=" + d, "AUTOSELECT=" + a, "URI="]
  {
    var flags := ",DEFAULT=" + d + ",AUTOSELECT=" + a + ",URI=";
    var x, y, z := "DEFAULT=" + d, "AUTOSELECT=" + a, "URI=";
    FlagsAsList(d, a);
    SplitOne(z, ',');
    SplitAcross(y, ',', z);
    SplitAcross(x, ',', y + [','] + z);
    SplitAcross("", ',', x + [','] + (y + [','] + z));
  }

  lemma FlagsAsList(d: string, a: string)
    ensures ",DEFAULT=" + d + ",AUTOSELECT=" + a + ",URI="
            == "" + [','] + (("DEFAULT=" + d) + [','] + (("AUTOSELECT=" + a) + [','] + "URI="))
    ensures Lacks("DEFAULT=", ',') && Lacks("AUTOSELECT=", ',') && Lacks("URI=", ',')
  {
  }

  // An attribute does not occur in text without one of its characters.
  lemma NotAmong(s: string, attribute: string, k: nat)
    requires k < |attribute| && Lacks(s, attribute[k])
    ensures attribute !in Split(s, ',')
  {
    SplitLacks(s, ',', attribute[k]);
  }

  lemma OtherKeys(attribute: string)
    requires attribute == "DEFAULT=YES" || attribute == "AUTOSELECT=NO"
    ensures attribute !in Split(AUDIO_HEAD, ',') && attribute !in Split(",LANGUAGE=", ',')
            && attribute !in Split(",NAME=", ',')
  {
    if attribute == "DEFAULT=YES" {
      HeadsLack('F');
      NotAmong(AUDIO_HEAD, attribute, 2);
      NotAmong(",LANGUAGE=", attribute, 2);
      NotAmong(",NAME=", attribute, 2);
    } else {
      HeadsLack('C');
      NotAmong(AUDIO_HEAD, attribute, 8);
      NotAmong(",LANGUAGE=", attribute, 8);
      NotAmong(",NAME=", attribute, 8);
    }
  }

  lemma HeadsLack(c: char)
    requires c == 'F' || c == 'C'
    ensures Lacks(AUDIO_HEAD, c) && Lacks(",LANGUAGE=", c) && Lacks(",NAME=", c)
  {
  }

  lemma YesNoTexts(b: bool)
    ensures Lacks(YesNo(b), ',') && ("DEFAULT=" + YesNo(b) == "DEFAULT=YES" <==> b)
    ensures "AUTOSELECT=" + YesNo(b) == "AUTOSELECT=NO" <==> !b
  {
    assert "DEFAULT=" + "YES" == "DEFAULT=YES" && "AUTOSELECT=" + "NO" == "AUTOSELECT=NO";
    assert |"DEFAULT=" + "NO"| == 10 && |"DEFAULT=YES"| == 11;
    assert |"AUTOSELECT=" + "YES"| == 14 && |"AUTOSELECT=NO"| == 13;
  }

  lemma FlagAttributes(def: bool, autoselect: bool)
    ensures "DEFAULT=YES" in Split(AudioFlags(def, autoselect), ',') <==> def
    ensures "AUTOSELECT=NO" in Split(AudioFlags(def, autoselect), ',') <==> !autoselect
  {
    YesNoTexts(def);
    YesNoTexts(autoselect);
    SplitFlags(YesNo(def), YesNo(autoselect));
    FirstChars(YesNo(def), YesNo(autoselect));
  }

  lemma FirstChars(d: string, a: string)
    ensures "DEFAULT=YES" != "" && "DEFAULT=YES" != "AUTOSELECT=" + a && "DEFAULT=YES" != "URI="
    ensures "AUTOSELECT=NO" != "" && "AUTOSELECT=NO" != "DEFAULT=" + d && "AUTOSELECT=NO" != "URI="
  {
    assert "DEFAULT=YES"[0] == 'D' && ("AUTOSELECT=" + a)[0] == 'A' && "URI="[0] == 'U';
    assert "AUTOSELECT=NO"[0] == 'A' && ("DEFAULT=" + d)[0] == 'D';
  }

  lemma AudioAttribute(l: Line, attribute: string)
    requires CleanLine(l) && l.AudioMedia? && (attribute == "DEFAULT=YES" || attribute == "AUTOSELECT=NO")
    ensures HasAttribute(Text(l), attribute) <==> attribute in Split(AudioFlags(l.def, l.autoselect), ',')
  {
    var attrs := Attrs(l);
    TagIsClean(l);
    TagAttribute(attrs, attribute);
    OtherKeys(attribute);
    LastOfFour(attrs, attribute);
  }

  lemma LastOfFour(attrs: seq<Attr>, attribute: string)
    requires |attrs| == 4 && attribute !in Split(attrs[0].key, ',')
    requires attribute !in Split(attrs[1].key, ',') && attribute !in Split(attrs[2].key, ',')
    ensures (exists i | 0 <= i < |attrs| :: attribute in Split(attrs[i].key, ',')) <==> attribute in Split(attrs[3].key, ',')
  {
  }

  lemma LineBreaksAutoselect(l: Line)
    requires CleanLine(l)
    ensures BreaksAutoselect(Text(l)) <==> l.AudioMedia? && l.def && !l.autoselect
  {
    if l.AudioMedia? {
      TagKind(l);
      AudioAttribute(l, "DEFAULT=YES");
      AudioAttribute(l, "AUTOSELECT=NO");
      FlagAttributes(l.def, l.autoselect);
    } else if l.SubtitleMedia? {
      TagKind(l);
    } else {
      OtherText(l);
      MediaTagsEnd();
    }
  }

  lemma TextBreaksAutoselect(lines: seq<Line>)
    requires CleanLines(lines)
    ensures (exists line | line in Split(Print(lines), '\n') :: BreaksAutoselect(line))
            <==> exists l | l in lines :: l.AudioMedia? && l.def && !l.autoselect
  {
    SplitPrinted(lines);
    forall i | 0 <= i < |lines|
      ensures BreaksAutoselect(Texts(lines)[i]) <==> lines[i].AudioMedia? && lines[i].def && !lines[i].autoselect
    {
      LineBreaksAutoselect(lines[i]);
    }
    BlankBreaksNothing();
    AmongTexts(lines);
  }

  lemma BlankBreaksNothing()
    ensures !BreaksAutoselect("")
  {
    MediaTagsEnd();
  }

  lemma AmongTexts(lines: seq<Line>)
    requires !BreaksAutoselect("")
    requires forall i | 0 <= i < |lines| ::
               BreaksAutoselect(Texts(lines)[i]) <==> lines[i].AudioMedia? && lines[i].def && !lines[i].autoselect
    ensures (exists line | line in Texts(lines) + [""] :: BreaksAutoselect(line))
            <==> exists l | l in lines :: l.AudioMedia? && l.def && !l.autoselect
  {
    if line :| line in Texts(lines) + [""] && BreaksAutoselect(line) {
      var i :| 0 <= i < |lines| && Texts(lines)[i] == line;
      assert lines[i] in lines;
    }
    if l :| l in lines && l.AudioMedia? && l.def && !l.autoselect {
      var i :| 0 <= i < |lines| && lines[i] == l;
      assert Texts(lines)[i] in Texts(lines) + [""];
    }
  }

  // RFC 8216 section 4.3.4.1 forbids DEFAULT=YES together with AUTOSELECT=NO. A
  // request for an audio track is served a playlist with such a tag exactly when
  // the track is not the first of its language; without a choice there is none.
  lemma ServedBreaksAutoselect(p: Params, audio: Option<nat>, subs: Option<nat>)
    requires CleanParams(p) && DistinctIndices(p.audio) && DistinctIndices(p.subtitles)
    requires (audio.Some? ==> audio.value < |p.audio|) && (subs.Some? ==> subs.value < |p.subtitles|)
    ensures var text := TracksFiltered(Print(MasterLines(p)), Wanted(p.audio, audio), Wanted(p.subtitles, subs));
            (exists line | line in Split(text, '\n') :: BreaksAutoselect(line))
            <==> audio.Some? && !FirstOfLanguage(p.audio, audio.value)
  {
    TrackFilterAgreesWithPrinting(p, audio, subs);
    ServedAreClean(p, audio, subs);
    TextBreaksAutoselect(ChosenLines(p, audio, subs));
    AudioAmongChosen(p, audio, subs);
    ChosenBreak(p.audio, audio);
  }

  function ChosenLines(p: Params, audio: Option<nat>, subs: Option<nat>): seq<Line>
    requires (audio.Some? ==> audio.value < |p.audio|) && (subs.Some? ==> subs.value < |p.subtitles|)
  {
    HeadLines(p, ChosenAudio(p.audio, audio), ChosenSubtitles(p.subtitles, subs)) + VariantLines(p, p.variants)
  }

  lemma AudioAmongChosen(p: Params, audio: Option<nat>, subs: Option<nat>)
    requires (audio.Some? ==> audio.value < |p.audio|) && (subs.Some? ==> subs.value < |p.subtitles|)
    ensures forall l | l in ChosenLines(p, audio, subs) && l.AudioMedia? :: l in ChosenAudio(p.audio, audio)
    ensures forall l | l in ChosenAudio(p.audio, audio) :: l in ChosenLines(p, audio, subs)
  {
    HeadMembers(p, ChosenAudio(p.audio, audio), ChosenSubtitles(p.subtitles, subs));
    VariantLinesNoMedia(p, p.variants, "");
    NoMediaInPreamble();
  }

  lemma NoMediaInPreamble()
    ensures NoMedia(PREAMBLE)
  {
  }

  lemma ChosenBreak(tracks: seq<Track>, choice: Option<nat>)
    requires choice.Some? ==> choice.value < |tracks|
    ensures forall l | l in ChosenAudio(tracks, choice) :: l.AudioMedia?
    ensures (exists l | l in ChosenAudio(tracks, choice) :: l.def && !l.autoselect)
            <==> choice.Some? && !FirstOfLanguage(tracks, choice.value)
  {
    if choice.Some? {
      assert ChosenAudio(tracks, choice)[0] in ChosenAudio(tracks, choice);
    }
  }

  // The lines left for a choice.
  lemma ServedAreClean(p: Params, audio: Option<nat>, subs: Option<nat>)
    requires CleanParams(p) && (audio.Some? ==> audio.value < |p.audio|) && (subs.Some? ==> subs.value < |p.subtitles|)
    ensures CleanLines(ChosenLines(p, audio, subs))
  {
    MasterIsClean(p);
    PreambleIsPlain();
    var head := HeadLines(p, ChosenAudio(p.audio, audio), ChosenSubtitles(p.subtitles, subs));
    HeadMembers(p, ChosenAudio(p.audio, audio), ChosenSubtitles(p.subtitles, subs));
    RenditionsInHead(p);
    VariantLinesAreClean(p, p.variants);
    forall l | l in head ensures CleanLine(l) {
      assert l in PREAMBLE || l == BLANK || l.ImageStream?
             || l in ChosenAudio(p.audio, audio) || l in ChosenSubtitles(p.subtitles, subs);
    }
  }

  lemma RenditionsInHead(p: Params)
    ensures forall i | 0 <= i < |p.audio| :: AudioLines(p.audio)[i] in Head(p)
    ensures forall i | 0 <= i < |p.subtitles| :: SubtitleLines(p.subtitles)[i] in Head(p)
  {
    assert forall l | l in AudioLines(p.audio) || l in SubtitleLines(p.subtitles) :: l in Head(p);
  }

  // Two English tracks: whoever asks for the second one gets such a tag.
  lemma SecondEnglishTrack(p: Params)
    requires CleanParams(p) && p.audio == [Track(0, "eng", ""), Track(1, "eng", "Commentary")] && p.subtitles == []
    ensures exists line | line in Split(TracksFiltered(Print(MasterLines(p)), "1", ""), '\n') :: BreaksAutoselect(line)
  {
    assert Language(p.audio[0]) == Language(p.audio[1]) && Wanted(p.audio, Some(1)) == "1";
    ServedBreaksAutoselect(p, Some(1), None);
  }
}
