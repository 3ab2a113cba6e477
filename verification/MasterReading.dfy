// What a player reads in the printed master playlist: the tags in their order,
// and every attribute of every tag.
module MasterReading {
  import opened Strings
  import opened AttributeLists
  import opened Ladder
  import opened MasterPlaylist
  import opened PrintedLines
  import opened FilterAgreement
  import opened ManifestRewrite

  // Values in quotes contain none, values without quotes are plain.
  ghost predicate ReadableParams(p: Params) {
    LineParams(p) && TracksLack(p.audio, '"') && TracksLack(p.subtitles, '"')
    && Lacks(p.frameRate, '"') && Lacks(p.frameRate, ',')
    && forall i | 0 <= i < |p.variants| :: ReadableVariant(p, p.variants[i])
  }

  ghost predicate ReadableVariant(p: Params, v: Variant) {
    Lacks(p.codecs(v), '"') && Lacks(v.quality.name, '"') && Lacks(v.codec.name, '"')
  }

  // ---- STREAM-INF tags ----------------------------------------------------------------------

  ghost predicate ReadableLine(l: Line)
    requires l.StreamInf?
  {
    Lacks(l.resolution, '"') && Lacks(l.resolution, ',') && Lacks(l.codecs, '"') && Lacks(l.frameRate, '"')
    && Lacks(l.frameRate, ',') && Lacks(l.name, '"')
  }

  lemma PlainField(key: string, value: string)
    requires Lacks(key, '=') && Lacks(key, '"') && Lacks(key, ',') && Lacks(value, '"') && Lacks(value, ',')
    ensures CleanField(Field(key, value))
  {
  }

  lemma QuotedField(key: string, inside: string)
    requires Lacks(key, '=') && Lacks(key, '"') && Lacks(key, ',') && Lacks(inside, '"')
    ensures CleanField(Field(key, Quoted(inside)))
  {
  }

  lemma NumberField(key: string, n: nat)
    requires Lacks(key, '=') && Lacks(key, '"') && Lacks(key, ',')
    ensures CleanField(Field(key, Decimal(n)))
  {
    DecimalLacks(n, '"');
    DecimalLacks(n, ',');
    PlainField(key, Decimal(n));
  }

  lemma FixedValues()
    ensures Lacks("audio", '"') && Lacks("subs", '"') && Lacks("NONE", '"') && Lacks("NONE", ',')
  {
  }

  lemma StreamFieldsAreClean(l: Line)
    requires l.StreamInf? && ReadableLine(l)
    ensures CleanFields(StreamFields(l)) && StreamFields(l) != []
  {
    StreamKeysLack('=');
    StreamKeysLack('"');
    StreamKeysLack(',');
    FixedValues();
    NumberField("BANDWIDTH", l.bandwidth);
    NumberField("AVERAGE-BANDWIDTH", l.average);
    PlainField("RESOLUTION", l.resolution);
    QuotedField("CODECS", l.codecs);
    PlainField("FRAME-RATE", l.frameRate);
    QuotedField("AUDIO", "audio");
    QuotedField("SUBTITLES", "subs");
    PlainField("CLOSED-CAPTIONS", "NONE");
    QuotedField("NAME", l.name);
    StreamFieldsAre(l);
    forall i | 0 <= i < |StreamFields(l)| ensures CleanField(StreamFields(l)[i]) {
      assert StreamFields(l)[i] in StreamFields(l);
    }
  }

  lemma StreamGives(l: Line, key: string, value: string)
    requires l.StreamInf? && ReadableLine(l) && Lacks(key, '=')
    ensures TagGives(Text(l), STREAM_INF, key, value) <==> StreamHas(l, key, value)
  {
    StreamFieldsAreClean(l);
    StreamFieldsAre(l);
    TagGivesList(STREAM_INF, StreamFields(l), key, value);
  }

  lemma StreamLineIsReadable(p: Params, v: Variant)
    requires ReadableVariant(p, v) && Lacks(p.frameRate, '"') && Lacks(p.frameRate, ',')
    ensures ReadableLine(StreamLine(p, v))
  {
    var width := PrintedResolution(v.quality);
    DecimalLacks(width, '"');
    DecimalLacks(width, ',');
    DecimalLacks(v.quality.height, '"');
    DecimalLacks(v.quality.height, ',');
  }

  lemma KeysDiffer()
    ensures "BANDWIDTH" != "SUBTITLES" && "RESOLUTION" != "FRAME-RATE"
    ensures |"BANDWIDTH"| == |"SUBTITLES"| == 9 && |"AVERAGE-BANDWIDTH"| == 17 && |"RESOLUTION"| == |"FRAME-RATE"| == 10
    ensures |"CODECS"| == 6 && |"AUDIO"| == 5 && |"CLOSED-CAPTIONS"| == 15 && |"NAME"| == 4
  {
    assert "BANDWIDTH"[0] == 'B' && "SUBTITLES"[0] == 'S' && "RESOLUTION"[0] == 'R' && "FRAME-RATE"[0] == 'F';
  }

  // What the STREAM-INF tag of a variant says: its bandwidths, its size, its
  // codecs and the frame rate, the groups it goes with, and its name.
  ghost predicate StreamReads(p: Params, v: Variant, tag: string, bandwidth: nat, average: nat, width: nat) {
    BandwidthIs(p, v, bandwidth, average) && WidthIs(v.quality, width)
    && (forall s :: TagGives(tag, STREAM_INF, "BANDWIDTH", s) <==> s == Decimal(bandwidth))
    && (forall s :: TagGives(tag, STREAM_INF, "AVERAGE-BANDWIDTH", s) <==> average > 0 && s == Decimal(average))
    && (forall s :: TagGives(tag, STREAM_INF, "RESOLUTION", s) <==> s == Decimal(width) + "x" + Decimal(v.quality.height))
    && (forall s :: TagGives(tag, STREAM_INF, "CODECS", s) <==> s == Quoted(p.codecs(v)))
    && (forall s :: TagGives(tag, STREAM_INF, "FRAME-RATE", s) <==> p.frameRate != "" && s == p.frameRate)
    && (forall s :: TagGives(tag, STREAM_INF, "AUDIO", s) <==> p.audio != [] && s == Quoted("audio"))
    && (forall s :: TagGives(tag, STREAM_INF, "SUBTITLES", s) <==> p.subtitles != [] && s == Quoted("subs"))
    && (forall s :: TagGives(tag, STREAM_INF, "CLOSED-CAPTIONS", s) <==> s == "NONE")
    && (forall s :: TagGives(tag, STREAM_INF, "NAME", s) <==> s == Quoted(v.quality.name + " " + v.codec.name))
  }

  lemma StreamHasEach(l: Line, s: string)
    requires l.StreamInf?
    ensures StreamHas(l, "BANDWIDTH", s) <==> s == Decimal(l.bandwidth)
    ensures StreamHas(l, "AVERAGE-BANDWIDTH", s) <==> l.average > 0 && s == Decimal(l.average)
    ensures StreamHas(l, "RESOLUTION", s) <==> s == l.resolution
    ensures StreamHas(l, "CODECS", s) <==> s == Quoted(l.codecs)
    ensures StreamHas(l, "FRAME-RATE", s) <==> l.frameRate != "" && s == l.frameRate
    ensures StreamHas(l, "AUDIO", s) <==> l.withAudio && s == Quoted("audio")
    ensures StreamHas(l, "SUBTITLES", s) <==> l.withSubtitles && s == Quoted("subs")
    ensures StreamHas(l, "CLOSED-CAPTIONS", s) <==> s == "NONE"
    ensures StreamHas(l, "NAME", s) <==> s == Quoted(l.name)
  {
    KeysDiffer();
  }

  lemma StreamGivesEach(l: Line, s: string)
    requires l.StreamInf? && ReadableLine(l)
    ensures TagGives(Text(l), STREAM_INF, "BANDWIDTH", s) <==> s == Decimal(l.bandwidth)
    ensures TagGives(Text(l), STREAM_INF, "AVERAGE-BANDWIDTH", s) <==> l.average > 0 && s == Decimal(l.average)
    ensures TagGives(Text(l), STREAM_INF, "RESOLUTION", s) <==> s == l.resolution
    ensures TagGives(Text(l), STREAM_INF, "CODECS", s) <==> s == Quoted(l.codecs)
    ensures TagGives(Text(l), STREAM_INF, "FRAME-RATE", s) <==> l.frameRate != "" && s == l.frameRate
    ensures TagGives(Text(l), STREAM_INF, "AUDIO", s) <==> l.withAudio && s == Quoted("audio")
    ensures TagGives(Text(l), STREAM_INF, "SUBTITLES", s) <==> l.withSubtitles && s == Quoted("subs")
    ensures TagGives(Text(l), STREAM_INF, "CLOSED-CAPTIONS", s) <==> s == "NONE"
    ensures TagGives(Text(l), STREAM_INF, "NAME", s) <==> s == Quoted(l.name)
  {
    StreamKeysLack('=');
    StreamHasEach(l, s);
    StreamGives(l, "BANDWIDTH", s);
    StreamGives(l, "AVERAGE-BANDWIDTH", s);
    StreamGives(l, "RESOLUTION", s);
    StreamGives(l, "CODECS", s);
    StreamGives(l, "FRAME-RATE", s);
    StreamGives(l, "AUDIO", s);
    StreamGives(l, "SUBTITLES", s);
    StreamGives(l, "CLOSED-CAPTIONS", s);
    StreamGives(l, "NAME", s);
  }

  lemma VariantReads(p: Params, v: Variant) returns (bandwidth: nat, average: nat, width: nat)
    requires ReadableVariant(p, v) && Lacks(p.frameRate, '"') && Lacks(p.frameRate, ',')
    ensures StreamReads(p, v, Text(StreamLine(p, v)), bandwidth, average, width)
  {
    var l := StreamLine(p, v);
    bandwidth, average := l.bandwidth, l.average;
    width := PrintedResolution(v.quality);
    AdvertisedBandwidth(p, v);
    StreamLineIsReadable(p, v);
    forall s {
      StreamGivesEach(l, s);
    }
  }

  // ---- EXT-X-MEDIA tags -----------------------------------------------------------------------

  function AudioFlagFields(l: Line): seq<Field>
    requires l.AudioMedia?
  {
    [Field("DEFAULT", YesNo(l.def)), Field("AUTOSELECT", YesNo(l.autoselect)), Field("URI", Quoted(AudioUri(l.index)))]
  }

  function SubtitleFlagFields(l: Line): seq<Field>
    requires l.SubtitleMedia?
  {
    [Field("DEFAULT", "NO"), Field("AUTOSELECT", YesNo(l.autoselect)), Field("FORCED", "NO"),
     Field("URI", Quoted(SubtitleUri(l.index)))]
  }

  function AudioFields(l: Line): seq<Field>
    requires l.AudioMedia?
  {
    MediaFields("AUDIO", "audio", l.language, l.name, AudioFlagFields(l))
  }

  function SubtitleFields(l: Line): seq<Field>
    requires l.SubtitleMedia?
  {
    MediaFields("SUBTITLES", "subs", l.language, l.name, SubtitleFlagFields(l))
  }

  lemma JoinCons(first: string, rest: seq<string>)
    requires rest != []
    ensures Join([first] + rest, ',') == first + ("," + Join(rest, ','))
  {
    assert ([first] + rest)[1..] == rest;
    assert first + [','] + Join(rest, ',') == first + ("," + Join(rest, ','));
  }

  lemma ListCons(first: Field, rest: seq<Field>)
    requires rest != []
    ensures ListText([first] + rest) == FieldText(first) + ("," + ListText(rest))
  {
    JoinCons(FieldText(first), FieldTexts(rest));
    assert FieldTexts([first] + rest) == [FieldText(first)] + FieldTexts(rest);
  }

  lemma ListOne(f: Field)
    ensures ListText([f]) == FieldText(f)
  {
    assert FieldTexts([f]) == [FieldText(f)];
  }

  // A quoted attribute in front of others, cut at its quotes.
  lemma QuotedFirst(key: string, inside: string, tail: string)
    ensures FieldText(Field(key, Quoted(inside))) + tail == (key + "=") + "\"" + (inside + "\"" + tail)
  {
  }

  lemma PlainFirst(key: string, value: string, tail: string)
    ensures FieldText(Field(key, value)) + tail == (key + "=" + value) + tail
  {
  }

  lemma Behind(a: string, b: string, c: string)
    ensures a + (b + c) == a + b + c
  {
  }

  lemma FlagTexts()
    ensures ",DEFAULT=" == "," + "DEFAULT=" && ",AUTOSELECT=" == "," + "AUTOSELECT=" && ",URI=" == "," + "URI="
    ensures "DEFAULT" + "=" == "DEFAULT=" && "AUTOSELECT" + "=" == "AUTOSELECT="
  {
  }

  lemma SubtitleFlagTexts()
    ensures ",DEFAULT=NO,AUTOSELECT=" == ",DEFAULT=" + "NO" + ",AUTOSELECT="
    ensures ",FORCED=NO,URI=" == "," + ("FORCED" + "=" + "NO") + ",URI="
  {
  }

  lemma FlagsAssembled(c: string, d: string, def: string, a: string, autoselect: string, tail: string)
    ensures (c + d) + def + (c + a) + autoselect + tail == c + ((d + def) + (c + ((a + autoselect) + tail)))
  {
  }

  lemma AudioFlagsText(def: bool, autoselect: bool)
    ensures AudioFlags(def, autoselect)
            == "," + (FieldText(Field("DEFAULT", YesNo(def))) + ("," + (FieldText(Field("AUTOSELECT", YesNo(autoselect)))
               + ("," + "URI="))))
  {
    FlagTexts();
    FlagsAssembled(",", "DEFAULT=", YesNo(def), "AUTOSELECT=", YesNo(autoselect), ",URI=");
  }

  lemma SubtitleFlagsText(autoselect: bool)
    ensures SubtitleFlags(autoselect)
            == "," + (FieldText(Field("DEFAULT", "NO")) + ("," + (FieldText(Field("AUTOSELECT", YesNo(autoselect)))
               + ("," + (FieldText(Field("FORCED", "NO")) + ("," + "URI="))))))
  {
    FlagTexts();
    SubtitleFlagTexts();
    var tail := "," + ("FORCED" + "=" + "NO") + ",URI=";
    FlagsAssembled(",", "DEFAULT=", "NO", "AUTOSELECT=", YesNo(autoselect), tail);
    assert SubtitleFlags(autoselect) == ",DEFAULT=" + "NO" + ",AUTOSELECT=" + YesNo(autoselect) + tail;
    assert tail == "," + (("FORCED" + "=" + "NO") + ",URI=");
  }

  lemma HeadsText()
    ensures AUDIO_HEAD == MEDIA_TAG + (FieldText(Field("TYPE", "AUDIO")) + ("," + "GROUP-ID="))
    ensures SUBTITLES_HEAD == MEDIA_TAG + (FieldText(Field("TYPE", "SUBTITLES")) + ("," + "GROUP-ID="))
    ensures ",LANGUAGE=" == "," + ("LANGUAGE" + "=") && ",NAME=" == "," + ("NAME" + "=") && "URI" + "=" == "URI="
    ensures "GROUP-ID" + "=" == "GROUP-ID="
  {
  }

  // One quoted attribute of a tag, and what follows it.
  lemma QuotedStep(key: string, inside: string, tail: string)
    ensures ("," + (key + "=")) + "\"" + (inside + "\"" + tail)
            == "," + (FieldText(Field(key, Quoted(inside))) + tail)
  {
  }

  lemma FirstStep(tag: string, first: string, key: string, inside: string, tail: string)
    ensures (tag + (first + ("," + (key + "=")))) + "\"" + (inside + "\"" + tail)
            == tag + (first + ("," + (FieldText(Field(key, Quoted(inside))) + tail)))
  {
  }

  lemma UriText(uri: string)
    ensures "URI=" + "\"" + (uri + "\"" + "") == FieldText(Field("URI", Quoted(uri)))
  {
    assert "URI" + "=" == "URI=";
  }

  lemma AudioFlagsStep(def: bool, autoselect: bool, uri: string)
    ensures AudioFlags(def, autoselect) + "\"" + (uri + "\"" + "")
            == "," + ListText([Field("DEFAULT", YesNo(def)), Field("AUTOSELECT", YesNo(autoselect)),
                               Field("URI", Quoted(uri))])
  {
    var d, a, u := Field("DEFAULT", YesNo(def)), Field("AUTOSELECT", YesNo(autoselect)), Field("URI", Quoted(uri));
    AudioFlagsText(def, autoselect);
    UriText(uri);
    FlagsBefore(FieldText(d), FieldText(a), "\"" + (uri + "\"" + ""));
    ListOne(u);
    ListCons(a, [u]);
    ListCons(d, [a, u]);
    assert [d] + [a, u] == [d, a, u] && [a] + [u] == [a, u];
  }

  lemma FlagsBefore(d: string, a: string, tail: string)
    ensures ("," + (d + ("," + (a + ("," + "URI="))))) + tail == "," + (d + ("," + (a + ("," + ("URI=" + tail)))))
  {
  }

  lemma SubtitleFlagsStep(autoselect: bool, uri: string)
    ensures SubtitleFlags(autoselect) + "\"" + (uri + "\"" + "")
            == "," + ListText([Field("DEFAULT", "NO"), Field("AUTOSELECT", YesNo(autoselect)), Field("FORCED", "NO"),
                               Field("URI", Quoted(uri))])
  {
    var d, a := Field("DEFAULT", "NO"), Field("AUTOSELECT", YesNo(autoselect));
    var f, u := Field("FORCED", "NO"), Field("URI", Quoted(uri));
    SubtitleFlagsText(autoselect);
    UriText(uri);
    MoreFlagsBefore(FieldText(d), FieldText(a), FieldText(f), "\"" + (uri + "\"" + ""));
    ListOfFour(d, a, f, u);
  }

  lemma ListOfFour(d: Field, a: Field, f: Field, u: Field)
    ensures ListText([d, a, f, u]) == FieldText(d) + ("," + (FieldText(a) + ("," + (FieldText(f) + ("," + FieldText(u))))))
  {
    ListOne(u);
    ListCons(f, [u]);
    ListCons(a, [f, u]);
    ListCons(d, [a, f, u]);
    assert [d] + [a, f, u] == [d, a, f, u] && [a] + [f, u] == [a, f, u] && [f] + [u] == [f, u];
  }

  lemma MoreFlagsBefore(d: string, a: string, f: string, tail: string)
    ensures ("," + (d + ("," + (a + ("," + (f + ("," + "URI="))))))) + tail
            == "," + (d + ("," + (a + ("," + (f + ("," + ("URI=" + tail)))))))
  {
  }

  lemma TagTextOfAll(attrs: seq<Attr>)
    requires |attrs| == 4
    ensures TagText(attrs)
            == attrs[0].key + "\"" + (attrs[0].value + "\"" + (attrs[1].key + "\"" + (attrs[1].value + "\""
               + (attrs[2].key + "\"" + (attrs[2].value + "\"" + (attrs[3].key + "\"" + (attrs[3].value + "\"" + "")))))))
  {
    TagTextOfFour(attrs);
    TagTextFrom(attrs, 3);
  }

  // A tag with the three quoted attributes in front of its flags.
  lemma MediaAssembled(kind: string, group: string, language: string, name: string, flags: seq<Field>)
    requires flags != []
    ensures (MEDIA_TAG + (FieldText(Field("TYPE", kind)) + ("," + ("GROUP-ID" + "=")))) + "\"" + (group + "\""
              + (("," + ("LANGUAGE" + "=")) + "\"" + (language + "\""
              + (("," + ("NAME" + "=")) + "\"" + (name + "\"" + ("," + ListText(flags)))))))
            == MEDIA_TAG + ListText(MediaFields(kind, group, language, name, flags))
  {
    var t, g := Field("TYPE", kind), Field("GROUP-ID", Quoted(group));
    var l, n := Field("LANGUAGE", Quoted(language)), Field("NAME", Quoted(name));
    QuotedStep("NAME", name, "," + ListText(flags));
    ListCons(n, flags);
    QuotedStep("LANGUAGE", language, "," + ListText([n] + flags));
    ListCons(l, [n] + flags);
    FirstStep(MEDIA_TAG, FieldText(t), "GROUP-ID", group, "," + ListText([l] + ([n] + flags)));
    ListCons(g, [l] + ([n] + flags));
    ListCons(t, [g] + ([l] + ([n] + flags)));
    FieldsAssembled(t, g, l, n, flags);
  }

  function MediaFields(kind: string, group: string, language: string, name: string, flags: seq<Field>): seq<Field> {
    [Field("TYPE", kind), Field("GROUP-ID", Quoted(group)), Field("LANGUAGE", Quoted(language)),
     Field("NAME", Quoted(name))] + flags
  }

  lemma FieldsAssembled(t: Field, g: Field, l: Field, n: Field, flags: seq<Field>)
    ensures [t] + ([g] + ([l] + ([n] + flags))) == [t, g, l, n] + flags
  {
  }

  lemma AudioText(l: Line)
    requires l.AudioMedia?
    ensures Text(l) == MEDIA_TAG + ListText(AudioFields(l))
  {
    HeadsText();
    TagTextOfAll(AudioAttrs(l.language, l.name, l.def, l.autoselect, l.index));
    AudioFlagsStep(l.def, l.autoselect, AudioUri(l.index));
    MediaAssembled("AUDIO", "audio", l.language, l.name, AudioFlagFields(l));
  }

  lemma SubtitleText(l: Line)
    requires l.SubtitleMedia?
    ensures Text(l) == MEDIA_TAG + ListText(SubtitleFields(l))
  {
    HeadsText();
    TagTextOfAll(SubtitleAttrs(l.language, l.name, l.autoselect, l.index));
    SubtitleFlagsStep(l.autoselect, SubtitleUri(l.index));
    MediaAssembled("SUBTITLES", "subs", l.language, l.name, SubtitleFlagFields(l));
  }

  // ---- Renditions -------------------------------------------------------------------------------

  lemma MediaKeysLack(c: char)
    requires c == '=' || c == '"' || c == ','
    ensures Lacks("TYPE", c) && Lacks("GROUP-ID", c) && Lacks("LANGUAGE", c) && Lacks("NAME", c) && Lacks("DEFAULT", c)
    ensures Lacks("AUTOSELECT", c) && Lacks("FORCED", c) && Lacks("URI", c)
  {
  }

  lemma MediaValuesLack(c: char, b: bool)
    requires c == '"' || c == ','
    ensures Lacks("AUDIO", c) && Lacks("SUBTITLES", c) && Lacks(YesNo(b), c) && Lacks("NO", c)
  {
  }

  lemma UrisLackQuotes(index: nat)
    ensures Lacks(AudioUri(index), '"') && Lacks(SubtitleUri(index), '"')
  {
    DecimalLacks(index, '"');
  }

  lemma GroupFieldsAreClean(kind: string, group: string, language: string, name: string)
    requires (kind == "AUDIO" || kind == "SUBTITLES") && (group == "audio" || group == "subs")
    requires Lacks(language, '"') && Lacks(name, '"')
    ensures CleanField(Field("TYPE", kind)) && CleanField(Field("GROUP-ID", Quoted(group)))
    ensures CleanField(Field("LANGUAGE", Quoted(language))) && CleanField(Field("NAME", Quoted(name)))
  {
    MediaKeysLack('=');
    MediaKeysLack('"');
    MediaKeysLack(',');
    MediaValuesLack('"', true);
    MediaValuesLack(',', true);
    FixedValues();
    PlainField("TYPE", kind);
    QuotedField("GROUP-ID", group);
    QuotedField("LANGUAGE", language);
    QuotedField("NAME", name);
  }

  lemma FlagFieldsAreClean(b: bool, uri: string)
    requires Lacks(uri, '"')
    ensures CleanField(Field("DEFAULT", YesNo(b))) && CleanField(Field("AUTOSELECT", YesNo(b)))
    ensures CleanField(Field("DEFAULT", "NO")) && CleanField(Field("FORCED", "NO")) && CleanField(Field("URI", Quoted(uri)))
  {
    MediaKeysLack('=');
    MediaKeysLack('"');
    MediaKeysLack(',');
    MediaValuesLack('"', b);
    MediaValuesLack(',', b);
    PlainField("DEFAULT", YesNo(b));
    PlainField("AUTOSELECT", YesNo(b));
    PlainField("DEFAULT", "NO");
    PlainField("FORCED", "NO");
    QuotedField("URI", uri);
  }

  lemma AudioFieldsAreClean(l: Line)
    requires l.AudioMedia? && Lacks(l.language, '"') && Lacks(l.name, '"')
    ensures CleanFields(AudioFields(l)) && AudioFields(l) != []
  {
    UrisLackQuotes(l.index);
    GroupFieldsAreClean("AUDIO", "audio", l.language, l.name);
    FlagFieldsAreClean(l.def, AudioUri(l.index));
    FlagFieldsAreClean(l.autoselect, AudioUri(l.index));
  }

  lemma SubtitleFieldsAreClean(l: Line)
    requires l.SubtitleMedia? && Lacks(l.language, '"') && Lacks(l.name, '"')
    ensures CleanFields(SubtitleFields(l)) && SubtitleFields(l) != []
  {
    UrisLackQuotes(l.index);
    GroupFieldsAreClean("SUBTITLES", "subs", l.language, l.name);
    FlagFieldsAreClean(l.autoselect, SubtitleUri(l.index));
  }

  lemma AudioGives(l: Line, key: string, value: string)
    requires l.AudioMedia? && Lacks(l.language, '"') && Lacks(l.name, '"') && Lacks(key, '=')
    ensures TagGives(Text(l), MEDIA_TAG, key, value) <==> Field(key, value) in AudioFields(l)
  {
    AudioFieldsAreClean(l);
    AudioText(l);
    TagGivesList(MEDIA_TAG, AudioFields(l), key, value);
  }

  lemma SubtitleGives(l: Line, key: string, value: string)
    requires l.SubtitleMedia? && Lacks(l.language, '"') && Lacks(l.name, '"') && Lacks(key, '=')
    ensures TagGives(Text(l), MEDIA_TAG, key, value) <==> Field(key, value) in SubtitleFields(l)
  {
    SubtitleFieldsAreClean(l);
    SubtitleText(l);
    TagGivesList(MEDIA_TAG, SubtitleFields(l), key, value);
  }

  lemma MediaKeysDiffer()
    ensures |"TYPE"| == |"NAME"| == 4 && |"GROUP-ID"| == |"LANGUAGE"| == 8 && |"DEFAULT"| == 7
    ensures |"AUTOSELECT"| == 10 && |"FORCED"| == 6 && |"URI"| == 3 && "TYPE" != "NAME" && "GROUP-ID" != "LANGUAGE"
  {
    assert "TYPE"[0] == 'T' && "NAME"[0] == 'N' && "GROUP-ID"[0] == 'G' && "LANGUAGE"[0] == 'L';
  }

  // What the EXT-X-MEDIA tag of a rendition says.
  ghost predicate MediaReads(
      tag: string, kind: string, group: string, language: string, name: string, def: bool, autoselect: bool, uri: string)
  {
    (forall s :: TagGives(tag, MEDIA_TAG, "TYPE", s) <==> s == kind)
    && (forall s :: TagGives(tag, MEDIA_TAG, "GROUP-ID", s) <==> s == Quoted(group))
    && (forall s :: TagGives(tag, MEDIA_TAG, "LANGUAGE", s) <==> s == Quoted(language))
    && (forall s :: TagGives(tag, MEDIA_TAG, "NAME", s) <==> s == Quoted(name))
    && (forall s :: TagGives(tag, MEDIA_TAG, "DEFAULT", s) <==> s == if def then "YES" else "NO")
    && (forall s :: TagGives(tag, MEDIA_TAG, "AUTOSELECT", s) <==> s == if autoselect then "YES" else "NO")
    && (forall s :: TagGives(tag, MEDIA_TAG, "URI", s) <==> s == Quoted(uri))
  }

  ghost predicate AudioHas(l: Line, key: string, value: string)
    requires l.AudioMedia?
  {
    (key == "TYPE" && value == "AUDIO") || (key == "GROUP-ID" && value == Quoted("audio"))
    || (key == "LANGUAGE" && value == Quoted(l.language)) || (key == "NAME" && value == Quoted(l.name))
    || (key == "DEFAULT" && value == YesNo(l.def)) || (key == "AUTOSELECT" && value == YesNo(l.autoselect))
    || (key == "URI" && value == Quoted(AudioUri(l.index)))
  }

  lemma AudioFieldsAre(l: Line)
    requires l.AudioMedia?
    ensures forall f :: f in AudioFields(l) <==> AudioHas(l, f.key, f.value)
  {
  }

  lemma AudioHasEach(l: Line, s: string)
    requires l.AudioMedia?
    ensures AudioHas(l, "TYPE", s) <==> s == "AUDIO"
    ensures AudioHas(l, "GROUP-ID", s) <==> s == Quoted("audio")
    ensures AudioHas(l, "LANGUAGE", s) <==> s == Quoted(l.language)
    ensures AudioHas(l, "NAME", s) <==> s == Quoted(l.name)
    ensures AudioHas(l, "DEFAULT", s) <==> s == YesNo(l.def)
    ensures AudioHas(l, "AUTOSELECT", s) <==> s == YesNo(l.autoselect)
    ensures AudioHas(l, "URI", s) <==> s == Quoted(AudioUri(l.index))
  {
    MediaKeysDiffer();
  }

  lemma AudioGivesEach(l: Line, s: string)
    requires l.AudioMedia? && Lacks(l.language, '"') && Lacks(l.name, '"')
    ensures TagGives(Text(l), MEDIA_TAG, "TYPE", s) <==> s == "AUDIO"
    ensures TagGives(Text(l), MEDIA_TAG, "GROUP-ID", s) <==> s == Quoted("audio")
    ensures TagGives(Text(l), MEDIA_TAG, "LANGUAGE", s) <==> s == Quoted(l.language)
    ensures TagGives(Text(l), MEDIA_TAG, "NAME", s) <==> s == Quoted(l.name)
    ensures TagGives(Text(l), MEDIA_TAG, "DEFAULT", s) <==> s == YesNo(l.def)
    ensures TagGives(Text(l), MEDIA_TAG, "AUTOSELECT", s) <==> s == YesNo(l.autoselect)
    ensures TagGives(Text(l), MEDIA_TAG, "URI", s) <==> s == Quoted(AudioUri(l.index))
  {
    MediaKeysLack('=');
    AudioFieldsAre(l);
    AudioHasEach(l, s);
    AudioGives(l, "TYPE", s);
    AudioGives(l, "GROUP-ID", s);
    AudioGives(l, "LANGUAGE", s);
    AudioGives(l, "NAME", s);
    AudioGives(l, "DEFAULT", s);
    AudioGives(l, "AUTOSELECT", s);
    AudioGives(l, "URI", s);
  }

  ghost predicate SubtitleHas(l: Line, key: string, value: string)
    requires l.SubtitleMedia?
  {
    (key == "TYPE" && value == "SUBTITLES") || (key == "GROUP-ID" && value == Quoted("subs"))
    || (key == "LANGUAGE" && value == Quoted(l.language)) || (key == "NAME" && value == Quoted(l.name))
    || (key == "DEFAULT" && value == "NO") || (key == "AUTOSELECT" && value == YesNo(l.autoselect))
    || (key == "FORCED" && value == "NO") || (key == "URI" && value == Quoted(SubtitleUri(l.index)))
  }

  lemma SubtitleFieldsAre(l: Line)
    requires l.SubtitleMedia?
    ensures forall f :: f in SubtitleFields(l) <==> SubtitleHas(l, f.key, f.value)
  {
  }

  lemma SubtitleHasEach(l: Line, s: string)
    requires l.SubtitleMedia?
    ensures SubtitleHas(l, "TYPE", s) <==> s == "SUBTITLES"
    ensures SubtitleHas(l, "GROUP-ID", s) <==> s == Quoted("subs")
    ensures SubtitleHas(l, "LANGUAGE", s) <==> s == Quoted(l.language)
    ensures SubtitleHas(l, "NAME", s) <==> s == Quoted(l.name)
    ensures SubtitleHas(l, "DEFAULT", s) <==> s == "NO"
    ensures SubtitleHas(l, "AUTOSELECT", s) <==> s == YesNo(l.autoselect)
    ensures SubtitleHas(l, "FORCED", s) <==> s == "NO"
    ensures SubtitleHas(l, "URI", s) <==> s == Quoted(SubtitleUri(l.index))
  {
    MediaKeysDiffer();
  }

  lemma SubtitleGivesEach(l: Line, s: string)
    requires l.SubtitleMedia? && Lacks(l.language, '"') && Lacks(l.name, '"')
    ensures TagGives(Text(l), MEDIA_TAG, "TYPE", s) <==> s == "SUBTITLES"
    ensures TagGives(Text(l), MEDIA_TAG, "GROUP-ID", s) <==> s == Quoted("subs")
    ensures TagGives(Text(l), MEDIA_TAG, "LANGUAGE", s) <==> s == Quoted(l.language)
    ensures TagGives(Text(l), MEDIA_TAG, "NAME", s) <==> s == Quoted(l.name)
    ensures TagGives(Text(l), MEDIA_TAG, "DEFAULT", s) <==> s == "NO"
    ensures TagGives(Text(l), MEDIA_TAG, "AUTOSELECT", s) <==> s == YesNo(l.autoselect)
    ensures TagGives(Text(l), MEDIA_TAG, "FORCED", s) <==> s == "NO"
    ensures TagGives(Text(l), MEDIA_TAG, "URI", s) <==> s == Quoted(SubtitleUri(l.index))
  {
    MediaKeysLack('=');
    SubtitleFieldsAre(l);
    SubtitleHasEach(l, s);
    SubtitleGives(l, "TYPE", s);
    SubtitleGives(l, "GROUP-ID", s);
    SubtitleGives(l, "LANGUAGE", s);
    SubtitleGives(l, "NAME", s);
    SubtitleGives(l, "DEFAULT", s);
    SubtitleGives(l, "AUTOSELECT", s);
    SubtitleGives(l, "FORCED", s);
    SubtitleGives(l, "URI", s);
  }

  lemma AudioReads(l: Line)
    requires l.AudioMedia? && Lacks(l.language, '"') && Lacks(l.name, '"')
    ensures MediaReads(Text(l), "AUDIO", "audio", l.language, l.name, l.def, l.autoselect, AudioUri(l.index))
  {
    forall s {
      AudioGivesEach(l, s);
    }
  }

  lemma SubtitleReads(l: Line)
    requires l.SubtitleMedia? && Lacks(l.language, '"') && Lacks(l.name, '"')
    ensures MediaReads(Text(l), "SUBTITLES", "subs", l.language, l.name, false, l.autoselect, SubtitleUri(l.index))
    ensures forall s :: TagGives(Text(l), MEDIA_TAG, "FORCED", s) <==> s == "NO"
  {
    forall s {
      SubtitleGivesEach(l, s);
    }
  }
}
