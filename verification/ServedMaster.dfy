// The master playlist as the proxy serves it: printed, filtered and rewritten,
// with links that lead back to the playlists they were printed for.
module ServedMaster {
  import opened Prelude
  import opened Strings
  import opened Ladder
  import opened MasterPlaylist
  import opened PrintedLines
  import opened ManifestFilter
  import opened FilterAgreement
  import opened TrackAgreement
  import opened ManifestRewrite

  // The playlist a printed line refers to.
  function Reference(l: Line): Option<string> {
    if IsTag(l) then Some(Attrs(l)[|Attrs(l)| - 1].value)
    else if l.Uri? then Some(VariantUri(l.variant))
    else None
  }

  function WithUri(attrs: seq<Attr>, uri: string): seq<Attr>
    requires attrs != []
  {
    var n := |attrs| - 1;
    attrs[n := Attr(attrs[n].key, uri)]
  }

  // The line with its reference replaced by a link to the proxy.
  function Linked(l: Line, t: Links): string {
    if Reference(l).None? then Text(l)
    else
      var link := Link(PROXY, t, Reference(l).value);
      if IsTag(l) then TagText(WithUri(Attrs(l), link)) else link
  }

  function LinkedTexts(lines: seq<Line>, t: Links): seq<string> {
    seq(|lines|, i requires 0 <= i < |lines| => Linked(lines[i], t))
  }

  // ---- One line -------------------------------------------------------------------------

  // Tags that carry no link, and blank lines, stay as they are.
  ghost predicate Untouched(s: string) {
    s == "" || (s[0] == '#' && !HasPrefix(s, MAP_TAG) && !HasPrefix(s, MEDIA_TAG) && !HasPrefix(s, IMAGES_HEAD))
  }

  ghost predicate Servable(l: Line) { CleanLine(l) && (l.Fixed? ==> Untouched(l.text)) }

  ghost predicate AllServable(lines: seq<Line>) { forall i | 0 <= i < |lines| :: Servable(lines[i]) }

  lemma TagEndsVisible(p: string)
    requires p == MAP_TAG || p == MEDIA_TAG || p == IMAGES_HEAD
    ensures p != [] && p[0] == '#' && !IsSpace(p[|p| - 1])
  {
    assert MAP_TAG[|MAP_TAG| - 1] == ':' && MEDIA_TAG[|MEDIA_TAG| - 1] == ':' && IMAGES_HEAD[|IMAGES_HEAD| - 1] == ':';
  }

  lemma UntouchedStays(s: string, t: Links)
    requires Untouched(s)
    ensures RewriteLine(s, t) == s
  {
    if s != "" {
      TagEndsVisible(MAP_TAG);
      TagEndsVisible(MEDIA_TAG);
      TagEndsVisible(IMAGES_HEAD);
      TrimKeepsPrefix(s, MAP_TAG);
      TrimKeepsPrefix(s, MEDIA_TAG);
      TrimKeepsPrefix(s, IMAGES_HEAD);
      StartsWithHash(TrimSpace(s));
    }
  }

  lemma StartsWithHash(s: string)
    requires s != "" && s[0] == '#'
    ensures HasPrefix(s, "#")
  {
  }

  lemma StreamTextStays(l: Line, t: Links)
    requires l.StreamInf?
    ensures RewriteLine(Text(l), t) == Text(l)
  {
    InfIsUntouched(Text(l));
    UntouchedStays(Text(l), t);
  }

  lemma InfIsUntouched(s: string)
    requires HasPrefix(s, STREAM_INF)
    ensures Untouched(s)
  {
    assert STREAM_INF[7] == 'S' && MAP_TAG[7] == MEDIA_TAG[7] == 'M' && IMAGES_HEAD[7] == 'I' && STREAM_INF[0] == '#';
    assert s[7] == STREAM_INF[7] && s[0] == STREAM_INF[0];
  }

  lemma TagIsLinked(l: Line, t: Links)
    requires CleanLine(l) && IsTag(l)
    ensures RewriteLine(Text(l), t) == Linked(l, t)
  {
    TagTrims(l);
    TagKind(l);
    LinkTagKind(l);
    TagIsRewritten(l, t);
  }

  lemma TagIsRewritten(l: Line, t: Links)
    requires CleanLine(l) && IsTag(l)
    ensures RewriteTag(Text(l), t, PROXY) == Linked(l, t)
  {
    TagValue(l);
    TagIsClean(l);
    TagUri(Attrs(l), Link(PROXY, t, Reference(l).value));
  }

  lemma LinkTagKind(l: Line)
    requires IsTag(l)
    ensures !HasPrefix(Text(l), MAP_TAG) && (HasPrefix(Text(l), MEDIA_TAG) || HasPrefix(Text(l), IMAGES_HEAD))
  {
    HeadKinds();
    TagStarts(Attrs(l), MAP_TAG);
    TagStarts(Attrs(l), MEDIA_TAG);
    TagStarts(Attrs(l), IMAGES_HEAD);
  }

  lemma HeadKinds()
    ensures HasPrefix(AUDIO_HEAD, MEDIA_TAG) && !HasPrefix(AUDIO_HEAD, MAP_TAG)
    ensures HasPrefix(SUBTITLES_HEAD, MEDIA_TAG) && !HasPrefix(SUBTITLES_HEAD, MAP_TAG)
    ensures !HasPrefix(IMAGES_HEAD, MAP_TAG)
    ensures |MAP_TAG| <= |MEDIA_TAG| <= |IMAGES_HEAD| <= |AUDIO_HEAD| <= |SUBTITLES_HEAD|
    ensures forall s: string :: !HasPrefix(IMAGES_HEAD + s, MAP_TAG)
  {
    assert MAP_TAG[8] == 'A' && AUDIO_HEAD[8] == 'E' && SUBTITLES_HEAD[8] == 'E' && IMAGES_HEAD[8] == 'M';
    assert forall s: string :: (IMAGES_HEAD + s)[8] == 'M';
  }

  lemma UriIsLinked(v: Variant, t: Links)
    requires OneLine(Uri(v))
    ensures RewriteLine(VariantUri(v), t) == Link(PROXY, t, VariantUri(v))
  {
    var s := VariantUri(v);
    UriText(v, "");
    assert s == v.codec.name + "/" + v.quality.name + "/index" + MANIFEST;
    EndsInManifest(v.codec.name + "/" + v.quality.name + "/index");
    assert s[0] == v.codec.name[0];
    TagEndsVisible(MAP_TAG);
    TagEndsVisible(MEDIA_TAG);
    TagEndsVisible(IMAGES_HEAD);
  }

  lemma EndsInManifest(s: string)
    ensures HasSuffix(s + MANIFEST, MANIFEST)
  {
  }

  lemma LineIsLinked(l: Line, t: Links)
    requires Servable(l)
    ensures RewriteLine(Text(l), t) == Linked(l, t)
  {
    if IsTag(l) {
      TagIsLinked(l, t);
    } else if l.Fixed? {
      UntouchedStays(l.text, t);
    } else if l.StreamInf? {
      StreamTextStays(l, t);
    } else {
      UriIsLinked(l.variant, t);
    }
  }

  // Rewriting a printed playlist replaces the references of its lines by links,
  // and nothing else.
  lemma RewritingPrinted(lines: seq<Line>, t: Links)
    requires AllServable(lines)
    ensures Rewritten(Print(lines), t) == Unlines(LinkedTexts(lines, t))
  {
    SplitPrinted(lines);
    var texts := Texts(lines) + [""];
    forall i | 0 <= i < |lines| ensures Rewriter(t)(texts[i]) == LinkedTexts(lines, t)[i] {
      LineIsLinked(lines[i], t);
    }
    UntouchedStays("", t);
    assert Each(texts, Rewriter(t)) == LinkedTexts(lines, t) + [""];
    UnlinesIsJoin(LinkedTexts(lines, t));
  }

  // A player finds the link where the reference was.
  lemma LinkIsFound(l: Line, t: Links)
    requires CleanLine(l) && Reference(l).Some? && CleanLinks(t) && Lacks(t.base, '"')
    ensures (if IsTag(l) then UriValue(Linked(l, t)) else Some(Linked(l, t))) == Some(Link(PROXY, t, Reference(l).value))
  {
    if IsTag(l) {
      TagIsClean(l);
      PrefixesLack('"');
      LinkLacks(PROXY, t, Reference(l).value, '"');
      UriIsFound(Attrs(l), Link(PROXY, t, Reference(l).value));
    }
  }

  lemma UriIsFound(attrs: seq<Attr>, uri: string)
    requires CleanTag(attrs) && Lacks(uri, '"')
    ensures UriValue(TagText(WithUri(attrs, uri))) == Some(uri)
  {
    TagUri(WithUri(attrs, uri), "");
  }

  // ---- The references of a master playlist ------------------------------------------------

  // Names that can be path segments.
  ghost predicate PlainNames(l: Line) {
    l.Uri? ==> PlainSegment(l.variant.codec.name) && PlainSegment(l.variant.quality.name)
               && Lacks(l.variant.quality.name, '/')
  }

  lemma FileIsPlain()
    ensures PlainSegment("index.m3u8") && Lacks("index.m3u8", '/')
    ensures PlainSegment("audio") && Lacks("audio", '/') && PlainSegment("subs") && Lacks("subs", '/')
    ensures PlainSegment("images") && Lacks("images", '/')
  {
  }

  lemma NumberIsPlain(n: nat)
    ensures PlainSegment(Decimal(n)) && Lacks(Decimal(n), '/')
  {
    var s := Decimal(n);
    DecimalLacks(n, '/');
    DecimalLacks(n, '.');
    DecimalLacks(n, '\\');
    DecimalLacks(n, '?');
    DecimalLacks(n, '#');
    DecimalLacks(n, '%');
    assert s[0] != '.';
  }

  lemma TwoSegments(a: string, b: string)
    requires PlainSegment(a) && PlainSegment(b) && Lacks(a, '/') && Lacks(b, '/')
    ensures PlainSegments(Split(a + "/" + b, '/')) && Split(a + "/" + b, '/') == [a, b]
  {
    SplitAcross(a, '/', b);
    SplitOne(b, '/');
    assert a + ['/'] + b == a + "/" + b;
    assert [a] + [b] == [a, b];
  }

  lemma ThreeSegments(a: string, b: string, c: string)
    requires PlainSegment(a) && PlainSegment(b) && PlainSegment(c) && Lacks(a, '/') && Lacks(b, '/') && Lacks(c, '/')
    ensures PlainSegments(Split(a + "/" + (b + "/" + c), '/'))
  {
    TwoSegments(b, c);
    SplitAcross(a, '/', b + "/" + c);
    assert a + ['/'] + (b + "/" + c) == a + "/" + (b + "/" + c);
    assert Split(a + "/" + (b + "/" + c), '/') == [a] + [b, c];
  }

  ghost predicate GoodReference(ref: string) {
    PlainSegments(Split(ref, '/')) && HasSuffix(ref, MANIFEST) && !HasPrefix(ref, "/") && Lacks(ref, '?') && Lacks(ref, '#')
  }

  lemma PlainIsGood(ref: string)
    requires PlainSegments(Split(ref, '/')) && HasSuffix(ref, MANIFEST)
    ensures GoodReference(ref)
  {
    var parts := Split(ref, '/');
    forall i | 0 <= i < |parts| ensures Lacks(parts[i], '?') && Lacks(parts[i], '#') {
      PlainSegmentLacks(parts[i]);
    }
    JoinLacks(parts, '/', '?');
    JoinLacks(parts, '/', '#');
    JoinSplit(ref, '/');
    if HasPrefix(ref, "/") {
      RootedSegments(ref);
    }
  }

  lemma ThreeAreGood(a: string, b: string)
    requires PlainSegment(a) && PlainSegment(b) && Lacks(a, '/') && Lacks(b, '/')
    ensures GoodReference(a + "/" + b + "/index.m3u8")
  {
    FileIsPlain();
    ThreeSegments(a, b, "index.m3u8");
    EndsInManifest(a + "/" + b + "/index");
    Assembled(a, b);
    PlainIsGood(a + "/" + b + "/index.m3u8");
  }

  lemma Assembled(a: string, b: string)
    ensures a + "/" + b + "/index.m3u8" == a + "/" + (b + "/" + "index.m3u8")
    ensures a + "/" + b + "/index.m3u8" == a + "/" + b + "/index" + MANIFEST
  {
    assert "/index.m3u8" == "/" + "index.m3u8" && "/index.m3u8" == "/index" + MANIFEST;
  }

  lemma NumberedIsGood(dir: string, n: nat)
    requires PlainSegment(dir) && Lacks(dir, '/')
    ensures GoodReference(dir + "/" + Decimal(n) + "/index.m3u8")
  {
    NumberIsPlain(n);
    ThreeAreGood(dir, Decimal(n));
  }

  lemma ImagesAreGood()
    ensures GoodReference(IMAGES_URI)
  {
    FileIsPlain();
    TwoSegments("images", "index.m3u8");
    ImagesSegments();
    ImagesSuffix();
    EndsInManifest("images/index");
    PlainIsGood(IMAGES_URI);
  }

  lemma ImagesSegments()
    ensures IMAGES_URI == "images" + "/" + "index.m3u8"
  {
  }

  lemma ImagesSuffix()
    ensures IMAGES_URI == "images/index" + MANIFEST
  {
  }

  lemma ReferenceIsGood(l: Line)
    requires CleanLine(l) && Reference(l).Some? && PlainNames(l)
    ensures GoodReference(Reference(l).value)
  {
    FileIsPlain();
    match l
    case AudioMedia(_, _, _, _, index) =>
      NumberedIsGood("audio", index);
      assert "audio" + "/" == "audio/";
    case SubtitleMedia(_, _, _, index) =>
      NumberedIsGood("subs", index);
      assert "subs" + "/" == "subs/";
    case ImageStream(_) => ImagesAreGood();
    case Uri(v) => ThreeAreGood(v.codec.name, v.quality.name);
  }

  // ---- End to end ----------------------------------------------------------------------------

  // The lines left of a master playlist by the query of a request.
  ghost function ServedLines(p: Params, q: Query): seq<Line> {
    FlatMap(Head(p) + ServedTail(p, q), LineKeeper(q.audio, q.subs))
  }

  ghost function ServedTail(p: Params, q: Query): seq<Line> {
    if q.codec != "" then TailFor(p, q.codec) else VariantLines(p, p.variants)
  }

  ghost predicate CleanQuery(q: Query) { Lacks(q.codec, '/') && Lacks(q.audio, '/') && Lacks(q.subs, '/') }

  lemma FilteredIsPrinted(p: Params, rest: string, q: Query)
    requires CleanParams(p) && CleanQuery(q) && HasSuffix(rest, "master.m3u8")
    ensures Filtered(Print(MasterLines(p)), rest, q) == Print(ServedLines(p, q))
    ensures CleanLines(ServedLines(p, q))
  {
    var lines := Head(p) + ServedTail(p, q);
    MasterIsClean(p);
    KeptAreClean(p, p.variants, q.codec);
    VariantLinesAreClean(p, p.variants);
    if q.codec != "" {
      CodecOnPrinted(p, q.codec);
    }
    TracksOnPrinted(lines, q.audio, q.subs);
    KeptTracksAreClean(lines, q.audio, q.subs);
    if q.audio == "" && q.subs == "" {
      KeepsAll(lines);
    }
  }

  lemma KeepsAll(lines: seq<Line>)
    ensures FlatMap(lines, LineKeeper("", "")) == lines
  {
    FlatMapIdentity(lines, LineKeeper("", ""));
  }

  // Where a served line comes from.
  ghost predicate Printable(p: Params, l: Line) {
    (l.Fixed? ==> l in PREAMBLE) && (l.Uri? ==> l.variant in p.variants)
  }

  ghost predicate AllPrintable(p: Params, lines: seq<Line>) { forall i | 0 <= i < |lines| :: Printable(p, lines[i]) }

  lemma {:induction false} KeptArePrintable(p: Params, lines: seq<Line>, audio: string, subs: string)
    requires AllPrintable(p, lines)
    ensures AllPrintable(p, FlatMap(lines, LineKeeper(audio, subs)))
  {
    if lines != [] {
      KeptArePrintable(p, lines[1..], audio, subs);
    }
  }

  lemma {:induction false} VariantsArePrintable(p: Params, vs: seq<Variant>, codec: string)
    requires forall i | 0 <= i < |vs| :: vs[i] in p.variants
    ensures AllPrintable(p, VariantLines(p, vs)) && AllPrintable(p, KeptLines(p, vs, codec))
  {
    BlankInPreamble();
    if vs != [] {
      VariantsArePrintable(p, vs[1..], codec);
    }
  }

  lemma BlankInPreamble()
    ensures BLANK in PREAMBLE
  {
    assert PREAMBLE[3] == BLANK;
  }

  lemma HeadIsPrintable(p: Params)
    ensures AllPrintable(p, Head(p))
  {
    BlankInPreamble();
    PreambleIsFixed();
    HeadMembers(p, AudioLines(p.audio), SubtitleLines(p.subtitles));
    forall l | l in Head(p) ensures Printable(p, l) {
      assert l in PREAMBLE || l in AudioLines(p.audio) || l == BLANK || l in SubtitleLines(p.subtitles) || l.ImageStream?;
    }
  }

  lemma PreambleIsFixed()
    ensures forall l | l in PREAMBLE :: l.Fixed?
  {
  }

  lemma PreambleIsUntouched()
    ensures forall l | l in PREAMBLE :: Untouched(l.text)
  {
    assert MAP_TAG[4] == MEDIA_TAG[4] == IMAGES_HEAD[4] == '-' && MAP_TAG[7] == MEDIA_TAG[7] == 'M';
    assert IMAGES_HEAD[7] == 'I' && MAP_TAG[8] == 'A' && MEDIA_TAG[8] == 'E' && IMAGES_HEAD[8] == 'M';
    OtherTag("#EXTM3U", 4);
    OtherTag("#EXT-X-VERSION:6", 7);
    OtherTag("#EXT-X-INDEPENDENT-SEGMENTS", 8);
  }

  lemma OtherTag(s: string, k: nat)
    requires k < |s| && k < |MAP_TAG| && k < |MEDIA_TAG| && k < |IMAGES_HEAD| && s[0] == '#'
    requires s[k] != MAP_TAG[k] && s[k] != MEDIA_TAG[k] && s[k] != IMAGES_HEAD[k]
    ensures Untouched(s)
  {
  }

  lemma ServedArePrintable(p: Params, q: Query)
    ensures AllPrintable(p, ServedLines(p, q))
  {
    HeadIsPrintable(p);
    VariantsArePrintable(p, p.variants, q.codec);
    KeptArePrintable(p, Head(p) + ServedTail(p, q), q.audio, q.subs);
  }

  ghost predicate PlainVariants(vs: seq<Variant>) {
    forall v | v in vs :: PlainSegment(v.codec.name) && PlainSegment(v.quality.name) && Lacks(v.quality.name, '/')
  }

  // What the proxy answers for the master playlist printed from `p`: the lines
  // the query leaves, each with its reference replaced by a link.
  lemma ServedMaster(p: Params, target: Target, q: Query)
    requires CleanParams(p) && CleanQuery(q) && HasSuffix(target.rest, "master.m3u8")
    ensures Served(Ok(Print(MasterLines(p))), target, q)
            == Ok(Unlines(LinkedTexts(ServedLines(p, q), LinksFor(target, q.token))))
  {
    FilteredIsPrinted(p, target.rest, q);
    ServedArePrintable(p, q);
    PreambleIsUntouched();
    RewritingPrinted(ServedLines(p, q), LinksFor(target, q.token));
  }

  lemma ServedReferenceIsGood(p: Params, q: Query, i: nat)
    requires PlainVariants(p.variants) && i < |ServedLines(p, q)| && CleanLine(ServedLines(p, q)[i])
    requires Reference(ServedLines(p, q)[i]).Some?
    ensures GoodReference(Reference(ServedLines(p, q)[i]).value)
  {
    ServedArePrintable(p, q);
    ReferenceIsGood(ServedLines(p, q)[i]);
  }

  // Every link a player finds in the answer leads back through the proxy to the
  // same video and to the playlist the line was printed for, in the directory of
  // the master playlist, as long as that path is not too long.
  lemma ServedLinksLeadBack(p: Params, target: Target, q: Query, isUuid: string -> bool, i: nat)
    requires CleanParams(p) && CleanQuery(q) && PlainVariants(p.variants)
    requires IsManifestPath(target.rest) && HasSuffix(target.rest, "master.m3u8") && Lacks(target.rest, '"')
    requires isUuid(target.videoId) && CleanLinks(LinksFor(target, q.token))
    requires i < |ServedLines(p, q)| && Reference(ServedLines(p, q)[i]).Some?
    ensures var (l, t) := (ServedLines(p, q)[i], LinksFor(target, q.token));
            var path := Merge(target.rest, Reference(l).value);
            var link := Link(PROXY, t, Reference(l).value);
            (if IsTag(l) then UriValue(Linked(l, t)) else Some(Linked(l, t))) == Some(link)
            && Route(UrlPath(link), isUuid)
               == if Utf8Length(path) <= 512 then Ok(Target(target.videoId, path)) else Err(InvalidManifestPath)
  {
    var l, t := ServedLines(p, q)[i], LinksFor(target, q.token);
    FilteredIsPrinted(p, target.rest, q);
    ServedReferenceIsGood(p, q, i);
    LinkRoundTrip(target, q.token, Reference(l).value, isUuid);
    LinkIsFound(l, t);
  }
}
