// WriteMasterManifest: the text of the master playlist, and its rendition groups.
module MasterPlaylist {
  import opened Prelude
  import opened Strings
  import opened Ladder
  import opened Bandwidth
  import opened AttributeLists

  datatype Track = Track(index: nat, language: string, title: string)

  datatype Images = Images(bandwidth: nat, width: nat, height: nat)

  // `measured` and `audioMeasured` come from the segment files; `codecs` is the
  // CODECS attribute of a variant, `frameRate` the printed rate, "" when unknown;
  // `images` is set when images/index.m3u8 exists.
  datatype Params = Params(
    variants: seq<Variant>,
    audio: seq<Track>,
    subtitles: seq<Track>,
    images: Option<Images>,
    measured: Variant -> Option<Measured>,
    audioMeasured: seq<Option<Measured>>,
    codecs: Variant -> string,
    frameRate: string)

  // ---- Names ------------------------------------------------------------------------

  function DisplayName(t: Track, i: nat): string {
    if t.title != "" then t.title
    else if t.language != "" then t.language
    else "Track " + Decimal(i + 1)
  }

  function DisplayNames(tracks: seq<Track>): seq<string> {
    seq(|tracks|, i requires 0 <= i < |tracks| => DisplayName(tracks[i], i))
  }

  function Language(t: Track): string { if t.language == "" then "und" else t.language }

  // How often `name` occurs among the first n names.
  function Occurrences(names: seq<string>, name: string, n: nat): nat
    requires n <= |names|
  {
    if n == 0 then 0 else Occurrences(names, name, n - 1) + if names[n - 1] == name then 1 else 0
  }

  function Numbered(base: string, k: nat): string { if k == 1 then base else base + " " + Decimal(k) }

  // The NAME of track i: its base name, numbered from the second use on.
  function RenditionName(bases: seq<string>, i: nat): string
    requires i < |bases|
  {
    Numbered(bases[i], Occurrences(bases, bases[i], i + 1))
  }

  // nameSet: how often each base name was handed out.
  class NameSet {
    var used: map<string, nat>
    ghost var bases: seq<string>   // every base name so far

    ghost predicate Valid()
      reads this
    {
      forall name :: Occurrences(bases, name, |bases|) == if name in used then used[name] else 0
    }

    constructor ()
      ensures Valid() && bases == []
    {
      used, bases := map[], [];
    }

    method Unique(base: string) returns (name: string)
      requires Valid()
      modifies this
      ensures Valid() && bases == old(bases) + [base]
      ensures name == RenditionName(bases, |old(bases)|)
    {
      var n := (if base in used then used[base] else 0) + 1;
      used := used[base := n];
      bases := bases + [base];
      forall x ensures Occurrences(bases, x, |old(bases)|) == Occurrences(old(bases), x, |old(bases)|) {
        SameOccurrences(bases, old(bases), x, |old(bases)|);
      }
      if n == 1 {
        return base;
      }
      name := base + " " + Decimal(n);
    }
  }

  lemma {:induction false} SameOccurrences(a: seq<string>, b: seq<string>, name: string, n: nat)
    requires n <= |a| && n <= |b| && a[..n] == b[..n]
    ensures Occurrences(a, name, n) == Occurrences(b, name, n)
  {
    if n > 0 {
      assert a[..n][n - 1] == b[..n][n - 1] && a[..n][..n - 1] == a[..n - 1] && b[..n][..n - 1] == b[..n - 1];
      SameOccurrences(a, b, name, n - 1);
    }
  }

  lemma {:induction false} OccurrencesGrow(names: seq<string>, name: string, i: nat, k: nat)
    requires i <= k <= |names|
    ensures Occurrences(names, name, i) <= Occurrences(names, name, k)
    ensures i < k && names[k - 1] == name ==> Occurrences(names, name, i) < Occurrences(names, name, k)
    decreases k
  {
    if i < k {
      OccurrencesGrow(names, name, i, k - 1);
    }
  }

  lemma {:induction false} FirstUse(names: seq<string>, i: nat) returns (first: nat)
    requires i < |names|
    ensures first <= i && names[first] == names[i] && Occurrences(names, names[i], first + 1) == 1
  {
    if Occurrences(names, names[i], i) == 0 {
      first := i;
    } else {
      var k := LastUse(names, names[i], i);
      first := FirstUse(names, k);
    }
  }

  lemma {:induction false} LastUse(names: seq<string>, name: string, n: nat) returns (k: nat)
    requires n <= |names| && Occurrences(names, name, n) > 0
    ensures k < n && names[k] == name
  {
    if names[n - 1] == name {
      k := n - 1;
    } else {
      k := LastUse(names, name, n - 1);
    }
  }

  // A base name that equals another base name followed by a space and the
  // number of one of its repetitions, as in "eng", "eng", "eng 2".
  ghost predicate Clash(bases: seq<string>) {
    exists i, k | 0 <= i < |bases| && 0 <= k < |bases| ::
      Occurrences(bases, bases[k], k + 1) >= 2
      && bases[i] == bases[k] + " " + Decimal(Occurrences(bases, bases[k], k + 1))
  }

  // The NAMEs of a rendition group are pairwise distinct, as RFC 8216 section
  // 4.3.4.1.1 requires, exactly when no base name clashes with a numbered one.
  lemma NamesAreDistinct(bases: seq<string>)
    ensures (forall i, k | 0 <= i < k < |bases| :: RenditionName(bases, i) != RenditionName(bases, k))
            <==> !Clash(bases)
  {
    if Clash(bases) {
      var i, k :| 0 <= i < |bases| && 0 <= k < |bases|
                  && Occurrences(bases, bases[k], k + 1) >= 2
                  && bases[i] == bases[k] + " " + Decimal(Occurrences(bases, bases[k], k + 1));
      var first := FirstUse(bases, i);
      assert RenditionName(bases, first) == bases[i] == RenditionName(bases, k);
      assert first != k;
    } else {
      forall i, k | 0 <= i < k < |bases| ensures RenditionName(bases, i) != RenditionName(bases, k) {
        SameNameClashes(bases, i, k);
      }
    }
  }

  // Such names do occur: two untitled English tracks and one called "eng 2".
  lemma EnglishTracksClash()
    ensures var tracks := [Track(0, "eng", ""), Track(1, "eng", ""), Track(2, "eng", "eng 2")];
            Clash(DisplayNames(tracks))
            && RenditionName(DisplayNames(tracks), 1) == "eng 2" == RenditionName(DisplayNames(tracks), 2)
  {
    var tracks := [Track(0, "eng", ""), Track(1, "eng", ""), Track(2, "eng", "eng 2")];
    EnglishNames();
    assert DisplayNames(tracks) == ["eng", "eng", "eng 2"];
  }

  lemma EnglishNames()
    ensures var bases := ["eng", "eng", "eng 2"];
            Clash(bases) && RenditionName(bases, 1) == "eng 2" == RenditionName(bases, 2)
  {
    var bases := ["eng", "eng", "eng 2"];
    NumberedTwo();
    Differ();
    assert Occurrences(bases, "eng", 0) == Occurrences(bases, "eng 2", 0) == 0;
    assert Occurrences(bases, "eng", 1) == 1 && Occurrences(bases, "eng", 2) == 2;
    assert Occurrences(bases, "eng 2", 1) == 0 && Occurrences(bases, "eng 2", 2) == 0;
    assert Occurrences(bases, "eng 2", 3) == 1;
    assert bases[2] == bases[1] + " " + Decimal(Occurrences(bases, bases[1], 1 + 1));
  }

  lemma NumberedTwo()
    ensures "eng" + " " + Decimal(2) == "eng 2"
  {
    assert Decimal(2) == "2";
  }

  lemma Differ()
    ensures "eng" != "eng 2"
  {
    assert |"eng"| != |"eng 2"|;
  }

  lemma SameNameClashes(bases: seq<string>, i: nat, k: nat)
    requires i < k < |bases|
    ensures RenditionName(bases, i) == RenditionName(bases, k) ==> Clash(bases)
  {
    var n, m := Occurrences(bases, bases[i], i + 1), Occurrences(bases, bases[k], k + 1);
    if n >= 2 && m >= 2 {
      if RenditionName(bases, i) == RenditionName(bases, k) {
        DecimalLacks(n, ' ');
        DecimalLacks(m, ' ');
        SameSplit(bases[i], Decimal(n), bases[k], Decimal(m), ' ');
        DecimalInjective(n, m);
        OccurrencesGrow(bases, bases[k], i + 1, k + 1);
      }
    } else {
      OccurrencesGrow(bases, bases[i], 0, i + 1);
      OccurrencesGrow(bases, bases[k], 0, k + 1);
      if bases[i] == bases[k] {
        OccurrencesGrow(bases, bases[k], i + 1, k + 1);
        LongerName(bases[i], m);
      }
    }
  }

  lemma LongerName(base: string, k: nat)
    ensures base != base + " " + Decimal(k)
  {
    assert |base| < |base + " " + Decimal(k)|;
  }

  // ---- Tags --------------------------------------------------------------------------------

  // A piece of a tag: some text, then a quoted value.
  datatype Attr = Attr(key: string, value: string)

  function TagText(attrs: seq<Attr>): string {
    if attrs == [] then ""
    else attrs[0].key + "\"" + (attrs[0].value + "\"" + TagText(attrs[1..]))
  }

  function YesNo(b: bool): string { if b then "YES" else "NO" }

  function AudioUri(index: nat): string { "audio/" + Decimal(index) + "/index.m3u8" }

  function SubtitleUri(index: nat): string { "subs/" + Decimal(index) + "/index.m3u8" }

  const IMAGES_URI := "images/index.m3u8"

  function VariantUri(v: Variant): string { v.codec.name + "/" + v.quality.name + "/index.m3u8" }

  const AUDIO_HEAD := "#EXT-X-MEDIA:TYPE=AUDIO,GROUP-ID="
  const SUBTITLES_HEAD := "#EXT-X-MEDIA:TYPE=SUBTITLES,GROUP-ID="
  const IMAGES_HEAD := "#EXT-X-IMAGE-STREAM-INF:"

  function AudioFlags(def: bool, autoselect: bool): string {
    ",DEFAULT=" + YesNo(def) + ",AUTOSELECT=" + YesNo(autoselect) + ",URI="
  }

  function SubtitleFlags(autoselect: bool): string { ",DEFAULT=NO,AUTOSELECT=" + YesNo(autoselect) + ",FORCED=NO,URI=" }

  function AudioAttrs(language: string, name: string, def: bool, autoselect: bool, index: nat): seq<Attr> {
    [Attr(AUDIO_HEAD, "audio"), Attr(",LANGUAGE=", language), Attr(",NAME=", name),
     Attr(AudioFlags(def, autoselect), AudioUri(index))]
  }

  function SubtitleAttrs(language: string, name: string, autoselect: bool, index: nat): seq<Attr> {
    [Attr(SUBTITLES_HEAD, "subs"), Attr(",LANGUAGE=", language), Attr(",NAME=", name),
     Attr(SubtitleFlags(autoselect), SubtitleUri(index))]
  }

  function ImageAttrs(m: Images): seq<Attr> {
    [Attr(IMAGES_HEAD + ImageNumbers(Decimal(m.bandwidth), Decimal(m.width), Decimal(m.height)), "jpeg"),
     Attr(",URI=", IMAGES_URI)]
  }

  function ImageNumbers(bandwidth: string, width: string, height: string): string {
    "BANDWIDTH=" + bandwidth + ",RESOLUTION=" + width + "x" + height + ",CODECS="
  }

  // Only the first track of a language may be selected automatically.
  predicate FirstOfLanguage(tracks: seq<Track>, i: nat)
    requires i < |tracks|
  {
    forall k | 0 <= k < i :: Language(tracks[k]) != Language(tracks[i])
  }

  // Each language has exactly one track with AUTOSELECT=YES, its first.
  lemma {:induction false} OneAutoselectPerLanguage(tracks: seq<Track>, i: nat) returns (first: nat)
    requires i < |tracks|
    ensures first <= i && Language(tracks[first]) == Language(tracks[i])
    ensures forall k | 0 <= k < |tracks| && Language(tracks[k]) == Language(tracks[i]) ::
              FirstOfLanguage(tracks, k) <==> k == first
  {
    if FirstOfLanguage(tracks, i) {
      first := i;
    } else {
      var k :| 0 <= k < i && Language(tracks[k]) == Language(tracks[i]);
      first := OneAutoselectPerLanguage(tracks, k);
    }
  }

  // ---- Variants ------------------------------------------------------------------------------

  function EstimateForHeight(h: nat): nat {
    if h >= 2160 then 15000 else if h >= 1440 then 8000 else if h >= 1080 then 5000 else if h >= 720 then 2500 else 800
  }

  // BANDWIDTH and AVERAGE-BANDWIDTH; the fallback estimate reports no average.
  function Bandwidths(p: Params, v: Variant): (nat, nat) {
    if p.measured(v).Some? then
      (p.measured(v).value.peak + HeaviestPeak(p.audioMeasured),
       p.measured(v).value.average + HeaviestAverage(p.audioMeasured))
    else
      var video := if v.quality.bitrateKbps == 0 then EstimateForHeight(v.quality.height) else v.quality.bitrateKbps;
      if v.codec.videoEnc == "libaom-av1" then (video * 400 + v.quality.audioKbps * 1000, 0)
      else ((video + v.quality.audioKbps) * 1000, 0)
  }

  // The configured bit rate, or a rough one for the height.
  ghost predicate VideoEstimate(q: Quality, kbps: nat) {
    (q.bitrateKbps > 0 ==> kbps == q.bitrateKbps)
    && (q.bitrateKbps == 0 ==>
          (q.height >= 2160 ==> kbps == 15000) && (1440 <= q.height < 2160 ==> kbps == 8000)
          && (1080 <= q.height < 1440 ==> kbps == 5000) && (720 <= q.height < 1080 ==> kbps == 2500)
          && (q.height < 720 ==> kbps == 800))
  }

  // The bandwidth of a measured variant covers the video with any one measured
  // audio rendition, and is no more than the worst sum; so is the average. Other
  // variants are estimated, AV1 at 40% of the video bit rate, without an average.
  ghost predicate BandwidthIs(p: Params, v: Variant, bandwidth: nat, average: nat) {
    match p.measured(v)
    case None =>
      average == 0
      && exists video: nat :: VideoEstimate(v.quality, video)
           && (if v.codec.videoEnc == "libaom-av1" then 5 * (bandwidth - 1000 * v.quality.audioKbps) == 2 * (1000 * video)
               else bandwidth == 1000 * (video + v.quality.audioKbps))
    case Some(video) =>
      (forall i | 0 <= i < |p.audioMeasured| && p.audioMeasured[i].Some? ::
         video.peak + p.audioMeasured[i].value.peak <= bandwidth
         && video.average + p.audioMeasured[i].value.average <= average)
      && if exists i | 0 <= i < |p.audioMeasured| :: p.audioMeasured[i].Some? then
           (exists i | 0 <= i < |p.audioMeasured| ::
              p.audioMeasured[i].Some? && video.peak + p.audioMeasured[i].value.peak == bandwidth)
           && (exists i | 0 <= i < |p.audioMeasured| ::
                 p.audioMeasured[i].Some? && video.average + p.audioMeasured[i].value.average == average)
         else bandwidth == video.peak && average == video.average
  }

  lemma AdvertisedBandwidth(p: Params, v: Variant)
    ensures BandwidthIs(p, v, StreamLine(p, v).bandwidth, StreamLine(p, v).average)
  {
    if p.measured(v).Some? {
      HeaviestIsLargest(p.measured(v).value, p.audioMeasured);
    } else {
      var q := v.quality;
      var video := if q.bitrateKbps == 0 then EstimateForHeight(q.height) else q.bitrateKbps;
      assert VideoEstimate(q, video);
    }
  }

  // The configured width, or the next even one for a 16:9 picture.
  ghost predicate WidthIs(q: Quality, width: nat) {
    if q.width > 0 then width == q.width
    else width % 2 == 0 && 9 * (width - 1) <= 16 * q.height < 9 * (width + 1)
  }

  lemma PrintedResolution(q: Quality) returns (width: nat)
    ensures WidthIs(q, width) && Resolution(q) == Decimal(width) + "x" + Decimal(q.height)
  {
    SixteenNinths(q.height);
    var w := q.height * 16 / 9;
    width := if q.width == 0 then w + w % 2 else q.width;
  }

  lemma SixteenNinths(h: nat)
    ensures var w := h * 16 / 9; 9 * w <= 16 * h < 9 * w + 9 && (w + w % 2) % 2 == 0
  {
  }

  function Resolution(q: Quality): string {
    var w := if q.width == 0 then q.height * 16 / 9 + (q.height * 16 / 9) % 2 else q.width;
    Decimal(w) + "x" + Decimal(q.height)
  }

  const STREAM_INF := "#EXT-X-STREAM-INF:"

  // ---- Lines -----------------------------------------------------------------------------------

  // One printed line: the arguments of the formatting calls.
  datatype Line =
    | Fixed(text: string)
    | AudioMedia(language: string, name: string, def: bool, autoselect: bool, index: nat)
    | SubtitleMedia(language: string, name: string, autoselect: bool, index: nat)
    | ImageStream(images: Images)
    | StreamInf(bandwidth: nat, average: nat, resolution: string, codecs: string, frameRate: string,
                withAudio: bool, withSubtitles: bool, name: string)
    | Uri(variant: Variant)

  predicate IsTag(l: Line) { l.AudioMedia? || l.SubtitleMedia? || l.ImageStream? }

  function Attrs(l: Line): seq<Attr>
    requires IsTag(l)
  {
    match l
    case AudioMedia(language, name, def, autoselect, index) => AudioAttrs(language, name, def, autoselect, index)
    case SubtitleMedia(language, name, autoselect, index) => SubtitleAttrs(language, name, autoselect, index)
    case ImageStream(images) => ImageAttrs(images)
  }

  function Text(l: Line): string {
    if IsTag(l) then TagText(Attrs(l))
    else
      match l
      case Fixed(text) => text
      case StreamInf(_, _, _, _, _, _, _, _) => STREAM_INF + StreamAttributes(l)
      case Uri(v) => VariantUri(v)
  }

  function StreamAttributes(l: Line): string
    requires l.StreamInf?
  {
    ListText(StreamFields(l))
  }

  function StreamFields(l: Line): seq<Field>
    requires l.StreamInf?
  {
    [Field("BANDWIDTH", Decimal(l.bandwidth))]
    + (if l.average > 0 then [Field("AVERAGE-BANDWIDTH", Decimal(l.average))] else [])
    + [Field("RESOLUTION", l.resolution), Field("CODECS", Quoted(l.codecs))]
    + (if l.frameRate != "" then [Field("FRAME-RATE", l.frameRate)] else [])
    + (if l.withAudio then [Field("AUDIO", Quoted("audio"))] else [])
    + (if l.withSubtitles then [Field("SUBTITLES", Quoted("subs"))] else [])
    + [Field("CLOSED-CAPTIONS", "NONE"), Field("NAME", Quoted(l.name))]
  }

  // The attributes of a STREAM-INF tag, one by one.
  ghost predicate StreamHas(l: Line, key: string, value: string)
    requires l.StreamInf?
  {
    (key == "BANDWIDTH" && value == Decimal(l.bandwidth))
    || (key == "AVERAGE-BANDWIDTH" && l.average > 0 && value == Decimal(l.average))
    || (key == "RESOLUTION" && value == l.resolution)
    || (key == "CODECS" && value == Quoted(l.codecs))
    || (key == "FRAME-RATE" && l.frameRate != "" && value == l.frameRate)
    || (key == "AUDIO" && l.withAudio && value == Quoted("audio"))
    || (key == "SUBTITLES" && l.withSubtitles && value == Quoted("subs"))
    || (key == "CLOSED-CAPTIONS" && value == "NONE")
    || (key == "NAME" && value == Quoted(l.name))
  }

  lemma StreamFieldsAre(l: Line)
    requires l.StreamInf?
    ensures forall f :: f in StreamFields(l) <==> StreamHas(l, f.key, f.value)
  {
    var a, b := [Field("BANDWIDTH", Decimal(l.bandwidth))], [Field("AVERAGE-BANDWIDTH", Decimal(l.average))];
    var c := [Field("RESOLUTION", l.resolution), Field("CODECS", Quoted(l.codecs))];
    var d := [Field("FRAME-RATE", l.frameRate)];
    var e, g := [Field("AUDIO", Quoted("audio"))], [Field("SUBTITLES", Quoted("subs"))];
    var h := [Field("CLOSED-CAPTIONS", "NONE"), Field("NAME", Quoted(l.name))];
    InSeven(a, if l.average > 0 then b else [], c, if l.frameRate != "" then d else [],
            if l.withAudio then e else [], if l.withSubtitles then g else [], h);
  }

  lemma InSeven<T>(a: seq<T>, b: seq<T>, c: seq<T>, d: seq<T>, e: seq<T>, f: seq<T>, g: seq<T>)
    ensures forall x :: x in a + b + c + d + e + f + g
                        <==> x in a || x in b || x in c || x in d || x in e || x in f || x in g
  {
  }

  lemma StreamKeysLack(c: char)
    requires c == '\n' || c == '"' || c == ',' || c == '='
    ensures Lacks("BANDWIDTH", c) && Lacks("AVERAGE-BANDWIDTH", c) && Lacks("RESOLUTION", c) && Lacks("CODECS", c)
    ensures Lacks("FRAME-RATE", c) && Lacks("AUDIO", c) && Lacks("SUBTITLES", c)
    ensures Lacks("CLOSED-CAPTIONS", c) && Lacks("NAME", c)
  {
  }

  function Texts(lines: seq<Line>): seq<string> {
    seq(|lines|, i requires 0 <= i < |lines| => Text(lines[i]))
  }

  function Print(lines: seq<Line>): string { Unlines(Texts(lines)) }

  const BLANK := Fixed("")

  const PREAMBLE := [Fixed("#EXTM3U"), Fixed("#EXT-X-VERSION:6"), Fixed("#EXT-X-INDEPENDENT-SEGMENTS"), BLANK]

  function AudioLines(tracks: seq<Track>): seq<Line> {
    seq(|tracks|, i requires 0 <= i < |tracks| =>
      AudioMedia(Language(tracks[i]), RenditionName(DisplayNames(tracks), i), i == 0, FirstOfLanguage(tracks, i),
                 tracks[i].index))
  }

  function SubtitleLines(tracks: seq<Track>): seq<Line> {
    seq(|tracks|, i requires 0 <= i < |tracks| =>
      SubtitleMedia(Language(tracks[i]), RenditionName(DisplayNames(tracks), i), FirstOfLanguage(tracks, i),
                    tracks[i].index))
  }

  ghost predicate Renditions(lines: seq<Line>) {
    forall i | 0 <= i < |lines| :: lines[i].AudioMedia? || lines[i].SubtitleMedia?
  }

  ghost predicate DistinctNames(lines: seq<Line>)
    requires Renditions(lines)
  {
    forall i, k | 0 <= i < k < |lines| :: lines[i].name != lines[k].name
  }

  // `first` is the only rendition of language l with AUTOSELECT=YES.
  ghost predicate OnlyAutoselect(lines: seq<Line>, l: string, first: nat)
    requires Renditions(lines)
  {
    first < |lines| && lines[first].language == l
    && forall k | 0 <= k < |lines| && lines[k].language == l :: lines[k].autoselect <==> k == first
  }

  // Every language of the group has exactly one.
  ghost predicate OneAutoselectEach(lines: seq<Line>)
    requires Renditions(lines)
  {
    forall i | 0 <= i < |lines| :: HasOneAutoselect(lines, lines[i].language)
  }

  ghost predicate HasOneAutoselect(lines: seq<Line>, l: string)
    requires Renditions(lines)
  {
    exists first :: OnlyAutoselect(lines, l, first)
  }

  lemma NamesFollow(lines: seq<Line>, bases: seq<string>)
    requires Renditions(lines) && |lines| == |bases|
    requires forall i | 0 <= i < |lines| :: lines[i].name == RenditionName(bases, i)
    ensures DistinctNames(lines) <==> !Clash(bases)
  {
    NamesAreDistinct(bases);
  }

  lemma AutoselectFollows(lines: seq<Line>, tracks: seq<Track>)
    requires Renditions(lines) && |lines| == |tracks|
    requires forall i | 0 <= i < |lines| ::
               lines[i].language == Language(tracks[i]) && (lines[i].autoselect <==> FirstOfLanguage(tracks, i))
    ensures OneAutoselectEach(lines)
  {
    forall i | 0 <= i < |lines| ensures HasOneAutoselect(lines, lines[i].language) {
      var first := OneAutoselectPerLanguage(tracks, i);
      assert OnlyAutoselect(lines, lines[i].language, first);
    }
  }

  // The rules of RFC 8216 section 4.3.4.1 for a rendition group, on the printed
  // lines: exactly one default rendition, the first, which is also selected
  // automatically; one automatic selection per language; distinct names exactly
  // when no base name clashes with a numbered one.
  lemma AudioGroupIsValid(tracks: seq<Track>)
    ensures var lines := AudioLines(tracks);
            Renditions(lines) && OneAutoselectEach(lines)
            && (DistinctNames(lines) <==> !Clash(DisplayNames(tracks)))
            && forall i | 0 <= i < |lines| :: (lines[i].def <==> i == 0) && (lines[i].def ==> lines[i].autoselect)
  {
    NamesFollow(AudioLines(tracks), DisplayNames(tracks));
    AutoselectFollows(AudioLines(tracks), tracks);
  }

  lemma SubtitleGroupIsValid(tracks: seq<Track>)
    ensures var lines := SubtitleLines(tracks);
            Renditions(lines) && OneAutoselectEach(lines)
            && (DistinctNames(lines) <==> !Clash(DisplayNames(tracks)))
  {
    NamesFollow(SubtitleLines(tracks), DisplayNames(tracks));
    AutoselectFollows(SubtitleLines(tracks), tracks);
  }

  function StreamLine(p: Params, v: Variant): Line {
    StreamInf(Bandwidths(p, v).0, Bandwidths(p, v).1, Resolution(v.quality), p.codecs(v), p.frameRate,
              p.audio != [], p.subtitles != [], v.quality.name + " " + v.codec.name)
  }

  function VariantLines(p: Params, vs: seq<Variant>): seq<Line> {
    if vs == [] then []
    else [StreamLine(p, vs[0]), Uri(vs[0]), BLANK] + VariantLines(p, vs[1..])
  }

  function BlankIf(b: bool): seq<Line> { if b then [BLANK] else [] }

  function ImageLines(p: Params): seq<Line> { if p.images.Some? then [ImageStream(p.images.value), BLANK] else [] }

  // Everything before the variants, with the given rendition lines.
  function HeadLines(p: Params, audio: seq<Line>, subtitles: seq<Line>): seq<Line> {
    PREAMBLE + audio + BlankIf(p.audio != []) + subtitles + BlankIf(p.subtitles != []) + ImageLines(p)
  }

  function MasterLines(p: Params): seq<Line> {
    HeadLines(p, AudioLines(p.audio), SubtitleLines(p.subtitles)) + VariantLines(p, p.variants)
  }

  // The builder is a list of lines here; each is printed with its line break.
  method WriteMasterManifest(p: Params) returns (text: string)
    ensures text == Print(MasterLines(p))
  {
    var sb := PREAMBLE;
    var audio := AudioSection(p.audio);
    sb := sb + audio;
    if |p.audio| > 0 {
      sb := sb + [BLANK];
    }
    var subtitles := SubtitleSection(p.subtitles);
    sb := sb + subtitles;
    if |p.subtitles| > 0 {
      sb := sb + [BLANK];
    }
    if p.images.Some? {
      sb := sb + [ImageStream(p.images.value), BLANK];
    }
    assert sb == HeadLines(p, audio, subtitles);
    var variants := VariantSection(p);
    sb := sb + variants;
    text := Print(sb);
  }

  method AudioSection(tracks: seq<Track>) returns (sb: seq<Line>)
    ensures sb == AudioLines(tracks)
  {
    sb := [];
    var names := new NameSet();
    var languages: set<string> := {};
    for i := 0 to |tracks|
      invariant SoFar(names, languages, tracks, i) && fresh(names)
      invariant sb == AudioLines(tracks)[..i]
    {
      var name, autoselect;
      name, autoselect, languages := NextTrack(tracks, i, names, languages);
      sb := sb + [AudioMedia(Language(tracks[i]), name, i == 0, autoselect, tracks[i].index)];
    }
  }

  method SubtitleSection(tracks: seq<Track>) returns (sb: seq<Line>)
    ensures sb == SubtitleLines(tracks)
  {
    sb := [];
    var names := new NameSet();
    var languages: set<string> := {};
    for i := 0 to |tracks|
      invariant SoFar(names, languages, tracks, i) && fresh(names)
      invariant sb == SubtitleLines(tracks)[..i]
    {
      var name, autoselect;
      name, autoselect, languages := NextTrack(tracks, i, names, languages);
      sb := sb + [SubtitleMedia(Language(tracks[i]), name, autoselect, tracks[i].index)];
    }
  }

  // Names and languages handed out for the first i tracks of a group.
  ghost predicate SoFar(names: NameSet, languages: set<string>, tracks: seq<Track>, i: int)
    reads names
  {
    0 <= i <= |tracks| && names.Valid() && names.bases == DisplayNames(tracks)[..i]
    && forall l :: l in languages <==> exists k | 0 <= k < i :: Language(tracks[k]) == l
  }

  // The body shared by both loops. The first audio track is always selected
  // automatically, which needs no case of its own: its language is new.
  method NextTrack(tracks: seq<Track>, i: nat, names: NameSet, languages: set<string>)
    returns (name: string, autoselect: bool, languages': set<string>)
    requires i < |tracks| && SoFar(names, languages, tracks, i)
    modifies names
    ensures SoFar(names, languages', tracks, i + 1)
    ensures name == RenditionName(DisplayNames(tracks), i) && autoselect == FirstOfLanguage(tracks, i)
  {
    var lang := Language(tracks[i]);
    autoselect := false;
    languages' := languages;
    if lang !in languages {
      languages' := languages + {lang};
      autoselect := true;
    }
    NamesSoFar(DisplayNames(tracks), i);
    name := names.Unique(DisplayName(tracks[i], i));
  }

  // The name of a track depends only on the tracks up to it.
  lemma NamesSoFar(bases: seq<string>, i: nat)
    requires i < |bases|
    ensures bases[..i] + [bases[i]] == bases[..i + 1]
    ensures RenditionName(bases[..i + 1], i) == RenditionName(bases, i)
  {
    SameOccurrences(bases[..i + 1], bases, bases[i], i + 1);
  }

  lemma Associative(a: seq<Line>, b: seq<Line>, c: seq<Line>)
    ensures a + (b + c) == a + b + c
  {
  }

  lemma VariantLinesFrom(p: Params, i: nat)
    requires i < |p.variants|
    ensures var v := p.variants[i];
            VariantLines(p, p.variants[i..]) == [StreamLine(p, v), Uri(v), BLANK] + VariantLines(p, p.variants[i + 1..])
  {
    assert p.variants[i..][1..] == p.variants[i + 1..];
  }

  method VariantSection(p: Params) returns (sb: seq<Line>)
    ensures sb == VariantLines(p, p.variants)
  {
    var audioPeak, audioAvg := AudioMaxima(p.audioMeasured);
    sb := [];
    for i := 0 to |p.variants|
      invariant sb + VariantLines(p, p.variants[i..]) == VariantLines(p, p.variants)
    {
      var v := p.variants[i];
      var bw, avgBw := VariantBandwidth(p, v, audioPeak, audioAvg);
      var inf := StreamInf(bw, avgBw, Resolution(v.quality), p.codecs(v), p.frameRate, |p.audio| > 0,
                           |p.subtitles| > 0, v.quality.name + " " + v.codec.name);
      assert inf == StreamLine(p, v);
      VariantLinesFrom(p, i);
      Associative(sb, [inf, Uri(v), BLANK], VariantLines(p, p.variants[i + 1..]));
      sb := sb + [inf, Uri(v), BLANK];
    }
    assert p.variants[|p.variants|..] == [];
  }

  method VariantBandwidth(p: Params, v: Variant, audioPeak: nat, audioAvg: nat) returns (bw: nat, avgBw: nat)
    requires audioPeak == HeaviestPeak(p.audioMeasured) && audioAvg == HeaviestAverage(p.audioMeasured)
    ensures (bw, avgBw) == Bandwidths(p, v)
  {
    if p.measured(v).Some? {
      return p.measured(v).value.peak + audioPeak, p.measured(v).value.average + audioAvg;
    }
    var videoBw := v.quality.bitrateKbps;
    if videoBw == 0 {
      videoBw := EstimateForHeight(v.quality.height);
    }
    var audioBw := v.quality.audioKbps;
    if v.codec.videoEnc == "libaom-av1" {
      return videoBw * 400 + audioBw * 1000, 0;
    }
    bw, avgBw := (videoBw + audioBw) * 1000, 0;
  }
}
