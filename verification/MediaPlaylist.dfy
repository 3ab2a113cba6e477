// What measuredBandwidth makes of the text of a media playlist, entry by entry.
module MediaPlaylist {
  import opened Prelude
  import opened Strings
  import opened Bandwidth

  // `Piece` is an EXTINF tag and the segment behind it, `Untimed` a segment
  // without one, `Tag` any other tag.
  datatype Entry =
    | Piece(duration: string, title: Option<string>, name: string)
    | Untimed(name: string)
    | Map(uri: string)
    | Tag(text: string)
    | Blank

  function TitleText(title: Option<string>): string { if title.Some? then "," + title.value else "" }

  function EntryLines(e: Entry): seq<string> {
    match e
    case Piece(duration, title, name) => [EXTINF + (duration + TitleText(title)), name]
    case Untimed(name) => [name]
    case Map(uri) => ["#EXT-X-MAP:URI=\"" + (uri + "\"")]
    case Tag(text) => [text]
    case Blank => [""]
  }

  function PlaylistLines(entries: seq<Entry>): seq<string> {
    if entries == [] then [] else PlaylistLines(entries[..|entries| - 1]) + EntryLines(entries[|entries| - 1])
  }

  function PlaylistText(entries: seq<Entry>): string { Unlines(PlaylistLines(entries)) }

  ghost predicate CleanFile(name: string) {
    Lacks(name, '\n') && name != "" && !IsSpace(name[0]) && !IsSpace(name[|name| - 1]) && name[0] != '#'
  }

  ghost predicate CleanEntry(e: Entry) {
    match e
    case Piece(duration, title, name) =>
      CleanFile(name) && Lacks(duration, '\n') && Lacks(duration, ',')
      && (if title.Some? then Lacks(title.value, '\n') else duration != "" && !IsSpace(duration[|duration| - 1]))
    case Untimed(name) => CleanFile(name)
    case Map(uri) => Lacks(uri, '\n') && Lacks(uri, '"')
    case Tag(text) =>
      Lacks(text, '\n') && text != "" && text[0] == '#' && !HasPrefix(text, "#EXTINF:") && !HasPrefix(text, "#EXT-X-MAP:")
    case Blank => true
  }

  ghost predicate CleanEntries(entries: seq<Entry>) { forall i | 0 <= i < |entries| :: CleanEntry(entries[i]) }

  // ---- What the entries say ---------------------------------------------------------------

  // All numbers and files the entry names can be read.
  ghost predicate Readable(e: Entry, parse: ParseFloat, size: FileSize) {
    match e
    case Piece(duration, _, name) => parse(duration).Some? && size(name).Some?
    case Untimed(name) => size(name).Some?
    case Map(uri) => uri != "" && size(uri).Some?
    case Tag(_) => true
    case Blank => true
  }

  function SizeOf(name: string, size: FileSize): nat { if size(name).Some? then size(name).value else 0 }

  function BytesOf(e: Entry, size: FileSize): nat {
    match e
    case Piece(_, _, name) => SizeOf(name, size)
    case Untimed(name) => SizeOf(name, size)
    case Map(uri) => SizeOf(uri, size)
    case _ => 0
  }

  // A segment with a positive duration.
  predicate Plays(e: Entry, parse: ParseFloat) {
    e.Piece? && parse(e.duration).Some? && parse(e.duration).value > 0.0
  }

  function SecondsOf(e: Entry, parse: ParseFloat): real { if Plays(e, parse) then parse(e.duration).value else 0.0 }

  function TotalBytes(entries: seq<Entry>, size: FileSize): nat {
    if entries == [] then 0
    else TotalBytes(entries[..|entries| - 1], size) + BytesOf(entries[|entries| - 1], size)
  }

  function TotalSeconds(entries: seq<Entry>, parse: ParseFloat): real {
    if entries == [] then 0.0
    else TotalSeconds(entries[..|entries| - 1], parse) + SecondsOf(entries[|entries| - 1], parse)
  }

  function BitRate(e: Entry, parse: ParseFloat, size: FileSize): real
    requires Plays(e, parse)
  {
    (8 * BytesOf(e, size)) as real / SecondsOf(e, parse)
  }

  // The largest bit rate of a segment that plays.
  ghost predicate Largest(peak: real, entries: seq<Entry>, parse: ParseFloat, size: FileSize) {
    (forall e | e in entries && Plays(e, parse) :: BitRate(e, parse, size) <= peak)
    && exists e | e in entries && Plays(e, parse) :: BitRate(e, parse, size) == peak
  }

  // ---- What the lines are taken for ----------------------------------------------------------

  const EXTINF := "#EXTINF:"

  lemma ExtinfIsRead(duration: string, title: Option<string>, parse: ParseFloat, size: FileSize)
    requires CleanEntry(Piece(duration, title, "x"))
    ensures Classify(EXTINF + (duration + TitleText(title)), parse, size)
            == if parse(duration).Some? then Duration(parse(duration).value) else Unreadable
  {
    var rest := TrimmedTitle(duration, title);
    ValueOfExtinf(EXTINF + (duration + TitleText(title)), duration + rest);
    BeforeComma(duration, rest);
  }

  function UpToComma(val: string): string {
    var i := Index(val, ",");
    if i >= 0 then val[..i] else val
  }

  lemma ValueOfExtinf(raw: string, val: string)
    requires TrimSpace(raw) == EXTINF + val
    ensures HasPrefix(TrimSpace(raw), "#EXTINF:") && ExtinfValue(TrimSpace(raw)) == UpToComma(val)
  {
    assert (EXTINF + val)[|EXTINF|..] == val;
  }

  lemma BeforeComma(duration: string, rest: string)
    requires Lacks(duration, ',') && (rest == "" || rest[0] == ',')
    ensures UpToComma(duration + rest) == duration
  {
    if rest == "" {
      assert duration + rest == duration;
      NoComma(duration);
    } else {
      CharIndex(duration, ',', rest[1..]);
      assert duration + rest == duration + [','] + rest[1..] && "," == [','];
      assert (duration + rest)[..|duration|] == duration;
    }
  }

  lemma NoComma(s: string)
    requires Lacks(s, ',')
    ensures Index(s, ",") == -1
  {
    NoFirstChar(s, ",");
    IndexNone(s, ",");
  }

  // Trimming leaves a text alone that starts and ends visibly.
  lemma KeepsFront(kept: string, tail: string) returns (rest: string)
    requires kept != "" && !IsSpace(kept[0]) && !IsSpace(kept[|kept| - 1])
    ensures TrimSpace(kept + tail) == kept + rest
  {
    var s := kept + tail;
    assert s[..|kept|] == kept && s[0] == kept[0];
    TrimKeepsPrefix(s, kept);
    rest := TrimSpace(s)[|kept|..];
  }

  // Trimming shortens the title at most.
  lemma TrimmedTitle(duration: string, title: Option<string>) returns (rest: string)
    requires title.None? ==> duration != "" && !IsSpace(duration[|duration| - 1])
    ensures TrimSpace(EXTINF + (duration + TitleText(title))) == EXTINF + (duration + rest)
    ensures if title.None? then rest == "" else rest != "" && rest[0] == ','
  {
    HashIsVisible();
    if title.None? {
      rest := "";
      assert duration + "" == duration;
      EndsLike(EXTINF, duration);
      TrimNothing(EXTINF + duration);
    } else {
      var tail := KeepsFront(EXTINF + duration + ",", title.value);
      rest := "," + tail;
      Regroup(EXTINF, duration, ",", title.value);
      Regroup(EXTINF, duration, ",", tail);
    }
  }

  lemma HashIsVisible()
    ensures EXTINF != "" && !IsSpace(EXTINF[0])
  {
  }

  lemma EndsLike(a: string, b: string)
    requires b != ""
    ensures (a + b)[|a + b| - 1] == b[|b| - 1] && (a != "" ==> (a + b)[0] == a[0])
  {
  }

  lemma Regroup(a: string, b: string, c: string, d: string)
    ensures a + b + c + d == a + (b + (c + d))
  {
  }

  lemma FileIsRead(name: string, parse: ParseFloat, size: FileSize)
    requires CleanFile(name)
    ensures Classify(name, parse, size) == if size(name).Some? then Segment(size(name).value) else Unreadable
  {
    TrimNothing(name);
    TagHashes();
  }

  lemma TagHashes()
    ensures "#EXTINF:"[0] == '#' && "#EXT-X-MAP:"[0] == '#' && "#EXTINF:" != "" && "#EXT-X-MAP:" != ""
    ensures !IsSpace("#EXTINF:"[|"#EXTINF:"| - 1]) && !IsSpace("#EXT-X-MAP:"[|"#EXT-X-MAP:"| - 1])
  {
  }

  lemma MapIsRead(uri: string, parse: ParseFloat, size: FileSize)
    requires Lacks(uri, '\n') && Lacks(uri, '"')
    ensures Classify("#EXT-X-MAP:URI=\"" + (uri + "\""), parse, size)
            == if uri == "" || size(uri).None? then Unreadable else Init(size(uri).value)
  {
    var line := "#EXT-X-MAP:URI=\"" + (uri + "\"");
    MapTag(uri);
    TrimNothing(line);
    UriHere("#EXT-X-MAP:URI=", uri, "", "");
  }

  lemma MapTag(uri: string)
    ensures var line := "#EXT-X-MAP:URI=\"" + (uri + "\"");
            line == "#EXT-X-MAP:URI=" + "\"" + (uri + "\"" + "") && HasPrefix(line, "#EXT-X-MAP:")
            && !HasPrefix(line, "#EXTINF:") && line[0] == '#' && line[|line| - 1] == '"'
    ensures Lacks("#EXT-X-MAP:URI=", '"') && HasSuffix("#EXT-X-MAP:URI=", "URI=")
  {
    assert "#EXT-X-MAP:URI="[|"#EXT-X-MAP:URI="| - 4..] == "URI=";
    assert "#EXT-X-MAP:URI=\""[4] == '-' && "#EXTINF:"[4] == 'I';
    assert "#EXT-X-MAP:URI=\"" == "#EXT-X-MAP:URI=" + "\"";
  }

  lemma TagIsOther(text: string, parse: ParseFloat, size: FileSize)
    requires CleanEntry(Tag(text))
    ensures Classify(text, parse, size) == Other
  {
    TagHashes();
    TrimKeepsPrefix(text, "#EXTINF:");
    TrimKeepsPrefix(text, "#EXT-X-MAP:");
    TrimKeepsPrefix(text, "#");
  }

  lemma BlankIsOther(parse: ParseFloat, size: FileSize)
    ensures Classify("", parse, size) == Other
  {
    assert TrimSpace("") == "";
  }

  // The class of each line of an entry.
  function EntryClasses(e: Entry, parse: ParseFloat, size: FileSize): seq<Line> {
    match e
    case Piece(duration, _, name) =>
      [if parse(duration).Some? then Duration(parse(duration).value) else Unreadable,
       if size(name).Some? then Segment(size(name).value) else Unreadable]
    case Untimed(name) => [if size(name).Some? then Segment(size(name).value) else Unreadable]
    case Map(uri) => [if uri == "" || size(uri).None? then Unreadable else Init(size(uri).value)]
    case _ => [Other]
  }

  function Classes(entries: seq<Entry>, parse: ParseFloat, size: FileSize): seq<Line> {
    if entries == [] then []
    else Classes(entries[..|entries| - 1], parse, size) + EntryClasses(entries[|entries| - 1], parse, size)
  }

  lemma EntryIsClassified(e: Entry, parse: ParseFloat, size: FileSize)
    requires CleanEntry(e)
    ensures Classified(EntryLines(e), parse, size) == EntryClasses(e, parse, size)
    ensures forall i | 0 <= i < |EntryLines(e)| :: Lacks(EntryLines(e)[i], '\n')
  {
    match e
    case Piece(duration, title, name) => PieceIsClassified(duration, title, name, parse, size);
    case Untimed(name) =>
      FileIsRead(name, parse, size);
      OneIsClassified(name, EntryClasses(e, parse, size)[0], parse, size);
    case Map(uri) =>
      MapIsRead(uri, parse, size);
      MapIsOneLine(uri);
      OneIsClassified(EntryLines(e)[0], EntryClasses(e, parse, size)[0], parse, size);
    case Tag(text) =>
      TagIsOther(text, parse, size);
      OneIsClassified(text, Other, parse, size);
    case Blank =>
      BlankIsOther(parse, size);
      OneIsClassified("", Other, parse, size);
  }

  lemma OneIsClassified(text: string, kind: Line, parse: ParseFloat, size: FileSize)
    requires Classify(text, parse, size) == kind
    ensures Classified([text], parse, size) == [kind]
  {
  }

  lemma MapIsOneLine(uri: string)
    requires Lacks(uri, '\n')
    ensures Lacks("#EXT-X-MAP:URI=\"" + (uri + "\""), '\n')
  {
  }

  lemma PieceIsClassified(duration: string, title: Option<string>, name: string, parse: ParseFloat, size: FileSize)
    requires CleanEntry(Piece(duration, title, name))
    ensures var e := Piece(duration, title, name);
            Classified(EntryLines(e), parse, size) == EntryClasses(e, parse, size)
            && Lacks(EntryLines(e)[0], '\n') && Lacks(EntryLines(e)[1], '\n')
  {
    ExtinfIsRead(duration, title, parse, size);
    FileIsRead(name, parse, size);
    PieceIsOneLine(duration + TitleText(title));
  }

  lemma PieceIsOneLine(val: string)
    requires Lacks(val, '\n')
    ensures Lacks(EXTINF + val, '\n')
  {
  }

  lemma ClassifiedAppend(a: seq<string>, b: seq<string>, parse: ParseFloat, size: FileSize)
    ensures Classified(a + b, parse, size) == Classified(a, parse, size) + Classified(b, parse, size)
  {
  }

  lemma {:induction false} LinesAreClassified(entries: seq<Entry>, parse: ParseFloat, size: FileSize)
    requires CleanEntries(entries)
    ensures Classified(PlaylistLines(entries), parse, size) == Classes(entries, parse, size)
    ensures forall i | 0 <= i < |PlaylistLines(entries)| :: Lacks(PlaylistLines(entries)[i], '\n')
  {
    if entries != [] {
      var n := |entries| - 1;
      LinesAreClassified(entries[..n], parse, size);
      EntryIsClassified(entries[n], parse, size);
      ClassifiedAppend(PlaylistLines(entries[..n]), EntryLines(entries[n]), parse, size);
    }
  }

  lemma TextIsClassified(entries: seq<Entry>, parse: ParseFloat, size: FileSize)
    requires CleanEntries(entries)
    ensures Classified(Split(PlaylistText(entries), '\n'), parse, size) == Classes(entries, parse, size) + [Other]
  {
    LinesAreClassified(entries, parse, size);
    SplitUnlines(PlaylistLines(entries));
    ClassifiedAppend(PlaylistLines(entries), [""], parse, size);
    BlankIsOther(parse, size);
    assert Classified([""], parse, size) == [Other];
  }

  // ---- What is measured ------------------------------------------------------------------------

  // The segments that play, as the measurement sees them.
  function Played(entries: seq<Entry>, parse: ParseFloat, size: FileSize): (ms: seq<Media>)
    ensures forall m | m in ms :: m.seconds > 0.0
  {
    if entries == [] then []
    else
      var last := entries[|entries| - 1];
      var before := Played(entries[..|entries| - 1], parse, size);
      if Plays(last, parse) then before + [Media(BytesOf(last, size), SecondsOf(last, parse))] else before
  }

  ghost predicate AllReadable(entries: seq<Entry>, parse: ParseFloat, size: FileSize) {
    forall e | e in entries :: Readable(e, parse, size)
  }

  // The lines of one entry, behind lines that leave no duration pending.
  lemma EntryMeasured(lines: seq<Line>, e: Entry, parse: ParseFloat, size: FileSize)
    requires Readable(e, parse, size) && Pending(lines) == -1.0
    ensures var all := lines + EntryClasses(e, parse, size);
            Pending(all) == -1.0 && AllBytes(all) == AllBytes(lines) + BytesOf(e, size)
            && Timed(all) == if Plays(e, parse) then Timed(lines) + [Media(BytesOf(e, size), SecondsOf(e, parse))]
                             else Timed(lines)
  {
    match e
    case Piece(duration, _, name) =>
      PieceMeasured(lines, parse(duration).value, size(name).value);
      InTwo(lines, Duration(parse(duration).value), Segment(size(name).value));
    case Untimed(name) => SingleMeasured(lines, Segment(size(name).value));
    case Map(uri) => SingleMeasured(lines, Init(size(uri).value));
    case Tag(_) => SingleMeasured(lines, Other);
    case Blank => SingleMeasured(lines, Other);
  }

  lemma InTwo(lines: seq<Line>, a: Line, b: Line)
    ensures lines + [a, b] == lines + [a] + [b]
  {
  }

  lemma SingleMeasured(lines: seq<Line>, l: Line)
    requires Pending(lines) == -1.0 && !l.Duration?
    ensures var all := lines + [l];
            Pending(all) == -1.0 && Timed(all) == Timed(lines)
            && AllBytes(all) == AllBytes(lines) + (if l.Init? || l.Segment? then l.bytes else 0)
  {
    OneLineMore(lines, l);
  }

  lemma PieceMeasured(lines: seq<Line>, seconds: real, bytes: nat)
    requires Pending(lines) == -1.0
    ensures var all := lines + [Duration(seconds)] + [Segment(bytes)];
            Pending(all) == -1.0 && AllBytes(all) == AllBytes(lines) + bytes
            && Timed(all) == if seconds > 0.0 then Timed(lines) + [Media(bytes, seconds)] else Timed(lines)
  {
    var middle := lines + [Duration(seconds)];
    OneLineMore(lines, Duration(seconds));
    OneLineMore(middle, Segment(bytes));
    assert Pending(middle) == seconds && Timed(middle) == Timed(lines) && AllBytes(middle) == AllBytes(lines);
  }

  lemma OneLineMore(lines: seq<Line>, l: Line)
    ensures (lines + [l])[..|lines + [l]| - 1] == lines && (lines + [l])[|lines + [l]| - 1] == l
  {
  }

  ghost predicate MeasuredAs(lines: seq<Line>, entries: seq<Entry>, parse: ParseFloat, size: FileSize) {
    Pending(lines) == -1.0 && AllBytes(lines) == TotalBytes(entries, size) && Timed(lines) == Played(entries, parse, size)
  }

  lemma OneEntryMore(lines: seq<Line>, entries: seq<Entry>, parse: ParseFloat, size: FileSize)
    requires entries != [] && Readable(entries[|entries| - 1], parse, size)
    requires MeasuredAs(lines, entries[..|entries| - 1], parse, size)
    ensures MeasuredAs(lines + EntryClasses(entries[|entries| - 1], parse, size), entries, parse, size)
  {
    EntryMeasured(lines, entries[|entries| - 1], parse, size);
  }

  lemma {:induction false} EntriesMeasured(entries: seq<Entry>, parse: ParseFloat, size: FileSize)
    requires forall i | 0 <= i < |entries| :: Readable(entries[i], parse, size)
    ensures MeasuredAs(Classes(entries, parse, size), entries, parse, size)
  {
    if entries != [] {
      var n := |entries| - 1;
      EntriesMeasured(entries[..n], parse, size);
      OneEntryMore(Classes(entries[..n], parse, size), entries, parse, size);
    }
  }

  lemma {:induction false} UnreadableEntries(entries: seq<Entry>, parse: ParseFloat, size: FileSize)
    ensures Unreadable in Classes(entries, parse, size) <==> !AllReadable(entries, parse, size)
  {
    if entries != [] {
      var n := |entries| - 1;
      UnreadableEntries(entries[..n], parse, size);
      UnreadableEntry(entries[n], parse, size);
      assert entries == entries[..n] + [entries[n]];
    }
  }

  lemma UnreadableEntry(e: Entry, parse: ParseFloat, size: FileSize)
    ensures Unreadable in EntryClasses(e, parse, size) <==> !Readable(e, parse, size)
  {
    var classes := EntryClasses(e, parse, size);
    assert classes[0] in classes;
    assert e.Piece? ==> classes[1] in classes;
  }

  lemma {:induction false} PlayedIs(entries: seq<Entry>, parse: ParseFloat, size: FileSize)
    ensures Seconds(Played(entries, parse, size)) == TotalSeconds(entries, parse)
    ensures forall m :: m in Played(entries, parse, size) <==>
              exists e | e in entries && Plays(e, parse) :: m == Media(BytesOf(e, size), SecondsOf(e, parse))
  {
    if entries != [] {
      var n := |entries| - 1;
      var last := entries[n];
      var before := Played(entries[..n], parse, size);
      PlayedIs(entries[..n], parse, size);
      assert entries == entries[..n] + [last];
      if Plays(last, parse) {
        var m := Media(BytesOf(last, size), SecondsOf(last, parse));
        assert (before + [m])[..|before|] == before && (before + [m])[|before|] == m;
      }
    }
  }

  lemma LargestPlayed(entries: seq<Entry>, parse: ParseFloat, size: FileSize, peak: real)
    requires IsPeak(peak, Played(entries, parse, size)) && Played(entries, parse, size) != []
    ensures Largest(peak, entries, parse, size)
  {
    var ms := Played(entries, parse, size);
    PlayedIs(entries, parse, size);
    forall e | e in entries && Plays(e, parse) ensures BitRate(e, parse, size) <= peak {
      BitRateIs(e, parse, size);
      assert Media(BytesOf(e, size), SecondsOf(e, parse)) in ms;
    }
    PeakIsReached(ms, peak);
    var m :| m in ms && Rate(m) == peak;
    var e :| e in entries && Plays(e, parse) && m == Media(BytesOf(e, size), SecondsOf(e, parse));
    BitRateIs(e, parse, size);
  }

  lemma BitRateIs(e: Entry, parse: ParseFloat, size: FileSize)
    requires Plays(e, parse)
    ensures BitRate(e, parse, size) == Rate(Media(BytesOf(e, size), SecondsOf(e, parse)))
  {
    assert 8 * BytesOf(e, size) == BytesOf(e, size) * 8;
  }

  // With a segment at all, even a peak of zero is the rate of one.
  lemma PeakIsReached(ms: seq<Media>, peak: real)
    requires ms != [] && (forall m | m in ms :: m.seconds > 0.0) && IsPeak(peak, ms)
    ensures exists m | m in ms :: Rate(m) == peak
  {
    if peak == 0.0 {
      var m := ms[0];
      assert m in ms;
      RateIsNonNegative(m);
    }
  }

  lemma RateIsNonNegative(m: Media)
    requires m.seconds > 0.0
    ensures Rate(m) >= 0.0
  {
  }

  // A printed playlist is measured exactly if all its numbers and files can be
  // read and a segment has a positive duration. The peak is then the ceiling of
  // the largest bit rate of such a segment, the average that of all bits over the
  // total duration.
  lemma PlaylistIsMeasured(entries: seq<Entry>, parse: ParseFloat, size: FileSize, r: Option<Measured>)
    requires CleanEntries(entries)
    // what MeasuredBandwidth promises of r for this text
    requires Measures(r, Classified(Split(PlaylistText(entries), '\n'), parse, size))
    ensures r.Some? <==> (forall e | e in entries :: Readable(e, parse, size)) && exists e | e in entries :: Plays(e, parse)
    ensures r.Some? ==> exists peak :: Largest(peak, entries, parse, size) && r.value.peak == Ceil(peak)
    ensures r.Some? ==> TotalSeconds(entries, parse) > 0.0
                        && r.value.average == Ceil((8 * TotalBytes(entries, size)) as real / TotalSeconds(entries, parse))
  {
    LinesSay(entries, parse, size);
    MeasureSays(Classified(Split(PlaylistText(entries), '\n'), parse, size), entries, parse, size, r);
  }

  lemma MeasureSays(
      lines: seq<Line>, entries: seq<Entry>, parse: ParseFloat, size: FileSize, r: Option<Measured>)
    requires Measures(r, lines) && (Unreadable in lines <==> !AllReadable(entries, parse, size))
    requires AllReadable(entries, parse, size) ==>
               Timed(lines) == Played(entries, parse, size) && AllBytes(lines) == TotalBytes(entries, size)
    ensures r.Some? <==> AllReadable(entries, parse, size) && exists e | e in entries :: Plays(e, parse)
    ensures r.Some? ==> exists peak :: Largest(peak, entries, parse, size) && r.value.peak == Ceil(peak)
    ensures r.Some? ==> TotalSeconds(entries, parse) > 0.0
                        && r.value.average == Ceil((8 * TotalBytes(entries, size)) as real / TotalSeconds(entries, parse))
  {
    SomePlayed(entries, parse, size);
    if r.Some? {
      PlayedIs(entries, parse, size);
      LargestPlayed(entries, parse, size, PeakRate(Timed(lines)));
      assert AllBytes(lines) * 8 == 8 * TotalBytes(entries, size);
    }
  }

  // The lines of the text say what the entries say.
  lemma LinesSay(entries: seq<Entry>, parse: ParseFloat, size: FileSize)
    requires CleanEntries(entries)
    ensures var lines := Classified(Split(PlaylistText(entries), '\n'), parse, size);
            (Unreadable in lines <==> !AllReadable(entries, parse, size))
            && (AllReadable(entries, parse, size) ==>
                  Timed(lines) == Played(entries, parse, size) && AllBytes(lines) == TotalBytes(entries, size))
  {
    TextIsClassified(entries, parse, size);
    UnreadableEntries(entries, parse, size);
    BlankAtEnd(Classes(entries, parse, size));
    if AllReadable(entries, parse, size) {
      assert forall i | 0 <= i < |entries| :: entries[i] in entries;
      EntriesMeasured(entries, parse, size);
    }
  }

  lemma BlankAtEnd(lines: seq<Line>)
    ensures Timed(lines + [Other]) == Timed(lines) && AllBytes(lines + [Other]) == AllBytes(lines)
    ensures Unreadable in lines + [Other] <==> Unreadable in lines
  {
    OneLineMore(lines, Other);
  }

  lemma SomePlayed(entries: seq<Entry>, parse: ParseFloat, size: FileSize)
    ensures Played(entries, parse, size) != [] <==> exists e | e in entries :: Plays(e, parse)
  {
    PlayedIs(entries, parse, size);
    if Played(entries, parse, size) != [] {
      assert Played(entries, parse, size)[0] in Played(entries, parse, size);
    }
    if e :| e in entries && Plays(e, parse) {
      assert Media(BytesOf(e, size), SecondsOf(e, parse)) in Played(entries, parse, size);
    }
  }

  // Measuring a playlist as it is printed.
  method MeasurePlaylist(entries: seq<Entry>, parse: ParseFloat, size: FileSize) returns (r: Option<Measured>)
    requires CleanEntries(entries)
    ensures r.Some? <==> (forall e | e in entries :: Readable(e, parse, size)) && exists e | e in entries :: Plays(e, parse)
    ensures r.Some? ==> exists peak :: Largest(peak, entries, parse, size) && r.value.peak == Ceil(peak)
    ensures r.Some? ==> TotalSeconds(entries, parse) > 0.0
                        && r.value.average == Ceil((8 * TotalBytes(entries, size)) as real / TotalSeconds(entries, parse))
  {
    r := MeasuredBandwidth(Some(PlaylistText(entries)), parse, size);
    PlaylistIsMeasured(entries, parse, size, r);
  }
}
