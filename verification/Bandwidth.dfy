// measuredBandwidth: peak and average bit rate of a media playlist from its
// segment files, in one pass over the lines.
module Bandwidth {
  import opened Prelude
  import opened Strings

  // Parsing numbers and reading file sizes are parameters of the model.
  type ParseFloat = string -> Option<real>
  type FileSize = string -> Option<nat>

  datatype Line =
    | Duration(seconds: real)   // #EXTINF
    | Init(bytes: nat)          // #EXT-X-MAP
    | Segment(bytes: nat)
    | Other
    | Unreadable

  // attrValue(line, "URI"); "" stands for a missing or an empty attribute.
  function UriAttr(line: string): string {
    if UriValue(line).Some? then UriValue(line).value else ""
  }

  function ExtinfValue(line: string): string {
    var val := TrimPrefix(line, "#EXTINF:");
    var i := Index(val, ",");
    if i >= 0 then val[..i] else val
  }

  function Classify(raw: string, parse: ParseFloat, size: FileSize): Line {
    var line := TrimSpace(raw);
    if HasPrefix(line, "#EXTINF:") then
      var d := parse(ExtinfValue(line));
      if d.Some? then Duration(d.value) else Unreadable
    else if HasPrefix(line, "#EXT-X-MAP:") then
      var uri := UriAttr(line);
      if uri == "" || size(uri).None? then Unreadable else Init(size(uri).value)
    else if line == "" || HasPrefix(line, "#") then Other
    else if size(line).None? then Unreadable
    else Segment(size(line).value)
  }

  function Classified(lines: seq<string>, parse: ParseFloat, size: FileSize): seq<Line> {
    seq(|lines|, i requires 0 <= i < |lines| => Classify(lines[i], parse, size))
  }

  // ---- What the playlist means ------------------------------------------------------

  datatype Media = Media(bytes: nat, seconds: real)

  // The duration in force at the end of the lines; a segment uses it up.
  function Pending(lines: seq<Line>): real {
    if lines == [] then -1.0
    else
      match lines[|lines| - 1]
      case Duration(d) => d
      case Segment(_) => -1.0
      case _ => Pending(lines[..|lines| - 1])
  }

  // The segments with a positive duration, in order.
  function Timed(lines: seq<Line>): (ms: seq<Media>)
    ensures forall m | m in ms :: m.seconds > 0.0
  {
    if lines == [] then []
    else
      var before := lines[..|lines| - 1];
      var last := lines[|lines| - 1];
      if last.Segment? && Pending(before) > 0.0 then Timed(before) + [Media(last.bytes, Pending(before))]
      else Timed(before)
  }

  // Every byte the lines refer to, and those of initialisation sections.
  function AllBytes(lines: seq<Line>): nat {
    if lines == [] then 0
    else
      AllBytes(lines[..|lines| - 1])
      + match lines[|lines| - 1]
        case Init(n) => n
        case Segment(n) => n
        case _ => 0
  }

  function InitBytes(lines: seq<Line>): nat {
    if lines == [] then 0
    else InitBytes(lines[..|lines| - 1]) + if lines[|lines| - 1].Init? then lines[|lines| - 1].bytes else 0
  }

  function Bytes(ms: seq<Media>): nat {
    if ms == [] then 0 else Bytes(ms[..|ms| - 1]) + ms[|ms| - 1].bytes
  }

  function Seconds(ms: seq<Media>): real {
    if ms == [] then 0.0 else Seconds(ms[..|ms| - 1]) + ms[|ms| - 1].seconds
  }

  function Rate(m: Media): real
    requires m.seconds > 0.0
  {
    (m.bytes * 8) as real / m.seconds
  }

  // The least upper bound, at least zero, of the segments' bit rates.
  ghost predicate IsPeak(peak: real, ms: seq<Media>)
    requires forall m | m in ms :: m.seconds > 0.0
  {
    peak >= 0.0 && (forall m | m in ms :: Rate(m) <= peak) && (peak == 0.0 || exists m | m in ms :: Rate(m) == peak)
  }

  function PeakRate(ms: seq<Media>): (peak: real)
    requires forall m | m in ms :: m.seconds > 0.0
    ensures IsPeak(peak, ms)
  {
    if ms == [] then 0.0
    else
      var last := ms[|ms| - 1];
      var before := PeakRate(ms[..|ms| - 1]);
      assert ms == ms[..|ms| - 1] + [last];
      PeakGrows(before, ms[..|ms| - 1], last);
      if Rate(last) > before then Rate(last) else before
  }

  datatype Measured = Measured(peak: nat, average: nat)

  // What the accumulators stand for once the lines `done` have been read.
  ghost predicate Seen(done: seq<Line>, segDur: real, totalBytes: nat, totalDur: real, peakBps: real) {
    Unreadable !in done && segDur == Pending(done) && totalBytes == AllBytes(done)
    && totalDur == Seconds(Timed(done)) && IsPeak(peakBps, Timed(done))
  }

  ghost predicate ReadSoFar(lines: seq<Line>, i: int, segDur: real, totalBytes: nat, totalDur: real, peakBps: real) {
    0 <= i <= |lines| && Seen(lines[..i], segDur, totalBytes, totalDur, peakBps)
  }

  lemma ReadOneMore(lines: seq<Line>, i: nat, segDur: real, totalBytes: nat, totalDur: real, peakBps: real)
    requires i < |lines| && ReadSoFar(lines, i, segDur, totalBytes, totalDur, peakBps)
    ensures match lines[i]
            case Duration(d) => ReadSoFar(lines, i + 1, d, totalBytes, totalDur, peakBps)
            case Init(n) => ReadSoFar(lines, i + 1, segDur, totalBytes + n, totalDur, peakBps)
            case Segment(n) =>
              if segDur > 0.0 then
                var bps := (n * 8) as real / segDur;
                ReadSoFar(lines, i + 1, -1.0, totalBytes + n, totalDur + segDur, if bps > peakBps then bps else peakBps)
              else ReadSoFar(lines, i + 1, -1.0, totalBytes + n, totalDur, peakBps)
            case Other => ReadSoFar(lines, i + 1, segDur, totalBytes, totalDur, peakBps)
            case Unreadable => true
  {
    var done, all := lines[..i], lines[..i + 1];
    assert all == done + [lines[i]] && all[..|all| - 1] == done;
    if lines[i].Segment? && segDur > 0.0 {
      var m := Media(lines[i].bytes, segDur);
      assert Timed(all) == Timed(done) + [m];
      assert (Timed(done) + [m])[..|Timed(done)|] == Timed(done);
      PeakGrows(peakBps, Timed(done), m);
    }
  }

  lemma ReadAll(lines: seq<Line>, segDur: real, totalBytes: nat, totalDur: real, peakBps: real)
    requires ReadSoFar(lines, |lines|, segDur, totalBytes, totalDur, peakBps)
    ensures Seen(lines, segDur, totalBytes, totalDur, peakBps)
    ensures totalDur <= 0.0 <==> Timed(lines) == []
  {
    assert lines[..|lines|] == lines;
    SecondsPositive(Timed(lines));
  }

  // What the pass promises about the classified lines: parse, then maximum and sum.
  ghost predicate Measures(r: Option<Measured>, lines: seq<Line>) {
    (r.None? <==> Unreadable in lines || Timed(lines) == [])
    && (r.Some? ==> Seconds(Timed(lines)) > 0.0
                    && r.value.peak == Ceil(PeakRate(Timed(lines)))
                    && r.value.average == Ceil((AllBytes(lines) * 8) as real / Seconds(Timed(lines))))
  }

  // None: no playlist, an unreadable line, or no segment with a positive duration.
  method MeasuredBandwidth(file: Option<string>, parse: ParseFloat, size: FileSize)
    returns (r: Option<Measured>)
    ensures file.None? ==> r.None?
    ensures file.Some? ==> Measures(r, Classified(Split(file.value, '\n'), parse, size))
  {
    if file.None? {
      return None;
    }
    var data := file.value;
    var readLine := (line: string) => Classify(line, parse, size);
    r := MeasureLines(Split(data, '\n'), readLine);
    assert Mapped(Split(data, '\n'), readLine) == Classified(Split(data, '\n'), parse, size);
  }

  ghost function Mapped(raw: seq<string>, readLine: string -> Line): seq<Line> {
    seq(|raw|, i requires 0 <= i < |raw| => readLine(raw[i]))
  }

  method MeasureLines(raw: seq<string>, readLine: string -> Line) returns (r: Option<Measured>)
    ensures Measures(r, Mapped(raw, readLine))
  {
    ghost var lines := Mapped(raw, readLine);
    var segDur := -1.0;
    var totalBytes: nat := 0;
    var totalDur, peakBps := 0.0, 0.0;
    for i := 0 to |raw|
      invariant ReadSoFar(lines, i, segDur, totalBytes, totalDur, peakBps)
    {
      ReadOneMore(lines, i, segDur, totalBytes, totalDur, peakBps);
      match readLine(raw[i]) {
        case Duration(d) =>
          segDur := d;
        case Init(bytes) =>
          totalBytes := totalBytes + bytes;
        case Other =>
        case Segment(bytes) =>
          totalBytes := totalBytes + bytes;
          if segDur > 0.0 {
            var bps := (bytes * 8) as real / segDur;
            if bps > peakBps {
              peakBps := bps;
            }
            totalDur := totalDur + segDur;
          }
          segDur := -1.0;
        case Unreadable =>
          assert lines[i] in lines;
          return None;
      }
    }
    ReadAll(lines, segDur, totalBytes, totalDur, peakBps);
    PeakIsUnique(peakBps, PeakRate(Timed(lines)), Timed(lines));
    if totalDur <= 0.0 {
      return None;
    }
    CeilNonNegative(peakBps);
    CeilNonNegative((totalBytes * 8) as real / totalDur);
    r := Some(Measured(Ceil(peakBps), Ceil((totalBytes * 8) as real / totalDur)));
  }

  lemma CeilNonNegative(x: real)
    requires 0.0 <= x
    ensures 0 <= Ceil(x)
  {
  }

  lemma PeakGrows(peak: real, ms: seq<Media>, m: Media)
    requires (forall x | x in ms :: x.seconds > 0.0) && m.seconds > 0.0 && IsPeak(peak, ms)
    ensures IsPeak(if Rate(m) > peak then Rate(m) else peak, ms + [m])
  {
    var all := ms + [m];
    assert m == all[|ms|] && m in all;
    assert forall x | x in all :: x in ms || x == m;
    if Rate(m) <= peak && peak != 0.0 {
      var top :| top in ms && Rate(top) == peak;
      assert top in all;
    }
  }

  lemma PeakIsUnique(p: real, q: real, ms: seq<Media>)
    requires forall m | m in ms :: m.seconds > 0.0
    requires IsPeak(p, ms) && IsPeak(q, ms)
    ensures p == q
  {
  }

  lemma {:induction false} SecondsPositive(ms: seq<Media>)
    requires forall m | m in ms :: m.seconds > 0.0
    ensures if ms == [] then Seconds(ms) == 0.0 else Seconds(ms) > 0.0
  {
    if ms != [] {
      SecondsPositive(ms[..|ms| - 1]);
    }
  }

  // ---- Bounds ----------------------------------------------------------------------------

  // Mediant inequality: the peak bounds the bits of any run of segments.
  lemma {:induction false} BitsBounded(ms: seq<Media>, peak: real)
    requires forall m | m in ms :: m.seconds > 0.0 && Rate(m) <= peak
    ensures (Bytes(ms) * 8) as real <= peak * Seconds(ms)
  {
    if ms != [] {
      var n := |ms| - 1;
      BitsBounded(ms[..n], peak);
      var m := ms[n];
      assert Rate(m) * m.seconds == (m.bytes * 8) as real;
      assert Rate(m) * m.seconds <= peak * m.seconds;
      assert peak * Seconds(ms) == peak * Seconds(ms[..n]) + peak * m.seconds;
      assert (Bytes(ms) * 8) as real == (Bytes(ms[..n]) * 8) as real + (m.bytes * 8) as real;
    }
  }

  lemma {:induction false} RunBounded(run: seq<Media>, peak: real)
    requires run != [] && forall m | m in run :: m.seconds > 0.0 && Rate(m) <= peak
    ensures Seconds(run) > 0.0 && (Bytes(run) * 8) as real / Seconds(run) <= peak
  {
    SecondsPositive(run);
    BitsBounded(run, peak);
    QuotientAtMost((Bytes(run) * 8) as real, Seconds(run), peak);
  }

  // The reported peak is at least the bit rate of every contiguous run of
  // segments, so at least the peak segment bit rate of RFC 8216, section 4.1.
  lemma PeakBoundsEveryRun(r: Option<Measured>, lines: seq<Line>, from: nat, upto: nat)
    requires Measures(r, lines) && r.Some? && from < upto <= |Timed(lines)|
    ensures var run := Timed(lines)[from..upto];
            Seconds(run) > 0.0 && (Bytes(run) * 8) as real / Seconds(run) <= r.value.peak as real
  {
    var run := Timed(lines)[from..upto];
    assert forall m | m in run :: m in Timed(lines);
    RunBounded(run, PeakRate(Timed(lines)));
  }

  lemma QuotientAtMost(x: real, y: real, bound: real)
    requires 0.0 < y && x <= bound * y
    ensures x / y <= bound
  {
    var q := x / y;
    assert q * y == x;
    if q > bound {
      assert (q - bound) * y > 0.0;
      assert (q - bound) * y == q * y - bound * y;
    }
  }

  // Every segment line is preceded by a positive duration of its own.
  ghost predicate AllTimed(lines: seq<Line>) {
    forall i | 0 <= i < |lines| && lines[i].Segment? :: Pending(lines[..i]) > 0.0
  }

  lemma {:induction false} BytesSplit(lines: seq<Line>)
    requires AllTimed(lines)
    ensures AllBytes(lines) == InitBytes(lines) + Bytes(Timed(lines))
  {
    if lines != [] {
      var before := lines[..|lines| - 1];
      assert forall i | 0 <= i < |before| :: before[..i] == lines[..i];
      BytesSplit(before);
      if lines[|lines| - 1].Segment? {
        assert lines[..|lines| - 1] == before;
        var m := Media(lines[|lines| - 1].bytes, Pending(before));
        assert Timed(lines) == Timed(before) + [m];
        assert (Timed(before) + [m])[..|Timed(before)|] == Timed(before);
      }
    }
  }

  // The reported average covers the media's own rate and exceeds the peak by at
  // most the share of the initialisation sections.
  lemma AverageBounds(r: Option<Measured>, lines: seq<Line>)
    requires Measures(r, lines) && r.Some? && AllTimed(lines)
    ensures var d := Seconds(Timed(lines));
            (Bytes(Timed(lines)) * 8) as real / d <= r.value.average as real
            && r.value.average <= r.value.peak + Ceil((InitBytes(lines) * 8) as real / d)
  {
    BytesSplit(lines);
    RunBounded(Timed(lines), PeakRate(Timed(lines)));
    CeilOfShares((Bytes(Timed(lines)) * 8) as real, (InitBytes(lines) * 8) as real, Seconds(Timed(lines)),
                 PeakRate(Timed(lines)));
    assert (AllBytes(lines) * 8) as real
        == (Bytes(Timed(lines)) * 8) as real + (InitBytes(lines) * 8) as real;
  }

  lemma CeilOfShares(media: real, init: real, d: real, peak: real)
    requires 0.0 < d && 0.0 <= init && media / d <= peak
    ensures var average := Ceil((media + init) / d);
            media / d <= average as real && average <= Ceil(peak) + Ceil(init / d)
  {
    var a, b, both := media / d, init / d, (media + init) / d;
    assert a * d == media && b * d == init && both * d == media + init;
    assert (a + b) * d == both * d;
    assert both == a + b;
    assert b >= 0.0;
  }

  // ---- Adding the audio -----------------------------------------------------------------

  // The heaviest measured rendition; peak and average may come from different ones.
  function HeaviestPeak(rs: seq<Option<Measured>>): nat {
    if rs == [] then 0
    else
      var n := |rs| - 1;
      if rs[n].Some? then Max(HeaviestPeak(rs[..n]), rs[n].value.peak) else HeaviestPeak(rs[..n])
  }

  function HeaviestAverage(rs: seq<Option<Measured>>): nat {
    if rs == [] then 0
    else
      var n := |rs| - 1;
      if rs[n].Some? then Max(HeaviestAverage(rs[..n]), rs[n].value.average) else HeaviestAverage(rs[..n])
  }

  method AudioMaxima(rs: seq<Option<Measured>>) returns (peak: nat, average: nat)
    ensures peak == HeaviestPeak(rs) && average == HeaviestAverage(rs)
  {
    peak, average := 0, 0;
    for i := 0 to |rs|
      invariant peak == HeaviestPeak(rs[..i]) && average == HeaviestAverage(rs[..i])
    {
      assert rs[..i + 1][..i] == rs[..i];
      if rs[i].Some? {
        if rs[i].value.peak > peak {
          peak := rs[i].value.peak;
        }
        if rs[i].value.average > average {
          average := rs[i].value.average;
        }
      }
    }
    assert rs[..|rs|] == rs;
  }

  // Video plus heaviest audio is the largest sum over the playable combinations
  // of one video and one measured audio rendition, as RFC 8216 section 4.3.4.2
  // asks; without measured audio nothing is added.
  lemma {:induction false} HeaviestIsLargest(video: Measured, rs: seq<Option<Measured>>)
    ensures forall i | 0 <= i < |rs| && rs[i].Some? ::
              video.peak + rs[i].value.peak <= video.peak + HeaviestPeak(rs)
              && video.average + rs[i].value.average <= video.average + HeaviestAverage(rs)
    ensures if exists i | 0 <= i < |rs| :: rs[i].Some? then
              (exists i | 0 <= i < |rs| :: rs[i].Some? && rs[i].value.peak == HeaviestPeak(rs))
              && (exists i | 0 <= i < |rs| :: rs[i].Some? && rs[i].value.average == HeaviestAverage(rs))
            else HeaviestPeak(rs) == 0 == HeaviestAverage(rs)
  {
    if rs != [] {
      var n := |rs| - 1;
      HeaviestIsLargest(video, rs[..n]);
      assert forall i | 0 <= i < n :: rs[..n][i] == rs[i];
    }
  }
}
