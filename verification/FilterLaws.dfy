// The two filters on arbitrary text, said line by line.
module FilterLaws {
  import opened Strings
  import opened MasterPlaylist
  import opened PrintedLines
  import opened ManifestFilter
  import opened ManifestProxy

  // ---- By codec -------------------------------------------------------------------------------

  predicate IsInf(line: string) { HasPrefix(TrimSpace(line), "#EXT-X-STREAM-INF:") }

  // A line behind a STREAM-INF line that lets it through.
  predicate Passing(line: string, codec: string) {
    var text := TrimSpace(line);
    text == "" || HasPrefix(text, "#") || HasPrefix(text, codec + "/")
  }

  // A STREAM-INF line stays if a passing line of another kind follows it; any
  // other line stays unless it stands behind one and does not pass.
  predicate Stays(lines: seq<string>, i: nat, codec: string)
    requires i < |lines|
  {
    if IsInf(lines[i]) then i + 1 < |lines| && !IsInf(lines[i + 1]) && Passing(lines[i + 1], codec)
    else i == 0 || !IsInf(lines[i - 1]) || Passing(lines[i], codec)
  }

  // The lines from i on that stay, in order.
  function Staying(lines: seq<string>, codec: string, i: nat): seq<string>
    requires i <= |lines|
    decreases |lines| - i
  {
    if i == |lines| then []
    else (if Stays(lines, i, codec) then [lines[i]] else []) + Staying(lines, codec, i + 1)
  }

  lemma KindMeans(line: string, codec: string)
    ensures KindOf(line, codec) == Inf <==> IsInf(line)
    ensures KindOf(line, codec) == Passes <==> !IsInf(line) && Passing(line, codec)
    ensures IsInf(line) ==> line != ""
  {
    TagIsNotBlank();
    if line == "" {
      assert TrimSpace(line) == "";
    }
  }

  lemma TagIsNotBlank()
    ensures STREAM_INF == "#EXT-X-STREAM-INF:" && |STREAM_INF| > 0
  {
  }

  // The line held back when line i is read.
  function HeldAt(lines: seq<string>, i: nat): string
    requires i <= |lines|
  {
    if i > 0 && IsInf(lines[i - 1]) then lines[i - 1] else ""
  }

  function HeldKept(lines: seq<string>, codec: string, i: nat): seq<string>
    requires i <= |lines|
  {
    if i > 0 && IsInf(lines[i - 1]) && Stays(lines, i - 1, codec) then [lines[i - 1]] else []
  }

  ghost predicate KeptFrom(lines: seq<string>, codec: string, kind: string -> Kind, i: nat) {
    i <= |lines|
    && KeepCodec(lines[i..], kind, HeldAt(lines, i)) == HeldKept(lines, codec, i) + Staying(lines, codec, i)
  }

  lemma InfStep(lines: seq<string>, codec: string, kind: string -> Kind, i: nat)
    requires i < |lines| && KeptFrom(lines, codec, kind, i + 1) && IsInf(lines[i]) && kind(lines[i]) == Inf
    ensures KeptFrom(lines, codec, kind, i)
  {
    assert lines[i..][0] == lines[i] && lines[i..][1..] == lines[i + 1..];
    assert HeldKept(lines, codec, i) == [];
    assert HeldKept(lines, codec, i + 1) == if Stays(lines, i, codec) then [lines[i]] else [];
  }

  // A line that nothing is held back in front of.
  lemma FreeStep(lines: seq<string>, codec: string, kind: string -> Kind, i: nat)
    requires i < |lines| && KeptFrom(lines, codec, kind, i + 1) && !IsInf(lines[i]) && kind(lines[i]) != Inf
    requires i == 0 || !IsInf(lines[i - 1])
    ensures KeptFrom(lines, codec, kind, i)
  {
    assert lines[i..][0] == lines[i] && lines[i..][1..] == lines[i + 1..];
    assert KeepCodec(lines[i + 1..], kind, "") == [] + Staying(lines, codec, i + 1);
  }

  lemma BehindStep(lines: seq<string>, codec: string, kind: string -> Kind, i: nat)
    requires 0 < i < |lines| && KeptFrom(lines, codec, kind, i + 1) && !IsInf(lines[i])
    requires kind(lines[i]) == if Passing(lines[i], codec) then Passes else Blocks
    requires IsInf(lines[i - 1]) && lines[i - 1] != ""
    ensures KeptFrom(lines, codec, kind, i)
  {
    var rest := Staying(lines, codec, i + 1);
    assert lines[i..][0] == lines[i] && lines[i..][1..] == lines[i + 1..];
    assert KeepCodec(lines[i + 1..], kind, "") == [] + rest;
    PairFirst(lines[i - 1], lines[i], rest);
  }

  lemma PairFirst(a: string, b: string, rest: seq<string>)
    ensures [a] + ([b] + rest) == [a, b] + rest && [] + rest == rest
  {
  }

  lemma StepBehind(lines: seq<string>, codec: string, kind: string -> Kind, i: nat)
    requires i < |lines| && KeptFrom(lines, codec, kind, i + 1) && !IsInf(lines[i])
    requires kind(lines[i]) == if Passing(lines[i], codec) then Passes else Blocks
    ensures KeptFrom(lines, codec, kind, i)
  {
    if i > 0 && IsInf(lines[i - 1]) {
      KindMeans(lines[i - 1], codec);
      BehindStep(lines, codec, kind, i);
    } else {
      FreeStep(lines, codec, kind, i);
    }
  }

  lemma {:induction false} KeepsStaying(lines: seq<string>, codec: string, kind: string -> Kind, i: nat)
    requires i <= |lines| && forall s :: kind(s) == KindOf(s, codec)
    ensures KeptFrom(lines, codec, kind, i)
    decreases |lines| - i
  {
    if i < |lines| {
      KeepsStaying(lines, codec, kind, i + 1);
      KindMeans(lines[i], codec);
      if IsInf(lines[i]) {
        InfStep(lines, codec, kind, i);
      } else {
        StepBehind(lines, codec, kind, i);
      }
    }
  }

  lemma CodecFilterMeans(content: string, codec: string)
    ensures var kept := Join(Staying(Split(content, '\n'), codec, 0), '\n');
            CodecFiltered(content, codec) == if Contains(kept, "#EXT-X-STREAM-INF:") then kept else content
  {
    var lines := Split(content, '\n');
    KeepsStaying(lines, codec, CodecKind(codec), 0);
    FromStart(lines, codec, CodecKind(codec));
    TagIsNotBlank();
  }

  lemma FromStart(lines: seq<string>, codec: string, kind: string -> Kind)
    requires KeptFrom(lines, codec, kind, 0)
    ensures KeepCodec(lines, kind, "") == Staying(lines, codec, 0)
  {
    assert lines[0..] == lines;
  }

  // ---- By track ---------------------------------------------------------------------------------

  ghost predicate UriHas(tag: string, segment: string) {
    exists before, uri, after :: FirstUri(tag, before, uri, after) && Contains(uri, segment)
  }

  // What becomes of a line, if anything does.
  ghost predicate TrackKept(line: string, out: seq<string>, audio: string, subs: string) {
    var text := TrimSpace(line);
    if HasPrefix(text, "#EXT-X-MEDIA:TYPE=AUDIO,") && audio != "" then
      if UriHas(text, "audio/" + audio + "/") then |out| == 1 && DefaultForced(text, out[0]) else out == []
    else if HasPrefix(text, "#EXT-X-MEDIA:TYPE=SUBTITLES,") && subs != "" then
      if UriHas(text, "subs/" + subs + "/") then out == [line] else out == []
    else out == [line]
  }

  // The first DEFAULT=NO becomes DEFAULT=YES.
  ghost predicate DefaultForced(tag: string, out: string) {
    (forall i | 0 <= i <= |tag| && FirstAt(tag, "DEFAULT=NO", i) :: out == tag[..i] + "DEFAULT=YES" + tag[i + 10..])
    && (!Contains(tag, "DEFAULT=NO") ==> out == tag)
  }

  ghost predicate FirstAt(s: string, sub: string, i: int) {
    At(s, sub, i) && i + |sub| <= |s| && forall k | 0 <= k < i :: !At(s, sub, k)
  }

  lemma ForceDefaultMeans(tag: string)
    ensures DefaultForced(tag, ForceDefault(tag))
  {
    DefaultLengths();
    forall i | 0 <= i <= |tag| && FirstAt(tag, "DEFAULT=NO", i)
      ensures ForceDefault(tag) == tag[..i] + "DEFAULT=YES" + tag[i + 10..]
    {
      IndexIs(tag, DEFAULT_NO, i);
      ReplaceAt(tag, DEFAULT_NO, DEFAULT_YES, i);
    }
    if !Contains(tag, "DEFAULT=NO") {
      IndexNone(tag, DEFAULT_NO);
      ReplaceAt(tag, DEFAULT_NO, DEFAULT_YES, -1);
    }
  }

  lemma DefaultLengths()
    ensures |"DEFAULT=NO"| == 10 && DEFAULT_NO == "DEFAULT=NO" && DEFAULT_YES == "DEFAULT=YES"
  {
  }

  lemma SegmentMeans(tag: string, segment: string)
    ensures ContainsUriSegment(tag, segment) <==> UriHas(tag, segment)
  {
    if ContainsUriSegment(tag, segment) {
      var before, uri, after := SomeFirstUri(tag);
      FirstIsSplit(tag, before, uri, after);
    }
    if before, uri, after :| FirstUri(tag, before, uri, after) && Contains(uri, segment) {
      FirstIsSplit(tag, before, uri, after);
    }
  }

  lemma TrackLineMeans(line: string, audio: string, subs: string)
    ensures TrackKept(line, KeepTrack(line, audio, subs), audio, subs)
  {
    var text := TrimSpace(line);
    SegmentMeans(text, "audio/" + audio + "/");
    SegmentMeans(text, "subs/" + subs + "/");
    ForceDefaultMeans(text);
    RenditionTags();
  }

  lemma RenditionTags()
    ensures AUDIO_TAG == "#EXT-X-MEDIA:TYPE=AUDIO," && SUBTITLES_TAG == "#EXT-X-MEDIA:TYPE=SUBTITLES,"
    ensures !(exists s: string :: HasPrefix(s, AUDIO_TAG) && HasPrefix(s, SUBTITLES_TAG))
  {
    assert AUDIO_TAG[18] == 'A' && SUBTITLES_TAG[18] == 'S';
  }

  function Flatten(parts: seq<seq<string>>): seq<string> {
    if parts == [] then [] else parts[0] + Flatten(parts[1..])
  }

  lemma {:induction false} FlatMapParts(lines: seq<string>, f: string -> seq<string>) returns (parts: seq<seq<string>>)
    ensures |parts| == |lines| && Flatten(parts) == FlatMap(lines, f)
    ensures forall i | 0 <= i < |lines| :: parts[i] == f(lines[i])
  {
    parts := [];
    if lines != [] {
      var rest := FlatMapParts(lines[1..], f);
      parts := [f(lines[0])] + rest;
      assert parts[1..] == rest;
    }
  }

  // Every line is kept, changed or dropped on its own, in order.
  lemma TrackFilterMeans(content: string, audio: string, subs: string) returns (parts: seq<seq<string>>)
    ensures TracksFiltered(content, audio, subs) == Join(Flatten(parts), '\n')
    ensures |parts| == |Split(content, '\n')|
    ensures forall i | 0 <= i < |parts| :: TrackKept(Split(content, '\n')[i], parts[i], audio, subs)
  {
    var lines := Split(content, '\n');
    parts := FlatMapParts(lines, TrackKeeper(audio, subs));
    forall i | 0 <= i < |parts| ensures TrackKept(lines[i], parts[i], audio, subs) {
      TrackLineMeans(lines[i], audio, subs);
    }
  }
}
