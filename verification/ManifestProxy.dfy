// The manifest proxy as its callers see it: which requests are answered, and
// what every line of an unfiltered answer is.
module ManifestProxy {
  import opened Prelude
  import opened Strings
  import opened MasterPlaylist
  import opened ManifestRewrite

  // ---- Accepted paths ---------------------------------------------------------------------

  // Short, naming a playlist, without empty and dot segments and without escapes.
  ghost predicate PlainPath(rest: string) {
    Utf8Length(rest) <= 512 && HasSuffix(rest, ".m3u8")
    && !Contains("/" + rest + "/", "//") && !Contains("/" + rest + "/", "/./") && !Contains("/" + rest + "/", "/../")
    && Lacks(rest, '\\') && Lacks(rest, '?') && Lacks(rest, '#') && Lacks(rest, '%')
  }

  // Every segment behind a slash.
  function Trail(segments: seq<string>): string {
    if segments == [] then "" else segments[0] + "/" + Trail(segments[1..])
  }

  lemma {:induction false} TrailIsJoin(segments: seq<string>)
    requires segments != []
    ensures Trail(segments) == Join(segments, '/') + "/"
  {
    if |segments| > 1 {
      TrailIsJoin(segments[1..]);
      TrailStep(segments[0], Join(segments[1..], '/'));
    } else {
      assert Trail(segments[1..]) == "" && segments[0] + "/" + "" == segments[0] + "/";
    }
  }

  lemma TrailStep(a: string, b: string)
    ensures a + "/" + (b + "/") == a + ['/'] + b + "/"
  {
  }

  // A segment in slashes occurs at the first segment or behind it.
  lemma SegmentFirst(first: string, tail: string, seg: string)
    requires Lacks(first, '/') && Lacks(seg, '/')
    ensures Contains("/" + (first + "/" + tail), "/" + seg + "/")
            <==> first == seg || Contains("/" + tail, "/" + seg + "/")
  {
    var s, sub := "/" + (first + "/" + tail), "/" + seg + "/";
    var n := |first| + 1;
    assert s[n..] == "/" + tail && s[1..] == first + "/" + tail;
    assert forall k | 0 < k < n :: s[k] == first[k - 1];
    PrefixSegment(first, tail, seg);
    if i :| 0 <= i <= |s| && At(s, sub, i) {
      AtChar(s, sub, i, 0);
      if i == 0 {
        AtStartIsPrefix(s, sub);
      } else {
        AtUnshifted(s, n, sub, i);
      }
    }
    if i :| 0 <= i <= |"/" + tail| && At("/" + tail, sub, i) {
      AtShifted(s, n, sub, i);
    }
    if first == seg {
      AtStartIsPrefix(s, sub);
    }
  }

  lemma PrefixSegment(first: string, tail: string, seg: string)
    requires Lacks(first, '/') && Lacks(seg, '/')
    ensures HasPrefix("/" + (first + "/" + tail), "/" + seg + "/") <==> first == seg
  {
    var s, sub := "/" + (first + "/" + tail), "/" + seg + "/";
    assert s[1..] == first + "/" + tail && sub[1..] == seg + "/";
    CharIndex(first, '/', tail);
    assert first + "/" + tail == first + ['/'] + tail && s[1..][..|first|] == first;
    if HasPrefix(s, sub) {
      assert s[1..][..|seg| + 1] == seg + "/";
      var after := s[1..][|seg| + 1..];
      assert s[1..] == seg + ['/'] + after && s[1..][..|seg|] == seg;
      CharIndex(seg, '/', after);
    }
    if first == seg {
      assert s[..|sub|] == sub;
    }
  }

  lemma {:induction false} SegmentInTrail(segments: seq<string>, seg: string)
    requires Lacks(seg, '/') && forall i | 0 <= i < |segments| :: Lacks(segments[i], '/')
    ensures Contains("/" + Trail(segments), "/" + seg + "/") <==> seg in segments
  {
    if segments == [] {
      assert "/" + Trail(segments) == "/";
    } else {
      SegmentInTrail(segments[1..], seg);
      SegmentFirst(segments[0], Trail(segments[1..]), seg);
      assert segments == [segments[0]] + segments[1..];
    }
  }

  lemma SegmentOccurs(rest: string, seg: string)
    requires Lacks(seg, '/')
    ensures Contains("/" + rest + "/", "/" + seg + "/") <==> seg in Split(rest, '/')
  {
    SegmentInTrail(Split(rest, '/'), seg);
    TrailIsJoin(Split(rest, '/'));
    JoinSplit(rest, '/');
    assert "/" + (rest + "/") == "/" + rest + "/";
  }

  ghost predicate EachLacks(parts: seq<string>, c: char) { forall i | 0 <= i < |parts| :: Lacks(parts[i], c) }

  lemma PartsLack(s: string, c: char)
    requires c != '/'
    ensures Lacks(s, c) <==> EachLacks(Split(s, '/'), c)
  {
    JoinSplit(s, '/');
    if Lacks(s, c) {
      SplitLacks(s, '/', c);
    }
    if EachLacks(Split(s, '/'), c) {
      JoinLacks(Split(s, '/'), '/', c);
    }
  }

  lemma DotTexts()
    ensures "/" + "" + "/" == "//" && "/" + "." + "/" == "/./" && "/" + ".." + "/" == "/../"
    ensures Lacks("", '/') && Lacks(".", '/') && Lacks("..", '/')
  {
  }

  lemma PlainMeans(segment: string)
    ensures PlainSegment(segment)
            <==> segment != "" && segment != "." && segment != ".."
                 && Lacks(segment, '\\') && Lacks(segment, '?') && Lacks(segment, '#') && Lacks(segment, '%')
  {
  }

  lemma AllPlainMeans(segments: seq<string>)
    ensures PlainSegments(segments)
            <==> "" !in segments && "." !in segments && ".." !in segments
                 && EachLacks(segments, '\\') && EachLacks(segments, '?') && EachLacks(segments, '#')
                 && EachLacks(segments, '%')
  {
    forall i | 0 <= i < |segments|
      ensures PlainSegment(segments[i])
              <==> segments[i] != "" && segments[i] != "." && segments[i] != ".."
                   && Lacks(segments[i], '\\') && Lacks(segments[i], '?') && Lacks(segments[i], '#') && Lacks(segments[i], '%')
    {
      PlainMeans(segments[i]);
    }
  }

  // What the handler accepts, said of the text of the path: it cannot leave the
  // video's directory nor smuggle in a query or an escape.
  lemma ManifestPathMeans(rest: string)
    ensures IsManifestPath(rest) <==> PlainPath(rest)
  {
    DotTexts();
    AllPlainMeans(Split(rest, '/'));
    SegmentOccurs(rest, "");
    SegmentOccurs(rest, ".");
    SegmentOccurs(rest, "..");
    PartsLack(rest, '\\');
    PartsLack(rest, '?');
    PartsLack(rest, '#');
    PartsLack(rest, '%');
  }

  // The length in bytes lies between one and four per character; it is the
  // number of characters of an ASCII path.
  lemma {:induction false} Utf8LengthBounds(s: string)
    ensures |s| <= Utf8Length(s) <= 4 * |s|
    ensures Utf8Length(s) == |s| <==> forall i | 0 <= i < |s| :: s[i] < '\U{80}'
  {
    if s != "" {
      Utf8LengthBounds(s[1..]);
      assert forall i | 0 < i < |s| :: s[i] == s[1..][i - 1];
    }
  }

  // ---- Requests -------------------------------------------------------------------------------

  // The path asks for playlist `rest` of video `id`, with or without the prefix
  // under which the handler is registered.
  ghost predicate Asks(path: string, id: string, rest: string) {
    Lacks(id, '/')
    && (path == "/hls-proxy/" + (id + "/" + rest) || (!HasPrefix(path, "/hls-proxy/") && path == id + "/" + rest))
  }

  lemma RouteMeans(path: string, isUuid: string -> bool, id: string, rest: string)
    ensures Route(path, isUuid) == Ok(Target(id, rest)) <==> Asks(path, id, rest) && isUuid(id) && PlainPath(rest)
  {
    var trimmed := TrimPrefix(path, "/hls-proxy/");
    ManifestPathMeans(rest);
    TrimmedAsks(path, id, rest);
    SplitsAt(trimmed, id, rest);
    var idx := Index(trimmed, "/");
    if idx >= 0 {
      ManifestPathMeans(trimmed[idx + 1..]);
    }
  }

  lemma TrimmedAsks(path: string, id: string, rest: string)
    ensures Asks(path, id, rest) <==> Lacks(id, '/') && TrimPrefix(path, "/hls-proxy/") == id + "/" + rest
  {
    var prefix := "/hls-proxy/";
    if HasPrefix(path, prefix) {
      assert path == prefix + path[|prefix|..];
      assert (prefix + (id + "/" + rest))[|prefix|..] == id + "/" + rest;
    } else {
      assert HasPrefix(prefix + (id + "/" + rest), prefix);
    }
  }

  lemma SplitsAt(s: string, id: string, rest: string)
    ensures Lacks(id, '/') && s == id + "/" + rest
            <==> Index(s, "/") >= 0 && id == s[..Index(s, "/")] && rest == s[Index(s, "/") + 1..]
  {
    var i := Index(s, "/");
    if Lacks(id, '/') && s == id + "/" + rest {
      CharIndex(id, '/', rest);
      assert s == id + ['/'] + rest && "/" == ['/'];
    }
    if i >= 0 {
      SlashAt(s);
      assert s == s[..i] + "/" + s[i + 1..];
    }
  }

  lemma OneCharAt(s: string, sub: string, k: nat)
    requires |sub| == 1 && k < |s|
    ensures At(s, sub, k) <==> s[k] == sub[0]
  {
    if At(s, sub, k) {
      AtFirstChar(s, sub, k);
    }
  }

  lemma SlashAt(s: string)
    requires Index(s, "/") >= 0
    ensures s[Index(s, "/")] == '/' && Lacks(s[..Index(s, "/")], '/')
  {
    var i := Index(s, "/");
    if !Contains(s, "/") {
      IndexNone(s, "/");
    }
    IndexFirst(s, "/");
    AtFirstChar(s, "/", i);
    forall k | 0 <= k < i ensures s[k] != '/' {
      OneCharAt(s, "/", k);
    }
  }

  // ---- Lines ------------------------------------------------------------------------------------

  // What follows the last dot.
  function Extension(ref: string): Option<string> {
    var parts := Split(ref, '.');
    if |parts| == 1 then None else Some(parts[|parts| - 1])
  }

  lemma SuffixIsExtension(ref: string, ext: string)
    requires Lacks(ext, '.')
    ensures HasSuffix(ref, "." + ext) <==> Extension(ref) == Some(ext)
  {
    if HasSuffix(ref, "." + ext) {
      var front := ref[..|ref| - |"." + ext|];
      assert ref == front + ['.'] + ext;
      SplitBoth(front, '.', ext);
      SplitOne(ext, '.');
    }
    if Extension(ref) == Some(ext) {
      var parts := Split(ref, '.');
      var init := parts[..|parts| - 1];
      JoinSplit(ref, '.');
      assert parts == init + [ext];
      JoinAppend(init, [ext], '.');
      SuffixOf(Join(init, '.'), ext);
    }
  }

  lemma SuffixOf(front: string, ext: string)
    ensures HasSuffix(front + ['.'] + ext, "." + ext)
  {
    assert (front + ['.'] + ext)[|front|..] == "." + ext;
  }

  // Where a reference of playlist `rest` leads below /hls-proxy/ or /hls/: to the
  // reference merged with the playlist's own address, or, for one from the root,
  // to that path below the video.
  function LinkTo(dir: string, id: string, rest: string, ref: string, token: string): string {
    if HasPrefix(ref, "/") then dir + id + ref + token else Merge(dir + id + "/" + rest, ref) + token
  }

  // The first URI="..." of a tag.
  ghost predicate FirstUri(tag: string, before: string, uri: string, after: string) {
    tag == before + "URI=\"" + uri + "\"" + after && Lacks(uri, '"') && forall k | 0 <= k < |before| :: !At(tag, "URI=\"", k)
  }

  ghost predicate TagServed(tag: string, out: string, dir: string, id: string, rest: string, token: string) {
    (forall before, uri, after | FirstUri(tag, before, uri, after) ::
       out == before + "URI=\"" + LinkTo(dir, id, rest, uri, token) + "\"" + after)
    && ((forall before, uri, after :: !FirstUri(tag, before, uri, after)) ==> out == tag)
  }

  // What the proxy sends for a line of playlist `rest` of video `id`.
  ghost predicate LineServed(line: string, out: string, id: string, rest: string, token: string) {
    var text := TrimSpace(line);
    if HasPrefix(text, "#EXT-X-MAP:") then TagServed(text, out, "/hls/", id, rest, token)
    else if HasPrefix(text, "#EXT-X-MEDIA:") || HasPrefix(text, "#EXT-X-IMAGE-STREAM-INF:") then
      TagServed(text, out, "/hls-proxy/", id, rest, token)
    else if text == "" || HasPrefix(text, "#") then out == line
    else if Extension(text) == Some("m3u8") then out == LinkTo("/hls-proxy/", id, rest, text, token)
    else if Extension(text).Some? && Extension(text).value in {"ts", "m4s", "jpg", "jpeg", "vtt"} then
      out == LinkTo("/hls/", id, rest, text, token)
    else out == line
  }

  ghost predicate LinesServed(body: string, answer: string, id: string, rest: string, token: string) {
    var lines, sent := Split(body, '\n'), Split(answer, '\n');
    |sent| == |lines| && forall i | 0 <= i < |lines| :: LineServed(lines[i], sent[i], id, rest, token)
  }

  lemma LinkIsTo(dir: string, target: Target, token: string, ref: string)
    requires IsManifestPath(target.rest) && HasSuffix(dir, "/")
    ensures Link(dir, LinksFor(target, token), ref) == LinkTo(dir, target.videoId, target.rest, ref, token)
  {
    if HasPrefix(ref, "/") {
      assert ref == "/" + ref[1..];
      RootedText(dir, target.videoId, ref[1..], token);
    } else {
      LinksAreMerged(dir, target, token, ref);
    }
  }

  lemma RootedText(dir: string, id: string, tail: string, token: string)
    ensures dir + (id + "/" + (tail + token)) == dir + id + ("/" + tail) + token
  {
  }

  // SplitUri finds the first URI="..." and nothing else.
  lemma UriIsFirst(tag: string, before: string, uri: string, after: string)
    ensures FirstUri(tag, before, uri, after)
            <==> SplitUri(tag) == Some(UriParts(before + URI, uri, "\"" + after))
  {
    if FirstUri(tag, before, uri, after) {
      FirstIsSplit(tag, before, uri, after);
    }
    if SplitUri(tag) == Some(UriParts(before + URI, uri, "\"" + after)) {
      SplitIsFirst(tag, before, uri, after);
    }
  }

  lemma FirstIsSplit(tag: string, before: string, uri: string, after: string)
    requires FirstUri(tag, before, uri, after)
    ensures SplitUri(tag) == Some(UriParts(before + URI, uri, "\"" + after))
  {
    var rest := uri + "\"" + after;
    assert tag == before + "URI=\"" + rest;
    Slices(tag, before, rest);
    AtStartIsPrefix(tag[|before|..], URI);
    AtShifted(tag, |before|, URI, 0);
    IndexIs(tag, URI, |before|);
    CharIndex(uri, '"', after);
    QuoteChar();
    Slices(rest, uri, after);
  }

  lemma Slices(s: string, front: string, back: string)
    ensures s == front + "URI=\"" + back ==>
              s[|front|..] == URI + back && s[..|front| + |URI|] == front + URI && s[|front| + |URI|..] == back
    ensures s == front + "\"" + back ==> s[..|front|] == front && s[|front|..] == "\"" + back
  {
    if s == front + "URI=\"" + back {
      assert s == front + (URI + back) && s == front + URI + back;
    }
    if s == front + "\"" + back {
      assert s == front + ("\"" + back);
    }
  }

  lemma QuoteChar()
    ensures "\"" == ['"']
  {
  }

  lemma SplitIsFirst(tag: string, before: string, uri: string, after: string)
    requires SplitUri(tag) == Some(UriParts(before + URI, uri, "\"" + after))
    ensures FirstUri(tag, before, uri, after)
  {
    var b, u, a := SomeFirstUri(tag);
    FirstIsSplit(tag, b, u, a);
    CancelBack(before, b, URI);
    CancelFront("\"", after, a);
  }

  lemma CancelBack(a: string, b: string, c: string)
    requires a + c == b + c
    ensures a == b
  {
    assert (a + c)[..|a|] == a && (b + c)[..|b|] == b && |a + c| == |b + c|;
  }

  lemma CancelFront(c: string, a: string, b: string)
    requires c + a == c + b
    ensures a == b
  {
    assert (c + a)[|c|..] == a && (c + b)[|c|..] == b;
  }

  lemma SomeFirstUri(tag: string) returns (before: string, uri: string, after: string)
    requires SplitUri(tag).Some?
    ensures FirstUri(tag, before, uri, after)
  {
    var i := Index(tag, URI);
    if !Contains(tag, URI) {
      IndexNone(tag, URI);
    }
    IndexFirst(tag, URI);
    AtIsSlice(tag, URI, i);
    var rest := tag[i + |URI|..];
    var end := Index(rest, "\"");
    QuoteAt(rest);
    QuoteStarts(rest);
    before, uri, after := tag[..i], rest[..end], rest[end + 1..];
    ThreeParts(tag, i, URI, end);
  }

  lemma ThreeParts(s: string, i: nat, sub: string, end: nat)
    requires i + |sub| <= |s| && s[i..i + |sub|] == sub
    requires end < |s[i + |sub|..]| && s[i + |sub|..][end..] == "\"" + s[i + |sub|..][end + 1..]
    ensures var rest := s[i + |sub|..]; s == s[..i] + sub + rest[..end] + "\"" + rest[end + 1..]
  {
    var rest := s[i + |sub|..];
    assert s == s[..i] + sub + rest && rest == rest[..end] + rest[end..];
  }

  lemma QuoteAt(s: string)
    requires Index(s, "\"") >= 0
    ensures Lacks(s[..Index(s, "\"")], '"')
  {
    var i := Index(s, "\"");
    if !Contains(s, "\"") {
      IndexNone(s, "\"");
    }
    IndexFirst(s, "\"");
    forall k | 0 <= k < i ensures s[k] != '"' {
      OneCharAt(s, "\"", k);
    }
  }

  lemma TagIsServed(tag: string, target: Target, token: string, dir: string)
    requires IsManifestPath(target.rest) && HasSuffix(dir, "/")
    ensures TagServed(tag, RewriteTag(tag, LinksFor(target, token), dir), dir, target.videoId, target.rest, token)
  {
    var out := RewriteTag(tag, LinksFor(target, token), dir);
    forall before, uri, after | FirstUri(tag, before, uri, after)
      ensures out == before + "URI=\"" + LinkTo(dir, target.videoId, target.rest, uri, token) + "\"" + after
    {
      UriIsFirst(tag, before, uri, after);
      LinkIsTo(dir, target, token, uri);
      Reassemble(before, LinkTo(dir, target.videoId, target.rest, uri, token), after);
    }
    if SplitUri(tag).Some? {
      var before, uri, after := SomeFirstUri(tag);
    }
  }

  lemma Reassemble(before: string, link: string, after: string)
    ensures (before + URI) + link + ("\"" + after) == before + "URI=\"" + link + "\"" + after
  {
  }

  lemma QuoteStarts(s: string)
    requires Index(s, "\"") >= 0
    ensures s[Index(s, "\"")..] == "\"" + s[Index(s, "\"") + 1..]
  {
    if !Contains(s, "\"") {
      IndexNone(s, "\"");
    }
    IndexFirst(s, "\"");
    AtFirstChar(s, "\"", Index(s, "\""));
  }

  lemma Extensions(ref: string)
    ensures HasSuffix(ref, MANIFEST) <==> Extension(ref) == Some("m3u8")
    ensures IsMediaFile(ref) <==> Extension(ref).Some? && Extension(ref).value in {"ts", "m4s", "jpg", "jpeg", "vtt"}
  {
    DottedTexts();
    SuffixIsExtension(ref, "m3u8");
    SuffixIsExtension(ref, "ts");
    SuffixIsExtension(ref, "m4s");
    SuffixIsExtension(ref, "jpg");
    SuffixIsExtension(ref, "jpeg");
    SuffixIsExtension(ref, "vtt");
  }

  lemma DottedTexts()
    ensures MANIFEST == "." + "m3u8" && ".ts" == "." + "ts" && ".m4s" == "." + "m4s"
    ensures ".jpg" == "." + "jpg" && ".jpeg" == "." + "jpeg" && ".vtt" == "." + "vtt"
  {
  }

  lemma LineIsServed(line: string, target: Target, token: string)
    requires IsManifestPath(target.rest)
    ensures LineServed(line, RewriteLine(line, LinksFor(target, token)), target.videoId, target.rest, token)
  {
    var text := TrimSpace(line);
    PrefixesEndInSlash();
    if text != "" {
      Extensions(text);
      TagIsServed(text, target, token, FILES);
      TagIsServed(text, target, token, PROXY);
      LinkIsTo(FILES, target, token, text);
      LinkIsTo(PROXY, target, token, text);
      NotBlank(text);
    }
  }

  lemma NotBlank(text: string)
    requires text != ""
    ensures MAP_TAG == "#EXT-X-MAP:" && MEDIA_TAG == "#EXT-X-MEDIA:" && IMAGES_HEAD == "#EXT-X-IMAGE-STREAM-INF:"
    ensures PROXY == "/hls-proxy/" && FILES == "/hls/"
  {
  }

  lemma AnswerIsServed(body: string, target: Target, token: string)
    requires IsManifestPath(target.rest)
    requires Lacks(target.videoId, '\n') && Lacks(target.rest, '\n') && Lacks(token, '\n')
    ensures LinesServed(body, Rewritten(body, LinksFor(target, token)), target.videoId, target.rest, token)
  {
    LinesStayLines(body, LinksFor(target, token));
    var lines := Split(body, '\n');
    forall i | 0 <= i < |lines|
      ensures LineServed(lines[i], RewriteLine(lines[i], LinksFor(target, token)), target.videoId, target.rest, token)
    {
      LineIsServed(lines[i], target, token);
    }
  }

  // ---- The handler --------------------------------------------------------------------------------

  // Only master playlists are filtered, and only if the query says so.
  ghost predicate Unfiltered(rest: string, q: Query) {
    !HasSuffix(rest, "master.m3u8") || (q.codec == "" && q.audio == "" && q.subs == "")
  }

  ghost predicate Granted(path: string, isUuid: string -> bool, authorised: bool, id: string, rest: string) {
    Asks(path, id, rest) && isUuid(id) && PlainPath(rest) && authorised
  }

  method ServeManifest(path: string, q: Query, isUuid: string -> bool, authorised: bool,
                       fetch: Target -> Result<string, Refusal>)
    returns (r: Result<string, Refusal>)
    ensures Route(path, isUuid).Err? ==> r == Err(Route(path, isUuid).error)
    ensures Route(path, isUuid).Ok? && !authorised ==> r == Err(Unauthorized)
    ensures Route(path, isUuid).Ok? && authorised ==>
              r == Served(fetch(Route(path, isUuid).value), Route(path, isUuid).value, q)
    ensures r.Ok? ==> exists id, rest :: Granted(path, isUuid, authorised, id, rest) && fetch(Target(id, rest)).Ok?
    ensures forall id, rest | Granted(path, isUuid, authorised, id, rest) ::
              (r.Ok? <==> fetch(Target(id, rest)).Ok?)
              && (r.Ok? && Unfiltered(rest, q) && Lacks(id, '\n') && Lacks(rest, '\n') && Lacks(q.token, '\n') ==>
                    LinesServed(fetch(Target(id, rest)).value, r.value, id, rest, q.token))
  {
    forall id, rest | Granted(path, isUuid, authorised, id, rest) ensures Route(path, isUuid) == Ok(Target(id, rest)) {
      RouteMeans(path, isUuid, id, rest);
    }
    var routed := CheckPath(path, isUuid);
    if routed.Err? {
      return Err(routed.error);
    }
    if !authorised {
      return Err(Unauthorized);
    }
    RouteMeans(path, isUuid, routed.value.videoId, routed.value.rest);
    assert Granted(path, isUuid, authorised, routed.value.videoId, routed.value.rest);
    var body := fetch(routed.value);
    if body.Err? {
      return Err(body.error);
    }
    var raw := ApplyFilters(body.value, routed.value.rest, q);
    var text := RewriteManifest(raw, routed.value.videoId, routed.value.rest, q.token);
    if Unfiltered(routed.value.rest, q) && Lacks(routed.value.videoId, '\n') && Lacks(routed.value.rest, '\n')
       && Lacks(q.token, '\n') {
      ManifestPathMeans(routed.value.rest);
      AnswerIsServed(body.value, routed.value, q.token);
    }
    r := Ok(text);
  }
}
