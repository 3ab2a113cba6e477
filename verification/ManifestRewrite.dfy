// The manifest proxy: which requests it serves, and how it rewrites the links
// of the playlist it serves.
module ManifestRewrite {
  import opened Prelude
  import opened Strings
  import opened MasterPlaylist
  import opened ManifestFilter

  const PROXY := "/hls-proxy/"
  const FILES := "/hls/"
  const MAP_TAG := "#EXT-X-MAP:"
  const MEDIA_TAG := "#EXT-X-MEDIA:"
  const MANIFEST := ".m3u8"

  // ---- Requests ---------------------------------------------------------------------------

  // Go counts the bytes of the UTF-8 encoding.
  function Utf8Length(s: string): nat {
    if s == "" then 0 else Utf8Width(s[0]) + Utf8Length(s[1..])
  }

  function Utf8Width(c: char): nat {
    if c < '\U{80}' then 1 else if c < '\U{800}' then 2 else if c < '\U{10000}' then 3 else 4
  }

  predicate PlainSegment(segment: string) {
    segment != "" && segment != "." && segment != ".." && forall i | 0 <= i < |segment| :: segment[i] !in "\\?#%"
  }

  predicate PlainSegments(segments: seq<string>) {
    forall i | 0 <= i < |segments| :: PlainSegment(segments[i])
  }

  predicate IsManifestPath(rest: string) {
    Utf8Length(rest) <= 512 && HasSuffix(rest, MANIFEST) && PlainSegments(Split(rest, '/'))
  }

  method ValidManifestPath(rest: string) returns (ok: bool)
    ensures ok <==> IsManifestPath(rest)
  {
    if rest == "" || Utf8Length(rest) > 512 || !HasSuffix(rest, MANIFEST) {
      return false;
    }
    var segments := Split(rest, '/');
    for i := 0 to |segments|
      invariant PlainSegments(segments[..i])
    {
      var seg := segments[i];
      if seg == "" || seg == "." || seg == ".." {
        return false;
      }
      if exists k | 0 <= k < |seg| :: seg[k] in "\\?#%" {
        return false;
      }
      assert segments[..i + 1] == segments[..i] + [seg];
    }
    assert segments[..|segments|] == segments;
    return true;
  }

  datatype Target = Target(videoId: string, rest: string)

  datatype Refusal = InvalidPath | InvalidVideoId | InvalidManifestPath | Unauthorized | NotFound | FetchFailed

  // The playlist a request path asks for.
  function Route(path: string, isUuid: string -> bool): Result<Target, Refusal> {
    var trimmed := TrimPrefix(path, PROXY);
    var idx := Index(trimmed, "/");
    if idx < 0 then Err(InvalidPath)
    else if !isUuid(trimmed[..idx]) then Err(InvalidVideoId)
    else if !IsManifestPath(trimmed[idx + 1..]) then Err(InvalidManifestPath)
    else Ok(Target(trimmed[..idx], trimmed[idx + 1..]))
  }

  datatype Query = Query(token: string, codec: string, audio: string, subs: string)

  // `token` is the rendered query string that is appended to every link.
  function Filtered(raw: string, rest: string, q: Query): string {
    if !HasSuffix(rest, "master.m3u8") then raw
    else
      var byCodec := if q.codec != "" then CodecFiltered(raw, q.codec) else raw;
      if q.audio != "" || q.subs != "" then TracksFiltered(byCodec, q.audio, q.subs) else byCodec
  }

  function Served(body: Result<string, Refusal>, target: Target, q: Query): Result<string, Refusal> {
    if body.Err? then body else Ok(Rewritten(Filtered(body.value, target.rest, q), LinksFor(target, q.token)))
  }

  method CheckPath(path: string, isUuid: string -> bool) returns (r: Result<Target, Refusal>)
    ensures r == Route(path, isUuid)
  {
    var trimmed := TrimPrefix(path, PROXY);
    var idx := Index(trimmed, "/");
    if idx < 0 {
      return Err(InvalidPath);
    }
    var videoId, rest := trimmed[..idx], trimmed[idx + 1..];
    if !isUuid(videoId) {
      return Err(InvalidVideoId);
    }
    var valid := ValidManifestPath(rest);
    if !valid {
      return Err(InvalidManifestPath);
    }
    r := Ok(Target(videoId, rest));
  }

  method ApplyFilters(body: string, rest: string, q: Query) returns (raw: string)
    ensures raw == Filtered(body, rest, q)
  {
    raw := body;
    if HasSuffix(rest, "master.m3u8") {
      if q.codec != "" {
        raw := FilterMasterByCodec(raw, q.codec);
      }
      if q.audio != "" || q.subs != "" {
        raw := FilterMasterByTracks(raw, q.audio, q.subs);
      }
    }
  }

  // ---- Links ------------------------------------------------------------------------------

  // What all links of a playlist share: the video, the playlist's directory and
  // the query string.
  datatype Links = Links(videoId: string, base: string, token: string)

  function LinksFor(target: Target, token: string): Links { Links(target.videoId, Directory(target.rest), token) }

  function Directory(path: string): string {
    var i := LastIndexOf(path, '/');
    if i >= 0 then path[..i + 1] else ""
  }

  function Resolve(base: string, ref: string): string {
    TrimPrefix(if HasPrefix(ref, "/") then ref else base + ref, "/")
  }

  function Link(prefix: string, t: Links, ref: string): string {
    prefix + (t.videoId + "/" + (Resolve(t.base, ref) + t.token))
  }

  function RewriteTag(line: string, t: Links, prefix: string): string {
    match UriValue(line)
    case None => line
    case Some(uri) => ReplaceUri(line, Link(prefix, t, uri))
  }

  predicate IsMediaFile(ref: string) {
    HasSuffix(ref, ".ts") || HasSuffix(ref, ".m4s") || HasSuffix(ref, ".jpg") || HasSuffix(ref, ".jpeg")
    || HasSuffix(ref, ".vtt")
  }

  function RewriteLine(line: string, t: Links): string {
    var trimmed := TrimSpace(line);
    if trimmed == "" then line
    else if HasPrefix(trimmed, MAP_TAG) then RewriteTag(trimmed, t, FILES)
    else if HasPrefix(trimmed, MEDIA_TAG) || HasPrefix(trimmed, IMAGES_HEAD) then RewriteTag(trimmed, t, PROXY)
    else if HasPrefix(trimmed, "#") then line
    else if HasSuffix(trimmed, MANIFEST) then Link(PROXY, t, trimmed)
    else if IsMediaFile(trimmed) then Link(FILES, t, trimmed)
    else line
  }

  function Each(lines: seq<string>, f: string -> string): seq<string> {
    seq(|lines|, i requires 0 <= i < |lines| => f(lines[i]))
  }

  function Rewriter(t: Links): string -> string { line => RewriteLine(line, t) }

  function Rewritten(content: string, t: Links): string { Join(Each(Split(content, '\n'), Rewriter(t)), '\n') }

  method RewriteManifest(content: string, videoId: string, manifestPath: string, tokenQuery: string)
    returns (text: string)
    ensures text == Rewritten(content, LinksFor(Target(videoId, manifestPath), tokenQuery))
  {
    var basePath := "";
    var i := LastIndexOf(manifestPath, '/');
    if i >= 0 {
      basePath := manifestPath[..i + 1];
    }
    var out := RewriteLoop(Split(content, '\n'), Rewriter(Links(videoId, basePath, tokenQuery)));
    text := Join(out, '\n');
  }

  method RewriteLoop(lines: seq<string>, rewrite: string -> string) returns (out: seq<string>)
    ensures out == Each(lines, rewrite)
  {
    out := [];
    for i := 0 to |lines|
      invariant out == Each(lines, rewrite)[..i]
    {
      out := out + [rewrite(lines[i])];
    }
  }

  // ---- Lines stay lines -------------------------------------------------------------------

  lemma LinkLacks(prefix: string, t: Links, ref: string, c: char)
    requires Lacks(prefix, c) && Lacks(t.videoId, c) && Lacks(t.base, c) && Lacks(t.token, c) && Lacks(ref, c) && c != '/'
    ensures Lacks(Link(prefix, t, ref), c)
  {
    assert Lacks(t.base + ref, c);
    assert Lacks(Resolve(t.base, ref), c);
    assert Lacks(t.videoId + "/", c);
    assert Lacks(t.videoId + "/" + (Resolve(t.base, ref) + t.token), c);
  }

  lemma PrefixesLack(c: char)
    requires c == '\n' || c == '"' || c == '?' || c == '#'
    ensures Lacks(PROXY, c) && Lacks(FILES, c)
  {
  }

  lemma UriPartsLack(line: string, value: string, c: char)
    requires Lacks(line, c) && Lacks(value, c)
    ensures Lacks(ReplaceUri(line, value), c)
    ensures UriValue(line).Some? ==> Lacks(UriValue(line).value, c)
  {
    if SplitUri(line).Some? {
      var parts := SplitUri(line).value;
      var start := Index(line, URI) + |URI|;
      var rest := line[start..];
      assert Lacks(parts.before, c) && Lacks(rest, c) && Lacks(parts.value, c) && Lacks(parts.after, c);
    }
  }

  lemma RewriteTagLacks(line: string, t: Links, prefix: string, c: char)
    requires Lacks(line, c) && Lacks(prefix, c) && c != '/'
    requires Lacks(t.videoId, c) && Lacks(t.base, c) && Lacks(t.token, c)
    ensures Lacks(RewriteTag(line, t, prefix), c)
  {
    UriPartsLack(line, "", c);
    if UriValue(line).Some? {
      LinkLacks(prefix, t, UriValue(line).value, c);
      UriPartsLack(line, Link(prefix, t, UriValue(line).value), c);
    }
  }

  lemma RewriteLineLacks(line: string, t: Links, c: char)
    requires Lacks(line, c) && c == '\n'
    requires Lacks(t.videoId, c) && Lacks(t.base, c) && Lacks(t.token, c)
    ensures Lacks(RewriteLine(line, t), c)
  {
    var trimmed := TrimSpace(line);
    TrimSpaceWithin(line, c);
    PrefixesLack(c);
    RewriteTagLacks(trimmed, t, FILES, c);
    RewriteTagLacks(trimmed, t, PROXY, c);
    LinkLacks(FILES, t, trimmed, c);
    LinkLacks(PROXY, t, trimmed, c);
  }

  // Rewriting works line by line: the result has as many lines as the playlist,
  // and each is the rewritten line at the same place.
  lemma LinesStayLines(content: string, t: Links)
    requires Lacks(t.videoId, '\n') && Lacks(t.base, '\n') && Lacks(t.token, '\n')
    ensures Split(Rewritten(content, t), '\n') == Each(Split(content, '\n'), Rewriter(t))
  {
    var lines := Split(content, '\n');
    var out := Each(lines, Rewriter(t));
    forall line | line in out ensures Lacks(line, '\n') {
      var i :| 0 <= i < |lines| && out[i] == line;
      RewriteLineLacks(lines[i], t, '\n');
    }
    SplitJoin(out, '\n');
  }

  // ---- Links are merged references -----------------------------------------------------------

  // Section 5.2.3 of RFC 3986, on path segments: the reference replaces the last
  // segment of the base path.
  function Merge(path: string, ref: string): string {
    Join(AllButLast(Split(path, '/')) + Split(ref, '/'), '/')
  }

  function AllButLast(segments: seq<string>): seq<string>
    requires segments != []
  {
    segments[..|segments| - 1]
  }

  lemma DirectoryIs(path: string)
    ensures var init := AllButLast(Split(path, '/'));
            Directory(path) == if init == [] then "" else Join(init, '/') + "/"
  {
    var parts := Split(path, '/');
    var init, last := AllButLast(parts), parts[|parts| - 1];
    JoinSplit(path, '/');
    assert parts == init + [last];
    if init == [] {
      assert path == last;
    } else {
      JoinAppend(init, [last], '/');
      DirectoryOf(Join(init, '/'), last);
    }
  }

  lemma DirectoryOf(front: string, last: string)
    requires Lacks(last, '/')
    ensures Directory(front + ['/'] + last) == front + "/"
  {
    var path := front + ['/'] + last;
    LastIsUnique(path, '/', |front|);
    assert path[..|front| + 1] == front + "/";
  }

  lemma DirectoryMerges(path: string, ref: string)
    ensures Directory(path) + ref == Merge(path, ref)
    ensures Split(Directory(path) + ref, '/') == AllButLast(Split(path, '/')) + Split(ref, '/')
  {
    var init := AllButLast(Split(path, '/'));
    DirectoryIs(path);
    JoinSplit(ref, '/');
    if init == [] {
      assert init + Split(ref, '/') == Split(ref, '/');
    } else {
      JoinAppend(init, Split(ref, '/'), '/');
      assert "/" == ['/'];
    }
    SplitJoin(init + Split(ref, '/'), '/');
  }

  lemma ResolveRelative(base: string, ref: string)
    requires !HasPrefix(ref, "/") && !HasPrefix(base, "/")
    ensures Resolve(base, ref) == base + ref
  {
  }

  lemma RootedSegments(s: string)
    requires HasPrefix(s, "/")
    ensures Split(s, '/')[0] == ""
  {
    SplitAcross("", '/', s[1..]);
    assert "" + ['/'] + s[1..] == s;
  }

  lemma ManifestPathIsRelative(rest: string)
    requires IsManifestPath(rest)
    ensures !HasPrefix(rest, "/") && !HasPrefix(Directory(rest), "/") && rest != ""
  {
    if HasPrefix(rest, "/") {
      RootedSegments(rest);
    }
    assert Directory(rest) != "" ==> Directory(rest)[0] == rest[0];
  }

  // A relative reference leads where it leads from the address of the playlist
  // itself, with the same prefix: to the merged path of RFC 3986.
  lemma LinksAreMerged(prefix: string, target: Target, token: string, ref: string)
    requires IsManifestPath(target.rest) && HasSuffix(prefix, "/") && !HasPrefix(ref, "/")
    ensures Link(prefix, LinksFor(target, token), ref)
            == Merge(prefix + target.videoId + "/" + target.rest, ref) + token
  {
    var front := prefix + target.videoId + "/";
    ManifestPathIsRelative(target.rest);
    ResolveRelative(Directory(target.rest), ref);
    EndsInSlash(prefix + target.videoId);
    DirectoryBelow(front, target.rest);
    DirectoryMerges(front + target.rest, ref);
    Associate(prefix, target.videoId, Directory(target.rest) + ref, token);
    Regroup(front, Directory(target.rest), ref);
  }

  // The lines of a playlist that are URLs: playlists go through the proxy, media
  // files do not, and anything else is left alone.
  lemma UrlLineIsMerged(target: Target, token: string, line: string)
    requires IsManifestPath(target.rest)
    requires var ref := TrimSpace(line); ref != "" && ref[0] != '#' && ref[0] != '/'
    ensures var ref := TrimSpace(line);
            RewriteLine(line, LinksFor(target, token))
            == if HasSuffix(ref, MANIFEST) then Merge(PROXY + target.videoId + "/" + target.rest, ref) + token
               else if IsMediaFile(ref) then Merge(FILES + target.videoId + "/" + target.rest, ref) + token
               else line
  {
    var ref := TrimSpace(line);
    PrefixesEndInSlash();
    LinksAreMerged(PROXY, target, token, ref);
    LinksAreMerged(FILES, target, token, ref);
    NotATag(ref);
  }

  lemma PrefixesEndInSlash()
    ensures HasSuffix(PROXY, "/") && HasSuffix(FILES, "/")
  {
  }

  lemma NotATag(s: string)
    requires s != "" && s[0] != '#'
    ensures !HasPrefix(s, "#") && !HasPrefix(s, MAP_TAG) && !HasPrefix(s, MEDIA_TAG) && !HasPrefix(s, IMAGES_HEAD)
  {
    assert MAP_TAG[0] == MEDIA_TAG[0] == IMAGES_HEAD[0] == '#';
  }

  // The tags with a URI attribute: only an EXT-X-MAP refers to a media file.
  lemma TagUriIsMerged(target: Target, token: string, tag: string)
    requires IsManifestPath(target.rest) && TrimSpace(tag) == tag
    requires HasPrefix(tag, MAP_TAG) || HasPrefix(tag, MEDIA_TAG) || HasPrefix(tag, IMAGES_HEAD)
    requires UriValue(tag).Some? && !HasPrefix(UriValue(tag).value, "/")
    ensures var prefix := if HasPrefix(tag, MAP_TAG) then FILES else PROXY;
            RewriteLine(tag, LinksFor(target, token))
            == ReplaceUri(tag, Merge(prefix + target.videoId + "/" + target.rest, UriValue(tag).value) + token)
  {
    PrefixesEndInSlash();
    LinksAreMerged(if HasPrefix(tag, MAP_TAG) then FILES else PROXY, target, token, UriValue(tag).value);
  }

  lemma EndsInSlash(s: string)
    ensures HasSuffix(s + "/", "/")
  {
  }

  lemma Regroup(a: string, b: string, c: string)
    ensures a + b + c == a + (b + c)
  {
  }

  lemma Associate(prefix: string, id: string, path: string, token: string)
    ensures prefix + (id + "/" + (path + token)) == prefix + id + "/" + path + token
  {
  }

  lemma DirectoryBelow(front: string, path: string)
    requires HasSuffix(front, "/")
    ensures Directory(front + path) == front + Directory(path)
  {
    var i := LastIndexOf(path, '/');
    assert front[|front| - 1] == '/';
    LastIsUnique(front + path, '/', if i >= 0 then |front| + i else |front| - 1);
    assert i >= 0 ==> (front + path)[..|front| + i + 1] == front + path[..i + 1];
  }

  // ---- Links lead back to the proxy -----------------------------------------------------------

  // The path of a URL ends at its query or fragment.
  function Before(s: string, c: char): string {
    if s == "" || s[0] == c then "" else [s[0]] + Before(s[1..], c)
  }

  function UrlPath(url: string): string { Before(Before(url, '#'), '?') }

  lemma {:induction false} BeforeIs(a: string, c: char, b: string)
    requires Lacks(a, c) && (b == "" || b[0] == c)
    ensures Before(a + b, c) == a
  {
    if a == "" {
      assert a + b == b;
    } else {
      assert (a + b)[1..] == a[1..] + b;
      BeforeIs(a[1..], c, b);
    }
  }

  // What ids and query strings look like.
  ghost predicate CleanLinks(t: Links) {
    Lacks(t.videoId, '/') && Lacks(t.videoId, '?') && Lacks(t.videoId, '#') && Lacks(t.videoId, '"')
    && Lacks(t.token, '#') && Lacks(t.token, '"') && (t.token == "" || t.token[0] == '?')
  }

  ghost predicate CleanBase(base: string) { !HasPrefix(base, "/") && Lacks(base, '?') && Lacks(base, '#') }

  lemma PlainSegmentLacks(segment: string)
    requires PlainSegment(segment)
    ensures Lacks(segment, '?') && Lacks(segment, '#')
  {
  }

  lemma DirectoryIsClean(rest: string)
    requires IsManifestPath(rest)
    ensures CleanBase(Directory(rest))
  {
    var parts := Split(rest, '/');
    forall i | 0 <= i < |parts| ensures Lacks(parts[i], '?') && Lacks(parts[i], '#') {
      PlainSegmentLacks(parts[i]);
    }
    JoinLacks(parts, '/', '?');
    JoinLacks(parts, '/', '#');
    JoinSplit(rest, '/');
    ManifestPathIsRelative(rest);
  }

  // The query string is no part of the path of a link.
  lemma PathOfLink(t: Links, path: string)
    requires CleanLinks(t) && Lacks(path, '?') && Lacks(path, '#')
    ensures UrlPath(PROXY + (t.videoId + "/" + (path + t.token))) == PROXY + (t.videoId + "/" + path)
  {
    var front := PROXY + (t.videoId + "/" + path);
    var link := PROXY + (t.videoId + "/" + (path + t.token));
    PrefixesLack('#');
    PrefixesLack('?');
    PiecesLack(PROXY, t.videoId, path, '?');
    PiecesLack(PROXY, t.videoId, path + t.token, '#');
    assert link + "" == link && link == front + t.token;
    BeforeIs(link, '#', "");
    BeforeIs(front, '?', t.token);
  }

  lemma PiecesLack(prefix: string, id: string, path: string, c: char)
    requires Lacks(prefix, c) && Lacks(id, c) && Lacks(path, c) && c != '/'
    ensures Lacks(prefix + (id + "/" + path), c)
  {
  }

  lemma LinkPath(t: Links, ref: string)
    requires CleanLinks(t) && CleanBase(t.base) && !HasPrefix(ref, "/") && Lacks(ref, '?') && Lacks(ref, '#')
    ensures UrlPath(Link(PROXY, t, ref)) == PROXY + (t.videoId + "/" + (t.base + ref))
  {
    ResolveRelative(t.base, ref);
    PathOfLink(t, t.base + ref);
  }

  lemma RouteOf(videoId: string, rest: string, isUuid: string -> bool)
    requires Lacks(videoId, '/') && isUuid(videoId)
    ensures Route(PROXY + (videoId + "/" + rest), isUuid)
            == if IsManifestPath(rest) then Ok(Target(videoId, rest)) else Err(InvalidManifestPath)
  {
    var trimmed := videoId + "/" + rest;
    assert (PROXY + trimmed)[|PROXY|..] == trimmed;
    CharIndex(videoId, '/', rest);
    assert videoId + ['/'] + rest == trimmed && ['/'] == "/";
    assert trimmed[..|videoId|] == videoId && trimmed[|videoId| + 1..] == rest;
  }

  lemma BaseEnds(path: string, ref: string)
    ensures HasSuffix(Directory(path) + ref, MANIFEST) <==> HasSuffix(ref, MANIFEST)
  {
    var base := Directory(path);
    var s := base + ref;
    DirectoryIs(path);
    if |ref| < |MANIFEST| {
      if HasSuffix(s, MANIFEST) {
        assert base != "" && base[|base| - 1] == '/';
        assert s[|base| - 1] == s[|s| - |MANIFEST|..][|MANIFEST| - 1 - |ref|];
        SlashFree(|MANIFEST| - 1 - |ref|);
      }
    } else {
      assert s[|s| - |MANIFEST|..] == ref[|ref| - |MANIFEST|..];
    }
  }

  lemma SlashFree(k: nat)
    requires k < |MANIFEST|
    ensures MANIFEST[k] != '/'
  {
  }

  // The merged path of a reference in a served playlist is one the proxy accepts
  // exactly when the reference names a playlist by plain segments and the path
  // is short enough.
  lemma MergedPathIsValid(rest: string, ref: string)
    requires IsManifestPath(rest)
    ensures IsManifestPath(Directory(rest) + ref) <==>
              PlainSegments(Split(ref, '/')) && HasSuffix(ref, MANIFEST) && Utf8Length(Directory(rest) + ref) <= 512
  {
    var init, last := AllButLast(Split(rest, '/')), Split(ref, '/');
    DirectoryMerges(rest, ref);
    BaseEnds(rest, ref);
    assert PlainSegments(init);
    AppendPlain(init, last);
  }

  lemma AppendPlain(a: seq<string>, b: seq<string>)
    requires PlainSegments(a)
    ensures PlainSegments(a + b) <==> PlainSegments(b)
  {
    assert forall i | 0 <= i < |b| :: (a + b)[|a| + i] == b[i];
  }

  // Following a playlist link of a served playlist leads to the same video and
  // to the merged path: the proxy's own parser undoes the rewriting.
  lemma LinkRoundTrip(target: Target, token: string, ref: string, isUuid: string -> bool)
    requires IsManifestPath(target.rest) && isUuid(target.videoId)
    requires CleanLinks(LinksFor(target, token)) && !HasPrefix(ref, "/") && Lacks(ref, '?') && Lacks(ref, '#')
    ensures var path := Merge(target.rest, ref);
            Route(UrlPath(Link(PROXY, LinksFor(target, token), ref)), isUuid)
            == if PlainSegments(Split(ref, '/')) && HasSuffix(ref, MANIFEST) && Utf8Length(path) <= 512
               then Ok(Target(target.videoId, path)) else Err(InvalidManifestPath)
  {
    DirectoryIsClean(target.rest);
    LinkPath(LinksFor(target, token), ref);
    RouteOf(target.videoId, Directory(target.rest) + ref, isUuid);
    MergedPathIsValid(target.rest, ref);
    DirectoryMerges(target.rest, ref);
  }

  // A reference from the root is taken from the root of the video: its link
  // leads there, whatever playlist it stands in.
  lemma RootedRoundTrip(t: Links, ref: string, isUuid: string -> bool)
    requires CleanLinks(t) && isUuid(t.videoId) && Lacks(ref, '?') && Lacks(ref, '#')
    ensures Route(UrlPath(Link(PROXY, t, "/" + ref)), isUuid)
            == if IsManifestPath(ref) then Ok(Target(t.videoId, ref)) else Err(InvalidManifestPath)
  {
    assert ("/" + ref)[1..] == ref && Resolve(t.base, "/" + ref) == ref;
    PathOfLink(t, ref);
    RouteOf(t.videoId, ref, isUuid);
  }
}
