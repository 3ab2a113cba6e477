// The preview sprite's geometry. The sprite generator, the image playlist, the
// worker's stored metadata and the API's cues compute it independently.
module Storyboard {
  import opened Prelude
  import opened VideoTable

  datatype ThumbnailConfig = ThumbnailConfig(
    spriteColumns: int, spriteIntervalSeconds: int, spriteWidth: int, spriteHeight: int,
    previewWidth: int, previewHeight: int, imageStreamBandwidth: int, jpegQuality: int)

  const DEFAULTS := ThumbnailConfig(10, 10, 320, 180, 640, 360, 30000, 3)

  function OrDefault(value: int, default: int): int { if value < 1 then default else value }

  function Defaulted(c: ThumbnailConfig): ThumbnailConfig {
    ThumbnailConfig(
      OrDefault(c.spriteColumns, DEFAULTS.spriteColumns),
      OrDefault(c.spriteIntervalSeconds, DEFAULTS.spriteIntervalSeconds),
      OrDefault(c.spriteWidth, DEFAULTS.spriteWidth),
      OrDefault(c.spriteHeight, DEFAULTS.spriteHeight),
      OrDefault(c.previewWidth, DEFAULTS.previewWidth),
      OrDefault(c.previewHeight, DEFAULTS.previewHeight),
      OrDefault(c.imageStreamBandwidth, DEFAULTS.imageStreamBandwidth),
      OrDefault(c.jpegQuality, DEFAULTS.jpegQuality))
  }

  method WithDefaults(cfg: ThumbnailConfig) returns (c: ThumbnailConfig)
    ensures c == Defaulted(cfg)
    ensures c.spriteColumns == if cfg.spriteColumns >= 1 then cfg.spriteColumns else 10
    ensures c.spriteIntervalSeconds == if cfg.spriteIntervalSeconds >= 1 then cfg.spriteIntervalSeconds else 10
    ensures c.spriteWidth == if cfg.spriteWidth >= 1 then cfg.spriteWidth else 320
    ensures c.spriteHeight == if cfg.spriteHeight >= 1 then cfg.spriteHeight else 180
    ensures c.previewWidth == if cfg.previewWidth >= 1 then cfg.previewWidth else 640
    ensures c.previewHeight == if cfg.previewHeight >= 1 then cfg.previewHeight else 360
    ensures c.imageStreamBandwidth == if cfg.imageStreamBandwidth >= 1 then cfg.imageStreamBandwidth else 30000
    ensures c.jpegQuality == if cfg.jpegQuality >= 1 then cfg.jpegQuality else 3
  {
    c := cfg;
    if c.spriteColumns < 1 { c := c.(spriteColumns := DEFAULTS.spriteColumns); }
    if c.spriteIntervalSeconds < 1 { c := c.(spriteIntervalSeconds := DEFAULTS.spriteIntervalSeconds); }
    if c.spriteWidth < 1 { c := c.(spriteWidth := DEFAULTS.spriteWidth); }
    if c.spriteHeight < 1 { c := c.(spriteHeight := DEFAULTS.spriteHeight); }
    if c.previewWidth < 1 { c := c.(previewWidth := DEFAULTS.previewWidth); }
    if c.previewHeight < 1 { c := c.(previewHeight := DEFAULTS.previewHeight); }
    if c.imageStreamBandwidth < 1 { c := c.(imageStreamBandwidth := DEFAULTS.imageStreamBandwidth); }
    if c.jpegQuality < 1 { c := c.(jpegQuality := DEFAULTS.jpegQuality); }
  }

  // ---- The grid ----------------------------------------------------------------------

  // The grid of `columns` x `rows` tiles, `count` of which are used.
  datatype Grid = Grid(interval: int, width: int, height: int, columns: int, rows: int)

  // `count` tiles of `interval` seconds cover `duration` and no tile is superfluous.
  ghost predicate Covers(count: int, duration: real, interval: int) {
    1 <= count && duration <= (count * interval) as real
    && (1 < count ==> ((count - 1) * interval) as real < duration)
  }

  // `rows` rows of `columns` tiles hold `count` tiles and no row is superfluous.
  predicate Holds(rows: int, columns: int, count: int) {
    (rows - 1) * columns < count <= rows * columns
  }

  lemma MulMonotone(a: int, b: int, w: int)
    requires a <= b && 0 <= w
    ensures a * w <= b * w
  {
    assert (b - a) * w >= 0;
    assert (b - a) * w == b * w - a * w;
  }

  lemma CoversAtMost(n: int, m: int, duration: real, interval: int)
    requires 1 <= interval && Covers(n, duration, interval) && Covers(m, duration, interval)
    ensures n <= m
  {
    if m <= n - 1 {
      MulMonotone(m, n - 1, interval);
    }
  }

  lemma CoversIsUnique(n: int, m: int, duration: real, interval: int)
    requires 1 <= interval && Covers(n, duration, interval) && Covers(m, duration, interval)
    ensures n == m
  {
    CoversAtMost(n, m, duration, interval);
    CoversAtMost(m, n, duration, interval);
  }

  lemma HoldsIsUnique(a: int, b: int, columns: int, count: int)
    requires 1 <= columns && Holds(a, columns, count) && Holds(b, columns, count)
    ensures a == b
  {
    if a <= b - 1 {
      MulMonotone(a, b - 1, columns);
    } else if b <= a - 1 {
      MulMonotone(b, a - 1, columns);
    }
  }

  lemma CeilQuotient(x: real, y: int)
    requires 1 <= y
    ensures var n := Ceil(x / y as real); ((n - 1) * y) as real < x <= (n * y) as real
  {
    var q := x / y as real;
    var n := Ceil(q);
    assert q * y as real == x;
    assert (n - 1) as real < q <= n as real;
    assert (n - 1) as real * y as real < q * y as real <= n as real * y as real;
    assert (n - 1) as real * y as real == ((n - 1) * y) as real && n as real * y as real == (n * y) as real;
  }

  method TileCount(duration: real, interval: int) returns (count: int)
    requires 1 <= interval
    ensures Covers(count, duration, interval)
  {
    count := Ceil(duration / interval as real);
    CeilQuotient(duration, interval);
    if count < 1 {
      assert count * interval <= 0;
      count := 1;
    }
  }

  method RowCount(count: int, columns: int) returns (rows: int)
    requires 1 <= columns
    ensures Holds(rows, columns, count)
  {
    rows := Ceil(count as real / columns as real);
    CeilQuotient(count as real, columns);
  }

  // The grid every component must agree on.
  ghost predicate GridFor(duration: real, cfg: ThumbnailConfig, g: Grid, count: int) {
    var c := Defaulted(cfg);
    g.interval == c.spriteIntervalSeconds && g.width == c.spriteWidth && g.height == c.spriteHeight
    && g.columns == c.spriteColumns
    && Covers(count, duration, g.interval) && Holds(g.rows, g.columns, count)
  }

  // GenerateSpriteWithConfig: the fps, scale and tile filters.
  method SpriteGrid(duration: real, cfg: ThumbnailConfig) returns (g: Grid, tiles: int)
    ensures GridFor(duration, cfg, g, tiles)
  {
    var c := WithDefaults(cfg);
    var count := TileCount(duration, c.spriteIntervalSeconds);
    var rows := RowCount(count, c.spriteColumns);
    tiles := count;
    g := Grid(c.spriteIntervalSeconds, c.spriteWidth, c.spriteHeight, c.spriteColumns, rows);
  }

  // WriteImageStreamManifestWithConfig: EXT-X-TILES and EXT-X-TARGETDURATION.
  method ImageStream(duration: real, cfg: ThumbnailConfig)
    returns (g: Grid, targetDuration: int, tiles: int)
    ensures GridFor(duration, cfg, g, tiles)
    ensures Covers(targetDuration, duration, 1)
  {
    var c := WithDefaults(cfg);
    var count := TileCount(duration, c.spriteIntervalSeconds);
    var rows := RowCount(count, c.spriteColumns);
    targetDuration := Ceil(duration);
    if targetDuration < 1 {
      targetDuration := 1;
    }
    tiles := count;
    g := Grid(c.spriteIntervalSeconds, c.spriteWidth, c.spriteHeight, c.spriteColumns, rows);
  }

  datatype Metadata = Metadata(intervalSeconds: int, tileWidth: int, tileHeight: int, columns: int, tileCount: int)

  // What the worker stores for a video of this duration.
  ghost predicate Describes(m: Metadata, duration: real, cfg: ThumbnailConfig) {
    var c := Defaulted(cfg);
    m.intervalSeconds == c.spriteIntervalSeconds && m.tileWidth == c.spriteWidth && m.tileHeight == c.spriteHeight
    && m.columns == c.spriteColumns && Covers(m.tileCount, duration, m.intervalSeconds)
  }

  method SetStoryboard(duration: real, cfg: ThumbnailConfig) returns (m: Metadata)
    ensures Describes(m, duration, cfg)
  {
    var t := WithDefaults(cfg);
    var count := TileCount(duration, t.spriteIntervalSeconds);
    m := Metadata(t.spriteIntervalSeconds, t.spriteWidth, t.spriteHeight, t.spriteColumns, count);
  }

  // Two components that each computed a grid for the same video agree on it and
  // on the number of tiles, and so does the stored metadata.
  lemma GridsAgree(duration: real, cfg: ThumbnailConfig, g1: Grid, n1: int, g2: Grid, n2: int, m: Metadata)
    requires GridFor(duration, cfg, g1, n1) && GridFor(duration, cfg, g2, n2) && Describes(m, duration, cfg)
    ensures g1 == g2 && n1 == n2 == m.tileCount
  {
    CoversIsUnique(n1, n2, duration, g1.interval);
    CoversIsUnique(n1, m.tileCount, duration, g1.interval);
    HoldsIsUnique(g1.rows, g2.rows, g1.columns, n1);
  }

  // ---- Cues ----------------------------------------------------------------------------

  datatype Cue = Cue(url: string, start: real, end: real, width: int, height: int, x: int, y: int)

  datatype Stored = Missing | Malformed | Decoded(metadata: Metadata)

  datatype ApiError = NotFound | DecodeFailed

  function CueAt(url: string, m: Metadata, duration: real, i: nat): Cue
    requires 1 <= m.columns
  {
    var end := ((i + 1) * m.intervalSeconds) as real;
    Cue(url, (i * m.intervalSeconds) as real, if end > duration then duration else end,
        m.tileWidth, m.tileHeight, (i % m.columns) * m.tileWidth, (i / m.columns) * m.tileHeight)
  }

  predicate Usable(m: Metadata) { m.intervalSeconds >= 1 && m.columns >= 1 && m.tileCount >= 1 }

  // Cue i shows the tile in row-major place i.
  ghost predicate InPlace(cue: Cue, url: string, m: Metadata, i: int) {
    cue.url == url && cue.width == m.tileWidth && cue.height == m.tileHeight
    && exists row, column | 0 <= column < m.columns && i == row * m.columns + column ::
         cue.x == column * m.tileWidth && cue.y == row * m.tileHeight
  }

  // It lasts for its interval, but not beyond the video.
  ghost predicate Times(cue: Cue, interval: int, duration: real, i: int) {
    var end := (i * interval + interval) as real;
    cue.start == (i * interval) as real && (end <= duration ==> cue.end == end) && (duration < end ==> cue.end == duration)
  }

  lemma CueIsInPlace(url: string, m: Metadata, duration: real, i: nat)
    requires 1 <= m.columns
    ensures InPlace(CueAt(url, m, duration, i), url, m, i) && Times(CueAt(url, m, duration, i), m.intervalSeconds, duration, i)
  {
    var row, column := i / m.columns, i % m.columns;
    assert i == row * m.columns + column;
    assert (i + 1) * m.intervalSeconds == i * m.intervalSeconds + m.intervalSeconds;
  }

  method GetStoryboard(status: Status, duration: Option<real>, stored: Stored, url: string)
    returns (r: Result<seq<Cue>, ApiError>)
    ensures r == Err(NotFound) <==>
              !status.Ready? || duration.None? || stored.Missing?
              || (stored.Decoded? && !(stored.metadata.intervalSeconds >= 1 && stored.metadata.columns >= 1
                                       && stored.metadata.tileCount >= 1))
    ensures r == Err(DecodeFailed) <==> status.Ready? && duration.Some? && stored.Malformed?
    ensures r.Ok? ==> stored.Decoded? && duration.Some? && Usable(stored.metadata)
                      && |r.value| == stored.metadata.tileCount
                      && forall i | 0 <= i < |r.value| ::
                           r.value[i] == CueAt(url, stored.metadata, duration.value, i)
                           && InPlace(r.value[i], url, stored.metadata, i)
                           && Times(r.value[i], stored.metadata.intervalSeconds, duration.value, i)
  {
    if status != Ready || duration.None? || stored.Missing? {
      return Err(NotFound);
    }
    if stored.Malformed? {
      return Err(DecodeFailed);
    }
    var sb := stored.metadata;
    if sb.intervalSeconds < 1 || sb.columns < 1 || sb.tileCount < 1 {
      return Err(NotFound);
    }
    var cues := [];
    for i := 0 to sb.tileCount
      invariant |cues| == i
      invariant forall k | 0 <= k < i :: cues[k] == CueAt(url, sb, duration.value, k)
                                         && InPlace(cues[k], url, sb, k)
                                         && Times(cues[k], sb.intervalSeconds, duration.value, k)
    {
      CueIsInPlace(url, sb, duration.value, i);
      var start := (i * sb.intervalSeconds) as real;
      var end := ((i + 1) * sb.intervalSeconds) as real;
      if end > duration.value {
        end := duration.value;
      }
      cues := cues + [Cue(url, start, end, sb.tileWidth, sb.tileHeight,
                          (i % sb.columns) * sb.tileWidth, (i / sb.columns) * sb.tileHeight)];
    }
    r := Ok(cues);
  }

  lemma StartsGrow(interval: int, i: int, k: int)
    requires 1 <= interval && i < k
    ensures i * interval + interval <= k * interval
  {
    MulMonotone(i + 1, k, interval);
    assert (i + 1) * interval == i * interval + interval;
  }

  // The cues the API derives from the worker's metadata cut [0, duration] into
  // consecutive pieces, all of positive length exactly when the duration is positive.
  lemma CuesTileTheDuration(url: string, m: Metadata, duration: real, cfg: ThumbnailConfig)
    requires Describes(m, duration, cfg)
    ensures CueAt(url, m, duration, 0).start == 0.0
    ensures CueAt(url, m, duration, m.tileCount - 1).end == duration
    ensures forall i: nat | i + 1 < m.tileCount ::
              CueAt(url, m, duration, i).end == CueAt(url, m, duration, i + 1).start
    ensures duration > 0.0 <==> forall i: nat | i < m.tileCount ::
              CueAt(url, m, duration, i).start < CueAt(url, m, duration, i).end
  {
    forall i: nat | i + 1 < m.tileCount
      ensures CueAt(url, m, duration, i).end == CueAt(url, m, duration, i + 1).start
      ensures CueAt(url, m, duration, i).start < CueAt(url, m, duration, i).end
    {
      StartsGrow(m.intervalSeconds, i, i + 1);
      if i + 1 < m.tileCount - 1 {
        StartsGrow(m.intervalSeconds, i + 1, m.tileCount - 1);
      }
    }
    assert CueAt(url, m, duration, 0).start == 0.0;
    if duration > 0.0 {
      var last: nat := m.tileCount - 1;
      StartsGrow(m.intervalSeconds, last, last + 1);
      assert CueAt(url, m, duration, last).start < CueAt(url, m, duration, last).end;
      forall i: nat | i < m.tileCount
        ensures CueAt(url, m, duration, i).start < CueAt(url, m, duration, i).end
      {
        assert i + 1 < m.tileCount || i == last;
      }
    } else {
      assert CueAt(url, m, duration, 0).end <= 0.0;
    }
  }

  lemma FloorQuotient(x: real, y: int)
    requires 1 <= y
    ensures var n := (x / y as real).Floor; (n * y) as real <= x < ((n + 1) * y) as real
    ensures 0.0 <= x ==> 0 <= (x / y as real).Floor
  {
    Quotient(x, y as real);
    BetweenMultiples(x / y as real, (x / y as real).Floor, y);
  }

  lemma Quotient(x: real, y: real)
    requires 0.0 < y
    ensures x / y * y == x && (0.0 <= x ==> 0.0 <= x / y)
  {
  }

  lemma BetweenMultiples(q: real, n: int, y: int)
    requires n as real <= q < (n + 1) as real && 1 <= y
    ensures (n * y) as real <= q * y as real < ((n + 1) * y) as real
  {
    Scale(n as real, q, y as real);
    ScaleStrict(q, (n + 1) as real, y as real);
    CastProduct(n, y);
    CastProduct(n + 1, y);
  }

  lemma Scale(a: real, b: real, y: real)
    requires a <= b && 0.0 < y
    ensures a * y <= b * y
  {
  }

  lemma ScaleStrict(a: real, b: real, y: real)
    requires a < b && 0.0 < y
    ensures a * y < b * y
  {
  }

  lemma CastProduct(n: int, y: int)
    ensures n as real * y as real == (n * y) as real
  {
  }

  // Time t is shown by cue floor(t / interval).
  lemma TimeFallsInItsCue(url: string, m: Metadata, duration: real, cfg: ThumbnailConfig, t: real)
    requires Describes(m, duration, cfg) && 0.0 <= t < duration
    ensures var i := (t / m.intervalSeconds as real).Floor;
            0 <= i < m.tileCount && CueAt(url, m, duration, i).start <= t < CueAt(url, m, duration, i).end
  {
    FloorQuotient(t, m.intervalSeconds);
    var i := (t / m.intervalSeconds as real).Floor;
    if m.tileCount <= i {
      MulMonotone(m.tileCount, i, m.intervalSeconds);
    }
  }

  // Row-major placement: every rectangle lies inside the sprite, and no two overlap.
  lemma CueRectanglesAreDisjoint(
      url: string, m: Metadata, duration: real, cfg: ThumbnailConfig, g: Grid, tiles: int, i: nat, k: nat)
    requires Describes(m, duration, cfg) && GridFor(duration, cfg, g, tiles)
    requires i < k < m.tileCount
    ensures var (a, b) := (CueAt(url, m, duration, i), CueAt(url, m, duration, k));
            a.x + a.width <= b.x || b.x + b.width <= a.x || a.y + a.height <= b.y || b.y + b.height <= a.y
    ensures var b := CueAt(url, m, duration, k);
            0 <= b.x && 0 <= b.y && b.x + b.width <= g.columns * g.width && b.y + b.height <= g.rows * g.height
  {
    CoversIsUnique(tiles, m.tileCount, duration, m.intervalSeconds);
    CellsApart(i, k, m.columns, m.tileWidth, m.tileHeight);
    CellInside(k, m.columns, g.rows, m.tileCount, m.tileWidth, m.tileHeight);
  }

  lemma CellsApart(i: nat, k: nat, columns: int, width: int, height: int)
    requires 1 <= columns && 1 <= width && 1 <= height && i < k
    ensures i % columns * width + width <= k % columns * width || i / columns * height + height <= k / columns * height
  {
    SameRowOrLater(i, k, columns);
    if i / columns == k / columns {
      StartsGrow(width, i % columns, k % columns);
    } else {
      StartsGrow(height, i / columns, k / columns);
    }
  }

  lemma CellInside(k: nat, columns: int, rows: int, count: int, width: int, height: int)
    requires 1 <= columns && 1 <= width && 1 <= height && Holds(rows, columns, count) && k < count
    ensures 0 <= k % columns * width && k % columns * width + width <= columns * width
    ensures 0 <= k / columns * height && k / columns * height + height <= rows * height
  {
    RowInside(k, columns, rows, count);
    StartsGrow(width, k % columns, columns);
    StartsGrow(height, k / columns, rows);
    MulMonotone(0, k % columns, width);
    MulMonotone(0, k / columns, height);
  }

  lemma SameRowOrLater(i: nat, k: nat, columns: int)
    requires 1 <= columns && i < k
    ensures i / columns < k / columns || (i / columns == k / columns && i % columns < k % columns)
  {
    var a, b := i / columns, k / columns;
    assert i == a * columns + i % columns && k == b * columns + k % columns;
    if b <= a - 1 {
      StartsGrow(columns, b, a);
    }
  }

  lemma RowInside(k: nat, columns: int, rows: int, count: int)
    requires 1 <= columns && Holds(rows, columns, count) && k < count
    ensures k / columns < rows
  {
    if rows <= k / columns {
      MulMonotone(rows, k / columns, columns);
    }
  }
}
