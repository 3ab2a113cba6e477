// TranscodeHLS: the codec jobs finish in any order; sorting makes the result
// independent of that order.
module Ladder {
  import opened Prelude

  datatype Quality = Quality(
    name: string, height: nat, width: nat, bitrateKbps: nat, audioKbps: nat, original: bool)

  datatype Codec = Codec(name: string, videoEnc: string, hlsCodecs: string, optional: bool)

  datatype Variant = Variant(codec: Codec, quality: Quality)

  datatype CodecResult = CodecResult(codec: Codec, variants: seq<Variant>, error: Option<string>)

  // ---- Which codecs run ---------------------------------------------------------------

  // filterCodecs: the codecs requested by name, in the order of the request; a
  // request that names none means all.
  method FilterCodecs(available: seq<Codec>, names: seq<string>) returns (r: Result<seq<Codec>, string>)
    ensures names == [] ==> r == Ok(available)
    ensures r.Err? <==> exists name | name in names :: name !in CodecNames(available)
    ensures r.Err? ==> r.error in names && r.error !in CodecNames(available)
    ensures r.Ok? && names != [] ==> CodecNames(r.value) == names && forall c | c in r.value :: c in available
    ensures r.Ok? && Distinct(CodecNames(available)) && Distinct(names) ==> Distinct(CodecNames(r.value))
  {
    if |names| == 0 {
      return Ok(available);
    }
    var byName: map<string, Codec> := map[];
    for i := 0 to |available|
      invariant forall name :: name in byName <==> name in CodecNames(available)[..i]
      invariant forall name | name in byName :: byName[name].name == name && byName[name] in available
    {
      assert CodecNames(available)[..i + 1] == CodecNames(available)[..i] + [available[i].name];
      byName := byName[available[i].name := available[i]];
    }
    assert CodecNames(available)[..|available|] == CodecNames(available);
    var out := [];
    for i := 0 to |names|
      invariant CodecNames(out) == names[..i]
      invariant forall c | c in out :: c in available
      invariant forall name | name in names[..i] :: name in CodecNames(available)
    {
      if names[i] !in byName {
        return Err(names[i]);
      }
      assert names[..i + 1] == names[..i] + [names[i]];
      out := out + [byName[names[i]]];
    }
    assert names[..|names|] == names;
    r := Ok(out);
  }

  // ---- What one codec job produces --------------------------------------------------

  // A rung more than 20% above the source is left out; an unknown source height keeps all.
  predicate Fits(q: Quality, videoHeight: nat) {
    !(videoHeight > 0 && q.height > videoHeight * 120 / 100)
  }

  function Applicable(qualities: seq<Quality>, videoHeight: nat): seq<Quality> {
    if qualities == [] then []
    else
      var n := |qualities| - 1;
      Applicable(qualities[..n], videoHeight) + if Fits(qualities[n], videoHeight) then [qualities[n]] else []
  }

  function Rungs(c: Codec, qualities: seq<Quality>): seq<Variant> {
    seq(|qualities|, k requires 0 <= k < |qualities| => Variant(c, qualities[k]))
  }

  // `failure` is the outcome of the encoder run, unknown to this model.
  method TranscodeCodec(c: Codec, qualities: seq<Quality>, videoHeight: nat, failure: Option<string>)
    returns (r: CodecResult)
    ensures failure.Some? ==> r == CodecResult(c, [], failure)
    ensures failure.None? ==> r == CodecResult(c, Rungs(c, Applicable(qualities, videoHeight)), None)
  {
    if failure.Some? {
      return CodecResult(c, [], failure);
    }
    var applicable := [];
    for i := 0 to |qualities|
      invariant applicable == Applicable(qualities[..i], videoHeight)
    {
      assert qualities[..i + 1][..i] == qualities[..i];
      if videoHeight > 0 && qualities[i].height > videoHeight * 120 / 100 {
        continue;
      }
      applicable := applicable + [qualities[i]];
    }
    assert qualities[..|qualities|] == qualities;
    var variants := [];
    for i := 0 to |applicable|
      invariant variants == Rungs(c, applicable)[..i]
    {
      variants := variants + [Variant(c, applicable[i])];
    }
    assert variants == Rungs(c, applicable);
    r := CodecResult(c, variants, None);
  }

  // ---- The sort order -------------------------------------------------------------------

  datatype Key = Key(codec: int, quality: int)

  predicate Before(a: Key, b: Key) { a.codec < b.codec || (a.codec == b.codec && a.quality < b.quality) }

  // The value of the index map at `name`: its last position, or Go's zero value.
  function LastPosition(names: seq<string>, name: string): nat {
    if names == [] then 0
    else if names[|names| - 1] == name then |names| - 1
    else LastPosition(names[..|names| - 1], name)
  }

  function CodecNames(codecs: seq<Codec>): seq<string> {
    seq(|codecs|, i requires 0 <= i < |codecs| => codecs[i].name)
  }

  function QualityNames(qualities: seq<Quality>): seq<string> {
    seq(|qualities|, i requires 0 <= i < |qualities| => qualities[i].name)
  }

  function KeyOf(v: Variant, codecNames: seq<string>, qualityNames: seq<string>): Key {
    Key(LastPosition(codecNames, v.codec.name), LastPosition(qualityNames, v.quality.name))
  }

  ghost predicate Sorted(vs: seq<Variant>, cn: seq<string>, qn: seq<string>) {
    forall i, k | 0 <= i < k < |vs| :: !Before(KeyOf(vs[k], cn, qn), KeyOf(vs[i], cn, qn))
  }

  ghost predicate StrictlySorted(vs: seq<Variant>, cn: seq<string>, qn: seq<string>) {
    forall i, k | 0 <= i < k < |vs| :: Before(KeyOf(vs[i], cn, qn), KeyOf(vs[k], cn, qn))
  }

  ghost predicate Indexes(m: map<string, nat>, names: seq<string>) {
    forall name :: LastPosition(names, name) == Lookup(m, name)
  }

  // m[name] in Go: the zero value for a missing key.
  function Lookup(m: map<string, nat>, name: string): nat { if name in m then m[name] else 0 }

  method IndexMap(names: seq<string>) returns (m: map<string, nat>)
    ensures Indexes(m, names)
  {
    m := map[];
    for i := 0 to |names|
      invariant Indexes(m, names[..i])
    {
      assert names[..i + 1][..i] == names[..i];
      m := m[names[i] := i];
    }
    assert names[..|names|] == names;
  }

  predicate Less(u: Variant, v: Variant, codecIdx: map<string, nat>, qualityIdx: map<string, nat>) {
    var a, b := Lookup(codecIdx, u.codec.name), Lookup(codecIdx, v.codec.name);
    if a != b then a < b
    else Lookup(qualityIdx, u.quality.name) < Lookup(qualityIdx, v.quality.name)
  }

  lemma LessIsBefore(u: Variant, v: Variant, codecIdx: map<string, nat>, qualityIdx: map<string, nat>,
                     cn: seq<string>, qn: seq<string>)
    requires Indexes(codecIdx, cn) && Indexes(qualityIdx, qn)
    ensures Less(u, v, codecIdx, qualityIdx) <==> Before(KeyOf(u, cn, qn), KeyOf(v, cn, qn))
  {
  }

  // The first i + 1 variants are in order except that the one at k may come too late.
  ghost predicate SortedBut(vs: seq<Variant>, i: nat, k: nat, cn: seq<string>, qn: seq<string>) {
    k <= i < |vs|
    && forall x, y | 0 <= x < y <= i && y != k :: !Before(KeyOf(vs[y], cn, qn), KeyOf(vs[x], cn, qn))
  }

  lemma SwapDown(vs: seq<Variant>, i: nat, k: nat, cn: seq<string>, qn: seq<string>)
    requires 0 < k && SortedBut(vs, i, k, cn, qn)
    requires Before(KeyOf(vs[k], cn, qn), KeyOf(vs[k - 1], cn, qn))
    ensures SortedBut(vs[k := vs[k - 1]][k - 1 := vs[k]], i, k - 1, cn, qn)
    ensures multiset(vs[k := vs[k - 1]][k - 1 := vs[k]]) == multiset(vs)
  {
  }

  lemma InPlace(vs: seq<Variant>, i: nat, k: nat, cn: seq<string>, qn: seq<string>)
    requires SortedBut(vs, i, k, cn, qn)
    requires k == 0 || !Before(KeyOf(vs[k], cn, qn), KeyOf(vs[k - 1], cn, qn))
    ensures Sorted(vs[..i + 1], cn, qn)
  {
  }

  // Bring a[i] to its place in the sorted part before it.
  method Insert(a: array<Variant>, i: nat, codecIdx: map<string, nat>, qualityIdx: map<string, nat>,
                ghost cn: seq<string>, ghost qn: seq<string>)
    requires i < a.Length && Sorted(a[..i], cn, qn)
    requires Indexes(codecIdx, cn) && Indexes(qualityIdx, qn)
    modifies a
    ensures Sorted(a[..i + 1], cn, qn)
    ensures multiset(a[..]) == multiset(old(a[..]))
  {
    var k := i;
    while k > 0 && Less(a[k], a[k - 1], codecIdx, qualityIdx)
      invariant 0 <= k <= i
      invariant multiset(a[..]) == multiset(old(a[..]))
      invariant SortedBut(a[..], i, k, cn, qn)
    {
      ghost var vs := a[..];
      LessIsBefore(a[k], a[k - 1], codecIdx, qualityIdx, cn, qn);
      SwapDown(vs, i, k, cn, qn);
      a[k], a[k - 1] := a[k - 1], a[k];
      assert a[..] == vs[k := vs[k - 1]][k - 1 := vs[k]];
      k := k - 1;
    }
    if k > 0 {
      LessIsBefore(a[k], a[k - 1], codecIdx, qualityIdx, cn, qn);
    }
    InPlace(a[..], i, k, cn, qn);
    assert a[..][..i + 1] == a[..i + 1];
  }

  // sort.Slice promises no more than this: in order, and a permutation.
  method SortVariants(a: array<Variant>, codecs: seq<Codec>, qualities: seq<Quality>)
    modifies a
    ensures Sorted(a[..], CodecNames(codecs), QualityNames(qualities))
    ensures multiset(a[..]) == multiset(old(a[..]))
  {
    var codecIdx := IndexMap(CodecNames(codecs));
    var qualityIdx := IndexMap(QualityNames(qualities));
    for i := 0 to a.Length
      invariant Sorted(a[..i], CodecNames(codecs), QualityNames(qualities))
      invariant multiset(a[..]) == multiset(old(a[..]))
    {
      Insert(a, i, codecIdx, qualityIdx, CodecNames(codecs), QualityNames(qualities));
    }
    assert a[..a.Length] == a[..];
  }

  // ---- Collecting the results -------------------------------------------------------------

  predicate Skipped(r: CodecResult) { r.error.Some? && r.codec.optional }

  predicate Fatal(r: CodecResult) { r.error.Some? && !r.codec.optional }

  function Produced(r: CodecResult): seq<Variant> { if r.error.Some? then [] else r.variants }

  function AllProduced(results: seq<CodecResult>): seq<Variant> {
    if results == [] then [] else AllProduced(results[..|results| - 1]) + Produced(results[|results| - 1])
  }

  // `results` is the drained channel, in completion order.
  method CollectResults(results: seq<CodecResult>, codecs: seq<Codec>, qualities: seq<Quality>)
    returns (r: Result<seq<Variant>, string>)
    ensures r.Err? <==> exists i | 0 <= i < |results| :: Fatal(results[i])
    ensures r.Err? ==> exists i | 0 <= i < |results| :: Fatal(results[i]) && results[i].error == Some(r.error)
    ensures r.Ok? ==> Sorted(r.value, CodecNames(codecs), QualityNames(qualities))
                      && multiset(r.value) == multiset(AllProduced(results))
  {
    var produced := [];
    for i := 0 to |results|
      invariant forall k | 0 <= k < i :: !Fatal(results[k])
      invariant produced == AllProduced(results[..i])
    {
      assert results[..i + 1][..i] == results[..i];
      var res := results[i];
      if res.error.Some? {
        if res.codec.optional {
          continue;
        }
        return Err(res.error.value);
      }
      produced := produced + res.variants;
    }
    assert results[..|results|] == results;
    var a := new Variant[|produced|](k requires 0 <= k < |produced| => produced[k]);
    assert a[..] == produced;
    SortVariants(a, codecs, qualities);
    r := Ok(a[..]);
  }

  // ---- Schedule independence ----------------------------------------------------------------

  ghost predicate Distinct(names: seq<string>) {
    forall i, k | 0 <= i < k < |names| :: names[i] != names[k]
  }

  // The results in configured order.
  function Configured(codecs: seq<Codec>, qualities: seq<Quality>, videoHeight: nat, failures: seq<Option<string>>)
    : seq<CodecResult>
    requires |failures| == |codecs|
  {
    seq(|codecs|, i requires 0 <= i < |codecs| =>
      CodecResult(codecs[i], if failures[i].Some? then [] else Rungs(codecs[i], Applicable(qualities, videoHeight)),
                  failures[i]))
  }

  lemma {:induction false} LastPositionIs(names: seq<string>, i: nat)
    requires Distinct(names) && i < |names|
    ensures LastPosition(names, names[i]) == i
  {
    if i < |names| - 1 {
      LastPositionIs(names[..|names| - 1], i);
    }
  }

  // Distinct rungs in the order of the qualities, all among the first n.
  ghost predicate InOrder(qs: seq<Quality>, qn: seq<string>, n: nat) {
    (forall i | 0 <= i < |qs| :: LastPosition(qn, qs[i].name) < n)
    && forall i, k | 0 <= i < k < |qs| :: LastPosition(qn, qs[i].name) < LastPosition(qn, qs[k].name)
  }

  lemma {:induction false} ApplicableInOrder(qualities: seq<Quality>, videoHeight: nat, qn: seq<string>)
    requires |qualities| <= |qn| && Distinct(qn) && forall i | 0 <= i < |qualities| :: qualities[i].name == qn[i]
    ensures InOrder(Applicable(qualities, videoHeight), qn, |qualities|)
  {
    if qualities != [] {
      var n := |qualities| - 1;
      var shorter := qualities[..n];
      ApplicableInOrder(shorter, videoHeight, qn);
      assert qualities[n].name == qn[n];
      LastPositionIs(qn, n);
    }
  }

  lemma {:induction false} ConfiguredIsSorted(
      codecs: seq<Codec>, qualities: seq<Quality>, videoHeight: nat, failures: seq<Option<string>>, n: nat)
    requires |failures| == |codecs| && n <= |codecs|
    requires Distinct(CodecNames(codecs)) && Distinct(QualityNames(qualities))
    ensures var vs := AllProduced(Configured(codecs, qualities, videoHeight, failures)[..n]);
            StrictlySorted(vs, CodecNames(codecs), QualityNames(qualities))
            && forall i | 0 <= i < |vs| :: KeyOf(vs[i], CodecNames(codecs), QualityNames(qualities)).codec < n
  {
    if n > 0 {
      var results := Configured(codecs, qualities, videoHeight, failures);
      assert results[..n][..n - 1] == results[..n - 1];
      ConfiguredIsSorted(codecs, qualities, videoHeight, failures, n - 1);
      ProducedIsSorted(codecs, qualities, videoHeight, failures, n - 1);
      SortedAppend(AllProduced(results[..n - 1]), Produced(results[n - 1]), CodecNames(codecs), QualityNames(qualities), n - 1);
    }
  }

  lemma ProducedIsSorted(
      codecs: seq<Codec>, qualities: seq<Quality>, videoHeight: nat, failures: seq<Option<string>>, n: nat)
    requires |failures| == |codecs| && n < |codecs|
    requires Distinct(CodecNames(codecs)) && Distinct(QualityNames(qualities))
    ensures var vs := Produced(Configured(codecs, qualities, videoHeight, failures)[n]);
            StrictlySorted(vs, CodecNames(codecs), QualityNames(qualities))
            && forall i | 0 <= i < |vs| :: KeyOf(vs[i], CodecNames(codecs), QualityNames(qualities)).codec == n
  {
    var cn, qn := CodecNames(codecs), QualityNames(qualities);
    var vs := Produced(Configured(codecs, qualities, videoHeight, failures)[n]);
    ApplicableInOrder(qualities, videoHeight, qn);
    LastPositionIs(cn, n);
    assert codecs[n].name == cn[n];
    forall k | 0 <= k < |vs|
      ensures KeyOf(vs[k], cn, qn) == Key(n, LastPosition(qn, Applicable(qualities, videoHeight)[k].name))
    {
      assert vs[k].codec == codecs[n];
    }
  }

  lemma SortedAppend(a: seq<Variant>, b: seq<Variant>, cn: seq<string>, qn: seq<string>, n: nat)
    requires StrictlySorted(a, cn, qn) && StrictlySorted(b, cn, qn)
    requires forall i | 0 <= i < |a| :: KeyOf(a[i], cn, qn).codec < n
    requires forall i | 0 <= i < |b| :: KeyOf(b[i], cn, qn).codec == n
    ensures StrictlySorted(a + b, cn, qn) && forall i | 0 <= i < |a + b| :: KeyOf((a + b)[i], cn, qn).codec < n + 1
  {
  }

  lemma {:induction false} ProducedAt(results: seq<CodecResult>, k: nat)
    requires k < |results|
    ensures multiset(AllProduced(results))
            == multiset(AllProduced(results[..k] + results[k + 1..])) + multiset(Produced(results[k]))
    decreases |results|
  {
    var n := |results| - 1;
    if k == n {
      assert results[..k] + results[k + 1..] == results[..n];
      Appended(AllProduced(results[..n]), Produced(results[n]));
    } else {
      var first := results[..n];
      var others := AllProduced(first[..k] + first[k + 1..]);
      ProducedAt(first, k);
      WithoutLast(results, k);
      Appended(AllProduced(first), Produced(results[n]));
      Appended(others, Produced(results[n]));
      Swap(multiset(others), multiset(Produced(results[k])), multiset(Produced(results[n])));
    }
  }

  lemma WithoutLast(results: seq<CodecResult>, k: nat)
    requires k < |results| - 1
    ensures var less, first := results[..k] + results[k + 1..], results[..|results| - 1];
            first[k] == results[k]
            && AllProduced(less) == AllProduced(first[..k] + first[k + 1..]) + Produced(results[|results| - 1])
  {
    var n := |results| - 1;
    var less := results[..k] + results[k + 1..];
    assert less[..n - 1] == results[..n][..k] + results[..n][k + 1..] && less[n - 1] == results[n];
  }

  lemma Appended<T>(a: seq<T>, b: seq<T>)
    ensures multiset(a + b) == multiset(a) + multiset(b)
  {
  }

  lemma Swap<T>(a: multiset<T>, b: multiset<T>, c: multiset<T>)
    ensures a + b + c == a + c + b
  {
  }

  lemma Cancel<T>(a: multiset<T>, b: multiset<T>, x: T)
    requires a + multiset{x} == b + multiset{x}
    ensures a == b
  {
    assert a == a + multiset{x} - multiset{x} && b == b + multiset{x} - multiset{x};
  }

  // What is produced does not depend on the order of the results, up to order.
  lemma {:induction false} SameProduced(a: seq<CodecResult>, b: seq<CodecResult>)
    requires multiset(a) == multiset(b)
    ensures multiset(AllProduced(a)) == multiset(AllProduced(b))
    decreases |a|
  {
    assert |multiset(a)| == |a| && |multiset(b)| == |b|;
    if a != [] {
      var n := |a| - 1;
      assert a == a[..n] + [a[n]];
      assert a[n] in multiset(b);
      var k :| 0 <= k < |b| && b[k] == a[n];
      assert b == b[..k] + [b[k]] + b[k + 1..];
      assert multiset(b) == multiset(b[..k] + b[k + 1..]) + multiset{b[k]};
      assert multiset(a) == multiset(a[..n]) + multiset{a[n]};
      Cancel(multiset(a[..n]), multiset(b[..k] + b[k + 1..]), b[k]);
      SameProduced(a[..n], b[..k] + b[k + 1..]);
      ProducedAt(b, k);
    }
  }

  lemma {:induction false} SortedIsUnique(a: seq<Variant>, b: seq<Variant>, cn: seq<string>, qn: seq<string>)
    requires multiset(a) == multiset(b) && Sorted(a, cn, qn) && StrictlySorted(b, cn, qn)
    ensures a == b
    decreases |a|
  {
    assert |multiset(a)| == |a| && |multiset(b)| == |b|;
    if a != [] {
      assert a[0] in multiset(b) && b[0] in multiset(a);
      var k :| 0 <= k < |b| && b[k] == a[0];
      var n :| 0 <= n < |a| && a[n] == b[0];
      assert a == [a[0]] + a[1..] && b == [b[0]] + b[1..];
      assert k == 0;
      assert multiset(a) == multiset(a[1..]) + multiset{a[0]} && multiset(b) == multiset(b[1..]) + multiset{b[0]};
      Cancel(multiset(a[1..]), multiset(b[1..]), a[0]);
      SortedIsUnique(a[1..], b[1..], cn, qn);
    }
  }

  lemma SameFatal(a: seq<CodecResult>, b: seq<CodecResult>)
    requires multiset(a) == multiset(b)
    ensures (exists i | 0 <= i < |a| :: Fatal(a[i])) <==> exists i | 0 <= i < |b| :: Fatal(b[i])
  {
    if i :| 0 <= i < |a| && Fatal(a[i]) {
      assert a[i] in multiset(b);
    }
    if i :| 0 <= i < |b| && Fatal(b[i]) {
      assert b[i] in multiset(a);
    }
  }

  lemma ConfiguredFatal(codecs: seq<Codec>, qualities: seq<Quality>, videoHeight: nat, failures: seq<Option<string>>)
    requires |failures| == |codecs|
    ensures var configured := Configured(codecs, qualities, videoHeight, failures);
            (exists i | 0 <= i < |configured| :: Fatal(configured[i]))
            <==> exists i | 0 <= i < |codecs| :: failures[i].Some? && !codecs[i].optional
  {
    var configured := Configured(codecs, qualities, videoHeight, failures);
    if i :| 0 <= i < |codecs| && failures[i].Some? && !codecs[i].optional {
      assert Fatal(configured[i]);
    }
  }

  // Whatever the completion order, the result of TranscodeHLS is an error
  // exactly when a required codec failed, and otherwise the concatenation, in
  // configured order, of what each successful codec produced.
  lemma ScheduleIndependence(
      codecs: seq<Codec>, qualities: seq<Quality>, videoHeight: nat, failures: seq<Option<string>>,
      results: seq<CodecResult>, r: Result<seq<Variant>, string>)
    requires |failures| == |codecs|
    requires Distinct(CodecNames(codecs)) && Distinct(QualityNames(qualities))
    requires multiset(results) == multiset(Configured(codecs, qualities, videoHeight, failures))
    // what CollectResults(results, codecs, qualities) promises of r
    requires r.Err? <==> exists i | 0 <= i < |results| :: Fatal(results[i])
    requires r.Ok? ==> Sorted(r.value, CodecNames(codecs), QualityNames(qualities))
                       && multiset(r.value) == multiset(AllProduced(results))
    ensures r.Err? <==> exists i | 0 <= i < |codecs| :: failures[i].Some? && !codecs[i].optional
    ensures r.Ok? ==> r.value == AllProduced(Configured(codecs, qualities, videoHeight, failures))
  {
    var configured := Configured(codecs, qualities, videoHeight, failures);
    SameFatal(results, configured);
    ConfiguredFatal(codecs, qualities, videoHeight, failures);
    if r.Ok? {
      SameProduced(results, configured);
      assert configured[..|codecs|] == configured;
      ConfiguredIsSorted(codecs, qualities, videoHeight, failures, |codecs|);
      SortedIsUnique(r.value, AllProduced(configured), CodecNames(codecs), QualityNames(qualities));
    }
  }

  // ---- The places of the variants ---------------------------------------------------------

  // A pair of a codec and a quality, by position.
  datatype Place = Place(codec: nat, quality: nat)

  ghost predicate Earlier(a: Place, b: Place) { a.codec < b.codec || (a.codec == b.codec && a.quality < b.quality) }

  // The codec's job succeeds, and the rung is at most 20% above the source.
  ghost predicate Yields(
      codecs: seq<Codec>, qualities: seq<Quality>, videoHeight: nat, failure: string -> Option<string>, at: Place)
  {
    at.codec < |codecs| && at.quality < |qualities| && failure(codecs[at.codec].name).None?
    && (videoHeight == 0 || 5 * qualities[at.quality].height <= 6 * videoHeight)
  }

  // The variants of exactly the pairs that yield one, in the order of the pairs.
  ghost predicate LaidOut(
      vs: seq<Variant>, codecs: seq<Codec>, qualities: seq<Quality>, videoHeight: nat,
      failure: string -> Option<string>, places: seq<Place>)
  {
    |vs| == |places|
    && (forall n, m | 0 <= n < m < |places| :: Earlier(places[n], places[m]))
    && (forall at :: at in places <==> Yields(codecs, qualities, videoHeight, failure, at))
    && forall n | 0 <= n < |places| && places[n].codec < |codecs| && places[n].quality < |qualities| ::
         vs[n] == Variant(codecs[places[n].codec], qualities[places[n].quality])
  }

  // The positions of the qualities that fit, in order.
  ghost predicate Positions(ks: seq<nat>, qualities: seq<Quality>, videoHeight: nat) {
    (forall n, m | 0 <= n < m < |ks| :: ks[n] < ks[m])
    && forall k: nat :: k in ks <==> k < |qualities| && (videoHeight == 0 || 5 * qualities[k].height <= 6 * videoHeight)
  }

  ghost predicate TakenAt(vs: seq<Quality>, ks: seq<nat>, qualities: seq<Quality>) {
    |vs| == |ks| && forall n | 0 <= n < |ks| :: ks[n] < |qualities| && vs[n] == qualities[ks[n]]
  }

  lemma {:induction false} ApplicableAt(qualities: seq<Quality>, videoHeight: nat) returns (ks: seq<nat>)
    ensures Positions(ks, qualities, videoHeight) && TakenAt(Applicable(qualities, videoHeight), ks, qualities)
  {
    ks := [];
    if qualities != [] {
      var n := |qualities| - 1;
      var before := ApplicableAt(qualities[..n], videoHeight);
      FitsMeans(qualities[n], videoHeight);
      PositionsMore(before, qualities, videoHeight);
      TakenMore(Applicable(qualities[..n], videoHeight), before, qualities);
      ks := if Fits(qualities[n], videoHeight) then before + [n] else before;
    }
  }

  lemma TakenMore(vs: seq<Quality>, ks: seq<nat>, qualities: seq<Quality>)
    requires qualities != [] && TakenAt(vs, ks, qualities[..|qualities| - 1])
    ensures var n := |qualities| - 1;
            TakenAt(vs, ks, qualities) && TakenAt(vs + [qualities[n]], ks + [n], qualities)
            && TakenAt(vs + [], ks, qualities)
  {
    assert vs + [] == vs;
  }

  lemma PositionsMore(ks: seq<nat>, qualities: seq<Quality>, videoHeight: nat)
    requires qualities != [] && Positions(ks, qualities[..|qualities| - 1], videoHeight)
    ensures var n := |qualities| - 1;
            Positions(if videoHeight == 0 || 5 * qualities[n].height <= 6 * videoHeight then ks + [n] else ks,
                      qualities, videoHeight)
  {
    var n := |qualities| - 1;
    forall i | 0 <= i < |ks| ensures ks[i] < n {
      assert ks[i] in ks;
    }
    forall k: nat
      ensures k in ks <==> k < n && (videoHeight == 0 || 5 * qualities[k].height <= 6 * videoHeight)
    {
      assert k < n ==> qualities[..n][k] == qualities[k];
    }
  }

  lemma FitsMeans(q: Quality, videoHeight: nat)
    ensures Fits(q, videoHeight) <==> videoHeight == 0 || 5 * q.height <= 6 * videoHeight
  {
  }

  function PlacesOf(i: nat, ks: seq<nat>): seq<Place> {
    seq(|ks|, n requires 0 <= n < |ks| => Place(i, ks[n]))
  }

  ghost predicate LaidOutUpTo(
      vs: seq<Variant>, codecs: seq<Codec>, qualities: seq<Quality>, videoHeight: nat,
      failure: string -> Option<string>, places: seq<Place>, n: nat)
  {
    n <= |codecs| && LaidOut(vs, codecs[..n], qualities, videoHeight, failure, places)
  }

  // One more codec.
  lemma LaidOutMore(
      vs: seq<Variant>, more: seq<Variant>, codecs: seq<Codec>, qualities: seq<Quality>, videoHeight: nat,
      failure: string -> Option<string>, places: seq<Place>, n: nat, ks: seq<nat>)
    requires n < |codecs| && LaidOutUpTo(vs, codecs, qualities, videoHeight, failure, places, n)
    requires |ks| == |more| && forall x, y | 0 <= x < y < |ks| :: ks[x] < ks[y]
    requires forall x | 0 <= x < |ks| :: ks[x] < |qualities| && more[x] == Variant(codecs[n], qualities[ks[x]])
    requires forall k: nat :: k in ks <==> Yields(codecs, qualities, videoHeight, failure, Place(n, k))
    ensures LaidOutUpTo(vs + more, codecs, qualities, videoHeight, failure, places + PlacesOf(n, ks), n + 1)
  {
    var added := PlacesOf(n, ks);
    forall at ensures at in places + added <==> Yields(codecs[..n + 1], qualities, videoHeight, failure, at) {
      assert at in added <==> at.codec == n && at.quality in ks by {
        if at.codec == n && at.quality in ks {
          var x :| 0 <= x < |ks| && ks[x] == at.quality;
          assert added[x] == at;
        }
      }
      assert at in places <==> Yields(codecs[..n], qualities, videoHeight, failure, at);
    }
    forall x | 0 <= x < |places| ensures places[x].codec < n {
      assert places[x] in places;
    }
  }

  lemma {:induction false} ConfiguredPlaces(
      codecs: seq<Codec>, qualities: seq<Quality>, videoHeight: nat, failure: string -> Option<string>, n: nat)
    returns (places: seq<Place>)
    requires n <= |codecs|
    ensures LaidOutUpTo(AllProduced(Configured(codecs, qualities, videoHeight, Failures(codecs, failure))[..n]),
                        codecs, qualities, videoHeight, failure, places, n)
  {
    var results := Configured(codecs, qualities, videoHeight, Failures(codecs, failure));
    if n == 0 {
      places := [];
    } else {
      places := ConfiguredPlaces(codecs, qualities, videoHeight, failure, n - 1);
      assert results[..n][..n - 1] == results[..n - 1];
      var ks: seq<nat> := [];
      if failure(codecs[n - 1].name).None? {
        ks := ApplicableAt(qualities, videoHeight);
      }
      LaidOutMore(AllProduced(results[..n - 1]), Produced(results[n - 1]), codecs, qualities, videoHeight, failure,
                  places, n - 1, ks);
      places := places + PlacesOf(n - 1, ks);
    }
  }

  // ---- TranscodeHLS ---------------------------------------------------------------------------

  function Failures(codecs: seq<Codec>, failure: string -> Option<string>): seq<Option<string>> {
    seq(|codecs|, i requires 0 <= i < |codecs| => failure(codecs[i].name))
  }

  // A quality called "original" has the size of the source.
  method ResolveOriginals(qualities: seq<Quality>, videoWidth: nat, videoHeight: nat) returns (resolved: seq<Quality>)
    ensures |resolved| == |qualities| && QualityNames(resolved) == QualityNames(qualities)
    ensures forall k | 0 <= k < |qualities| ::
              resolved[k] == if qualities[k].original then qualities[k].(height := videoHeight, width := videoWidth)
                             else qualities[k]
  {
    resolved := [];
    for i := 0 to |qualities|
      invariant |resolved| == i && forall k | 0 <= k < i ::
                  resolved[k] == if qualities[k].original then qualities[k].(height := videoHeight, width := videoWidth)
                                 else qualities[k]
    {
      var q := qualities[i];
      if q.original {
        q := q.(height := videoHeight, width := videoWidth);
      }
      resolved := resolved + [q];
    }
  }

  function Upto(n: nat): seq<nat> { seq(n, i => i) }

  // The order in which n jobs finish.
  ghost predicate IsOrder(order: seq<nat>, n: nat) { multiset(order) == multiset(Upto(n)) }

  function Picked<T>(xs: seq<T>, order: seq<nat>): seq<T>
    requires forall i | i in order :: i < |xs|
  {
    seq(|order|, n requires 0 <= n < |order| => assert order[n] in order; xs[order[n]])
  }

  lemma OrderIsInRange(order: seq<nat>, n: nat)
    requires IsOrder(order, n)
    ensures |order| == n && forall i | i in order :: i < n
  {
    assert |multiset(order)| == |order| && |multiset(Upto(n))| == n;
    forall i | i in order ensures i < n {
      assert i in multiset(Upto(n));
    }
  }

  // Finishing in any order yields the same results, up to order.
  lemma {:induction false} PickedAll<T>(xs: seq<T>, order: seq<nat>)
    requires IsOrder(order, |xs|)
    ensures |order| == |xs| && (forall i | i in order :: i < |xs|) && multiset(Picked(xs, order)) == multiset(xs)
    decreases |xs|
  {
    OrderIsInRange(order, |xs|);
    if xs != [] {
      var n := |xs| - 1;
      var k := PlaceOf(order, n);
      var less := order[..k] + order[k + 1..];
      LastRemoved(order, k, n);
      PickedAll(xs[..n], less);
      PickedWithout(xs, order, k, less);
      SameAfterLast(Picked(xs, order), k, xs);
    }
  }

  lemma SameAfterLast<T>(picked: seq<T>, k: nat, xs: seq<T>)
    requires xs != [] && k < |picked| && picked[k] == xs[|xs| - 1]
    requires multiset(picked[..k] + picked[k + 1..]) == multiset(xs[..|xs| - 1])
    ensures multiset(picked) == multiset(xs)
  {
    SplitAt(picked, k);
    assert xs == xs[..|xs| - 1] + [xs[|xs| - 1]];
  }

  lemma LastRemoved(order: seq<nat>, k: nat, n: nat)
    requires IsOrder(order, n + 1) && k < |order| && order[k] == n
    ensures IsOrder(order[..k] + order[k + 1..], n)
  {
    assert Upto(n + 1) == Upto(n) + [n];
    SplitAt(order, k);
    Cancel(multiset(order[..k] + order[k + 1..]), multiset(Upto(n)), n);
  }

  lemma PlaceOf(order: seq<nat>, n: nat) returns (k: nat)
    requires IsOrder(order, n + 1)
    ensures k < |order| && order[k] == n
  {
    assert Upto(n + 1)[n] == n && n in multiset(Upto(n + 1));
    assert n in multiset(order);
    k :| 0 <= k < |order| && order[k] == n;
  }

  lemma PickedWithout<T>(xs: seq<T>, order: seq<nat>, k: nat, less: seq<nat>)
    requires xs != [] && k < |order| && forall i | i in order :: i < |xs|
    requires less == order[..k] + order[k + 1..] && forall i | i in less :: i < |xs| - 1
    ensures Picked(xs, order)[..k] + Picked(xs, order)[k + 1..] == Picked(xs[..|xs| - 1], less)
  {
    var picked := Picked(xs, order)[..k] + Picked(xs, order)[k + 1..];
    forall m | 0 <= m < |less| ensures picked[m] == Picked(xs[..|xs| - 1], less)[m] {
      assert less[m] in less;
    }
  }

  lemma SplitAt<T>(xs: seq<T>, k: nat)
    requires k < |xs|
    ensures multiset(xs) == multiset(xs[..k] + xs[k + 1..]) + multiset{xs[k]}
  {
    assert xs == xs[..k] + [xs[k]] + xs[k + 1..];
  }

  // The codecs a request stands for.
  ghost predicate Requested(codecs: seq<Codec>, available: seq<Codec>, names: seq<string>) {
    if names == [] then codecs == available
    else CodecNames(codecs) == names && forall c | c in codecs :: c in available
  }

  // What TranscodeHLS promises for the codecs it runs and the resolved qualities.
  ghost predicate Transcoded(
      r: Result<seq<Variant>, string>, codecs: seq<Codec>, qualities: seq<Quality>, videoHeight: nat,
      failure: string -> Option<string>)
  {
    (r.Err? <==> exists c | c in codecs :: failure(c.name).Some? && !c.optional)
    && (r.Err? ==> exists c | c in codecs :: failure(c.name) == Some(r.error) && !c.optional)
    && (r.Ok? ==> exists places: seq<Place> :: LaidOut(r.value, codecs, qualities, videoHeight, failure, places))
  }

  // The whole function: `order` is the order in which the jobs finish and
  // `failure` tells how the job of a codec ends.
  method TranscodeHLS(available: seq<Codec>, names: seq<string>, qualities: seq<Quality>, videoWidth: nat,
                      videoHeight: nat, failure: string -> Option<string>, order: seq<nat>)
    returns (r: Result<seq<Variant>, string>, codecs: seq<Codec>, resolved: seq<Quality>)
    requires Distinct(CodecNames(available)) && Distinct(names) && Distinct(QualityNames(qualities))
    requires IsOrder(order, if names == [] then |available| else |names|)
    ensures (exists name | name in names :: name !in CodecNames(available)) ==>
              r.Err? && r.error in names && r.error !in CodecNames(available)
    ensures !(exists name | name in names :: name !in CodecNames(available)) ==>
              Requested(codecs, available, names) && Transcoded(r, codecs, resolved, videoHeight, failure)
    ensures |resolved| == |qualities| && forall k | 0 <= k < |qualities| ::
              resolved[k] == if qualities[k].original then qualities[k].(height := videoHeight, width := videoWidth)
                             else qualities[k]
  {
    resolved := ResolveOriginals(qualities, videoWidth, videoHeight);
    var chosen := FilterCodecs(available, names);
    if chosen.Err? {
      return Err(chosen.error), [], resolved;
    }
    codecs := chosen.value;
    r := RunCodecs(codecs, resolved, videoHeight, failure, order);
  }

  // The jobs and the collection of their results.
  method RunCodecs(codecs: seq<Codec>, qualities: seq<Quality>, videoHeight: nat,
                   failure: string -> Option<string>, order: seq<nat>)
    returns (r: Result<seq<Variant>, string>)
    requires Distinct(CodecNames(codecs)) && Distinct(QualityNames(qualities)) && IsOrder(order, |codecs|)
    ensures Transcoded(r, codecs, qualities, videoHeight, failure)
  {
    ghost var failures := Failures(codecs, failure);
    ghost var configured := Configured(codecs, qualities, videoHeight, failures);
    PickedAll(configured, order);
    var results := [];
    for n := 0 to |order|
      invariant results == Picked(configured, order)[..n]
    {
      assert order[n] in order;
      var c := codecs[order[n]];
      var res := TranscodeCodec(c, qualities, videoHeight, failure(c.name));
      results := results + [res];
    }
    assert results == Picked(configured, order);
    r := CollectResults(results, codecs, qualities);
    ScheduleIndependence(codecs, qualities, videoHeight, failures, results, r);
    FinishedRun(codecs, qualities, videoHeight, failure, results, r);
  }

  lemma FinishedRun(codecs: seq<Codec>, qualities: seq<Quality>, videoHeight: nat,
                    failure: string -> Option<string>, results: seq<CodecResult>, r: Result<seq<Variant>, string>)
    requires var configured := Configured(codecs, qualities, videoHeight, Failures(codecs, failure));
             multiset(results) == multiset(configured) && (r.Ok? ==> r.value == AllProduced(configured))
    requires r.Err? <==> exists i | 0 <= i < |results| :: Fatal(results[i])
    requires r.Err? ==> exists i | 0 <= i < |results| :: Fatal(results[i]) && results[i].error == Some(r.error)
    ensures Transcoded(r, codecs, qualities, videoHeight, failure)
  {
    var configured := Configured(codecs, qualities, videoHeight, Failures(codecs, failure));
    SameFatal(results, configured);
    FatalCodecs(codecs, qualities, videoHeight, failure);
    if r.Err? {
      var i :| 0 <= i < |results| && Fatal(results[i]) && results[i].error == Some(r.error);
      assert results[i] in multiset(configured);
      var k :| 0 <= k < |configured| && configured[k] == results[i];
      assert codecs[k] in codecs;
    } else {
      var places := ConfiguredPlaces(codecs, qualities, videoHeight, failure, |codecs|);
      assert configured[..|codecs|] == configured && codecs[..|codecs|] == codecs;
    }
  }

  lemma FatalCodecs(codecs: seq<Codec>, qualities: seq<Quality>, videoHeight: nat, failure: string -> Option<string>)
    ensures var configured := Configured(codecs, qualities, videoHeight, Failures(codecs, failure));
            (exists i | 0 <= i < |configured| :: Fatal(configured[i]))
            <==> exists c | c in codecs :: failure(c.name).Some? && !c.optional
  {
    var configured := Configured(codecs, qualities, videoHeight, Failures(codecs, failure));
    if i :| 0 <= i < |configured| && Fatal(configured[i]) {
      assert codecs[i] in codecs;
    }
    if c :| c in codecs && failure(c.name).Some? && !c.optional {
      var k :| 0 <= k < |codecs| && codecs[k] == c;
      assert Fatal(configured[k]);
    }
  }

  // In particular, the variants produced are those of the codecs that succeeded
  // and the qualities that fit.
  lemma VariantsProduced(
      r: Result<seq<Variant>, string>, codecs: seq<Codec>, qualities: seq<Quality>, videoHeight: nat,
      failure: string -> Option<string>, v: Variant)
    requires Transcoded(r, codecs, qualities, videoHeight, failure) && r.Ok?
    ensures v in r.value <==> exists c, q | c in codecs && q in qualities ::
              failure(c.name).None? && v == Variant(c, q) && (videoHeight == 0 || 5 * q.height <= 6 * videoHeight)
  {
    var places: seq<Place> :| LaidOut(r.value, codecs, qualities, videoHeight, failure, places);
    if v in r.value {
      var n :| 0 <= n < |r.value| && r.value[n] == v;
      assert places[n] in places;
      assert codecs[places[n].codec] in codecs && qualities[places[n].quality] in qualities;
    }
    if c, q :| c in codecs && q in qualities && failure(c.name).None? && v == Variant(c, q)
               && (videoHeight == 0 || 5 * q.height <= 6 * videoHeight) {
      var i: nat :| i < |codecs| && codecs[i] == c;
      var k: nat :| k < |qualities| && qualities[k] == q;
      assert Yields(codecs, qualities, videoHeight, failure, Place(i, k)) && Place(i, k) in places;
      var n :| 0 <= n < |places| && places[n] == Place(i, k);
      assert r.value[n] == v;
    }
  }
}
