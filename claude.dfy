/** The text simplifier: picks the items that carry original text, looks each one up
    in the cache under a hash of that text, sends the uncached ones to the language
    model in one batch, parses the labelled reply, caches each new result, and
    reassembles the list with weather items last. Any failure of the model call
    falls back to the items' own text.

    The model's reply is an input: `None` stands for an exception, `OtherContent` for
    a reply whose first block is not text, and `TextReply` carries the reply already
    cut into sections, each with the text captured after its two labels (if found). */
module Claude {
  import opened Wrappers
  import opened Text
  import opened NewsTypes
  import opened Constants
  import opened Cache

  // ---------------------------------------------------------------- hashContent

  const TWO_32: int := 0x1_0000_0000
  const TWO_31: int := 0x8000_0000

  /** JavaScript's conversion of a number to a signed 32-bit integer (ToInt32). */
  function ToInt32(x: int): (r: int)
    ensures -TWO_31 <= r < TWO_31
  {
    var m := x % TWO_32;
    if m >= TWO_31 then m - TWO_32 else m
  }

  /** One iteration of the hash loop as written: `hash = (hash << 5) - hash + char`
      (the shift wraps to 32 bits, the subtraction and addition do not), then
      `hash = hash & hash` (wraps the sum). */
  function HashStep(h: int, c: char): int {
    ToInt32(ToInt32(h * 32) - h + c as int)
  }

  /** The hash of a string: the loop's value after all its characters. */
  function HashOf(s: string): int
    decreases |s|
  {
    if s == [] then 0 else HashStep(HashOf(s[..|s| - 1]), s[|s| - 1])
  }

  /** The exact, unwrapped polynomial sum of c_i * 31^(n-1-i). */
  function PolyHash(s: string): int
    decreases |s|
  {
    if s == [] then 0 else 31 * PolyHash(s[..|s| - 1]) + s[|s| - 1] as int
  }

  /** ToInt32 differs from its argument by a multiple of 2^32. */
  lemma ToInt32Offset(x: int) returns (k: int)
    ensures ToInt32(x) == x + k * TWO_32
  {
    k := if x % TWO_32 >= TWO_31 then -(x / TWO_32) - 1 else -(x / TWO_32);
  }

  /** Numbers that differ by a multiple of 2^32 wrap to the same 32-bit value. */
  lemma ToInt32Congruent(a: int, b: int, k: int)
    requires a == b + k * TWO_32
    ensures ToInt32(a) == ToInt32(b)
  {
    assert a % TWO_32 == b % TWO_32;
  }

  /** The hash is the polynomial 31-hash of the text, read as a signed 32-bit
      integer: the wrap inside the shift does not change the final value. */
  lemma {:induction false} HashIsWrappedPolynomial(s: string)
    ensures HashOf(s) == ToInt32(PolyHash(s))
    decreases |s|
  {
    if s != [] {
      var p := s[..|s| - 1];
      var c := s[|s| - 1] as int;
      HashIsWrappedPolynomial(p);
      var h := HashOf(p);
      var k1 := ToInt32Offset(PolyHash(p));
      var k2 := ToInt32Offset(h * 32);
      ToInt32Congruent(ToInt32(h * 32) - h + c, 31 * PolyHash(p) + c, 31 * k1 + k2);
    }
  }

  /** The hash extends character by character: hashing a longer text continues from
      the hash of its prefix. */
  lemma HashExtends(s: string, c: char)
    ensures HashOf(s + [c]) == HashStep(HashOf(s), c)
  {
    assert (s + [c])[..|s + [c]| - 1] == s;
  }

  /** `hashContent`: the loop as written, returning `hash.toString(36)`. */
  method HashContent(content: string) returns (key: string)
    ensures key == IntToRadix(HashOf(content), 36)
  {
    var hash := 0;
    var i := 0;
    while i < |content|
      invariant 0 <= i <= |content|
      invariant hash == HashOf(content[..i])
    {
      var code := content[i] as int;
      hash := ToInt32(hash * 32) - hash + code;
      hash := ToInt32(hash);
      assert content[..i + 1] == content[..i] + [content[i]];
      HashExtends(content[..i], content[i]);
      i := i + 1;
    }
    assert content[..i] == content;
    key := IntToRadix(hash, 36);
  }

  /** The empty text hashes to "0". */
  lemma EmptyTextHash()
    ensures IntToRadix(HashOf(""), 36) == "0"
  {
  }

  /** Every hash is a signed 32-bit value, and distinct hashes give distinct keys. */
  lemma HashKeyProperties(a: string, b: string)
    ensures -TWO_31 <= HashOf(a) < TWO_31
    ensures IntToRadix(HashOf(a), 36) == IntToRadix(HashOf(b), 36) ==> HashOf(a) == HashOf(b)
  {
    if a != [] {
      assert HashOf(a) == ToInt32(ToInt32(HashOf(a[..|a| - 1]) * 32) - HashOf(a[..|a| - 1]) + a[|a| - 1] as int);
    }
    IntToRadixInjective(HashOf(a), HashOf(b), 36);
  }

  // ---------------------------------------------------------------- parseSimplifiedResponse

  /** One section of the reply: the text captured after "ÜBERSCHRIFT:" and after
      "ZUSAMMENFASSUNG:", each `None` when that label is not found. */
  datatype Section = Section(headline: Option<string>, summary: Option<string>)

  /** A parsed headline/summary pair. */
  datatype Rewrite = Rewrite(headline: string, summary: string)

  const BLANK: Rewrite := Rewrite("", "")

  function SectionEntry(s: Section): seq<Rewrite> {
    if s.headline.Some? && s.summary.Some? then [Rewrite(s.headline.value, s.summary.value)] else []
  }

  /** The pairs of all sections in which both labels matched, in reply order. */
  function Matched(sections: seq<Section>): (r: seq<Rewrite>)
    ensures |r| <= |sections|
    decreases |sections|
  {
    if sections == [] then [] else Matched(sections[..|sections| - 1]) + SectionEntry(sections[|sections| - 1])
  }

  /** Only complete sections contribute, and they contribute in reply order. */
  lemma {:induction false} MatchedAppend(a: seq<Section>, b: seq<Section>)
    ensures Matched(a + b) == Matched(a) + Matched(b)
    decreases |b|
  {
    if b == [] {
      assert a + b == a;
    } else {
      var b' := b[..|b| - 1];
      MatchedAppend(a, b');
      assert (a + b)[..|a + b| - 1] == a + b';
      assert (a + b)[|a + b| - 1] == b[|b| - 1];
      calc {
        Matched(a + b);
        Matched(a + b') + SectionEntry(b[|b| - 1]);
        Matched(a) + Matched(b') + SectionEntry(b[|b| - 1]);
        Matched(a) + Matched(b);
      }
    }
  }

  /** If every section is complete, each one yields exactly one entry. */
  lemma {:induction false} MatchedAllComplete(sections: seq<Section>)
    requires forall i :: 0 <= i < |sections| ==> sections[i].headline.Some? && sections[i].summary.Some?
    ensures |Matched(sections)| == |sections|
    ensures forall i :: 0 <= i < |sections| ==>
      Matched(sections)[i] == Rewrite(sections[i].headline.value, sections[i].summary.value)
    decreases |sections|
  {
    if sections != [] {
      MatchedAllComplete(sections[..|sections| - 1]);
    }
  }

  function Blanks(n: nat): (r: seq<Rewrite>)
    ensures |r| == n
  {
    seq(n, _ => BLANK)
  }

  /** Exactly `n` entries: the parsed ones, padded with blank pairs or cut short. */
  function Fit(entries: seq<Rewrite>, n: nat): (r: seq<Rewrite>)
    ensures |r| == n
    ensures forall k :: 0 <= k < n ==> r[k] == if k < |entries| then entries[k] else BLANK
  {
    if |entries| >= n then entries[..n] else entries + Blanks(n - |entries|)
  }

  /** `parseSimplifiedResponse`: collect the complete sections, pad, then slice. */
  method ParseSimplifiedResponse(sections: seq<Section>, expectedCount: nat) returns (entries: seq<Rewrite>)
    ensures |entries| == expectedCount
    ensures forall k :: 0 <= k < expectedCount ==>
      entries[k] == if k < |Matched(sections)| then Matched(sections)[k] else BLANK
    ensures entries == Fit(Matched(sections), expectedCount)
  {
    var results: seq<Rewrite> := [];
    for i := 0 to |sections|
      invariant results == Matched(sections[..i])
    {
      var section := sections[i];
      assert sections[..i + 1][..i] == sections[..i];
      if section.headline.Some? && section.summary.Some? {
        results := results + [Rewrite(section.headline.value, section.summary.value)];
      }
    }
    assert sections[..|sections|] == sections;
    ghost var matched := results;
    while |results| < expectedCount
      invariant |matched| <= |results|
      invariant |results| == |matched| || |results| <= expectedCount
      invariant forall k :: 0 <= k < |results| ==> results[k] == if k < |matched| then matched[k] else BLANK
      decreases expectedCount - |results|
    {
      results := results + [BLANK];
    }
    entries := Take(results, expectedCount);
  }

  // ---------------------------------------------------------------- simplifyNewsItems

  /** A candidate for simplification: not weather, with non-empty original title and
      summary. */
  predicate Simplifiable(item: RawNewsItem) {
    item.kind != Wetter && Truthy(item.originalTitle) && Truthy(item.originalSummary)
  }

  predicate IsWeather(item: RawNewsItem) {
    item.kind == Wetter
  }

  /** `items.filter(keep)`. */
  function Select(items: seq<RawNewsItem>, keep: RawNewsItem -> bool): (r: seq<RawNewsItem>)
    ensures |r| <= |items|
    ensures forall i :: 0 <= i < |r| ==> keep(r[i])
    decreases |items|
  {
    if items == [] then []
    else (if keep(items[0]) then [items[0]] else []) + Select(items[1..], keep)
  }

  /** The filter keeps exactly the items that pass: nothing passing is dropped. */
  lemma {:induction false} SelectMembers(items: seq<RawNewsItem>, keep: RawNewsItem -> bool)
    ensures forall x :: x in Select(items, keep) <==> x in items && keep(x)
    decreases |items|
  {
    if items != [] {
      SelectMembers(items[1..], keep);
      assert forall x :: x in items <==> x == items[0] || x in items[1..];
    }
  }

  /** The filter keeps input order: filtering a concatenation filters each part. */
  lemma {:induction false} SelectAppend(a: seq<RawNewsItem>, b: seq<RawNewsItem>, keep: RawNewsItem -> bool)
    ensures Select(a + b, keep) == Select(a, keep) + Select(b, keep)
    decreases |a|
  {
    if a == [] {
      assert a + b == b;
    } else {
      SelectAppend(a[1..], b, keep);
      assert (a + b)[1..] == a[1..] + b;
    }
  }

  /** The text whose hash keys the cached simplification. */
  function SourceText(item: RawNewsItem): string
    requires Simplifiable(item)
  {
    item.originalTitle.value + item.originalSummary.value
  }

  function SimplifiedKey(item: RawNewsItem): string
    requires Simplifiable(item)
  {
    "simplified_" + IntToRadix(HashOf(SourceText(item)), 36)
  }

  /** The key depends only on the concatenated text, so the same text split
      differently between title and summary shares one cache entry. */
  lemma KeyDependsOnlyOnText(a: RawNewsItem, b: RawNewsItem)
    requires Simplifiable(a) && Simplifiable(b)
    ensures SourceText(a) == SourceText(b) ==> SimplifiedKey(a) == SimplifiedKey(b)
    ensures SimplifiedKey(a) == SimplifiedKey(b) ==> HashOf(SourceText(a)) == HashOf(SourceText(b))
  {
    var prefix := "simplified_";
    var ka := IntToRadix(HashOf(SourceText(a)), 36);
    var kb := IntToRadix(HashOf(SourceText(b)), 36);
    if SimplifiedKey(a) == SimplifiedKey(b) {
      assert ka == (prefix + ka)[|prefix|..] == (prefix + kb)[|prefix|..] == kb;
      HashKeyProperties(SourceText(a), SourceText(b));
    }
  }

  predicate AllSimplifiable(items: seq<RawNewsItem>) {
    forall i :: 0 <= i < |items| ==> Simplifiable(items[i])
  }

  /** The cache key of every candidate, in order. */
  function Keys(candidates: seq<RawNewsItem>): (r: seq<string>)
    requires AllSimplifiable(candidates)
    ensures |r| == |candidates|
  {
    seq(|candidates|, i requires 0 <= i < |candidates| => SimplifiedKey(candidates[i]))
  }

  function AsSimplified(v: Option<CachedValue>): Option<NewsItem> {
    if v.Some? && v.value.SimplifiedItem? then Some(v.value.news) else None
  }

  /** The cache-check pass: one lookup per candidate, in order, each on the store the
      previous lookup left behind. */
  datatype Lookups = Lookups(hits: seq<Option<NewsItem>>, store: Store<CachedValue>)

  function LookupPhase(m: Store<CachedValue>, keys: seq<string>, now: int): (r: Lookups)
    ensures |r.hits| == |keys|
    decreases |keys|
  {
    if keys == [] then Lookups([], m)
    else
      var before := LookupPhase(m, keys[..|keys| - 1], now);
      var key := keys[|keys| - 1];
      Lookups(before.hits + [AsSimplified(Lookup(before.store, key, SIMPLIFIED_CACHE_TTL_MS, now))],
              AfterLookup(before.store, key, SIMPLIFIED_CACHE_TTL_MS, now))
  }

  /** How many lookups missed. */
  function Misses(hits: seq<Option<NewsItem>>): (r: nat)
    ensures r <= |hits|
    decreases |hits|
  {
    if hits == [] then 0 else Misses(hits[..|hits| - 1]) + (if hits[|hits| - 1].None? then 1 else 0)
  }

  /** The uncached candidates, in order: the batch sent to the model. */
  function Uncached(candidates: seq<RawNewsItem>, hits: seq<Option<NewsItem>>): (r: seq<RawNewsItem>)
    requires |hits| == |candidates|
    ensures |r| == Misses(hits)
    decreases |candidates|
  {
    if candidates == [] then []
    else
      var n := |candidates| - 1;
      Uncached(candidates[..n], hits[..n]) + (if hits[n].None? then [candidates[n]] else [])
  }

  function HitValues(hits: seq<Option<NewsItem>>): (r: seq<NewsItem>)
    requires forall i :: 0 <= i < |hits| ==> hits[i].Some?
    ensures |r| == |hits|
    ensures forall i :: 0 <= i < |hits| ==> r[i] == hits[i].value
  {
    seq(|hits|, i requires 0 <= i < |hits| => hits[i].value)
  }

  /** The item a parsed pair makes: an empty parsed field falls back to the item's own
      text, and the kind is kept. */
  function Rewritten(item: RawNewsItem, p: Rewrite): NewsItem {
    NewsItem(if p.headline != "" then p.headline else item.headline,
             if p.summary != "" then p.summary else item.summary,
             item.kind)
  }

  /** The merge pass: a cached candidate contributes its cached item; the k-th
      uncached one takes the k-th parsed pair and its result is written to the cache. */
  datatype Merge = Merge(news: seq<NewsItem>, store: Store<CachedValue>)

  function MergePhase(m: Store<CachedValue>, candidates: seq<RawNewsItem>, keys: seq<string>,
                      hits: seq<Option<NewsItem>>, parsed: seq<Rewrite>, now: int): (r: Merge)
    requires |keys| == |candidates| && |hits| == |candidates| && Misses(hits) <= |parsed|
    ensures |r.news| == |candidates|
    decreases |candidates|
  {
    if candidates == [] then Merge([], m)
    else
      var n := |candidates| - 1;
      MissesPrefix(hits, n);
      var before := MergePhase(m, candidates[..n], keys[..n], hits[..n], parsed, now);
      if hits[n].Some? then Merge(before.news + [hits[n].value], before.store)
      else
        var item := Rewritten(candidates[n], parsed[Misses(hits[..n])]);
        Merge(before.news + [item], Stored(before.store, keys[n], SimplifiedItem(item), now))
  }

  /** A prefix has no more misses than the whole, and one fewer than the next prefix
      exactly when the next lookup missed. */
  lemma MissesPrefix(hits: seq<Option<NewsItem>>, n: nat)
    requires n < |hits|
    ensures Misses(hits[..n + 1]) == Misses(hits[..n]) + (if hits[n].None? then 1 else 0)
    ensures Misses(hits[..n + 1]) <= Misses(hits)
  {
    assert hits[..n + 1][..n] == hits[..n];
    MissesMonotone(hits, n + 1);
  }

  lemma {:induction false} MissesMonotone(hits: seq<Option<NewsItem>>, n: nat)
    requires n <= |hits|
    ensures Misses(hits[..n]) <= Misses(hits)
    decreases |hits|
  {
    if n < |hits| {
      var h := hits[..|hits| - 1];
      assert hits[..n] == h[..n];
      MissesMonotone(h, n);
    } else {
      assert hits[..n] == hits;
    }
  }

  /** The model's reply: the first content block is text (already cut into
      sections), or something else. */
  datatype Reply = TextReply(sections: seq<Section>) | OtherContent

  /** The result of one call: the items returned, the cache afterwards, and how many
      model requests were made. */
  datatype Outcome = Outcome(news: seq<NewsItem>, store: Store<CachedValue>, modelCalls: nat)

  /** `simplifyNewsItems`, as a function of the cache, the items, the clock and the
      model's reply (`None`: the call threw). */
  function Simplify(m: Store<CachedValue>, items: seq<RawNewsItem>, now: int, reply: Option<Reply>): Outcome {
    var candidates := Select(items, Simplifiable);
    var weather := Select(items, IsWeather);
    if candidates == [] then Outcome(ProjectAll(items), m, 0)
    else
      var keys := Keys(candidates);
      var looked := LookupPhase(m, keys, now);
      if Misses(looked.hits) == 0 then
        AllHit(looked.hits);
        Outcome(HitValues(looked.hits) + ProjectAll(weather), looked.store, 0)
      else if reply.None? || reply.value.OtherContent? then
        Outcome(ProjectAll(items), looked.store, 1)
      else
        var parsed := Fit(Matched(reply.value.sections), Misses(looked.hits));
        var merged := MergePhase(looked.store, candidates, keys, looked.hits, parsed, now);
        Outcome(merged.news + ProjectAll(weather), merged.store, 1)
  }

  /** No misses means every lookup hit. */
  lemma {:induction false} AllHit(hits: seq<Option<NewsItem>>)
    requires Misses(hits) == 0
    ensures forall i :: 0 <= i < |hits| ==> hits[i].Some?
    decreases |hits|
  {
    if hits != [] {
      AllHit(hits[..|hits| - 1]);
      assert forall i :: 0 <= i < |hits| - 1 ==> hits[i] == hits[..|hits| - 1][i];
    }
  }

  // One pass of each loop, stated on prefixes, so that the loops need not unfold the
  // phases themselves.

  lemma LookupStep(m: Store<CachedValue>, keys: seq<string>, i: nat, now: int)
    requires i < |keys|
    ensures var before := LookupPhase(m, keys[..i], now);
      LookupPhase(m, keys[..i + 1], now) ==
        Lookups(before.hits + [AsSimplified(Lookup(before.store, keys[i], SIMPLIFIED_CACHE_TTL_MS, now))],
                AfterLookup(before.store, keys[i], SIMPLIFIED_CACHE_TTL_MS, now))
  {
    assert keys[..i + 1][..i] == keys[..i];
  }

  lemma UncachedStep(candidates: seq<RawNewsItem>, hits: seq<Option<NewsItem>>, hit: Option<NewsItem>, i: nat)
    requires i < |candidates| && |hits| == i
    ensures Uncached(candidates[..i + 1], hits + [hit])
            == Uncached(candidates[..i], hits) + (if hit.None? then [candidates[i]] else [])
  {
    assert candidates[..i + 1][..i] == candidates[..i];
    assert (hits + [hit])[..i] == hits;
  }

  lemma MergeStep(m: Store<CachedValue>, candidates: seq<RawNewsItem>, keys: seq<string>,
                  hits: seq<Option<NewsItem>>, parsed: seq<Rewrite>, now: int, j: nat)
    requires |keys| == |candidates| && |hits| == |candidates| && Misses(hits) <= |parsed|
    requires j < |candidates| && Misses(hits[..j + 1]) <= |parsed|
    requires Misses(hits[..j + 1]) == Misses(hits[..j]) + (if hits[j].None? then 1 else 0)
    ensures var before := MergePhase(m, candidates[..j], keys[..j], hits[..j], parsed, now);
      MergePhase(m, candidates[..j + 1], keys[..j + 1], hits[..j + 1], parsed, now) ==
        if hits[j].Some? then Merge(before.news + [hits[j].value], before.store)
        else
          var item := Rewritten(candidates[j], parsed[Misses(hits[..j])]);
          Merge(before.news + [item], Stored(before.store, keys[j], SimplifiedItem(item), now))
  {
    assert candidates[..j + 1][..j] == candidates[..j];
    assert keys[..j + 1][..j] == keys[..j];
    assert hits[..j + 1][..j] == hits[..j];
  }

  /** The cache-check loop of `simplifyNewsItems`: looks every candidate up and
      collects the uncached ones in order. */
  method CheckCache(cache: SimpleCache<CachedValue>, candidates: seq<RawNewsItem>, now: int)
    returns (hits: seq<Option<NewsItem>>, uncachedItems: seq<RawNewsItem>)
    requires AllSimplifiable(candidates)
    modifies cache
    ensures Lookups(hits, cache.entries) == LookupPhase(old(cache.entries), Keys(candidates), now)
    ensures uncachedItems == Uncached(candidates, hits)
  {
    ghost var keys := Keys(candidates);
    ghost var m0 := cache.entries;
    hits := [];
    uncachedItems := [];
    var i := 0;
    while i < |candidates|
      invariant 0 <= i <= |candidates|
      invariant Lookups(hits, cache.entries) == LookupPhase(m0, keys[..i], now)
      invariant uncachedItems == Uncached(candidates[..i], hits)
    {
      var item := candidates[i];
      var hash := HashContent(item.originalTitle.value + item.originalSummary.value);
      assert "simplified_" + hash == keys[i];
      LookupStep(m0, keys, i, now);
      var cached := cache.Get("simplified_" + hash, SIMPLIFIED_CACHE_TTL_MS, now);
      var hit := AsSimplified(cached);
      UncachedStep(candidates, hits, hit, i);
      hits := hits + [hit];
      if hit.None? {
        uncachedItems := uncachedItems + [item];
      }
      i := i + 1;
    }
    assert candidates[..i] == candidates && keys[..i] == keys;
  }

  /** The merge loop of `simplifyNewsItems`: walks the candidates in order, taking the
      cached item on a hit and the next parsed pair on a miss, and caches the latter. */
  method MergeResults(cache: SimpleCache<CachedValue>, candidates: seq<RawNewsItem>, hits: seq<Option<NewsItem>>,
                      simplifiedTexts: seq<Rewrite>, now: int)
    returns (results: seq<NewsItem>)
    requires AllSimplifiable(candidates) && |hits| == |candidates| && Misses(hits) <= |simplifiedTexts|
    modifies cache
    ensures Merge(results, cache.entries)
            == MergePhase(old(cache.entries), candidates, Keys(candidates), hits, simplifiedTexts, now)
  {
    ghost var keys := Keys(candidates);
    ghost var m0 := cache.entries;
    results := [];
    MissesMonotone(hits, 0);
    var simplifiedIndex := 0;
    var j := 0;
    while j < |candidates|
      invariant 0 <= j <= |candidates|
      invariant simplifiedIndex == Misses(hits[..j]) <= Misses(hits)
      invariant Merge(results, cache.entries)
                == MergePhase(m0, candidates[..j], keys[..j], hits[..j], simplifiedTexts, now)
    {
      MissesPrefix(hits, j);
      MergeStep(m0, candidates, keys, hits, simplifiedTexts, now, j);
      var item := candidates[j];
      if hits[j].Some? {
        results := results + [hits[j].value];
      } else {
        var simplified := simplifiedTexts[simplifiedIndex];
        var newsItem := NewsItem(if simplified.headline != "" then simplified.headline else item.headline,
                                 if simplified.summary != "" then simplified.summary else item.summary,
                                 item.kind);
        var hash := HashContent(item.originalTitle.value + item.originalSummary.value);
        assert "simplified_" + hash == keys[j];
        cache.Set("simplified_" + hash, SimplifiedItem(newsItem), now);
        results := results + [newsItem];
        simplifiedIndex := simplifiedIndex + 1;
      }
      j := j + 1;
    }
    assert candidates[..j] == candidates && keys[..j] == keys && hits[..j] == hits;
  }

  /** `simplifyNewsItems`: partition, cache check, one batched model call for the
      uncached candidates, parse, cache and merge, with weather items appended last;
      `modelCalls` counts the model requests. */
  method SimplifyNewsItems(cache: SimpleCache<CachedValue>, items: seq<RawNewsItem>, now: int, reply: Option<Reply>)
    returns (news: seq<NewsItem>, ghost modelCalls: nat)
    modifies cache
    ensures Outcome(news, cache.entries, modelCalls) == Simplify(old(cache.entries), items, now, reply)
  {
    var itemsToSimplify := Select(items, Simplifiable);
    var weatherItems := Select(items, IsWeather);
    if |itemsToSimplify| == 0 {
      return ProjectAll(items), 0;
    }
    var hits, uncachedItems := CheckCache(cache, itemsToSimplify, now);
    if |uncachedItems| == 0 {
      AllHit(hits);
      return HitValues(hits) + ProjectAll(weatherItems), 0;
    }
    modelCalls := 1;
    if reply.None? || reply.value.OtherContent? {
      return ProjectAll(items), 1;
    }
    var simplifiedTexts := ParseSimplifiedResponse(reply.value.sections, |uncachedItems|);
    var results := MergeResults(cache, itemsToSimplify, hits, simplifiedTexts, now);
    news := results + ProjectAll(weatherItems);
  }

  // ---------------------------------------------------------------- properties of Simplify

  /** `key` holds some simplified item that a reader with the simplification window
      still sees at `now`. */
  predicate Fresh(m: Store<CachedValue>, key: string, now: int) {
    key in m && m[key].data.SimplifiedItem? && !Expired(m, key, SIMPLIFIED_CACHE_TTL_MS, now)
  }

  /** `k` is the same in both stores: present in both with one entry, or in neither. */
  predicate Agree(a: Store<CachedValue>, b: Store<CachedValue>, k: string) {
    (k in a <==> k in b) && (k in a ==> a[k] == b[k])
  }

  predicate DistinctKeys(keys: seq<string>) {
    forall i, j :: 0 <= i < j < |keys| ==> keys[i] != keys[j]
  }

  /** The keys of the candidates whose lookup missed. */
  function WrittenKeys(keys: seq<string>, hits: seq<Option<NewsItem>>): set<string>
    requires |hits| == |keys|
  {
    set i | 0 <= i < |keys| && hits[i].None? :: keys[i]
  }

  /** The cache-check pass only deletes: every entry left was there, unchanged. */
  lemma {:induction false} LookupOnlyEvicts(m: Store<CachedValue>, keys: seq<string>, now: int)
    ensures LookupPhase(m, keys, now).store.Keys <= m.Keys
    ensures forall k :: k in LookupPhase(m, keys, now).store ==> LookupPhase(m, keys, now).store[k] == m[k]
    decreases |keys|
  {
    if keys != [] {
      LookupOnlyEvicts(m, keys[..|keys| - 1], now);
    }
  }

  /** Every hit is still in the store after the whole pass, fresh, holding the value
      that was read: a later lookup deletes only a stale entry. */
  lemma {:induction false} HitsStayCached(m: Store<CachedValue>, keys: seq<string>, now: int)
    ensures var r := LookupPhase(m, keys, now);
      forall i :: 0 <= i < |keys| && r.hits[i].Some? ==>
        Fresh(r.store, keys[i], now) && r.store[keys[i]].data.news == r.hits[i].value
    decreases |keys|
  {
    if keys != [] {
      var n := |keys| - 1;
      HitsStayCached(m, keys[..n], now);
      var before := LookupPhase(m, keys[..n], now);
      var r := LookupPhase(m, keys, now);
      forall i | 0 <= i < n && r.hits[i].Some?
        ensures Fresh(r.store, keys[i], now) && r.store[keys[i]].data.news == r.hits[i].value
      {
        assert r.hits[i] == before.hits[i] && keys[i] == keys[..n][i];
      }
    }
  }

  /** Lookups of keys that all hold fresh simplified entries all hit, return those
      entries, and change nothing. */
  lemma {:induction false} FreshAllHit(m: Store<CachedValue>, keys: seq<string>, now: int)
    requires forall i :: 0 <= i < |keys| ==> Fresh(m, keys[i], now)
    ensures LookupPhase(m, keys, now).store == m
    ensures forall i :: 0 <= i < |keys| ==>
              Fresh(m, keys[i], now) && LookupPhase(m, keys, now).hits[i] == Some(m[keys[i]].data.news)
    decreases |keys|
  {
    if keys != [] {
      var n := |keys| - 1;
      assert forall i :: 0 <= i < n ==> keys[..n][i] == keys[i];
      FreshAllHit(m, keys[..n], now);
    }
  }

  /** The i-th candidate, if it missed, is the `Misses(hits[..i])`-th item of the
      batch sent to the model. */
  lemma {:induction false} UncachedRank(candidates: seq<RawNewsItem>, hits: seq<Option<NewsItem>>, i: nat)
    requires |hits| == |candidates| && i < |candidates| && hits[i].None?
    ensures Misses(hits[..i]) < |Uncached(candidates, hits)|
    ensures Uncached(candidates, hits)[Misses(hits[..i])] == candidates[i]
    decreases |candidates|
  {
    var n := |candidates| - 1;
    var prefix := Uncached(candidates[..n], hits[..n]);
    if i == n {
      assert hits[..n] == hits[..i];
      assert Uncached(candidates, hits) == prefix + [candidates[n]];
    } else {
      assert hits[..n][..i] == hits[..i];
      UncachedRank(candidates[..n], hits[..n], i);
      assert Uncached(candidates, hits)[..|prefix|] == prefix;
    }
  }

  /** The merge pass at one position: a hit gives the cached item, a miss the
      rewrite by the parsed pair of its rank among the misses. */
  lemma {:induction false} MergeEntry(m: Store<CachedValue>, candidates: seq<RawNewsItem>, keys: seq<string>,
                                      hits: seq<Option<NewsItem>>, parsed: seq<Rewrite>, now: int, k: nat)
    requires |keys| == |candidates| && |hits| == |candidates| && Misses(hits) <= |parsed| && k < |candidates|
    ensures hits[k].Some? ==> MergePhase(m, candidates, keys, hits, parsed, now).news[k] == hits[k].value
    ensures hits[k].None? ==>
              Misses(hits[..k]) < |parsed| &&
              MergePhase(m, candidates, keys, hits, parsed, now).news[k] == Rewritten(candidates[k], parsed[Misses(hits[..k])])
    decreases |candidates|
  {
    var n := |candidates| - 1;
    MissesPrefix(hits, n);
    MissesPrefix(hits, k);
    if k < n {
      assert hits[..n][k] == hits[k] && candidates[..n][k] == candidates[k] && hits[..n][..k] == hits[..k];
      MergeEntry(m, candidates[..n], keys[..n], hits[..n], parsed, now, k);
    }
  }

  /** The merge pass writes only the keys of the candidates that missed, each at
      `now`, and keeps every fresh simplified entry fresh. */
  lemma {:induction false} MergeWritesOnly(m: Store<CachedValue>, candidates: seq<RawNewsItem>, keys: seq<string>,
                                           hits: seq<Option<NewsItem>>, parsed: seq<Rewrite>, now: int)
    requires |keys| == |candidates| && |hits| == |candidates| && Misses(hits) <= |parsed|
    ensures forall k :: k !in WrittenKeys(keys, hits) ==> Agree(MergePhase(m, candidates, keys, hits, parsed, now).store, m, k)
    ensures forall k :: Fresh(m, k, now) ==> Fresh(MergePhase(m, candidates, keys, hits, parsed, now).store, k, now)
    ensures forall i :: 0 <= i < |keys| && hits[i].None? ==>
              Fresh(MergePhase(m, candidates, keys, hits, parsed, now).store, keys[i], now)
    decreases |candidates|
  {
    if candidates != [] {
      var n := |candidates| - 1;
      MissesPrefix(hits, n);
      MergeWritesOnly(m, candidates[..n], keys[..n], hits[..n], parsed, now);
      assert forall i :: 0 <= i < n ==> hits[..n][i] == hits[i] && keys[..n][i] == keys[i];
      assert WrittenKeys(keys[..n], hits[..n]) <= WrittenKeys(keys, hits);
      assert hits[n].None? ==> keys[n] in WrittenKeys(keys, hits);
    }
  }

  /** With distinct keys no write is overwritten: each miss's key ends up holding
      the item the merge produced for it. */
  lemma {:induction false} MergeStoresResults(m: Store<CachedValue>, candidates: seq<RawNewsItem>, keys: seq<string>,
                                              hits: seq<Option<NewsItem>>, parsed: seq<Rewrite>, now: int)
    requires |keys| == |candidates| && |hits| == |candidates| && Misses(hits) <= |parsed|
    requires DistinctKeys(keys)
    ensures var r := MergePhase(m, candidates, keys, hits, parsed, now);
      forall i :: 0 <= i < |keys| && hits[i].None? ==>
        keys[i] in r.store && r.store[keys[i]] == CacheEntry(SimplifiedItem(r.news[i]), now)
    decreases |candidates|
  {
    if candidates != [] {
      var n := |candidates| - 1;
      MissesPrefix(hits, n);
      var before := MergePhase(m, candidates[..n], keys[..n], hits[..n], parsed, now);
      var r := MergePhase(m, candidates, keys, hits, parsed, now);
      MergeStoresResults(m, candidates[..n], keys[..n], hits[..n], parsed, now);
      forall i | 0 <= i < n && hits[i].None?
        ensures keys[i] in r.store && r.store[keys[i]] == CacheEntry(SimplifiedItem(r.news[i]), now)
      {
        assert hits[..n][i] == hits[i] && keys[..n][i] == keys[i] && r.news[i] == before.news[i];
      }
    }
  }

  /** When the model answers with text and some candidate missed: one request, the
      candidates in order followed by the weather items, each hit as cached and the
      k-th miss rewritten by the k-th parsed pair (blank when the reply had fewer). */
  lemma MergedOutput(m: Store<CachedValue>, items: seq<RawNewsItem>, now: int, sections: seq<Section>)
    requires Select(items, Simplifiable) != []
    requires Misses(LookupPhase(m, Keys(Select(items, Simplifiable)), now).hits) > 0
    ensures var o := Simplify(m, items, now, Some(TextReply(sections)));
      var c := Select(items, Simplifiable);
      var hits := LookupPhase(m, Keys(c), now).hits;
      var parsed := Fit(Matched(sections), Misses(hits));
      o.modelCalls == 1 &&
      |o.news| == |c| + |Select(items, IsWeather)| &&
      o.news[|c|..] == ProjectAll(Select(items, IsWeather)) &&
      (forall k :: 0 <= k < |c| && hits[k].Some? ==> o.news[k] == hits[k].value) &&
      (forall k :: 0 <= k < |c| && hits[k].None? ==>
         Misses(hits[..k]) < |parsed| &&
         Uncached(c, hits)[Misses(hits[..k])] == c[k] &&
         o.news[k] == Rewritten(c[k], parsed[Misses(hits[..k])]))
  {
    var c := Select(items, Simplifiable);
    var keys := Keys(c);
    var looked := LookupPhase(m, keys, now);
    var parsed := Fit(Matched(sections), Misses(looked.hits));
    var merged := MergePhase(looked.store, c, keys, looked.hits, parsed, now);
    var o := Simplify(m, items, now, Some(TextReply(sections)));
    assert o.news == merged.news + ProjectAll(Select(items, IsWeather));
    forall k | 0 <= k < |c|
      ensures o.news[k] == merged.news[k]
      ensures looked.hits[k].Some? ==> o.news[k] == looked.hits[k].value
      ensures looked.hits[k].None? ==>
         Misses(looked.hits[..k]) < |parsed| &&
         Uncached(c, looked.hits)[Misses(looked.hits[..k])] == c[k] &&
         o.news[k] == Rewritten(c[k], parsed[Misses(looked.hits[..k])])
    {
      MergeEntry(looked.store, c, keys, looked.hits, parsed, now, k);
      if looked.hits[k].None? {
        UncachedRank(c, looked.hits, k);
      }
    }
  }

  /** When the model call fails or answers with something other than text, every
      item comes back with its original text if a request was made, and the cache
      gains nothing: the only changes are stale entries dropped by the cache check. */
  lemma ModelFailureFallsBack(m: Store<CachedValue>, items: seq<RawNewsItem>, now: int, reply: Option<Reply>)
    requires reply.None? || reply.value.OtherContent?
    ensures var o := Simplify(m, items, now, reply);
      (o.modelCalls == 1 ==> o.news == ProjectAll(items)) &&
      o.store.Keys <= m.Keys && (forall k :: k in o.store ==> o.store[k] == m[k])
  {
    var c := Select(items, Simplifiable);
    if c != [] {
      LookupOnlyEvicts(m, Keys(c), now);
    }
  }

  /** A filter that keeps no item selects nothing. */
  lemma {:induction false} SelectNone(items: seq<RawNewsItem>, keep: RawNewsItem -> bool)
    requires forall i :: 0 <= i < |items| ==> !keep(items[i])
    ensures Select(items, keep) == []
    decreases |items|
  {
    if items != [] {
      assert forall i :: 0 <= i < |items[1..]| ==> items[1..][i] == items[i + 1];
      SelectNone(items[1..], keep);
    }
  }

  /** With no candidate, the items come back as they are, projected, in the same
      number and order; no request is made and the cache is not even read. */
  lemma NothingToSimplify(m: Store<CachedValue>, items: seq<RawNewsItem>, now: int, reply: Option<Reply>)
    requires forall i :: 0 <= i < |items| ==> !Simplifiable(items[i])
    ensures Simplify(m, items, now, reply) == Outcome(ProjectAll(items), m, 0)
  {
    SelectNone(items, Simplifiable);
  }

  /** Whatever the reply, a request is made exactly when some candidate missed the
      cache, and afterwards the cache differs from the looked-up one only under the
      keys of the candidates that missed. */
  lemma CacheReceivesOnlyMisses(m: Store<CachedValue>, items: seq<RawNewsItem>, now: int, reply: Option<Reply>)
    ensures var o := Simplify(m, items, now, reply);
      var c := Select(items, Simplifiable);
      var looked := LookupPhase(m, Keys(c), now);
      (o.modelCalls == 1 <==> c != [] && Misses(looked.hits) > 0) &&
      forall k :: k !in WrittenKeys(Keys(c), looked.hits) ==> Agree(o.store, looked.store, k)
  {
    var c := Select(items, Simplifiable);
    var keys := Keys(c);
    var looked := LookupPhase(m, keys, now);
    var o := Simplify(m, items, now, reply);
    if c == [] {
      assert o.store == m == looked.store;
    } else if Misses(looked.hits) == 0 || reply.None? || reply.value.OtherContent? {
      assert o.store == looked.store;
    } else {
      var parsed := Fit(Matched(reply.value.sections), Misses(looked.hits));
      var merged := MergePhase(looked.store, c, keys, looked.hits, parsed, now);
      assert o.store == merged.store && o.modelCalls == 1;
      MergeWritesOnly(looked.store, c, keys, looked.hits, parsed, now);
    }
  }

  /** Lookups that all hit have no misses. */
  lemma {:induction false} NoneMissed(hits: seq<Option<NewsItem>>)
    requires forall i :: 0 <= i < |hits| ==> hits[i].Some?
    ensures Misses(hits) == 0
    decreases |hits|
  {
    if hits != [] {
      NoneMissed(hits[..|hits| - 1]);
    }
  }

  /** Every key holds a fresh simplified entry. */
  predicate AllFresh(m: Store<CachedValue>, keys: seq<string>, now: int) {
    forall i :: 0 <= i < |keys| ==> Fresh(m, keys[i], now)
  }

  /** The simplified items held under `keys`, in order. */
  function CachedItems(m: Store<CachedValue>, keys: seq<string>, now: int): (r: seq<NewsItem>)
    requires AllFresh(m, keys, now)
    ensures |r| == |keys|
  {
    seq(|keys|, i requires 0 <= i < |keys| && Fresh(m, keys[i], now) => m[keys[i]].data.news)
  }

  /** The branch of `Simplify` where every lookup hit. */
  lemma SimplifyAllHit(m: Store<CachedValue>, items: seq<RawNewsItem>, now: int, reply: Option<Reply>)
    requires Select(items, Simplifiable) != []
    requires Misses(LookupPhase(m, Keys(Select(items, Simplifiable)), now).hits) == 0
    ensures var looked := LookupPhase(m, Keys(Select(items, Simplifiable)), now);
      (forall i :: 0 <= i < |looked.hits| ==> looked.hits[i].Some?) &&
      Simplify(m, items, now, reply) == Outcome(HitValues(looked.hits) + ProjectAll(Select(items, IsWeather)), looked.store, 0)
  {
    AllHit(LookupPhase(m, Keys(Select(items, Simplifiable)), now).hits);
  }

  /** A call on a store where every candidate's key holds a fresh simplified entry
      makes no request, changes nothing, and returns those entries followed by the
      weather items. */
  lemma AllFreshNoCall(m: Store<CachedValue>, items: seq<RawNewsItem>, now: int, reply: Option<Reply>)
    requires Select(items, Simplifiable) != []
    requires AllFresh(m, Keys(Select(items, Simplifiable)), now)
    ensures Simplify(m, items, now, reply)
            == Outcome(CachedItems(m, Keys(Select(items, Simplifiable)), now) + ProjectAll(Select(items, IsWeather)), m, 0)
  {
    var c := Select(items, Simplifiable);
    var keys := Keys(c);
    FreshAllHit(m, keys, now);
    var looked := LookupPhase(m, keys, now);
    NoneMissed(looked.hits);
    SimplifyAllHit(m, items, now, reply);
    assert HitValues(looked.hits) == CachedItems(m, keys, now);
  }

  /** A merge started from a store that still holds every hit leaves every
      candidate's key fresh; with distinct keys each key holds exactly the item the
      merge returned at that position. */
  lemma MergeLeavesAllCached(m: Store<CachedValue>, candidates: seq<RawNewsItem>, keys: seq<string>,
                             hits: seq<Option<NewsItem>>, parsed: seq<Rewrite>, now: int)
    requires |keys| == |candidates| && |hits| == |candidates| && Misses(hits) <= |parsed|
    requires forall i :: 0 <= i < |keys| && hits[i].Some? ==> Fresh(m, keys[i], now) && m[keys[i]].data.news == hits[i].value
    ensures AllFresh(MergePhase(m, candidates, keys, hits, parsed, now).store, keys, now)
    ensures var r := MergePhase(m, candidates, keys, hits, parsed, now);
      DistinctKeys(keys) ==> CachedItems(r.store, keys, now) == r.news
  {
    var r := MergePhase(m, candidates, keys, hits, parsed, now);
    MergeWritesOnly(m, candidates, keys, hits, parsed, now);
    if DistinctKeys(keys) {
      MergeStoresResults(m, candidates, keys, hits, parsed, now);
      forall i | 0 <= i < |keys|
        ensures r.store[keys[i]].data.news == r.news[i]
      {
        MergeEntry(m, candidates, keys, hits, parsed, now, i);
        if hits[i].Some? {
          assert keys[i] !in WrittenKeys(keys, hits);
          assert Agree(r.store, m, keys[i]);
        }
      }
      assert CachedItems(r.store, keys, now) == r.news;
    }
  }

  /** A second call, when the first found every candidate cached: no request, the
      same items, the same cache. */
  lemma SecondCallAfterHits(m: Store<CachedValue>, items: seq<RawNewsItem>, now: int, reply: Option<Reply>,
                            again: Option<Reply>)
    requires Select(items, Simplifiable) != []
    requires Misses(LookupPhase(m, Keys(Select(items, Simplifiable)), now).hits) == 0
    ensures var first := Simplify(m, items, now, reply);
      Simplify(first.store, items, now, again) == Outcome(first.news, first.store, 0)
  {
    var c := Select(items, Simplifiable);
    var keys := Keys(c);
    var looked := LookupPhase(m, keys, now);
    HitsStayCached(m, keys, now);
    SimplifyAllHit(m, items, now, reply);
    AllFreshNoCall(looked.store, items, now, again);
    assert CachedItems(looked.store, keys, now) == HitValues(looked.hits);
  }

  /** The store a first call leaves when it sends the misses to the model holds a
      fresh simplified entry under every candidate's key; with distinct keys, those
      entries are exactly the items that call produced. */
  lemma MergedStoreCachesAll(m: Store<CachedValue>, candidates: seq<RawNewsItem>, now: int, parsed: seq<Rewrite>)
    requires AllSimplifiable(candidates)
    requires Misses(LookupPhase(m, Keys(candidates), now).hits) <= |parsed|
    ensures var looked := LookupPhase(m, Keys(candidates), now);
      var merged := MergePhase(looked.store, candidates, Keys(candidates), looked.hits, parsed, now);
      AllFresh(merged.store, Keys(candidates), now) &&
      (DistinctKeys(Keys(candidates)) ==> CachedItems(merged.store, Keys(candidates), now) == merged.news)
  {
    var keys := Keys(candidates);
    var looked := LookupPhase(m, keys, now);
    HitsStayCached(m, keys, now);
    MergeLeavesAllCached(looked.store, candidates, keys, looked.hits, parsed, now);
  }

  /** A second call, when the first sent the misses to the model: no request, no
      change to the cache, and, with distinct keys, the items the merge produced
      followed by the weather items. */
  lemma SecondCallAfterMerge(m: Store<CachedValue>, candidates: seq<RawNewsItem>, items: seq<RawNewsItem>,
                             now: int, parsed: seq<Rewrite>, again: Option<Reply>)
    requires candidates == Select(items, Simplifiable) != []
    requires Misses(LookupPhase(m, Keys(candidates), now).hits) <= |parsed|
    ensures var looked := LookupPhase(m, Keys(candidates), now);
      var merged := MergePhase(looked.store, candidates, Keys(candidates), looked.hits, parsed, now);
      var second := Simplify(merged.store, items, now, again);
      second.modelCalls == 0 && second.store == merged.store &&
      (DistinctKeys(Keys(candidates)) ==> second.news == merged.news + ProjectAll(Select(items, IsWeather)))
  {
    var looked := LookupPhase(m, Keys(candidates), now);
    var merged := MergePhase(looked.store, candidates, Keys(candidates), looked.hits, parsed, now);
    MergedStoreCachesAll(m, candidates, now, parsed);
    AllFreshNoCall(merged.store, items, now, again);
  }

  /** After a call whose model request succeeded, a second call with the same items
      at the same instant makes no request, whatever the reply would be; when the
      candidates' keys are distinct it also returns the same items and leaves the
      cache as it was. */
  lemma SecondCallIsCached(m: Store<CachedValue>, items: seq<RawNewsItem>, now: int, sections: seq<Section>,
                           again: Option<Reply>)
    ensures var first := Simplify(m, items, now, Some(TextReply(sections)));
      Simplify(first.store, items, now, again).modelCalls == 0
    ensures var first := Simplify(m, items, now, Some(TextReply(sections)));
      DistinctKeys(Keys(Select(items, Simplifiable))) ==>
        Simplify(first.store, items, now, again) == Outcome(first.news, first.store, 0)
  {
    var c := Select(items, Simplifiable);
    var first := Simplify(m, items, now, Some(TextReply(sections)));
    if c != [] {
      var keys := Keys(c);
      var looked := LookupPhase(m, keys, now);
      if Misses(looked.hits) == 0 {
        AllHit(looked.hits);
        SecondCallAfterHits(m, items, now, Some(TextReply(sections)), again);
      } else {
        var parsed := Fit(Matched(sections), Misses(looked.hits));
        SecondCallAfterMerge(m, c, items, now, parsed, again);
      }
    }
  }

  /** When every lookup of a pass missed, no lookup hit. */
  lemma {:induction false} AllMissed(hits: seq<Option<NewsItem>>)
    requires Misses(hits) == |hits|
    ensures forall i :: 0 <= i < |hits| ==> hits[i].None?
    decreases |hits|
  {
    if hits != [] {
      var n := |hits| - 1;
      assert Misses(hits[..n]) == n && hits[n].None?;
      AllMissed(hits[..n]);
      assert forall i :: 0 <= i < n ==> hits[..n][i] == hits[i];
    }
  }

  /** A call that found no candidate cached and got a reply stamps every candidate's
      key with its own instant, holding the item it returned at that position; the
      weather items follow. */
  lemma MissedCallStamps(m: Store<CachedValue>, items: seq<RawNewsItem>, now: int, sections: seq<Section>)
    requires Select(items, Simplifiable) != []
    requires DistinctKeys(Keys(Select(items, Simplifiable)))
    requires Misses(LookupPhase(m, Keys(Select(items, Simplifiable)), now).hits) == |Select(items, Simplifiable)|
    ensures var first := Simplify(m, items, now, Some(TextReply(sections)));
      var keys := Keys(Select(items, Simplifiable));
      first.modelCalls == 1 && |keys| <= |first.news| &&
      first.news[|keys|..] == ProjectAll(Select(items, IsWeather)) &&
      forall i :: 0 <= i < |keys| ==>
        keys[i] in first.store && first.store[keys[i]] == CacheEntry(SimplifiedItem(first.news[i]), now)
  {
    var c := Select(items, Simplifiable);
    var keys := Keys(c);
    var looked := LookupPhase(m, keys, now);
    AllMissed(looked.hits);
    var parsed := Fit(Matched(sections), Misses(looked.hits));
    var merged := MergePhase(looked.store, c, keys, looked.hits, parsed, now);
    assert Simplify(m, items, now, Some(TextReply(sections))) == Outcome(merged.news + ProjectAll(Select(items, IsWeather)), merged.store, 1);
    MergeStoresResults(looked.store, c, keys, looked.hits, parsed, now);
  }

  /** After a call that found no candidate cached and whose model request succeeded,
      a second call with the same (distinct-keyed) items at any instant up to the
      cache lifetime later makes no request, returns the same items and leaves the
      cache as it was: every entry the first call wrote is stamped with its instant. */
  lemma SecondCallWithinTtl(m: Store<CachedValue>, items: seq<RawNewsItem>, now: int, later: int,
                            sections: seq<Section>, again: Option<Reply>)
    requires later - now <= SIMPLIFIED_CACHE_TTL_MS
    requires Select(items, Simplifiable) != []
    requires DistinctKeys(Keys(Select(items, Simplifiable)))
    requires Misses(LookupPhase(m, Keys(Select(items, Simplifiable)), now).hits) == |Select(items, Simplifiable)|
    ensures var first := Simplify(m, items, now, Some(TextReply(sections)));
      Simplify(first.store, items, later, again) == Outcome(first.news, first.store, 0)
  {
    var keys := Keys(Select(items, Simplifiable));
    var first := Simplify(m, items, now, Some(TextReply(sections)));
    MissedCallStamps(m, items, now, sections);
    assert AllFresh(first.store, keys, later);
    assert CachedItems(first.store, keys, later) == first.news[..|keys|];
    AllFreshNoCall(first.store, items, later, again);
    assert first.news == first.news[..|keys|] + first.news[|keys|..];
  }

  /** The other side of the lifetime: once it has passed since such a first call,
      the entries it wrote are stale, so a second call makes a request again. */
  lemma SecondCallAfterTtl(m: Store<CachedValue>, items: seq<RawNewsItem>, now: int, later: int,
                           sections: seq<Section>, again: Option<Reply>)
    requires later - now > SIMPLIFIED_CACHE_TTL_MS
    requires Select(items, Simplifiable) != []
    requires DistinctKeys(Keys(Select(items, Simplifiable)))
    requires Misses(LookupPhase(m, Keys(Select(items, Simplifiable)), now).hits) == |Select(items, Simplifiable)|
    ensures var first := Simplify(m, items, now, Some(TextReply(sections)));
      Simplify(first.store, items, later, again).modelCalls == 1
  {
    var keys := Keys(Select(items, Simplifiable));
    var first := Simplify(m, items, now, Some(TextReply(sections)));
    MissedCallStamps(m, items, now, sections);
    assert first.store[keys[|keys| - 1]].timestamp == now;
    StaleLastKeyMisses(first.store, keys, later);
    MissRequests(first.store, items, later, again);
  }

  /** A call whose cache check misses at least once makes one request, whatever the
      reply. */
  lemma MissRequests(m: Store<CachedValue>, items: seq<RawNewsItem>, now: int, reply: Option<Reply>)
    requires Select(items, Simplifiable) != []
    requires Misses(LookupPhase(m, Keys(Select(items, Simplifiable)), now).hits) > 0
    ensures Simplify(m, items, now, reply).modelCalls == 1
  {
  }

  /** A pass whose last key holds an entry older than the lifetime misses at least
      once: the earlier lookups evict entries but never refresh one. */
  lemma StaleLastKeyMisses(s: Store<CachedValue>, keys: seq<string>, now: int)
    requires keys != [] && keys[|keys| - 1] in s
    requires now - s[keys[|keys| - 1]].timestamp > SIMPLIFIED_CACHE_TTL_MS
    ensures Misses(LookupPhase(s, keys, now).hits) > 0
  {
    var n := |keys| - 1;
    LookupOnlyEvicts(s, keys[..n], now);
    assert LookupPhase(s, keys, now).hits[n].None?;
  }

  /** One world story and one weather item on an empty cache: exactly one model
      request, and the weather item comes back unchanged, last. */
  lemma OneWorldOneWeather(world: RawNewsItem, weather: RawNewsItem, now: int, reply: Option<Reply>)
    requires Simplifiable(world) && IsWeather(weather)
    ensures var o := Simplify(map[], [world, weather], now, reply);
      o.modelCalls == 1 && |o.news| == 2 && o.news[1] == Project(weather)
  {
    var items := [world, weather];
    assert items[1..] == [weather] && items[1..][1..] == [];
    assert Select(items, Simplifiable) == [world];
    assert Select(items, IsWeather) == [weather];
    assert [SimplifiedKey(world)][..0] == [];
    assert LookupPhase(map[], Keys([world]), now).hits == [None];
  }
}
