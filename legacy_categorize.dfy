/**
 * hndigest/categorize.py: the cached category/rank call. Stories whose cache entry
 * is missing or unreadable are numbered into one prompt; each accepted response
 * line gives a (category, is_top) pair, which is returned and written back to the
 * cache as "category=c,rank=top|regular".
 */
module LegacyCategorize {
  import opened Wrappers
  import opened Text
  import opened Records
  import opened Cache
  import opened Generation
  import opened Fields

  /** `VALID_CATEGORIES`: the nine topical keys, without the thread kinds. */
  const ValidCategories: set<string> := {"ai", "dev", "ops", "data", "science", "security", "tech", "career", "culture"}

  /** The pair the call returns per story; an empty category means "no entry". */
  datatype Ranking = Ranking(category: string, isTop: bool)

  // ---------------------------------------------------------------- cache values

  /** `_parse_cache_value`: ("", False) unless the category is valid. */
  function ParseCacheValue(val: string): (r: Ranking)
    ensures r.category == "" <==> ExtractField(val, "category") !in ValidCategories
    ensures r.category != "" ==> r.category == ExtractField(val, "category") && r.category in ValidCategories
    ensures r.category != "" ==> (r.isTop <==> ExtractField(val, "rank") == "top")
    ensures r.category == "" ==> !r.isTop
  {
    var cat := ExtractField(val, "category");
    var rank := ExtractField(val, "rank");
    if cat !in ValidCategories then Ranking("", false) else Ranking(cat, rank == "top")
  }

  /** The cache value a response line writes. */
  function SerializeRanking(r: Ranking): string {
    "category=" + r.category + ",rank=" + RankText(r.isTop)
  }

  lemma ValidCategoryShape(c: string)
    requires c in ValidCategories
    ensures |c| > 0 && IsStripped(c) && ',' !in c && '=' !in c
  {
  }

  lemma SerializeAsRecord(r: Ranking)
    ensures FieldNames(["category", "rank"])
    ensures SerializeRanking(r) == Record(["category", "rank"], [r.category, RankText(r.isTop)])
  {
    var segs := Segments(["category", "rank"], [r.category, RankText(r.isTop)]);
    assert Join(segs, ",") == segs[0] + "," + Join(segs[1..], ",");
  }

  /** A written entry reads back, after the `.strip()` of `read_text`, as exactly the
      pair that was written. */
  lemma CacheRoundTrip(r: Ranking)
    requires r.category in ValidCategories
    ensures ParseCacheValue(Strip(SerializeRanking(r))) == r
  {
    var fs := ["category", "rank"];
    var vs := [r.category, RankText(r.isTop)];
    ValidCategoryShape(r.category);
    assert FieldValues(vs) by {
      assert IsStripped(RankText(r.isTop));
    }
    SerializeAsRecord(r);
    RecordStripped(fs, vs);
    RecordField(fs, vs, 0);
    RecordField(fs, vs, 1);
  }

  /** A cache value with an unknown category reads as no entry. */
  lemma UnknownCategoryIsMiss(val: string)
    requires ExtractField(val, "category") !in ValidCategories
    ensures ParseCacheValue(val) == Ranking("", false)
  {
  }

  // ---------------------------------------------------------------- prompt and response lines

  /** `md5("cat_v1|{id}|{title}")`: the cache key of a story. */
  function CacheKey(md5: string -> string, s: Story): string {
    md5("cat_v1|" + IntToString(s.id) + "|" + s.title)
  }

  /** The prompt line of the story at 0-based position `i` of the uncached list. */
  function StoryLine(i: nat, s: Story): string {
    NatToString(i + 1) + ". " + s.title + " (" + IntToString(s.points) + " pts, " + IntToString(s.comments) + " comments)"
  }

  /** The numbered block of the prompt. */
  function StoryLines(uncached: seq<Story>): (r: seq<string>)
    ensures |r| == |uncached|
    ensures forall i :: 0 <= i < |uncached| ==> r[i] == StoryLine(i, uncached[i])
  {
    seq(|uncached|, i requires 0 <= i < |uncached| => StoryLine(i, uncached[i]))
  }

  /** The number a prompt line starts with names that story: read as a response
      line, the line for position `i` gives index `i`. */
  lemma StoryLineNumber(i: nat, s: Story)
    ensures ParseNumbered(StoryLine(i, s)).Numbered? && ParseNumbered(StoryLine(i, s)).index == i
  {
    var body := " " + s.title + " (" + IntToString(s.points) + " pts, " + IntToString(s.comments) + " comments)";
    assert StoryLine(i, s) == NatToString(i + 1) + "." + body;
    NumberedRoundTrip(i, body);
  }

  /** The pair an accepted line gives: fields read from the lowercased rest, an
      unknown category coerced to "culture". */
  function RankLine(rest: string): (r: Ranking)
    ensures r.category in ValidCategories
    ensures r.category == "culture" || r.category == ExtractField(Lower(Strip(rest)), "category")
    ensures r.isTop <==> ExtractField(Lower(Strip(rest)), "rank") == "top"
  {
    var low := Lower(Strip(rest));
    var cat := ExtractField(low, "category");
    var rank := ExtractField(low, "rank");
    Ranking(if cat in ValidCategories then cat else "culture", rank == "top")
  }

  // ---------------------------------------------------------------- the cache scan

  /** The valid cache entry of a story, if there is one. */
  function CachedEntry(files: map<string, string>, md5: string -> string, s: Story): (r: Option<Ranking>)
    ensures r.Some? ==> r.value.category in ValidCategories
  {
    var key := CacheKey(md5, s);
    if key in files then
      var r := ParseCacheValue(Strip(files[key]));
      if r.category != "" then Some(r) else None
    else None
  }

  /** The `cached` map after the scan: later stories with the same id win. */
  function CachedMap(files: map<string, string>, md5: string -> string, stories: seq<Story>): map<int, Ranking> {
    ById(s => CachedEntry(files, md5, s), stories)
  }

  /** The `uncached` list: the stories without a valid entry, in input order. */
  function Uncached(files: map<string, string>, md5: string -> string, stories: seq<Story>): seq<Story> {
    if stories == [] then []
    else
      var s := stories[|stories| - 1];
      Uncached(files, md5, stories[..|stories| - 1]) + (if CachedEntry(files, md5, s).None? then [s] else [])
  }

  lemma {:induction false} UncachedExact(files: map<string, string>, md5: string -> string, stories: seq<Story>)
    ensures forall s :: s in Uncached(files, md5, stories) <==> s in stories && CachedEntry(files, md5, s).None?
    ensures |Uncached(files, md5, stories)| <= |stories|
  {
    if stories != [] {
      var init := stories[..|stories| - 1];
      UncachedExact(files, md5, init);
      assert stories == init + [stories[|stories| - 1]];
    }
  }

  /**
   * The scan splits the stories: each one with a valid entry is in the cached map,
   * under its id, with a valid category; each one without is in the uncached list,
   * and nothing else is.
   */
  lemma ScanPartition(files: map<string, string>, md5: string -> string, stories: seq<Story>)
    ensures forall s :: s in Uncached(files, md5, stories) <==> s in stories && CachedEntry(files, md5, s).None?
    ensures forall s :: s in stories && CachedEntry(files, md5, s).Some? ==> s.id in CachedMap(files, md5, stories)
    ensures forall id :: id in CachedMap(files, md5, stories) ==>
      id in Ids(stories) && CachedMap(files, md5, stories)[id].category in ValidCategories
    ensures |Uncached(files, md5, stories)| <= |stories|
  {
    var entry := s => CachedEntry(files, md5, s);
    UncachedExact(files, md5, stories);
    ByIdKeys(entry, stories);
    var cm := CachedMap(files, md5, stories);
    forall id | id in cm
      ensures cm[id].category in ValidCategories
    {
      var i :| 0 <= i < |stories| && stories[i].id == id && entry(stories[i]) == Some(cm[id]);
    }
    forall s | s in stories && CachedEntry(files, md5, s).Some?
      ensures s.id in cm
    {
      var i :| 0 <= i < |stories| && stories[i] == s;
    }
  }

  // ---------------------------------------------------------------- applying a response

  /** The returned map and the cache directory while a response is parsed. */
  datatype State = State(ranked: map<int, Ranking>, files: map<string, string>)

  /** Whether a response line is used: numbered, with an index inside the uncached list. */
  predicate Accepted(p: LineParse, count: nat) {
    p.Numbered? && 0 <= p.index < count
  }

  /** One response line: an accepted line sets the story's pair and writes its cache entry. */
  function ApplyLine(line: string, uncached: seq<Story>, md5: string -> string, st: State): State {
    var p := ParseNumbered(line);
    if Accepted(p, |uncached|) then
      var s := uncached[p.index];
      var r := RankLine(p.rest);
      State(st.ranked[s.id := r], st.files[CacheKey(md5, s) := SerializeRanking(r)])
    else st
  }

  /** The response lines in order. */
  function ApplyLines(lines: seq<string>, uncached: seq<Story>, md5: string -> string, st: State): State {
    if lines == [] then st
    else ApplyLine(lines[|lines| - 1], uncached, md5, ApplyLines(lines[..|lines| - 1], uncached, md5, st))
  }

  /** An accepted line fixes the story's pair, and the cache entry it writes reads
      back as that pair; an ignored line changes nothing. */
  lemma ApplyLineEffect(line: string, uncached: seq<Story>, md5: string -> string, st: State)
    ensures var p := ParseNumbered(line); var r := ApplyLine(line, uncached, md5, st);
      if Accepted(p, |uncached|) then
        var s := uncached[p.index];
        r.ranked == st.ranked[s.id := RankLine(p.rest)] &&
        CacheKey(md5, s) in r.files &&
        ParseCacheValue(Strip(r.files[CacheKey(md5, s)])) == RankLine(p.rest)
      else r == st
  {
    var p := ParseNumbered(line);
    if Accepted(p, |uncached|) {
      CacheRoundTrip(RankLine(p.rest));
    }
  }

  /** Every id already in the map stays, those not of an uncached story keep their
      pair, and new ids are ids of uncached stories. */
  lemma {:induction false} ApplyLinesRanked(lines: seq<string>, uncached: seq<Story>, md5: string -> string, st: State)
    ensures var r := ApplyLines(lines, uncached, md5, st);
      && st.ranked.Keys <= r.ranked.Keys
      && r.ranked.Keys <= st.ranked.Keys + Ids(uncached)
      && (forall id :: id in st.ranked && id !in Ids(uncached) ==> r.ranked[id] == st.ranked[id])
  {
    if lines != [] {
      ApplyLinesRanked(lines[..|lines| - 1], uncached, md5, st);
    }
  }

  /** Every category in the map is a valid key. */
  predicate RankingsValid(ranked: map<int, Ranking>) {
    forall id :: id in ranked ==> ranked[id].category in ValidCategories
  }

  lemma {:induction false} ApplyLinesValid(lines: seq<string>, uncached: seq<Story>, md5: string -> string, st: State)
    requires RankingsValid(st.ranked)
    ensures RankingsValid(ApplyLines(lines, uncached, md5, st).ranked)
  {
    if lines != [] {
      ApplyLinesValid(lines[..|lines| - 1], uncached, md5, st);
    }
  }

  /** Only uncached stories' cache files are written, and none is removed. */
  predicate WritesOnly(before: map<string, string>, after: map<string, string>, uncached: seq<Story>, md5: string -> string) {
    && before.Keys <= after.Keys
    && (forall key :: key in before && after[key] != before[key] ==>
          exists s :: s in uncached && key == CacheKey(md5, s))
    && (forall key :: key in after && key !in before ==>
          exists s :: s in uncached && key == CacheKey(md5, s))
  }

  lemma {:induction false} ApplyLinesFiles(lines: seq<string>, uncached: seq<Story>, md5: string -> string, st: State)
    ensures WritesOnly(st.files, ApplyLines(lines, uncached, md5, st).files, uncached, md5)
  {
    if lines != [] {
      var n := |lines| - 1;
      ApplyLinesFiles(lines[..n], uncached, md5, st);
      var p := ParseNumbered(lines[n]);
      if Accepted(p, |uncached|) {
        assert uncached[p.index] in uncached;
      }
    }
  }

  /**
   * Parsing a response only adds: every id already in the map stays, those not of an
   * uncached story keep their pair, new ids are ids of uncached stories, every
   * category stays valid, and only uncached stories' cache files are written.
   */
  lemma ApplyLinesPreserves(lines: seq<string>, uncached: seq<Story>, md5: string -> string, st: State)
    requires forall id :: id in st.ranked ==> st.ranked[id].category in ValidCategories
    ensures var r := ApplyLines(lines, uncached, md5, st);
      && st.ranked.Keys <= r.ranked.Keys
      && r.ranked.Keys <= st.ranked.Keys + Ids(uncached)
      && (forall id :: id in st.ranked && id !in Ids(uncached) ==> r.ranked[id] == st.ranked[id])
      && (forall id :: id in r.ranked ==> r.ranked[id].category in ValidCategories)
      && st.files.Keys <= r.files.Keys
      && (forall key :: key in st.files && r.files[key] != st.files[key] ==>
            exists s :: s in uncached && key == CacheKey(md5, s))
      && (forall key :: key in r.files && key !in st.files ==>
            exists s :: s in uncached && key == CacheKey(md5, s))
  {
    ApplyLinesRanked(lines, uncached, md5, st);
    ApplyLinesValid(lines, uncached, md5, st);
    ApplyLinesFiles(lines, uncached, md5, st);
  }

  // ---------------------------------------------------------------- categorize_and_rank_batch

  /** The cache scan loop: fill `cached` and `uncached`. */
  method ScanCache(files: map<string, string>, md5: string -> string, stories: seq<Story>)
    returns (cached: map<int, Ranking>, uncached: seq<Story>)
    ensures cached == CachedMap(files, md5, stories)
    ensures uncached == Uncached(files, md5, stories)
  {
    cached := map[];
    uncached := [];
    var i := 0;
    while i < |stories|
      invariant 0 <= i <= |stories|
      invariant cached == CachedMap(files, md5, stories[..i])
      invariant uncached == Uncached(files, md5, stories[..i])
    {
      var s := stories[i];
      assert stories[..i + 1][..i] == stories[..i];
      var key := CacheKey(md5, s);
      if key in files {
        var val := Strip(files[key]);
        var r := ParseCacheValue(val);
        if r.category != "" {
          cached := cached[s.id := r];
        } else {
          uncached := uncached + [s];
        }
      } else {
        uncached := uncached + [s];
      }
      i := i + 1;
    }
    assert stories[..|stories|] == stories;
  }

  /** The prompt loop: one numbered line per uncached story. */
  method BuildStoryLines(uncached: seq<Story>) returns (storyLines: seq<string>)
    ensures storyLines == StoryLines(uncached)
  {
    storyLines := [];
    var k := 0;
    while k < |uncached|
      invariant 0 <= k <= |uncached|
      invariant storyLines == StoryLines(uncached[..k])
    {
      storyLines := storyLines + [StoryLine(k, uncached[k])];
      k := k + 1;
    }
    assert uncached[..|uncached|] == uncached;
  }

  /** One response line: an accepted line sets the story's pair and writes its cache file. */
  method ParseResponseLine(store: Store, md5: string -> string, uncached: seq<Story>, line: string,
                           ranked: map<int, Ranking>)
    returns (result: map<int, Ranking>)
    modifies store
    ensures State(result, store.files) == ApplyLine(line, uncached, md5, State(ranked, old(store.files)))
  {
    result := ranked;
    var p := ParseNumbered(line);
    if p.Numbered? && 0 <= p.index < |uncached| {
      var s := uncached[p.index];
      var r := RankLine(p.rest);
      result := ranked[s.id := r];
      store.files := store.files[CacheKey(md5, s) := SerializeRanking(r)];
    }
  }

  /** The parse loop over the response lines, writing each accepted line's entry. */
  method ParseResponse(store: Store, md5: string -> string, uncached: seq<Story>, lines: seq<string>,
                       cached: map<int, Ranking>)
    returns (ranked: map<int, Ranking>)
    modifies store
    ensures State(ranked, store.files) == ApplyLines(lines, uncached, md5, State(cached, old(store.files)))
  {
    ranked := cached;
    var j := 0;
    while j < |lines|
      invariant 0 <= j <= |lines|
      invariant State(ranked, store.files) == ApplyLines(lines[..j], uncached, md5, State(cached, old(store.files)))
    {
      assert lines[..j + 1][..j] == lines[..j];
      ranked := ParseResponseLine(store, md5, uncached, lines[j], ranked);
      j := j + 1;
    }
    assert lines[..|lines|] == lines;
  }

  /**
   * `categorize_and_rank_batch(session, api_key, stories)`. The cache directory is
   * `store`, the hash is `md5`, `fill` is `CATEGORIZE_PROMPT.format(stories=·)` and
   * `g` answers the requests. Returns the pairs, the seconds slept and the number of
   * requests sent.
   */
  method CategorizeAndRankBatch(store: Store, md5: string -> string, apiKey: string, stories: seq<Story>,
                                fill: string -> string, g: Oracle)
    returns (ranked: map<int, Ranking>, waits: seq<int>, requests: nat)
    modifies store
    ensures apiKey == "" || stories == [] ==>
      ranked == map[] && store.files == old(store.files) && requests == 0 && waits == []
    ensures apiKey != "" && stories != [] ==>
      var cm := CachedMap(old(store.files), md5, stories);
      var un := Uncached(old(store.files), md5, stories);
      var prompt := fill(Join(StoryLines(un), "\n"));
      if un == [] then
        ranked == cm && store.files == old(store.files) && requests == 0 && waits == []
      else
        && requests == Requests(g, prompt)
        && waits == Backoff(RateLimits(g, prompt))
        && match Response(g, prompt)
           case None => ranked == cm && store.files == old(store.files)
           case Some(text) =>
             State(ranked, store.files) == ApplyLines(Split(Strip(text), '\n'), un, md5, State(cm, old(store.files)))
  {
    ranked := map[];
    waits := [];
    requests := 0;
    if apiKey == "" || stories == [] {
      return;
    }
    var cached, uncached := ScanCache(store.files, md5, stories);
    if uncached == [] {
      ranked := cached;
      return;
    }
    var storyLines := BuildStoryLines(uncached);
    var prompt := fill(Join(storyLines, "\n"));
    var response;
    response, waits, requests := Request(g, prompt);
    ranked := cached;
    if response.Some? {
      ranked := ParseResponse(store, md5, uncached, Split(Strip(response.value), '\n'), cached);
    }
  }
}
