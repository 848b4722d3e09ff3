/**
 * hn_digest/content.py: article texts for the stories, cut to 3000 words and cached
 * per url.
 *
 * The download and extraction of one url is an oracle, `fetch(url)`: `None` when
 * the request fails, otherwise the extracted text ("" when nothing was extracted).
 * The cache directory is a `Store` keyed by `md5(url) + ".txt"`, with the hash
 * abstract. The thread pool runs the fetches in some order; the model runs them in
 * list order.
 */
module DigestContent {
  import opened Wrappers
  import opened Text
  import opened Records
  import opened Cache

  const MaxWords := 3000

  // ---------------------------------------------------------------- _truncate_words

  /**
   * `_truncate_words`: the text itself when it has at most `maxWords` words, else
   * its first `maxWords` words joined by single spaces. Either way the result's words
   * are a prefix of the text's.
   */
  function TruncateWords(text: string, maxWords: int): (r: string)
    ensures |Words(text)| <= maxWords ==> r == text
    ensures |Words(r)| <= |Words(text)| && Words(r) == Words(text)[..|Words(r)|]
    ensures maxWords >= 0 && |Words(text)| > maxWords ==> |Words(r)| == maxWords
  {
    var words := Words(text);
    if |words| <= maxWords then text
    else
      var kept := PyTake(words, maxWords);
      assert forall k :: 0 <= k < |kept| ==> kept[k] == words[k];
      WordsJoin(kept);
      Join(kept, " ")
  }

  /** A cut text is the first `maxWords` words, one space apart. */
  lemma TruncatedIsJoin(text: string, maxWords: nat)
    requires |Words(text)| > maxWords
    ensures TruncateWords(text, maxWords) == Join(Words(text)[..maxWords], " ")
  {
  }

  // ---------------------------------------------------------------- _fetch_one

  /** `_cache_path(url)`, as a file name in the cache directory. */
  function CacheName(md5: string -> string, url: string): string {
    md5(url) + ".txt"
  }

  /** What a miss stores and returns: the cut extraction, or "" on any failure. */
  function FetchedText(fetched: Option<string>): (t: string)
    ensures fetched.None? || fetched == Some("") ==> t == ""
    ensures |Words(t)| <= MaxWords
  {
    match fetched
    case Some(x) => if x != "" then TruncateWords(x, MaxWords) else ""
    case None => ""
  }

  /** One fetch: the text returned and the cache after it. */
  datatype Outcome = Outcome(text: string, files: map<string, string>)

  function FetchOutcome(files: map<string, string>, md5: string -> string, url: string,
                        fetch: string -> Option<string>): (o: Outcome)
    ensures CacheName(md5, url) in files ==> o == Outcome(files[CacheName(md5, url)], files)
    ensures CacheName(md5, url) !in files ==>
      o.files == files[CacheName(md5, url) := o.text] && o.text == FetchedText(fetch(url))
  {
    var name := CacheName(md5, url);
    if name in files then Outcome(files[name], files)
    else
      var text := FetchedText(fetch(url));
      Outcome(text, files[name := text])
  }

  /** A second fetch of the same url is a cache hit: same text, cache unchanged. */
  lemma FetchTwiceSame(files: map<string, string>, md5: string -> string, url: string,
                       fetch: string -> Option<string>, again: string -> Option<string>)
    ensures var o := FetchOutcome(files, md5, url, fetch);
      FetchOutcome(o.files, md5, url, again) == o
  {
  }

  /**
   * `_fetch_one`: a hit returns the cached text and fetches nothing; a miss fetches,
   * caches the text it returns, and caches "" when the fetch fails. `fetched` lists
   * the urls requested (zero or one).
   */
  method FetchOne(store: Store, md5: string -> string, url: string, fetch: string -> Option<string>)
    returns (text: string, fetched: seq<string>)
    modifies store
    ensures Outcome(text, store.files) == FetchOutcome(old(store.files), md5, url, fetch)
    ensures fetched == if CacheName(md5, url) in old(store.files) then [] else [url]
  {
    var name := CacheName(md5, url);
    if name in store.files {
      return store.files[name], [];
    }
    text := "";
    var got := fetch(url);
    if got.Some? && got.value != "" {
      text := TruncateWords(got.value, MaxWords);
    }
    store.files := store.files[name := text];
    fetched := [url];
  }

  // ---------------------------------------------------------------- fetch_articles

  /** The stories with a url, in order (`url_stories`). */
  function WithUrl(stories: seq<Story>): (r: seq<Story>)
    ensures forall x :: x in r <==> x in stories && x.url != ""
    ensures IsSubseq(r, stories)
  {
    if stories == [] then []
    else
      var n := |stories| - 1;
      var s := stories[n];
      var prev := WithUrl(stories[..n]);
      assert stories == stories[..n] + [s];
      SubseqSnoc(prev, stories[..n], s);
      if s.url != "" then prev + [s] else prev
  }

  function NoUrlEntry(s: Story): Option<string> {
    if s.url == "" then Some("") else None
  }

  /** `results` after the partition loop: "" for the id of every story without a url. */
  function NoUrlResults(stories: seq<Story>): (r: map<int, string>)
    ensures forall i :: 0 <= i < |stories| && stories[i].url == "" ==> stories[i].id in r
    ensures forall id :: id in r ==> r[id] == "" && exists i :: 0 <= i < |stories| && stories[i].id == id && stories[i].url == ""
  {
    ByIdKeys(NoUrlEntry, stories);
    ById(NoUrlEntry, stories)
  }

  /** The partition loop of `fetch_articles`. */
  method PartitionByUrl(stories: seq<Story>) returns (results: map<int, string>, urlStories: seq<Story>)
    ensures results == NoUrlResults(stories) && urlStories == WithUrl(stories)
  {
    results := map[];
    urlStories := [];
    var i := 0;
    while i < |stories|
      invariant 0 <= i <= |stories|
      invariant results == NoUrlResults(stories[..i]) && urlStories == WithUrl(stories[..i])
    {
      assert stories[..i + 1][..i] == stories[..i];
      var story := stories[i];
      if story.url == "" {
        results := results[story.id := ""];
      } else {
        urlStories := urlStories + [story];
      }
      i := i + 1;
    }
    assert stories[..|stories|] == stories;
  }

  /** The texts so far, the cache, and the urls requested. */
  datatype Progress = Progress(results: map<int, string>, files: map<string, string>, fetched: seq<string>)

  /** The fetch loop over `url_stories`, one story after another. */
  function FetchAll(start: Progress, ss: seq<Story>, md5: string -> string, fetch: string -> Option<string>): Progress {
    if ss == [] then start
    else
      var n := |ss| - 1;
      var p := FetchAll(start, ss[..n], md5, fetch);
      var url := ss[n].url;
      var o := FetchOutcome(p.files, md5, url, fetch);
      Progress(p.results[ss[n].id := o.text], o.files,
               p.fetched + if CacheName(md5, url) in p.files then [] else [url])
  }

  /** Every story's id gets a text. */
  lemma {:induction false} FetchAllKeys(start: Progress, ss: seq<Story>, md5: string -> string, fetch: string -> Option<string>)
    ensures FetchAll(start, ss, md5, fetch).results.Keys == start.results.Keys + Ids(ss)
  {
    if ss != [] {
      var n := |ss| - 1;
      FetchAllKeys(start, ss[..n], md5, fetch);
      assert ss == ss[..n] + [ss[n]];
      IdsSnoc(ss[..n], ss[n]);
    }
  }

  /** Only urls of the stories are requested. */
  lemma {:induction false} FetchAllUrls(start: Progress, ss: seq<Story>, md5: string -> string, fetch: string -> Option<string>)
    ensures forall u :: u in FetchAll(start, ss, md5, fetch).fetched ==>
      u in start.fetched || exists i :: 0 <= i < |ss| && ss[i].url == u
  {
    if ss != [] {
      var n := |ss| - 1;
      FetchAllUrls(start, ss[..n], md5, fetch);
      var p := FetchAll(start, ss[..n], md5, fetch);
      var extra := if CacheName(md5, ss[n].url) in p.files then [] else [ss[n].url];
      assert FetchAll(start, ss, md5, fetch).fetched == p.fetched + extra;
      forall u | u in p.fetched + extra
        ensures u in start.fetched || exists i :: 0 <= i < |ss| && ss[i].url == u
      {
        if u in p.fetched {
          if u !in start.fetched {
            var i :| 0 <= i < n && ss[..n][i].url == u;
            assert ss[i] == ss[..n][i];
          }
        } else {
          assert ss[n].url == u;
        }
      }
    }
  }

  /** No story without a url is ever fetched. */
  lemma NoEmptyUrlFetched(stories: seq<Story>, files: map<string, string>, md5: string -> string,
                          fetch: string -> Option<string>)
    ensures forall u :: u in FetchAll(Progress(NoUrlResults(stories), files, []), WithUrl(stories), md5, fetch).fetched ==>
      u != ""
  {
    var start := Progress(NoUrlResults(stories), files, []);
    var ws := WithUrl(stories);
    FetchAllUrls(start, ws, md5, fetch);
    forall u | u in FetchAll(start, ws, md5, fetch).fetched
      ensures u != ""
    {
      var i :| 0 <= i < |ws| && ws[i].url == u;
      assert ws[i] in ws;
    }
  }

  /** Every id is either one without a url or one of `url_stories`. */
  lemma PartitionCovers(stories: seq<Story>)
    ensures Ids(stories) <= NoUrlResults(stories).Keys + Ids(WithUrl(stories))
  {
    var ws := WithUrl(stories);
    var none := NoUrlResults(stories);
    forall id | id in Ids(stories)
      ensures id in none || id in Ids(ws)
    {
      var i :| 0 <= i < |stories| && stories[i].id == id;
      if stories[i].url != "" {
        assert stories[i] in ws;
        var j :| 0 <= j < |ws| && ws[j] == stories[i];
        assert ws[j].id == id;
      }
    }
  }

  /** `url_stories` holds only stories of the input. */
  lemma WithUrlIds(stories: seq<Story>)
    ensures Ids(WithUrl(stories)) <= Ids(stories)
  {
    var ws := WithUrl(stories);
    forall id | id in Ids(ws)
      ensures id in Ids(stories)
    {
      var j :| 0 <= j < |ws| && ws[j].id == id;
      assert ws[j] in stories;
      var i :| 0 <= i < |stories| && stories[i] == ws[j];
      assert stories[i].id == id;
    }
  }

  /** The ids without a url and the ids of `url_stories` are together all the ids. */
  lemma PartitionIds(stories: seq<Story>)
    ensures NoUrlResults(stories).Keys + Ids(WithUrl(stories)) == Ids(stories)
  {
    PartitionCovers(stories);
    WithUrlIds(stories);
    var none := NoUrlResults(stories);
    forall id | id in none
      ensures id in Ids(stories)
    {
    }
  }

  /** Every story ends with a text, and only the stories do. */
  lemma EveryStoryGetsText(stories: seq<Story>, files: map<string, string>, md5: string -> string,
                           fetch: string -> Option<string>)
    ensures FetchAll(Progress(NoUrlResults(stories), files, []), WithUrl(stories), md5, fetch).results.Keys == Ids(stories)
  {
    FetchAllKeys(Progress(NoUrlResults(stories), files, []), WithUrl(stories), md5, fetch);
    PartitionIds(stories);
  }

  /** An id none of the stories has keeps the text it started with. */
  lemma {:induction false} FetchAllKeepsOthers(start: Progress, ss: seq<Story>, md5: string -> string,
                                               fetch: string -> Option<string>, id: int)
    requires forall k :: 0 <= k < |ss| ==> ss[k].id != id
    ensures var r := FetchAll(start, ss, md5, fetch).results;
      (id in r <==> id in start.results) && (id in start.results ==> r[id] == start.results[id])
  {
    if ss != [] {
      var n := |ss| - 1;
      forall k | 0 <= k < n
        ensures ss[..n][k].id != id
      {
        assert ss[..n][k] == ss[k];
      }
      FetchAllKeepsOthers(start, ss[..n], md5, fetch, id);
    }
  }

  /**
   * The text of an id is what `_fetch_one` gave the last story with that id, run on
   * the cache as it stood when that story's turn came.
   */
  lemma {:induction false} FetchAllLastText(start: Progress, ss: seq<Story>, md5: string -> string,
                                            fetch: string -> Option<string>, k: int)
    requires 0 <= k < |ss|
    requires forall k2 :: k < k2 < |ss| ==> ss[k2].id != ss[k].id
    ensures var r := FetchAll(start, ss, md5, fetch).results;
      ss[k].id in r &&
      r[ss[k].id] == FetchOutcome(FetchAll(start, ss[..k], md5, fetch).files, md5, ss[k].url, fetch).text
  {
    var n := |ss| - 1;
    var init := ss[..n];
    var p := FetchAll(start, init, md5, fetch);
    var text := FetchOutcome(p.files, md5, ss[n].url, fetch).text;
    FetchAllStep(start, ss, md5, fetch);
    if k < n {
      assert init[..k] == ss[..k] && init[k] == ss[k];
      forall k2 | k < k2 < |init|
        ensures init[k2].id != init[k].id
      {
        assert init[k2] == ss[k2];
      }
      FetchAllLastText(start, init, md5, fetch, k);
      assert ss[n].id != ss[k].id;
    } else {
      assert ss[..k] == init;
    }
  }

  /** The last story's turn of the fetch loop. */
  lemma FetchAllStep(start: Progress, ss: seq<Story>, md5: string -> string, fetch: string -> Option<string>)
    requires ss != []
    ensures var p := FetchAll(start, ss[..|ss| - 1], md5, fetch);
      FetchAll(start, ss, md5, fetch).results ==
        p.results[ss[|ss| - 1].id := FetchOutcome(p.files, md5, ss[|ss| - 1].url, fetch).text]
  {
  }

  /** A story without a url whose id no story with a url shares ends with "". */
  lemma NoUrlTextEmpty(stories: seq<Story>, files: map<string, string>, md5: string -> string,
                       fetch: string -> Option<string>, i: int)
    requires 0 <= i < |stories| && stories[i].url == ""
    requires forall j :: 0 <= j < |stories| && stories[j].url != "" ==> stories[j].id != stories[i].id
    ensures var r := FetchAll(Progress(NoUrlResults(stories), files, []), WithUrl(stories), md5, fetch).results;
      stories[i].id in r && r[stories[i].id] == ""
  {
    var ws := WithUrl(stories);
    forall k | 0 <= k < |ws|
      ensures ws[k].id != stories[i].id
    {
      assert ws[k] in stories;
      var j :| 0 <= j < |stories| && stories[j] == ws[k];
    }
    FetchAllKeepsOthers(Progress(NoUrlResults(stories), files, []), ws, md5, fetch, stories[i].id);
  }

  /**
   * `fetch_articles`, with the fetches run in list order: "" for each story without
   * a url, which is never fetched; an early return when no story has a url; then one
   * `_fetch_one` per story with a url.
   */
  method FetchArticles(store: Store, md5: string -> string, stories: seq<Story>, fetch: string -> Option<string>)
    returns (results: map<int, string>, fetched: seq<string>)
    modifies store
    ensures WithUrl(stories) == [] ==>
      results == NoUrlResults(stories) && store.files == old(store.files) && fetched == []
    ensures Progress(results, store.files, fetched)
      == FetchAll(Progress(NoUrlResults(stories), old(store.files), []), WithUrl(stories), md5, fetch)
  {
    var urlStories;
    results, urlStories := PartitionByUrl(stories);
    fetched := [];
    if urlStories == [] {
      return;
    }
    ghost var start := Progress(results, store.files, []);
    var i := 0;
    while i < |urlStories|
      invariant 0 <= i <= |urlStories|
      invariant Progress(results, store.files, fetched) == FetchAll(start, urlStories[..i], md5, fetch)
    {
      assert urlStories[..i + 1][..i] == urlStories[..i];
      var story := urlStories[i];
      var text, requested := FetchOne(store, md5, story.url, fetch);
      results := results[story.id := text];
      fetched := fetched + requested;
      i := i + 1;
    }
    assert urlStories[..|urlStories|] == urlStories;
  }
}
