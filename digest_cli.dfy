/**
 * hn_digest/cli.py, `generate_digest` from the selection onward: the Show HN and
 * Ask HN picks are merged into the general selection by id, every story gets its
 * category and top flag (from the processing result when there is one, from the
 * keyword classifier otherwise), the titles and summaries are completed, and the
 * messages are formatted.
 *
 * The three selections, and the result map of `process_stories` (`None` when no API
 * key is set), are parameters: fetching and selecting live in hn_digest/hn.py, which
 * is not part of this model, and the processing call is modelled on its own.
 */
module DigestCli {
  import opened Wrappers
  import opened Text
  import opened Records
  import opened DigestConfig
  import opened DigestProcess
  import opened DigestFormatter
  import opened Classifier

  // ---------------------------------------------------------------- show/ask merge

  /** The general selection with each extra story appended unless its id is already
      present, in order. */
  function Merged(top: seq<Story>, extras: seq<Story>): seq<Story> {
    if extras == [] then top
    else
      var n := |extras| - 1;
      var m := Merged(top, extras[..n]);
      if extras[n].id in Ids(m) then m else m + [extras[n]]
  }

  /** The merged list starts with the general selection unchanged, and what follows
      comes from the extras, in their order. */
  lemma {:induction false} MergedPrefix(top: seq<Story>, extras: seq<Story>)
    ensures |top| <= |Merged(top, extras)| <= |top| + |extras|
    ensures Merged(top, extras)[..|top|] == top
    ensures IsSubseq(Merged(top, extras)[|top|..], extras)
  {
    if extras != [] {
      var n := |extras| - 1;
      var e := extras[n];
      var m := Merged(top, extras[..n]);
      MergedPrefix(top, extras[..n]);
      assert extras == extras[..n] + [e];
      SubseqSnoc(m[|top|..], extras[..n], e);
      if e.id !in Ids(m) {
        var r := m + [e];
        assert r[..|top|] == m[..|top|];
        assert r[|top|..] == m[|top|..] + [e];
      }
    }
  }

  /** No appended story has an id already in the list before it. */
  lemma {:induction false} MergedFresh(top: seq<Story>, extras: seq<Story>)
    ensures forall k, l :: 0 <= k < l < |Merged(top, extras)| && |top| <= l ==>
      Merged(top, extras)[k].id != Merged(top, extras)[l].id
  {
    if extras != [] {
      var n := |extras| - 1;
      var e := extras[n];
      var m := Merged(top, extras[..n]);
      MergedFresh(top, extras[..n]);
      if e.id !in Ids(m) {
        var r := m + [e];
        forall k, l | 0 <= k < l < |r| && |top| <= l
          ensures r[k].id != r[l].id
        {
          if l == |m| {
            assert r[k] == m[k];
          } else {
            assert r[k] == m[k] && r[l] == m[l];
          }
        }
      }
    }
  }

  /** Every extra's id ends up in the list. */
  lemma {:induction false} MergedCovers(top: seq<Story>, extras: seq<Story>)
    ensures forall x :: x in extras ==> x.id in Ids(Merged(top, extras))
  {
    if extras != [] {
      var n := |extras| - 1;
      var e := extras[n];
      var m := Merged(top, extras[..n]);
      MergedCovers(top, extras[..n]);
      assert extras == extras[..n] + [e];
      if e.id !in Ids(m) {
        IdsSnoc(m, e);
      }
    }
  }

  /**
   * The merge: the general selection unchanged, then stories of the extras in their
   * order, none with an id already in the general selection or earlier in the list,
   * and every extra's id present.
   */
  lemma MergedShape(top: seq<Story>, extras: seq<Story>)
    ensures |top| <= |Merged(top, extras)| <= |top| + |extras|
    ensures Merged(top, extras)[..|top|] == top
    ensures IsSubseq(Merged(top, extras)[|top|..], extras)
    ensures forall k :: |top| <= k < |Merged(top, extras)| ==> Merged(top, extras)[k].id !in Ids(top)
    ensures forall k, l :: 0 <= k < l < |Merged(top, extras)| && |top| <= l ==>
      Merged(top, extras)[k].id != Merged(top, extras)[l].id
    ensures forall x :: x in extras ==> x.id in Ids(Merged(top, extras))
  {
    MergedPrefix(top, extras);
    MergedFresh(top, extras);
    MergedCovers(top, extras);
  }

  /** With at most two Show HN and two Ask HN picks, the merge adds at most four
      stories, Show HN ones first. */
  lemma MergeAddsAtMostFour(top: seq<Story>, show: seq<Story>, ask: seq<Story>)
    requires |show| <= 2 && |ask| <= 2
    ensures |top| <= |Merged(top, show + ask)| <= |top| + 4
    ensures IsSubseq(Merged(top, show + ask)[|top|..], show + ask)
  {
    MergedShape(top, show + ask);
  }

  /** The merge loop, with `existing_ids` kept as the ids of the list so far. */
  method MergeSelections(top: seq<Story>, show: seq<Story>, ask: seq<Story>) returns (merged: seq<Story>)
    ensures merged == Merged(top, show + ask)
  {
    var extras := show + ask;
    merged := top;
    var existing := Ids(top);
    var i := 0;
    while i < |extras|
      invariant 0 <= i <= |extras|
      invariant merged == Merged(top, extras[..i])
      invariant existing == Ids(merged)
    {
      assert extras[..i + 1][..i] == extras[..i];
      var s := extras[i];
      if s.id !in existing {
        IdsSnoc(merged, s);
        merged := merged + [s];
        existing := existing + {s.id};
      }
      i := i + 1;
    }
    assert extras[..|extras|] == extras;
  }

  // ---------------------------------------------------------------- category and top flag

  /** What the assignment loop does to one story. */
  function Assigned(s: Story, results: Option<map<int, StoryResult>>): Story {
    if results.Some? && s.id in results.value then
      var r := results.value[s.id];
      var lower := Lower(s.title);
      var category :=
        if StartsWith(lower, "show hn") then "show_hn"
        else if StartsWith(lower, "ask hn") then "ask_hn"
        else r.category;
      s.(category := category, isTop := r.isTop)
    else
      s.(category := CategorizeStory(s.title, s.domain), isTop := false)
  }

  /** Only the category and the top flag change. */
  lemma AssignedKeeps(s: Story, results: Option<map<int, StoryResult>>)
    ensures Assigned(s, results).(category := s.category, isTop := s.isTop) == s
    ensures Assigned(s, results).isTop ==> results.Some? && s.id in results.value && results.value[s.id].isTop
  {
  }

  /** A title that starts with "show hn" makes a Show HN thread on every path. */
  lemma ShowHnTitle(s: Story, results: Option<map<int, StoryResult>>)
    requires StartsWith(Lower(s.title), "show hn")
    ensures Assigned(s, results).category == "show_hn"
  {
    ShowHnFirst(s.title, s.domain);
  }

  /** A title that starts with "ask hn" and does not mention "show hn" makes an Ask HN
      thread on every path. */
  lemma AskHnTitle(s: Story, results: Option<map<int, StoryResult>>)
    requires StartsWith(Lower(s.title), "ask hn") && !Contains(Lower(s.title), "show hn")
    ensures Assigned(s, results).category == "ask_hn"
  {
    AskHnNext(s.title, s.domain);
    assert !StartsWith(Lower(s.title), "show hn");
  }

  /** The assigned category is a thread kind, a result's category, a key of the
      category table or "other". */
  lemma AssignedCategoryKnown(s: Story, results: Option<map<int, StoryResult>>)
    ensures var c := Assigned(s, results).category;
      c in {"show_hn", "ask_hn", "other"} || c in Keys(Categories) ||
      (results.Some? && s.id in results.value && c == results.value[s.id].category)
  {
    CategorizeStoryKey(s.title, s.domain);
  }

  function AssignAll(stories: seq<Story>, results: Option<map<int, StoryResult>>): (r: seq<Story>)
    ensures |r| == |stories|
    ensures forall i :: 0 <= i < |stories| ==> r[i] == Assigned(stories[i], results)
  {
    seq(|stories|, i requires 0 <= i < |stories| => Assigned(stories[i], results))
  }

  /** Without processing results no story is flagged, so the top section is the first
      ten stories. */
  lemma NoResultsTopIsFirstTen(stories: seq<Story>)
    ensures PlanOf(AssignAll(stories, None)).top == PyTake(AssignAll(stories, None), 10)
  {
  }

  /** The in-place assignment loop over the list. */
  method AssignCategories(stories: seq<Story>, results: Option<map<int, StoryResult>>) returns (out: seq<Story>)
    ensures out == AssignAll(stories, results)
  {
    out := stories;
    var i := 0;
    while i < |out|
      invariant 0 <= i <= |out| == |stories|
      invariant forall k :: 0 <= k < i ==> out[k] == Assigned(stories[k], results)
      invariant forall k :: i <= k < |out| ==> out[k] == stories[k]
    {
      out := out[i := Assigned(out[i], results)];
      i := i + 1;
    }
  }

  // ---------------------------------------------------------------- titles and summaries

  /** `j` is the first position of the list holding id `id`. */
  predicate FirstWithId(stories: seq<Story>, j: int, id: int) {
    0 <= j < |stories| && stories[j].id == id && forall k :: 0 <= k < j ==> stories[k].id != id
  }

  /** `j` is the last position of the list holding id `id`. */
  predicate LastWithId(stories: seq<Story>, j: int, id: int) {
    0 <= j < |stories| && stories[j].id == id && forall k :: j < k < |stories| ==> stories[k].id != id
  }

  /** The ids of the stories that have a result. */
  function ResultIds(stories: seq<Story>, results: map<int, StoryResult>): set<int> {
    set k | 0 <= k < |stories| && stories[k].id in results :: stories[k].id
  }

  /** The first loop over the stories: the translation of every story with a result. */
  method TranslatedTitles(stories: seq<Story>, results: map<int, StoryResult>) returns (titles: map<int, string>)
    ensures titles.Keys == ResultIds(stories, results)
    ensures forall id :: id in titles ==> id in results && titles[id] == results[id].translation
  {
    titles := map[];
    var i := 0;
    while i < |stories|
      invariant 0 <= i <= |stories|
      invariant titles.Keys == set k | 0 <= k < i && stories[k].id in results :: stories[k].id
      invariant forall id :: id in titles ==> id in results && titles[id] == results[id].translation
    {
      var s := stories[i];
      if s.id in results {
        titles := titles[s.id := results[s.id].translation];
      }
      i := i + 1;
    }
  }

  /** The second loop: the original title of the first story with each id still missing. */
  method FillTitles(stories: seq<Story>, results: map<int, StoryResult>, translated: map<int, string>)
    returns (titles: map<int, string>)
    requires translated.Keys == ResultIds(stories, results)
    requires forall id :: id in translated ==> id in results && translated[id] == results[id].translation
    ensures titles.Keys == Ids(stories)
    ensures forall id :: id in titles && id in results ==> titles[id] == results[id].translation
    ensures forall id :: id in titles && id !in results ==>
      exists j :: FirstWithId(stories, j, id) && titles[id] == stories[j].title
  {
    titles := translated;
    var i := 0;
    while i < |stories|
      invariant 0 <= i <= |stories|
      invariant titles.Keys == (set k | 0 <= k < i :: stories[k].id) + ResultIds(stories, results)
      invariant forall id :: id in titles && id in results ==> titles[id] == results[id].translation
      invariant forall id :: id in titles && id !in results ==>
        exists j :: FirstWithId(stories, j, id) && titles[id] == stories[j].title
    {
      var s := stories[i];
      if s.id !in titles {
        assert FirstWithId(stories, i, s.id);
        titles := titles[s.id := s.title];
      }
      i := i + 1;
    }
  }

  /**
   * The titles after processing: the translation for every story with a result,
   * then the original title of the first story with each id still missing.
   */
  method ResultTitles(stories: seq<Story>, results: map<int, StoryResult>) returns (titles: map<int, string>)
    ensures titles.Keys == Ids(stories)
    ensures forall id :: id in titles && id in results ==> titles[id] == results[id].translation
    ensures forall id :: id in titles && id !in results ==>
      exists j :: FirstWithId(stories, j, id) && titles[id] == stories[j].title
  {
    var translated := TranslatedTitles(stories, results);
    titles := FillTitles(stories, results, translated);
  }

  /** The summaries after processing: a result's summary, "" for every other story. */
  method ResultSummaries(stories: seq<Story>, results: map<int, StoryResult>) returns (summaries: map<int, string>)
    ensures summaries.Keys == Ids(stories)
    ensures forall id :: id in summaries ==> summaries[id] == if id in results then results[id].summary else ""
  {
    summaries := map[];
    var i := 0;
    while i < |stories|
      invariant 0 <= i <= |stories|
      invariant summaries.Keys == set k | 0 <= k < i && stories[k].id in results :: stories[k].id
      invariant forall id :: id in summaries ==> id in results && summaries[id] == results[id].summary
    {
      var s := stories[i];
      if s.id in results {
        summaries := summaries[s.id := results[s.id].summary];
      }
      i := i + 1;
    }
    i := 0;
    while i < |stories|
      invariant 0 <= i <= |stories|
      invariant summaries.Keys == (set k | 0 <= k < i :: stories[k].id) + (set k | 0 <= k < |stories| && stories[k].id in results :: stories[k].id)
      invariant forall id :: id in summaries ==> summaries[id] == if id in results then results[id].summary else ""
    {
      var s := stories[i];
      if s.id !in summaries {
        summaries := summaries[s.id := ""];
      }
      i := i + 1;
    }
  }

  function TitleEntry(s: Story): Option<string> {
    Some(s.title)
  }

  /** `{s["id"]: s["title"] for s in top}` when there is no API key: the last story with
      an id gives its title. */
  function PlainTitles(stories: seq<Story>): (r: map<int, string>)
    ensures r.Keys == Ids(stories)
    ensures forall id :: id in r ==> exists j :: LastWithId(stories, j, id) && r[id] == stories[j].title
  {
    ByIdKeys(TitleEntry, stories);
    ByIdLast(TitleEntry, stories);
    var r := ById(TitleEntry, stories);
    assert forall id :: id in r ==> exists j :: LastWithId(stories, j, id) && r[id] == stories[j].title by {
      forall id | id in r
        ensures exists j :: LastWithId(stories, j, id) && r[id] == stories[j].title
      {
        var j :| LastEntry(TitleEntry, stories, j, id) && TitleEntry(stories[j]) == Some(r[id]);
        assert LastWithId(stories, j, id);
      }
    }
    r
  }

  /** `{s["id"]: "" for s in top}`. */
  function PlainSummaries(stories: seq<Story>): (r: map<int, string>)
    ensures r.Keys == Ids(stories)
    ensures forall id :: id in r ==> r[id] == ""
  {
    map id | id in Ids(stories) :: ""
  }

  /** The titles and summaries handed to the formatter, on both paths. */
  method CompleteTexts(stories: seq<Story>, results: Option<map<int, StoryResult>>)
    returns (titles: map<int, string>, summaries: map<int, string>)
    ensures titles.Keys == Ids(stories) && summaries.Keys == Ids(stories)
    ensures forall id :: id in titles ==>
      if results.Some? && id in results.value then titles[id] == results.value[id].translation
      else if results.Some? then exists j :: FirstWithId(stories, j, id) && titles[id] == stories[j].title
      else exists j :: LastWithId(stories, j, id) && titles[id] == stories[j].title
    ensures forall id :: id in summaries ==>
      summaries[id] == if results.Some? && id in results.value then results.value[id].summary else ""
  {
    match results {
      case Some(rs) =>
        titles := ResultTitles(stories, rs);
        summaries := ResultSummaries(stories, rs);
      case None =>
        titles := PlainTitles(stories);
        summaries := PlainSummaries(stories);
    }
  }

  // ---------------------------------------------------------------- generate_digest

  /**
   * `generate_digest` after fetching: `top`, `show` and `ask` are the three
   * selections, `results` what `process_stories` returned (`None` without an API
   * key). Returns the final story list, the titles and summaries given to the
   * formatter, and the messages.
   */
  method GenerateDigest(channel: Channel, top: seq<Story>, show: seq<Story>, ask: seq<Story>,
                        results: Option<map<int, StoryResult>>, elapsedDays: int, startStr: string, nowStr: string)
    returns (stories: seq<Story>, titles: map<int, string>, summaries: map<int, string>, messages: seq<string>)
    ensures stories == AssignAll(Merged(top, show + ask), results)
    ensures titles.Keys == Ids(stories) && summaries.Keys == Ids(stories)
    ensures forall id :: id in titles ==>
      if results.Some? && id in results.value then titles[id] == results.value[id].translation
      else if results.Some? then exists j :: FirstWithId(stories, j, id) && titles[id] == stories[j].title
      else exists j :: LastWithId(stories, j, id) && titles[id] == stories[j].title
    ensures forall id :: id in summaries ==>
      summaries[id] == if results.Some? && id in results.value then results.value[id].summary else ""
    ensures messages == Digest(channel, stories, titles, summaries, elapsedDays, startStr, nowStr)
  {
    var merged := MergeSelections(top, show, ask);
    stories := AssignCategories(merged, results);
    titles, summaries := CompleteTexts(stories, results);
    messages := FormatDigest(channel, stories, titles, summaries, elapsedDays, startStr, nowStr);
  }
}
