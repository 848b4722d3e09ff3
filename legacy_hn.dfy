/**
 * hndigest/hn.py: turning search hits into stories, and `select_stories`, which
 * drops job posts and low-signal stories, scores the rest, sorts them by score and
 * admits them greedily under a per-domain cap and an overall limit.
 */
module LegacyHn {
  import opened Wrappers
  import opened Text
  import opened Records
  import LegacyConfig

  // ---------------------------------------------------------------- hits

  /**
   * One search hit. `objectID` is the text the search API sends; the optional
   * fields are None when the key is missing or null.
   */
  datatype Hit = Hit(
    objectID: string,
    title: Option<string>,
    url: Option<string>,
    points: Option<int>,
    numComments: Option<int>)

  /** The story dict built from one hit, or None where `int(h["objectID"])` raises. */
  function ParseHit(h: Hit): (r: Option<Story>)
    ensures r.Some? <==> ParseInt(h.objectID).Some?
    ensures r.Some? ==> r.value.id == ParseInt(h.objectID).value
  {
    match ParseInt(h.objectID)
    case None => None
    case Some(id) =>
      Some(Story(id, h.title.GetOr(""), h.url.GetOr(""), h.points.GetOr(0), h.numComments.GetOr(0), 0, "", "", false))
  }

  /** `_parse_hits`: one story per hit, in order; None when any `objectID` is not an integer. */
  function ParseHits(hits: seq<Hit>): (r: Option<seq<Story>>)
    ensures r.Some? <==> forall i :: 0 <= i < |hits| ==> ParseInt(hits[i].objectID).Some?
    ensures r.Some? ==> |r.value| == |hits|
    ensures r.Some? ==> forall i :: 0 <= i < |hits| ==> Some(r.value[i]) == ParseHit(hits[i])
  {
    if hits == [] then Some([])
    else
      var head := ParseHit(hits[0]);
      var rest := ParseHits(hits[1..]);
      ParseHitsCons(hits, head, rest);
      if head.None? || rest.None? then None else Some([head.value] + rest.value)
  }

  /** The step of `ParseHits`: the first hit's story in front of the rest's. */
  lemma ParseHitsCons(hits: seq<Hit>, head: Option<Story>, rest: Option<seq<Story>>)
    requires hits != [] && head == ParseHit(hits[0])
    requires rest.Some? <==> forall i :: 1 <= i < |hits| ==> ParseInt(hits[i].objectID).Some?
    requires rest.Some? ==> |rest.value| == |hits| - 1
    requires rest.Some? ==> forall i :: 1 <= i < |hits| ==> Some(rest.value[i - 1]) == ParseHit(hits[i])
    ensures var r := if head.None? || rest.None? then None else Some([head.value] + rest.value);
      && (r.Some? <==> forall i :: 0 <= i < |hits| ==> ParseInt(hits[i].objectID).Some?)
      && (r.Some? ==> |r.value| == |hits|)
      && (r.Some? ==> forall i :: 0 <= i < |hits| ==> Some(r.value[i]) == ParseHit(hits[i]))
  {
    if head.Some? && rest.Some? {
      var all := [head.value] + rest.value;
      forall i | 0 <= i < |hits|
        ensures Some(all[i]) == ParseHit(hits[i])
      {
        if i > 0 {
          assert all[i] == rest.value[i - 1];
        }
      }
    } else if head.None? {
      assert ParseInt(hits[0].objectID).None?;
    } else {
      var i :| 1 <= i < |hits| && ParseInt(hits[i].objectID).None?;
    }
  }

  /** A missing or null points or comment count reads as 0. */
  lemma CountsDefaultToZero(h: Hit)
    requires ParseInt(h.objectID).Some?
    ensures h.points.None? ==> ParseHit(h).value.points == 0
    ensures h.numComments.None? ==> ParseHit(h).value.comments == 0
    ensures h.title.None? ==> ParseHit(h).value.title == ""
    ensures h.url.None? ==> ParseHit(h).value.url == ""
  {
  }

  /** The hit the search API sends for a freshly parsed story. */
  function HitOf(s: Story): Hit {
    Hit(IntToString(s.id), Some(s.title), Some(s.url), Some(s.points), Some(s.comments))
  }

  /** A story that has only the keys `_parse_hits` sets. */
  predicate Fresh(s: Story) {
    s.score == 0 && s.domain == "" && s.category == "" && !s.isTop
  }

  /** Parsing the hits of a list of fresh stories gives that list back. */
  lemma {:induction false} ParseHitsRoundTrip(ss: seq<Story>)
    requires forall i :: 0 <= i < |ss| ==> Fresh(ss[i])
    ensures ParseHits(seq(|ss|, i requires 0 <= i < |ss| => HitOf(ss[i]))) == Some(ss)
  {
    var hits := seq(|ss|, i requires 0 <= i < |ss| => HitOf(ss[i]));
    forall i | 0 <= i < |ss|
      ensures ParseHit(hits[i]) == Some(ss[i])
    {
      ParseIntOfInt(ss[i].id);
    }
    var r := ParseHits(hits);
    assert r.value == ss;
  }

  // ---------------------------------------------------------------- filter

  /** A title naming one of `JOB_WORDS`, in any ASCII case. */
  predicate IsJobPost(s: Story) {
    ContainsAny(Lower(s.title), LegacyConfig.JobWords)
  }

  /** A story without a link and with a title shorter than 20 characters. */
  predicate IsLowSignal(s: Story) {
    s.url == "" && |s.title| < 20
  }

  /** The logical condition for a story to survive the filter. */
  predicate Kept(s: Story) {
    !IsJobPost(s) && !IsLowSignal(s)
  }

  /** The host of a link with every "www." removed; "" for a story without a link. */
  function DomainOf(url: string, netloc: string -> string): string {
    if url == "" then "" else ReplaceAll(netloc(url), "www.", "")
  }

  /** The story with the `score` and `domain` keys that the filter loop sets. */
  function Enrich(s: Story, netloc: string -> string): (r: Story)
    ensures r.score == s.points + 2 * s.comments
    ensures r.domain == DomainOf(s.url, netloc)
    ensures r.(score := s.score, domain := s.domain) == s
  {
    s.(score := s.points + s.comments * 2, domain := DomainOf(s.url, netloc))
  }

  /** The `filtered` list: kept stories, enriched, in input order. */
  function Survivors(stories: seq<Story>, netloc: string -> string): seq<Story> {
    if stories == [] then []
    else
      var s := stories[|stories| - 1];
      Survivors(stories[..|stories| - 1], netloc) + (if Kept(s) then [Enrich(s, netloc)] else [])
  }

  /** Every survivor is the enriched form of a kept input story, and every kept input
      story survives. */
  lemma {:induction false} SurvivorsFrom(stories: seq<Story>, netloc: string -> string)
    ensures forall x :: x in Survivors(stories, netloc) ==>
      exists s :: s in stories && Kept(s) && x == Enrich(s, netloc)
    ensures forall s :: s in stories && Kept(s) ==> Enrich(s, netloc) in Survivors(stories, netloc)
  {
    if stories != [] {
      var init := stories[..|stories| - 1];
      SurvivorsFrom(init, netloc);
      assert stories == init + [stories[|stories| - 1]];
    }
  }

  /** Job posts never survive. */
  lemma SurvivorsNoJobs(stories: seq<Story>, netloc: string -> string)
    ensures forall x :: x in Survivors(stories, netloc) ==> !IsJobPost(x) && !IsLowSignal(x)
  {
    SurvivorsFrom(stories, netloc);
  }

  // ---------------------------------------------------------------- sort

  /** Non-increasing scores. */
  predicate SortedByScore(s: seq<Story>) {
    forall i, j :: 0 <= i < j < |s| ==> s[i].score >= s[j].score
  }

  /** Place `x` in front of the first story it does not score below. */
  function Insert(x: Story, t: seq<Story>): seq<Story> {
    if t == [] || x.score >= t[0].score then [x] + t
    else [t[0]] + Insert(x, t[1..])
  }

  /**
   * `filtered.sort(key=score, reverse=True)`: Python's sort is stable, and so is its
   * reversed form, so stories of equal score keep their input order.
   */
  function SortByScore(s: seq<Story>): seq<Story> {
    if s == [] then [] else Insert(s[0], SortByScore(s[1..]))
  }

  /** The stories of one score, in order. */
  function WithScore(s: seq<Story>, v: int): seq<Story> {
    if s == [] then []
    else (if s[0].score == v then [s[0]] else []) + WithScore(s[1..], v)
  }

  lemma {:induction false} InsertPerm(x: Story, t: seq<Story>)
    ensures multiset(Insert(x, t)) == multiset(t) + multiset{x}
  {
    if t != [] && x.score < t[0].score {
      InsertPerm(x, t[1..]);
      assert t == [t[0]] + t[1..];
    }
  }

  lemma {:induction false} InsertSorted(x: Story, t: seq<Story>)
    requires SortedByScore(t)
    ensures SortedByScore(Insert(x, t))
  {
    if t != [] && x.score < t[0].score {
      InsertSorted(x, t[1..]);
      InsertPerm(x, t[1..]);
      var r := Insert(x, t[1..]);
      forall k | 0 <= k < |r|
        ensures r[k].score <= t[0].score
      {
        assert r[k] in multiset(r);
        if r[k] != x {
          assert r[k] in multiset(t[1..]);
          assert r[k] in t[1..];
        }
      }
    }
  }

  lemma WithScoreCons(a: Story, r: seq<Story>, v: int)
    ensures WithScore([a] + r, v) == (if a.score == v then [a] else []) + WithScore(r, v)
  {
    assert ([a] + r)[1..] == r;
  }

  /** Inserting `x` puts it in front of the stories of its own score: every story it
      passes scores strictly higher. */
  lemma {:induction false} InsertWithScore(x: Story, t: seq<Story>, v: int)
    ensures WithScore(Insert(x, t), v) == (if x.score == v then [x] else []) + WithScore(t, v)
  {
    if t != [] && x.score < t[0].score {
      var r := Insert(x, t[1..]);
      InsertWithScore(x, t[1..], v);
      WithScoreCons(t[0], r, v);
      WithScoreCons(t[0], t[1..], v);
      assert [t[0]] + t[1..] == t;
    } else {
      WithScoreCons(x, t, v);
    }
  }

  /** The sort orders by descending score, is a permutation, and is stable. */
  lemma {:induction false} SortByScoreCorrect(s: seq<Story>)
    ensures SortedByScore(SortByScore(s))
    ensures multiset(SortByScore(s)) == multiset(s)
    ensures forall v :: WithScore(SortByScore(s), v) == WithScore(s, v)
  {
    if s != [] {
      SortByScoreCorrect(s[1..]);
      InsertSorted(s[0], SortByScore(s[1..]));
      InsertPerm(s[0], SortByScore(s[1..]));
      forall v
        ensures WithScore(SortByScore(s), v) == WithScore(s, v)
      {
        InsertWithScore(s[0], SortByScore(s[1..]), v);
      }
      assert s == [s[0]] + s[1..];
    }
  }

  // ---------------------------------------------------------------- greedy admission

  /** How many stories of `s` have domain `d` (`domain_count.get(d, 0)`). */
  function CountDomain(s: seq<Story>, d: string): nat {
    if s == [] then 0
    else CountDomain(s[..|s| - 1], d) + (if s[|s| - 1].domain == d then 1 else 0)
  }

  lemma CountDomainSnoc(s: seq<Story>, x: Story, d: string)
    ensures CountDomain(s + [x], d) == CountDomain(s, d) + (if x.domain == d then 1 else 0)
  {
    assert (s + [x])[..|s|] == s;
  }

  /**
   * The admission loop over `sorted`: a story is admitted while its domain has fewer
   * than 3 admitted stories; after each story the loop stops once the result has
   * `limit` stories, so the first story is always looked at.
   */
  function Greedy(sorted: seq<Story>, limit: int): seq<Story> {
    if sorted == [] then []
    else
      var n := |sorted| - 1;
      var prev := Greedy(sorted[..n], limit);
      if n > 0 && |prev| >= limit then prev
      else if CountDomain(prev, sorted[n].domain) < 3 then prev + [sorted[n]]
      else prev
  }

  /** Each step of the loop keeps the result so far or appends the story it looks at. */
  lemma GreedyStep(sorted: seq<Story>, limit: int)
    requires sorted != []
    ensures var n := |sorted| - 1;
      Greedy(sorted, limit) == Greedy(sorted[..n], limit)
      || (Greedy(sorted, limit) == Greedy(sorted[..n], limit) + [sorted[n]]
          && CountDomain(Greedy(sorted[..n], limit), sorted[n].domain) < 3)
  {
  }

  lemma {:induction false} GreedySubseq(sorted: seq<Story>, limit: int)
    ensures IsSubseq(Greedy(sorted, limit), sorted)
  {
    if sorted != [] {
      var n := |sorted| - 1;
      GreedySubseq(sorted[..n], limit);
      assert sorted == sorted[..n] + [sorted[n]];
      SubseqSnoc(Greedy(sorted[..n], limit), sorted[..n], sorted[n]);
    }
  }

  lemma {:induction false} GreedyDomainCap(sorted: seq<Story>, limit: int)
    ensures forall d :: CountDomain(Greedy(sorted, limit), d) <= 3
  {
    if sorted != [] {
      var n := |sorted| - 1;
      var prev := Greedy(sorted[..n], limit);
      GreedyDomainCap(sorted[..n], limit);
      GreedyStep(sorted, limit);
      forall d
        ensures CountDomain(prev + [sorted[n]], d) == CountDomain(prev, d) + (if sorted[n].domain == d then 1 else 0)
      {
        CountDomainSnoc(prev, sorted[n], d);
      }
    }
  }

  lemma {:induction false} GreedySize(sorted: seq<Story>, limit: int)
    ensures limit >= 1 ==> |Greedy(sorted, limit)| <= limit
    ensures limit <= 0 && sorted != [] ==> |Greedy(sorted, limit)| == 1
    ensures sorted != [] ==> |Greedy(sorted, limit)| >= 1
  {
    if sorted != [] {
      GreedySize(sorted[..|sorted| - 1], limit);
    }
  }

  /** The result after the first `j` stories is a prefix of the final result. */
  lemma {:induction false} GreedyPrefix(sorted: seq<Story>, j: int, limit: int)
    requires 0 <= j <= |sorted|
    ensures Greedy(sorted[..j], limit) <= Greedy(sorted, limit)
    decreases |sorted| - j
  {
    if j == |sorted| {
      assert sorted[..j] == sorted;
    } else {
      var n := |sorted| - 1;
      GreedyPrefix(sorted[..n], j, limit);
      assert sorted[..n][..j] == sorted[..j];
      GreedyStep(sorted, limit);
    }
  }

  /** The turn of story `j`: appended, or left out because its domain was full or the
      limit was already reached. */
  lemma GreedyTurn(sorted: seq<Story>, j: int, limit: int)
    requires 0 <= j < |sorted|
    ensures var prev := Greedy(sorted[..j], limit);
      Greedy(sorted[..j + 1], limit) == prev + [sorted[j]]
      || (Greedy(sorted[..j + 1], limit) == prev
          && (CountDomain(prev, sorted[j].domain) >= 3 || (j > 0 && |prev| >= limit)))
  {
    assert sorted[..j + 1][..j] == sorted[..j];
  }

  /** Once a domain has 3 admitted stories, no later story of that domain is admitted. */
  lemma {:induction false} GreedyDomainClosed(sorted: seq<Story>, j: int, d: string, limit: int)
    requires 0 <= j <= |sorted| && CountDomain(Greedy(sorted[..j], limit), d) >= 3
    ensures CountDomain(Greedy(sorted, limit), d) >= 3
    ensures forall y :: y in Greedy(sorted, limit) && y.domain == d ==> y in Greedy(sorted[..j], limit)
    decreases |sorted| - j
  {
    if j == |sorted| {
      assert sorted[..j] == sorted;
    } else {
      var n := |sorted| - 1;
      var prev := Greedy(sorted[..n], limit);
      assert sorted[..n][..j] == sorted[..j];
      GreedyDomainClosed(sorted[..n], j, d, limit);
      GreedyStep(sorted, limit);
      if Greedy(sorted, limit) != prev {
        CountDomainSnoc(prev, sorted[n], d);
      }
    }
  }

  /** A story appended at its turn is in the final result. */
  lemma GreedyAppendedStays(sorted: seq<Story>, j: int, limit: int)
    requires 0 <= j < |sorted|
    ensures Greedy(sorted[..j + 1], limit) == Greedy(sorted[..j], limit) + [sorted[j]] ==>
      sorted[j] in Greedy(sorted, limit)
  {
    var prev := Greedy(sorted[..j], limit);
    GreedyPrefix(sorted, j + 1, limit);
    if Greedy(sorted[..j + 1], limit) == prev + [sorted[j]] {
      assert Greedy(sorted, limit)[|prev|] == sorted[j];
    }
  }

  /** A story missing from the final result was left out at its own turn, for one of
      the two reasons. */
  lemma GreedyMissed(sorted: seq<Story>, j: int, limit: int)
    requires 0 <= j < |sorted| && sorted[j] !in Greedy(sorted, limit)
    ensures Greedy(sorted[..j + 1], limit) == Greedy(sorted[..j], limit)
    ensures CountDomain(Greedy(sorted[..j], limit), sorted[j].domain) >= 3
      || (j > 0 && |Greedy(sorted[..j], limit)| >= limit)
  {
    GreedyTurn(sorted, j, limit);
    GreedyAppendedStays(sorted, j, limit);
  }

  /** What that leaves in the final result: its domain full, or the limit reached. */
  lemma GreedyMissedFinal(sorted: seq<Story>, j: int, limit: int)
    requires 0 <= j < |sorted| && sorted[j] !in Greedy(sorted, limit)
    ensures (CountDomain(Greedy(sorted, limit), sorted[j].domain) >= 3
      && forall y :: y in Greedy(sorted, limit) && y.domain == sorted[j].domain ==> y in Greedy(sorted[..j], limit))
      || (|Greedy(sorted, limit)| >= limit && Greedy(sorted, limit) == Greedy(sorted[..j], limit))
  {
    GreedyMissed(sorted, j, limit);
    if CountDomain(Greedy(sorted[..j], limit), sorted[j].domain) >= 3 {
      GreedyDomainClosed(sorted, j, sorted[j].domain, limit);
    } else {
      GreedyStopsAt(sorted, j, limit);
    }
  }

  /**
   * A story is left out at its own turn only when its domain already had 3 admitted
   * stories or, past the first story, the limit was already reached; a story left out
   * of the final result was left out at its turn, and leaves the final result with
   * its domain full or `limit` stories.
   */
  lemma GreedyLeftOut(sorted: seq<Story>, limit: int)
    ensures forall j :: 0 <= j < |sorted| && Greedy(sorted[..j + 1], limit) == Greedy(sorted[..j], limit) ==>
      CountDomain(Greedy(sorted[..j], limit), sorted[j].domain) >= 3
      || (j > 0 && |Greedy(sorted[..j], limit)| >= limit)
    ensures forall j :: 0 <= j < |sorted| && sorted[j] !in Greedy(sorted, limit) ==>
      Greedy(sorted[..j + 1], limit) == Greedy(sorted[..j], limit)
    ensures forall x :: x in sorted && x !in Greedy(sorted, limit) ==>
      CountDomain(Greedy(sorted, limit), x.domain) >= 3 || |Greedy(sorted, limit)| >= limit
  {
    forall j | 0 <= j < |sorted|
      ensures Greedy(sorted[..j + 1], limit) == Greedy(sorted[..j], limit) ==>
        CountDomain(Greedy(sorted[..j], limit), sorted[j].domain) >= 3
        || (j > 0 && |Greedy(sorted[..j], limit)| >= limit)
    {
      GreedyTurn(sorted, j, limit);
    }
    forall j | 0 <= j < |sorted| && sorted[j] !in Greedy(sorted, limit)
      ensures Greedy(sorted[..j + 1], limit) == Greedy(sorted[..j], limit)
    {
      GreedyMissed(sorted, j, limit);
    }
    forall x | x in sorted && x !in Greedy(sorted, limit)
      ensures CountDomain(Greedy(sorted, limit), x.domain) >= 3 || |Greedy(sorted, limit)| >= limit
    {
      var j :| 0 <= j < |sorted| && sorted[j] == x;
      GreedyMissedFinal(sorted, j, limit);
    }
  }

  /** Every story admitted by turn `j` comes before story `j`, so on a list sorted by
      descending score it scores at least as high. */
  lemma GreedyBefore(sorted: seq<Story>, j: int, limit: int)
    requires 0 <= j < |sorted| && SortedByScore(sorted)
    ensures forall y :: y in Greedy(sorted[..j], limit) ==> y.score >= sorted[j].score
  {
    GreedySubseq(sorted[..j], limit);
    SubseqMember(Greedy(sorted[..j], limit), sorted[..j]);
  }

  /**
   * The admission takes the top stories: over a list sorted by descending score, a
   * story left out either found its domain full of stories scoring at least as high,
   * or found the limit reached by stories all scoring at least as high.
   */
  lemma GreedyPrefersTop(sorted: seq<Story>, limit: int)
    requires SortedByScore(sorted)
    ensures forall x :: x in sorted && x !in Greedy(sorted, limit) ==>
      (CountDomain(Greedy(sorted, limit), x.domain) >= 3
       && forall y :: y in Greedy(sorted, limit) && y.domain == x.domain ==> y.score >= x.score)
      || (|Greedy(sorted, limit)| >= limit && forall y :: y in Greedy(sorted, limit) ==> y.score >= x.score)
  {
    var r := Greedy(sorted, limit);
    forall x | x in sorted && x !in r
      ensures (CountDomain(r, x.domain) >= 3 && forall y :: y in r && y.domain == x.domain ==> y.score >= x.score)
        || (|r| >= limit && forall y :: y in r ==> y.score >= x.score)
    {
      var j :| 0 <= j < |sorted| && sorted[j] == x;
      GreedyMissedFinal(sorted, j, limit);
      GreedyBefore(sorted, j, limit);
    }
  }

  /**
   * What the admission loop guarantees: the result is a subsequence of its input,
   * no domain has more than 3 stories, the result stops at `limit` stories (one when
   * `limit <= 0` and there is any input), a story left out had its domain full
   * or came after the limit was reached, and on a list sorted by descending score
   * every story left out scores no higher than the stories that kept it out.
   */
  lemma GreedyCorrect(sorted: seq<Story>, limit: int)
    ensures IsSubseq(Greedy(sorted, limit), sorted)
    ensures forall d :: CountDomain(Greedy(sorted, limit), d) <= 3
    ensures limit >= 1 ==> |Greedy(sorted, limit)| <= limit
    ensures limit <= 0 && sorted != [] ==> |Greedy(sorted, limit)| == 1
    ensures sorted != [] ==> |Greedy(sorted, limit)| >= 1
    ensures forall x :: x in sorted && x !in Greedy(sorted, limit) ==>
      CountDomain(Greedy(sorted, limit), x.domain) >= 3 || |Greedy(sorted, limit)| >= limit
    ensures SortedByScore(sorted) ==> forall x :: x in sorted && x !in Greedy(sorted, limit) ==>
      (CountDomain(Greedy(sorted, limit), x.domain) >= 3
       && forall y :: y in Greedy(sorted, limit) && y.domain == x.domain ==> y.score >= x.score)
      || (|Greedy(sorted, limit)| >= limit && forall y :: y in Greedy(sorted, limit) ==> y.score >= x.score)
  {
    GreedySubseq(sorted, limit);
    GreedyDomainCap(sorted, limit);
    GreedySize(sorted, limit);
    GreedyLeftOut(sorted, limit);
    if SortedByScore(sorted) {
      GreedyPrefersTop(sorted, limit);
    }
  }

  /** A story after the limit is reached is not looked at. */
  lemma GreedyHalts(sorted: seq<Story>, limit: int)
    requires |sorted| > 1 && |Greedy(sorted[..|sorted| - 1], limit)| >= limit
    ensures Greedy(sorted, limit) == Greedy(sorted[..|sorted| - 1], limit)
  {
  }

  /** Once the result has `limit` stories, later stories change nothing. */
  lemma {:induction false} GreedyStops(sorted: seq<Story>, rest: seq<Story>, limit: int)
    requires sorted != [] && |Greedy(sorted, limit)| >= limit
    ensures Greedy(sorted + rest, limit) == Greedy(sorted, limit)
    decreases |rest|
  {
    if rest != [] {
      var m := |rest| - 1;
      var all := sorted + rest;
      GreedyStops(sorted, rest[..m], limit);
      assert all[..|all| - 1] == sorted + rest[..m];
      GreedyHalts(all, limit);
    } else {
      assert sorted + rest == sorted;
    }
  }

  /** The same, for a prefix of the input. */
  lemma GreedyStopsAt(sorted: seq<Story>, j: int, limit: int)
    requires 0 < j <= |sorted| && |Greedy(sorted[..j], limit)| >= limit
    ensures Greedy(sorted, limit) == Greedy(sorted[..j], limit)
  {
    GreedyStops(sorted[..j], sorted[j..], limit);
    assert sorted[..j] + sorted[j..] == sorted;
  }

  // ---------------------------------------------------------------- select_stories

  /** What `select_stories` returns. */
  function Select(stories: seq<Story>, limit: int, netloc: string -> string): seq<Story> {
    Greedy(SortByScore(Survivors(stories, netloc)), limit)
  }

  /** The turn of story `i` in the filter loop: a job post or a short link-less story
      adds nothing, any other story adds its enriched form. */
  lemma SurvivorsTurn(stories: seq<Story>, i: int, netloc: string -> string)
    requires 0 <= i < |stories|
    ensures ContainsAny(Lower(stories[i].title), LegacyConfig.JobWords) ==>
      Survivors(stories[..i + 1], netloc) == Survivors(stories[..i], netloc)
    ensures stories[i].url == "" && |stories[i].title| < 20 ==>
      Survivors(stories[..i + 1], netloc) == Survivors(stories[..i], netloc)
    ensures !ContainsAny(Lower(stories[i].title), LegacyConfig.JobWords) && !(stories[i].url == "" && |stories[i].title| < 20) ==>
      Survivors(stories[..i + 1], netloc) == Survivors(stories[..i], netloc) + [Enrich(stories[i], netloc)]
  {
    assert stories[..i + 1][..i] == stories[..i];
  }

  /** The first loop of `select_stories`: drop job posts and short link-less
      stories, set `score` and `domain` on the rest. */
  method FilterStories(stories: seq<Story>, netloc: string -> string) returns (filtered: seq<Story>)
    ensures filtered == Survivors(stories, netloc)
  {
    filtered := [];
    var i := 0;
    while i < |stories|
      invariant 0 <= i <= |stories|
      invariant filtered == Survivors(stories[..i], netloc)
    {
      var s := stories[i];
      SurvivorsTurn(stories, i, netloc);
      if ContainsAny(Lower(s.title), LegacyConfig.JobWords) {
        i := i + 1;
        continue;
      }
      if s.url == "" && |s.title| < 20 {
        i := i + 1;
        continue;
      }
      s := s.(score := s.points + s.comments * 2);
      s := s.(domain := if s.url != "" then ReplaceAll(netloc(s.url), "www.", "") else "");
      assert s == Enrich(stories[i], netloc);
      filtered := filtered + [s];
      i := i + 1;
    }
    assert stories[..|stories|] == stories;
  }

  /** The loop looks at story `j` while fewer than `limit` stories are in. */
  lemma AdmitStep(sorted: seq<Story>, j: int, limit: int)
    requires 0 <= j < |sorted| && (j > 0 ==> |Greedy(sorted[..j], limit)| < limit)
    ensures var prev := Greedy(sorted[..j], limit);
      Greedy(sorted[..j + 1], limit) == if CountDomain(prev, sorted[j].domain) < 3 then prev + [sorted[j]] else prev
  {
    assert sorted[..j + 1][..j] == sorted[..j];
    assert sorted[..j + 1][j] == sorted[j];
  }

  /** `domain_count` after admitting the stories of `s`. */
  function DomainCounts(s: seq<Story>): map<string, int> {
    if s == [] then map[]
    else
      var m := DomainCounts(s[..|s| - 1]);
      var d := s[|s| - 1].domain;
      m[d := (if d in m then m[d] else 0) + 1]
  }

  lemma DomainCountsSnoc(s: seq<Story>, x: Story)
    ensures var m := DomainCounts(s);
      DomainCounts(s + [x]) == m[x.domain := (if x.domain in m then m[x.domain] else 0) + 1]
  {
    assert (s + [x])[..|s|] == s;
  }

  /** The dict agrees with the count of each domain, with 0 for a domain not in it. */
  lemma {:induction false} DomainCountsAgree(s: seq<Story>, d: string)
    ensures (if d in DomainCounts(s) then DomainCounts(s)[d] else 0) == CountDomain(s, d)
  {
    if s != [] {
      DomainCountsAgree(s[..|s| - 1], d);
    }
  }

  /** One turn of the admission loop: the story goes in when its domain has fewer than
      3 stories in, and the dict of counts keeps up. */
  method AdmitOne(result: seq<Story>, domainCount: map<string, int>, s: Story)
    returns (next: seq<Story>, nextCount: map<string, int>)
    requires domainCount == DomainCounts(result)
    ensures next == if CountDomain(result, s.domain) < 3 then result + [s] else result
    ensures nextCount == DomainCounts(next)
  {
    var d := s.domain;
    DomainCountsAgree(result, d);
    var c := if d in domainCount then domainCount[d] else 0;
    next, nextCount := result, domainCount;
    if c < 3 {
      DomainCountsSnoc(result, s);
      next := result + [s];
      nextCount := domainCount[d := c + 1];
    }
  }

  /** The second loop of `select_stories`: admit while the domain has fewer than 3
      stories, stopping once `limit` stories are in. */
  method AdmitStories(sorted: seq<Story>, limit: int) returns (result: seq<Story>)
    ensures result == Greedy(sorted, limit)
  {
    var domainCount: map<string, int> := map[];
    result := [];
    var j := 0;
    while j < |sorted|
      invariant 0 <= j <= |sorted|
      invariant result == Greedy(sorted[..j], limit)
      invariant j > 0 ==> |result| < limit
      invariant domainCount == DomainCounts(result)
    {
      AdmitStep(sorted, j, limit);
      result, domainCount := AdmitOne(result, domainCount, sorted[j]);
      j := j + 1;
      if |result| >= limit {
        GreedyStopsAt(sorted, j, limit);
        return;
      }
    }
    assert sorted[..|sorted|] == sorted;
  }

  /**
   * `select_stories(stories, limit)`, with `urlparse(url).netloc` as `netloc`: the
   * filter loop, the library's stable sort, the admission loop.
   */
  method SelectStories(stories: seq<Story>, limit: int, netloc: string -> string) returns (result: seq<Story>)
    ensures result == Select(stories, limit, netloc)
  {
    var filtered := FilterStories(stories, netloc);
    var sorted := SortByScore(filtered);
    result := AdmitStories(sorted, limit);
  }

  /**
   * Every selected story survived the filter: it is no job post, not a short
   * link-less story, and it is an input story with `score` and `domain` set.
   */
  lemma SelectFiltered(stories: seq<Story>, limit: int, netloc: string -> string)
    ensures forall x :: x in Select(stories, limit, netloc) ==>
      !IsJobPost(x) && !IsLowSignal(x) && exists s :: s in stories && Kept(s) && x == Enrich(s, netloc)
  {
    var surv := Survivors(stories, netloc);
    var sorted := SortByScore(surv);
    var r := Greedy(sorted, limit);
    SortByScoreCorrect(surv);
    GreedyCorrect(sorted, limit);
    SubseqMember(r, sorted);
    SurvivorsFrom(stories, netloc);
    SurvivorsNoJobs(stories, netloc);
    forall x | x in r
      ensures x in surv
    {
      assert x in multiset(sorted);
    }
  }

  /**
   * The selection keeps the order of the survivors sorted by descending score (equal
   * scores in input order), holds at most 3 stories per domain (the shared "" of
   * link-less stories included) and at most `limit` stories, and exactly one when
   * `limit <= 0` and anything survives; a survivor left out scores no higher than
   * every selected story of its domain (domain full) or than every selected story
   * (limit reached), so the selection takes the top stories.
   */
  lemma SelectBounded(stories: seq<Story>, limit: int, netloc: string -> string)
    ensures IsSubseq(Select(stories, limit, netloc), SortByScore(Survivors(stories, netloc)))
    ensures SortedByScore(SortByScore(Survivors(stories, netloc)))
    ensures forall v :: WithScore(SortByScore(Survivors(stories, netloc)), v) == WithScore(Survivors(stories, netloc), v)
    ensures forall d :: CountDomain(Select(stories, limit, netloc), d) <= 3
    ensures limit >= 1 ==> |Select(stories, limit, netloc)| <= limit
    ensures limit <= 0 && Survivors(stories, netloc) != [] ==> |Select(stories, limit, netloc)| == 1
    ensures forall x :: x in Survivors(stories, netloc) && x !in Select(stories, limit, netloc) ==>
      (CountDomain(Select(stories, limit, netloc), x.domain) >= 3
       && forall y :: y in Select(stories, limit, netloc) && y.domain == x.domain ==> y.score >= x.score)
      || (|Select(stories, limit, netloc)| >= limit && forall y :: y in Select(stories, limit, netloc) ==> y.score >= x.score)
  {
    var surv := Survivors(stories, netloc);
    SortByScoreCorrect(surv);
    SortedSelection(surv, SortByScore(surv), limit);
  }

  /** The admission over any list `sorted` that orders the stories of `s` by score. */
  lemma SortedSelection(s: seq<Story>, sorted: seq<Story>, limit: int)
    requires SortedByScore(sorted) && multiset(sorted) == multiset(s)
    ensures IsSubseq(Greedy(sorted, limit), sorted)
    ensures forall d :: CountDomain(Greedy(sorted, limit), d) <= 3
    ensures limit >= 1 ==> |Greedy(sorted, limit)| <= limit
    ensures limit <= 0 && s != [] ==> |Greedy(sorted, limit)| == 1
    ensures forall x :: x in s && x !in Greedy(sorted, limit) ==>
      (CountDomain(Greedy(sorted, limit), x.domain) >= 3
       && forall y :: y in Greedy(sorted, limit) && y.domain == x.domain ==> y.score >= x.score)
      || (|Greedy(sorted, limit)| >= limit && forall y :: y in Greedy(sorted, limit) ==> y.score >= x.score)
  {
    GreedySubseq(sorted, limit);
    GreedyDomainCap(sorted, limit);
    GreedySize(sorted, limit);
    GreedyPrefersTop(sorted, limit);
    if s != [] {
      assert s[0] in multiset(sorted);
    }
    forall x | x in s
      ensures x in sorted
    {
      assert x in multiset(sorted);
    }
  }
}
