/**
 * hn_digest/formatter.py: the digest as Telegram HTML messages. The first message
 * is the root post (headline, the top section, footer, tag); each further message
 * is a reply for one category, in a fixed order, with at most five stories.
 *
 * `format_digest` is split in two: `Plan` chooses which stories go where (the top
 * section and the per-category replies) and `Render` writes the messages from that
 * plan. Dates are parameters: the elapsed days since the first issue and the two
 * formatted date strings.
 */
module DigestFormatter {
  import opened Wrappers
  import opened Text
  import opened Records
  import opened DigestConfig

  // ---------------------------------------------------------------- escape_html

  /** What `escape_html` does to one character. */
  function EscapeChar(c: char): string {
    if c == '&' then "&amp;" else if c == '<' then "&lt;" else if c == '>' then "&gt;" else [c]
  }

  /** `escape_html`: "&" first, then "<", then ">". */
  function EscapeHtml(text: string): string {
    ReplaceAll(ReplaceAll(ReplaceAll(text, "&", "&amp;"), "<", "&lt;"), ">", "&gt;")
  }

  lemma FlatMapOne(f: char -> string, c: char)
    ensures FlatMap(f, [c]) == f(c)
  {
    assert [c][1..] == [];
  }

  lemma EscapeCharThrough(c: char)
    ensures Then(Swap('>', "&gt;"), Then(Swap('<', "&lt;"), Swap('&', "&amp;")))(c) == EscapeChar(c)
  {
    var amp := Swap('&', "&amp;");
    var lt := Swap('<', "&lt;");
    var gt := Swap('>', "&gt;");
    if c == '&' {
      assert amp(c) == "&amp;";
      FlatMapKeeps(lt, "&amp;");
      FlatMapKeeps(gt, "&amp;");
    } else {
      assert amp(c) == [c];
      FlatMapOne(lt, c);
      if c == '<' {
        assert lt(c) == "&lt;";
        FlatMapKeeps(gt, "&lt;");
      } else {
        assert lt(c) == [c];
        FlatMapOne(gt, c);
      }
    }
  }

  /** Because "&" is replaced first, the three passes escape each character on its
      own: no entity written by a later pass is escaped again. */
  lemma EscapePerChar(text: string)
    ensures EscapeHtml(text) == FlatMap(EscapeChar, text)
  {
    var amp := Swap('&', "&amp;");
    var lt := Swap('<', "&lt;");
    var gt := Swap('>', "&gt;");
    ReplaceOneChar(text, '&', "&amp;");
    ReplaceOneChar(FlatMap(amp, text), '<', "&lt;");
    ReplaceOneChar(FlatMap(lt, FlatMap(amp, text)), '>', "&gt;");
    FlatMapCompose(lt, amp, text);
    FlatMapCompose(gt, Then(lt, amp), text);
    forall k | 0 <= k < |text|
      ensures Then(gt, Then(lt, amp))(text[k]) == EscapeChar(text[k])
    {
      EscapeCharThrough(text[k]);
    }
    FlatMapPointwise(Then(gt, Then(lt, amp)), EscapeChar, text);
  }

  /** Escaped text has no angle brackets. */
  lemma EscapeNoAngles(text: string)
    ensures '<' !in EscapeHtml(text) && '>' !in EscapeHtml(text)
  {
    EscapePerChar(text);
    FlatMapAvoids(EscapeChar, text, '<');
    FlatMapAvoids(EscapeChar, text, '>');
  }

  /** Text without "&", "<" and ">" is unchanged. */
  lemma EscapeUnchanged(text: string)
    requires '&' !in text && '<' !in text && '>' !in text
    ensures EscapeHtml(text) == text
  {
    EscapePerChar(text);
    FlatMapKeeps(EscapeChar, text);
  }

  /** The reading of the three entities, as an HTML client decodes them. */
  function Unescape(s: string): string
    decreases |s|
  {
    if StartsWith(s, "&amp;") then "&" + Unescape(s[5..])
    else if StartsWith(s, "&lt;") then "<" + Unescape(s[4..])
    else if StartsWith(s, "&gt;") then ">" + Unescape(s[4..])
    else if s == [] then []
    else [s[0]] + Unescape(s[1..])
  }

  lemma UnescapeAmp(w: string)
    ensures Unescape("&amp;" + w) == "&" + Unescape(w)
  {
    var s := "&amp;" + w;
    assert s[..5] == "&amp;" && s[5..] == w;
  }

  /** "&lt;" and "&gt;" read back as the angle they stand for. */
  lemma UnescapeAngles(w: string)
    ensures Unescape("&lt;" + w) == "<" + Unescape(w)
    ensures Unescape("&gt;" + w) == ">" + Unescape(w)
  {
    var lt, gt := "&lt;" + w, "&gt;" + w;
    assert lt[1] == 'l' && lt[..4] == "&lt;" && lt[4..] == w;
    assert gt[1] == 'g' && gt[..4] == "&gt;" && gt[4..] == w;
  }

  lemma UnescapePlain(c: char, w: string)
    requires c != '&'
    ensures Unescape([c] + w) == [c] + Unescape(w)
  {
    var s := [c] + w;
    assert s[0] == c && s[1..] == w;
  }

  lemma UnescapeOne(c: char, w: string)
    ensures Unescape(EscapeChar(c) + w) == [c] + Unescape(w)
  {
    if c == '&' {
      UnescapeAmp(w);
    } else if c == '<' || c == '>' {
      UnescapeAngles(w);
    } else {
      UnescapePlain(c, w);
    }
  }

  /** The reader sees exactly the original text. */
  lemma {:induction false} UnescapeEscaped(text: string)
    ensures Unescape(FlatMap(EscapeChar, text)) == text
  {
    if text != [] {
      UnescapeOne(text[0], FlatMap(EscapeChar, text[1..]));
      UnescapeEscaped(text[1..]);
    }
  }

  lemma EscapeRoundTrip(text: string)
    ensures Unescape(EscapeHtml(text)) == text
  {
    EscapePerChar(text);
    UnescapeEscaped(text);
  }

  // ---------------------------------------------------------------- headers and story lines

  /** `format_category_header`. */
  function FormatCategoryHeader(catKey: string, lang: string): string {
    "<b># " + CategoryName(catKey, lang) + "</b>"
  }

  /** Every header the digest writes (the top section and each category of the reply
      order) shows its entry in `CATEGORY_NAMES`, not the key fallback, in every channel language. */
  lemma HeaderNamed(k: string, language: string)
    requires k in CategoryOrder + ["top"] && language in {"uz", "ru", "en"}
    ensures k in CategoryNames && language in CategoryNames[k]
    ensures FormatCategoryHeader(k, language) == "<b># " + CategoryNames[k][language] + "</b>"
  {
    if k == "top" {
      assert Named("top");
    } else {
      OrderNamed();
      assert k in CategoryOrder;
    }
  }

  /** `category_order`: the order of the replies. */
  const CategoryOrder: seq<string> :=
    ["ai", "code", "data", "science", "security", "design", "business", "work", "learn", "show_hn", "ask_hn", "other"]

  /** Every category of the reply order has display names. */
  lemma OrderNamed()
    ensures forall k :: k in CategoryOrder ==> Named(k)
  {
    NamesTopics();
    NamesFields();
    NamesRest();
  }

  predicate IsThread(category: string) {
    category == "show_hn" || category == "ask_hn"
  }

  /** `HN_ITEM.format(id)`. */
  function HnItem(id: int): string {
    HnItemPrefix + IntToString(id)
  }

  /** `titles.get(id, title)`. */
  function TitleOf(titles: map<int, string>, s: Story): string {
    if s.id in titles then titles[s.id] else s.title
  }

  /** `summaries.get(id, "")`. */
  function SummaryOf(summaries: map<int, string>, id: int): string {
    if id in summaries then summaries[id] else ""
  }

  /** `LABELS[kind].get(lang, kind)`. */
  function Label(kind: string, lang: string): string {
    if kind in Labels && lang in Labels[kind] then Labels[kind][lang] else kind
  }

  /** Where a story's title links: the HN item for a thread, else its url, else nowhere. */
  function Link(s: Story): (r: Option<string>)
    ensures IsThread(s.category) ==> r == Some(HnItem(s.id))
    ensures !IsThread(s.category) ==> (r.None? <==> s.url == "") && (r.Some? ==> r.value == s.url)
  {
    if IsThread(s.category) then Some(HnItem(s.id)) else if s.url != "" then Some(s.url) else None
  }

  function TitleLine(link: Option<string>, title: string): string {
    match link
    case Some(href) => "<b><a href=\"" + href + "\">" + title + "</a></b>"
    case None => "<b>" + title + "</b>"
  }

  /** The italic points/comments line; for a non-thread story the comment count links
      to the HN item. */
  function MetaLine(s: Story, lang: string): string {
    var pts := IntToString(s.points) + " " + Label("points", lang);
    var cms := IntToString(s.comments) + " " + Label("comments", lang);
    if IsThread(s.category) then "<i>" + pts + " · " + cms + "</i>"
    else "<i>" + pts + " · <a href=\"" + HnItem(s.id) + "\">" + cms + "</a></i>"
  }

  /**
   * `format_story_lines`: the title line, the escaped summary for a non-thread story
   * that has one, then the meta line. The title shown is the translation when there
   * is one, escaped.
   */
  function FormatStoryLines(s: Story, titles: map<int, string>, summaries: map<int, string>, lang: string): (r: seq<string>)
    ensures 2 <= |r| <= 3
    ensures |r| == 3 <==> !IsThread(s.category) && SummaryOf(summaries, s.id) != ""
    ensures r[0] == TitleLine(Link(s), EscapeHtml(TitleOf(titles, s)))
    ensures |r| == 3 ==> r[1] == EscapeHtml(SummaryOf(summaries, s.id))
    ensures r[|r| - 1] == MetaLine(s, lang)
  {
    var title := EscapeHtml(TitleOf(titles, s));
    var summary := SummaryOf(summaries, s.id);
    var middle := if !IsThread(s.category) && summary != "" then [EscapeHtml(summary)] else [];
    [TitleLine(Link(s), title)] + middle + [MetaLine(s, lang)]
  }

  /** The title text inside the title line carries no markup of its own and reads
      back as the chosen title. */
  lemma TitleTextSafe(s: Story, titles: map<int, string>)
    ensures var t := EscapeHtml(TitleOf(titles, s));
      '<' !in t && '>' !in t && Unescape(t) == TitleOf(titles, s)
  {
    EscapeNoAngles(TitleOf(titles, s));
    EscapeRoundTrip(TitleOf(titles, s));
  }

  // ---------------------------------------------------------------- issue number

  /** `max(1, (now - first).days // 7 + 1)`; Dafny's `/` by 7 rounds down like `//`. */
  function IssueNumber(elapsedDays: int): (n: int)
    ensures n >= 1
  {
    var w := elapsedDays / 7 + 1;
    if w < 1 then 1 else w
  }

  /** Day `d` of week `k` after the first issue is issue `k + 1`. */
  lemma IssueOfWeek(k: nat, d: nat)
    requires d < 7
    ensures IssueNumber(7 * k + d) == k + 1
  {
    assert (7 * k + d) / 7 == k;
  }

  /** Issues never go back as days pass, and every day before the first issue is issue 1. */
  lemma IssueMonotone(a: int, b: int)
    ensures a <= b ==> IssueNumber(a) <= IssueNumber(b)
    ensures a < 0 ==> IssueNumber(a) == 1
  {
    if a <= b {
      assert a / 7 <= b / 7;
    }
  }

  // ---------------------------------------------------------------- the plan

  /** `[s for s in stories if s.get("is_top")]`. */
  function Flagged(stories: seq<Story>): (r: seq<Story>)
    ensures forall x :: x in r <==> x in stories && x.isTop
    ensures IsSubseq(r, stories)
  {
    if stories == [] then []
    else
      var n := |stories| - 1;
      var prev := Flagged(stories[..n]);
      assert stories == stories[..n] + [stories[n]];
      SubseqSnoc(prev, stories[..n], stories[n]);
      if stories[n].isTop then prev + [stories[n]] else prev
  }

  /** The top section: the flagged stories, or the first ten when none is flagged,
      and never more than ten. */
  function TopStories(stories: seq<Story>): (r: seq<Story>)
    ensures |r| <= 10
    ensures Flagged(stories) != [] ==> r == PyTake(Flagged(stories), 10)
    ensures Flagged(stories) == [] ==> r == PyTake(stories, 10)
  {
    var flagged := Flagged(stories);
    PyTake(if flagged != [] then flagged else PyTake(stories, 10), 10)
  }

  /** The stories of the top section come from the list, and when any story is flagged
      they are all flagged. */
  lemma TopFromList(stories: seq<Story>)
    ensures forall x :: x in TopStories(stories) ==> x in stories
    ensures Flagged(stories) != [] ==> forall x :: x in TopStories(stories) ==> x.isTop
  {
    var flagged := Flagged(stories);
    var top := TopStories(stories);
    if flagged != [] {
      assert forall x :: x in top ==> x in flagged;
    } else {
      assert forall x :: x in top ==> x in stories;
    }
  }

  /** `s.get("category") or categorize_story(s)`. */
  function EffectiveCategory(s: Story): string {
    if s.category != "" then s.category else CategorizeStory(s.title, s.domain)
  }

  /** The stories a category collects: not in the top section, of that category
      under `categoryOf`, in input order. */
  function Members(stories: seq<Story>, topIds: set<int>, categoryOf: Story -> string, cat: string): (r: seq<Story>)
    ensures forall x :: x in r <==> x in stories && x.id !in topIds && categoryOf(x) == cat
    ensures IsSubseq(r, stories)
  {
    if stories == [] then []
    else
      var n := |stories| - 1;
      var s := stories[n];
      var prev := Members(stories[..n], topIds, categoryOf, cat);
      assert stories == stories[..n] + [s];
      SubseqSnoc(prev, stories[..n], s);
      if s.id !in topIds && categoryOf(s) == cat then prev + [s] else prev
  }

  /** `by_category` after the grouping loop. */
  function Grouped(stories: seq<Story>, topIds: set<int>, categoryOf: Story -> string): map<string, seq<Story>> {
    if stories == [] then map[]
    else
      var n := |stories| - 1;
      var s := stories[n];
      var g := Grouped(stories[..n], topIds, categoryOf);
      if s.id in topIds then g
      else
        var cat := categoryOf(s);
        g[cat := (if cat in g then g[cat] else []) + [s]]
  }

  /** Each group is the category's members, and a category has a group exactly when
      it has members. */
  lemma {:induction false} GroupedMembers(stories: seq<Story>, topIds: set<int>, categoryOf: Story -> string, cat: string)
    ensures cat in Grouped(stories, topIds, categoryOf) ==>
      Grouped(stories, topIds, categoryOf)[cat] == Members(stories, topIds, categoryOf, cat)
      && Grouped(stories, topIds, categoryOf)[cat] != []
    ensures cat !in Grouped(stories, topIds, categoryOf) ==> Members(stories, topIds, categoryOf, cat) == []
  {
    if stories != [] {
      GroupedMembers(stories[..|stories| - 1], topIds, categoryOf, cat);
    }
  }

  /** One category reply: its key and the stories it shows. */
  datatype Reply = Reply(category: string, stories: seq<Story>)

  /** The reply loop over `order`: a reply for each category with a group, showing
      its first five stories. */
  function RepliesFrom(order: seq<string>, groups: map<string, seq<Story>>): seq<Reply> {
    if order == [] then []
    else
      var n := |order| - 1;
      var prev := RepliesFrom(order[..n], groups);
      var c := order[n];
      if c in groups && groups[c] != [] then prev + [Reply(c, PyTake(groups[c], 5))] else prev
  }

  function RepliesFor(order: seq<string>, stories: seq<Story>, topIds: set<int>, categoryOf: Story -> string): seq<Reply> {
    RepliesFrom(order, Grouped(stories, topIds, categoryOf))
  }

  /** What `format_digest` decides: the top section and the replies. */
  datatype Plan = Plan(top: seq<Story>, replies: seq<Reply>)

  function PlanOf(stories: seq<Story>): Plan {
    var top := TopStories(stories);
    Plan(top, RepliesFor(CategoryOrder, stories, Ids(top), EffectiveCategory))
  }

  /** Every reply is for a key of `order` and shows the first one to five members of
      its category. */
  lemma {:induction false} RepliesContent(order: seq<string>, stories: seq<Story>, topIds: set<int>, categoryOf: Story -> string)
    ensures forall k :: 0 <= k < |RepliesFor(order, stories, topIds, categoryOf)| ==>
      var r := RepliesFor(order, stories, topIds, categoryOf)[k];
      r.category in order && 1 <= |r.stories| <= 5 && r.stories == PyTake(Members(stories, topIds, categoryOf, r.category), 5)
  {
    var rs := RepliesFor(order, stories, topIds, categoryOf);
    if order == [] {
      assert rs == [];
    } else {
      var n := |order| - 1;
      var g := Grouped(stories, topIds, categoryOf);
      var prev := RepliesFor(order[..n], stories, topIds, categoryOf);
      RepliesContent(order[..n], stories, topIds, categoryOf);
      var c := order[n];
      GroupedMembers(stories, topIds, categoryOf, c);
      forall k | 0 <= k < |rs|
        ensures rs[k].category in order && 1 <= |rs[k].stories| <= 5 &&
                rs[k].stories == PyTake(Members(stories, topIds, categoryOf, rs[k].category), 5)
      {
        if k < |prev| {
          assert rs[k] == prev[k];
          assert prev[k].category in order[..n];
        } else {
          assert c in g && g[c] != [] && rs[k] == Reply(c, PyTake(g[c], 5));
        }
      }
    }
  }

  /** Every category of `order` with members gets a reply. */
  lemma {:induction false} RepliesComplete(order: seq<string>, stories: seq<Story>, topIds: set<int>, categoryOf: Story -> string)
    ensures forall c :: c in order && Members(stories, topIds, categoryOf, c) != [] ==>
      exists k :: 0 <= k < |RepliesFor(order, stories, topIds, categoryOf)|
        && RepliesFor(order, stories, topIds, categoryOf)[k].category == c
  {
    if order != [] {
      var n := |order| - 1;
      var prev := RepliesFor(order[..n], stories, topIds, categoryOf);
      var rs := RepliesFor(order, stories, topIds, categoryOf);
      RepliesComplete(order[..n], stories, topIds, categoryOf);
      var c := order[n];
      forall c' | c' in order && Members(stories, topIds, categoryOf, c') != []
        ensures exists k :: 0 <= k < |rs| && rs[k].category == c'
      {
        GroupedMembers(stories, topIds, categoryOf, c');
        if c' in order[..n] {
          var k :| 0 <= k < |prev| && prev[k].category == c';
          assert rs[k] == prev[k];
        } else {
          assert order == order[..n] + [c];
          assert c' == c;
          assert rs[|rs| - 1].category == c;
        }
      }
    }
  }

  /** Replies follow `order`: of two replies, the earlier one's category comes earlier
      in `order`. */
  lemma {:induction false} RepliesOrdered(order: seq<string>, stories: seq<Story>, topIds: set<int>, categoryOf: Story -> string)
    ensures forall k, l :: 0 <= k < l < |RepliesFor(order, stories, topIds, categoryOf)| ==>
      exists a, b :: 0 <= a < b < |order| &&
        order[a] == RepliesFor(order, stories, topIds, categoryOf)[k].category &&
        order[b] == RepliesFor(order, stories, topIds, categoryOf)[l].category
  {
    var rs := RepliesFor(order, stories, topIds, categoryOf);
    if order == [] {
      assert rs == [];
    } else {
      var n := |order| - 1;
      var prev := RepliesFor(order[..n], stories, topIds, categoryOf);
      RepliesOrdered(order[..n], stories, topIds, categoryOf);
      RepliesContent(order[..n], stories, topIds, categoryOf);
      forall k, l | 0 <= k < l < |rs|
        ensures exists a, b :: 0 <= a < b < |order| && order[a] == rs[k].category && order[b] == rs[l].category
      {
        if l < |prev| {
          assert rs[k] == prev[k] && rs[l] == prev[l];
          var a, b :| 0 <= a < b < n && order[..n][a] == prev[k].category && order[..n][b] == prev[l].category;
          assert order[a] == rs[k].category && order[b] == rs[l].category;
        } else {
          assert rs[k] == prev[k];
          assert prev[k].category in order[..n];
          var a :| 0 <= a < n && order[..n][a] == prev[k].category;
          assert order[a] == rs[k].category && order[n] == rs[l].category;
        }
      }
    }
  }

  /**
   * The plan: the top section has at most ten stories of the list; every reply is
   * for a key of `category_order`, shows one to five stories of that category in
   * input order, none of them in the top section; every category of the order with
   * a story outside the top section gets its reply.
   */
  lemma PlanShape(stories: seq<Story>)
    ensures |PlanOf(stories).top| <= 10
    ensures forall x :: x in PlanOf(stories).top ==> x in stories
    ensures forall k :: 0 <= k < |PlanOf(stories).replies| ==>
      var r := PlanOf(stories).replies[k];
      && r.category in CategoryOrder && 1 <= |r.stories| <= 5
      && r.stories == PyTake(Members(stories, Ids(PlanOf(stories).top), EffectiveCategory, r.category), 5)
      && (forall x :: x in r.stories ==>
            x in stories && x.id !in Ids(PlanOf(stories).top) && EffectiveCategory(x) == r.category)
    ensures forall c :: c in CategoryOrder && Members(stories, Ids(PlanOf(stories).top), EffectiveCategory, c) != [] ==>
      exists k :: 0 <= k < |PlanOf(stories).replies| && PlanOf(stories).replies[k].category == c
  {
    var p := PlanOf(stories);
    TopFromList(stories);
    RepliesContent(CategoryOrder, stories, Ids(p.top), EffectiveCategory);
    RepliesComplete(CategoryOrder, stories, Ids(p.top), EffectiveCategory);
    forall k | 0 <= k < |p.replies|
      ensures forall x :: x in p.replies[k].stories ==>
        x in stories && x.id !in Ids(p.top) && EffectiveCategory(x) == p.replies[k].category
    {
      var m := Members(stories, Ids(p.top), EffectiveCategory, p.replies[k].category);
      assert forall x :: x in PyTake(m, 5) ==> x in m;
    }
  }

  /** A story outside the top section whose category is not in `category_order`
      appears in no reply. */
  lemma UnlistedCategoryHidden(stories: seq<Story>, s: Story)
    requires EffectiveCategory(s) !in CategoryOrder
    ensures forall k :: 0 <= k < |PlanOf(stories).replies| ==> s !in PlanOf(stories).replies[k].stories
  {
    PlanShape(stories);
  }

  // ---------------------------------------------------------------- rendering

  /** `format_story_lines` for one channel's titles, summaries and language. */
  function StoryLines(titles: map<int, string>, summaries: map<int, string>, lang: string): Story -> seq<string> {
    s => FormatStoryLines(s, titles, summaries, lang)
  }

  /** A blank line, then the story's lines, for each story. */
  function StoryBlockLines(ss: seq<Story>, lines: Story -> seq<string>): seq<string> {
    if ss == [] then []
    else
      var n := |ss| - 1;
      StoryBlockLines(ss[..n], lines) + [""] + lines(ss[n])
  }

  lemma StoryBlockSnoc(ss: seq<Story>, k: nat, lines: Story -> seq<string>)
    requires k < |ss|
    ensures StoryBlockLines(ss[..k + 1], lines) == StoryBlockLines(ss[..k], lines) + ([""] + lines(ss[k]))
  {
    assert ss[..k + 1][..k] == ss[..k];
  }

  function Tag(issue: int): string {
    "#digest_" + IntToString(issue)
  }

  function Headline(channel: Channel, issue: int, startStr: string, nowStr: string): string {
    "<b>" + channel.title + " #" + IntToString(issue) + "</b> | <i>" + startStr + " — " + nowStr + "</i>"
  }

  function MainHead(channel: Channel, issue: int, startStr: string, nowStr: string): seq<string> {
    [Headline(channel, issue, startStr, nowStr), "", FormatCategoryHeader("top", channel.language)]
  }

  /** The root post's lines: headline, the top header, the top stories, footer, tag. */
  function MainLines(channel: Channel, issue: int, startStr: string, nowStr: string, top: seq<Story>,
                     storyLines: Story -> seq<string>): seq<string> {
    MainHead(channel, issue, startStr, nowStr) + StoryBlockLines(top, storyLines) + ["", channel.footer, Tag(issue)]
  }

  /** One category reply as a message. */
  function ReplyMessage(r: Reply, issue: int, lang: string, storyLines: Story -> seq<string>): string {
    Join([FormatCategoryHeader(r.category, lang)] + StoryBlockLines(r.stories, storyLines) + ["", Tag(issue)], "\n")
  }

  function RenderReplies(rs: seq<Reply>, issue: int, lang: string, storyLines: Story -> seq<string>): (m: seq<string>)
    ensures |m| == |rs|
    ensures forall k :: 0 <= k < |rs| ==> m[k] == ReplyMessage(rs[k], issue, lang, storyLines)
  {
    if rs == [] then []
    else
      var n := |rs| - 1;
      RenderReplies(rs[..n], issue, lang, storyLines) + [ReplyMessage(rs[n], issue, lang, storyLines)]
  }

  /** The messages for a plan: the root post, then one message per reply. */
  function Render(channel: Channel, plan: Plan, issue: int, startStr: string, nowStr: string,
                  storyLines: Story -> seq<string>): seq<string> {
    [Join(MainLines(channel, issue, startStr, nowStr, plan.top, storyLines), "\n")]
      + RenderReplies(plan.replies, issue, channel.language, storyLines)
  }

  /** `format_digest(channel, stories, titles, summaries)`, with the elapsed days since
      the first issue and the two date strings given. */
  function Digest(channel: Channel, stories: seq<Story>, titles: map<int, string>, summaries: map<int, string>,
                  elapsedDays: int, startStr: string, nowStr: string): seq<string> {
    Render(channel, PlanOf(stories), IssueNumber(elapsedDays), startStr, nowStr,
           StoryLines(titles, summaries, channel.language))
  }

  /** The root post ends with a line holding the footer and a line holding the tag. */
  lemma RootEnds(channel: Channel, issue: int, startStr: string, nowStr: string, top: seq<Story>,
                 storyLines: Story -> seq<string>)
    ensures EndsWith(Join(MainLines(channel, issue, startStr, nowStr, top, storyLines), "\n"),
                     "\n" + channel.footer + "\n" + Tag(issue))
  {
    var body := MainHead(channel, issue, startStr, nowStr) + StoryBlockLines(top, storyLines) + [""];
    assert MainLines(channel, issue, startStr, nowStr, top, storyLines) == body + [channel.footer, Tag(issue)];
    JoinEndsWithLastTwo(body, channel.footer, Tag(issue), "\n");
  }

  /** A reply ends with a blank line and the tag. */
  lemma ReplyEnds(r: Reply, issue: int, lang: string, storyLines: Story -> seq<string>)
    ensures EndsWith(ReplyMessage(r, issue, lang, storyLines), "\n\n" + Tag(issue))
  {
    var head := [FormatCategoryHeader(r.category, lang)] + StoryBlockLines(r.stories, storyLines);
    JoinEndsWithBlankThen(head, Tag(issue), "\n");
    assert "\n" + "\n" == "\n\n";
  }

  /**
   * The messages: the root post, then one per reply of the plan. The root ends with
   * a line holding the footer and a line holding the tag; every reply ends with a
   * blank line and the tag.
   */
  lemma RenderShape(channel: Channel, plan: Plan, issue: int, startStr: string, nowStr: string,
                    storyLines: Story -> seq<string>)
    ensures |Render(channel, plan, issue, startStr, nowStr, storyLines)| == 1 + |plan.replies|
    ensures EndsWith(Render(channel, plan, issue, startStr, nowStr, storyLines)[0],
                     "\n" + channel.footer + "\n" + Tag(issue))
    ensures forall k :: 1 <= k < |Render(channel, plan, issue, startStr, nowStr, storyLines)| ==>
      EndsWith(Render(channel, plan, issue, startStr, nowStr, storyLines)[k], "\n\n" + Tag(issue))
  {
    var m := Render(channel, plan, issue, startStr, nowStr, storyLines);
    var rest := RenderReplies(plan.replies, issue, channel.language, storyLines);
    assert m[1..] == rest;
    RootEnds(channel, issue, startStr, nowStr, plan.top, storyLines);
    forall k | 1 <= k < |m|
      ensures EndsWith(m[k], "\n\n" + Tag(issue))
    {
      assert m[k] == rest[k - 1];
      ReplyEnds(plan.replies[k - 1], issue, channel.language, storyLines);
    }
  }

  // ---------------------------------------------------------------- format_digest

  /** The grouping loop. */
  method GroupStories(stories: seq<Story>, topIds: set<int>) returns (byCategory: map<string, seq<Story>>)
    ensures byCategory == Grouped(stories, topIds, EffectiveCategory)
  {
    byCategory := map[];
    var i := 0;
    while i < |stories|
      invariant 0 <= i <= |stories|
      invariant byCategory == Grouped(stories[..i], topIds, EffectiveCategory)
    {
      assert stories[..i + 1][..i] == stories[..i];
      var s := stories[i];
      if s.id !in topIds {
        var cat := EffectiveCategory(s);
        var existing := if cat in byCategory then byCategory[cat] else [];
        byCategory := byCategory[cat := existing + [s]];
      }
      i := i + 1;
    }
    assert stories[..|stories|] == stories;
  }

  /** `lines.append(""); lines.extend(format_story_lines(...))` for each story. */
  method AppendStories(lines: seq<string>, ss: seq<Story>, storyLines: Story -> seq<string>) returns (out: seq<string>)
    ensures out == lines + StoryBlockLines(ss, storyLines)
  {
    out := lines;
    var k := 0;
    while k < |ss|
      invariant 0 <= k <= |ss|
      invariant out == lines + StoryBlockLines(ss[..k], storyLines)
    {
      StoryBlockSnoc(ss, k, storyLines);
      out := out + ([""] + storyLines(ss[k]));
      k := k + 1;
    }
    assert ss[..|ss|] == ss;
  }

  lemma RepliesFromSnoc(order: seq<string>, j: nat, groups: map<string, seq<Story>>)
    requires j < |order|
    ensures var c := order[j];
      RepliesFrom(order[..j + 1], groups) ==
        if c in groups && groups[c] != [] then RepliesFrom(order[..j], groups) + [Reply(c, PyTake(groups[c], 5))]
        else RepliesFrom(order[..j], groups)
  {
    assert order[..j + 1][..j] == order[..j];
  }

  lemma RenderRepliesSnoc(rs: seq<Reply>, r: Reply, issue: int, lang: string, storyLines: Story -> seq<string>)
    ensures RenderReplies(rs + [r], issue, lang, storyLines)
      == RenderReplies(rs, issue, lang, storyLines) + [ReplyMessage(r, issue, lang, storyLines)]
  {
    assert (rs + [r])[..|rs|] == rs;
  }

  /** The reply loop of `format_digest`: for each category of `order` that has stories,
      a message with its header, its first five stories and the tag. */
  method CategoryReplies(order: seq<string>, byCategory: map<string, seq<Story>>, issue: int, lang: string,
                         storyLines: Story -> seq<string>) returns (replies: seq<string>)
    ensures replies == RenderReplies(RepliesFrom(order, byCategory), issue, lang, storyLines)
  {
    replies := [];
    var tag := Tag(issue);
    var j := 0;
    while j < |order|
      invariant 0 <= j <= |order|
      invariant replies == RenderReplies(RepliesFrom(order[..j], byCategory), issue, lang, storyLines)
    {
      RepliesFromSnoc(order, j, byCategory);
      var catKey := order[j];
      var catStories := if catKey in byCategory then byCategory[catKey] else [];
      if catStories != [] {
        var lines := [FormatCategoryHeader(catKey, lang)];
        lines := AppendStories(lines, PyTake(catStories, 5), storyLines);
        lines := lines + ["", tag];
        RenderRepliesSnoc(RepliesFrom(order[..j], byCategory), Reply(catKey, PyTake(catStories, 5)), issue, lang, storyLines);
        replies := replies + [Join(lines, "\n")];
      }
      j := j + 1;
    }
    assert order[..|order|] == order;
  }

  /** `format_digest`. `elapsedDays` is `(now - first).days`; `startStr` and `nowStr`
      are the formatted start and end dates. */
  method FormatDigest(channel: Channel, stories: seq<Story>, titles: map<int, string>, summaries: map<int, string>,
                      elapsedDays: int, startStr: string, nowStr: string) returns (messages: seq<string>)
    ensures messages == Digest(channel, stories, titles, summaries, elapsedDays, startStr, nowStr)
  {
    var issue := IssueNumber(elapsedDays);
    var lang := channel.language;
    var storyLines := StoryLines(titles, summaries, lang);
    var topStories := Flagged(stories);
    if topStories == [] {
      topStories := PyTake(stories, 10);
    }
    topStories := PyTake(topStories, 10);
    var topIds := Ids(topStories);
    var byCategory := GroupStories(stories, topIds);
    var mainLines := MainHead(channel, issue, startStr, nowStr);
    mainLines := AppendStories(mainLines, topStories, storyLines);
    var tag := Tag(issue);
    mainLines := mainLines + ["", channel.footer, tag];
    var replies := CategoryReplies(CategoryOrder, byCategory, issue, lang, storyLines);
    messages := [Join(mainLines, "\n")] + replies;
  }
}
