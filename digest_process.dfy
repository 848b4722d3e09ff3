/**
 * hn_digest/process.py: one generation call that categorizes, ranks, translates and
 * summarizes every story. Results are cached per story as
 * "category=c,rank=top|regular,title=t,summary=s"; the response is read line by
 * line as "n. category=c, rank=r, title=t, summary=s".
 */
module DigestProcess {
  import opened Wrappers
  import opened Text
  import opened Records
  import opened Cache
  import opened Generation
  import opened Fields
  import opened DigestConfig

  /** `StoryResult`. */
  datatype StoryResult = StoryResult(category: string, isTop: bool, translation: string, summary: string)

  /** What the call depends on besides the stories: the hash, the fetched article
      texts by story id, the channel language and the valid category keys. */
  datatype Env = Env(md5: string -> string, contents: map<int, string>, language: string, valid: set<string>)

  /** `contents.get(id, "")`. */
  function ContentOf(contents: map<int, string>, id: int): string {
    if id in contents then contents[id] else ""
  }

  // ---------------------------------------------------------------- cache key

  /** `_content_hash`: the first eight hex digits. */
  function ContentHash(md5: string -> string, content: string): (h: string)
    ensures |h| <= 8 && |h| <= |md5(content)| && h == md5(content)[..|h|]
  {
    PyTake(md5(content), 8)
  }

  /** The parts of the text hashed by `_cache_key_for_story`: version tag, id, title,
      short content hash ("empty" without content) and language. */
  function KeyParts(md5: string -> string, s: Story, content: string, language: string): seq<string> {
    ["process_v1", IntToString(s.id), s.title, if content == "" then "empty" else ContentHash(md5, content), language]
  }

  /** The text hashed: the parts joined by bars. */
  function KeyText(md5: string -> string, s: Story, content: string, language: string): string {
    Join(KeyParts(md5, s, content, language), "|")
  }

  /** `_cache_key_for_story`. */
  function KeyFor(env: Env, s: Story): string {
    env.md5(KeyText(env.md5, s, ContentOf(env.contents, s.id), env.language))
  }

  predicate NoBars(parts: seq<string>) {
    forall k :: 0 <= k < |parts| ==> '|' !in parts[k]
  }

  /** The id in the key text never contains a bar, nor does the version tag. */
  lemma IdHasNoBar(id: int)
    ensures '|' !in IntToString(id)
  {
    var d := NatToString(if id < 0 then -id else id);
    assert forall k :: 0 <= k < |d| ==> IsDigit(d[k]);
  }

  /** The key text tells its parts apart: two stories whose titles, content hashes and
      languages have no bar get the same key text only when id, title, content hash
      and language all agree, so a new language or new article text is a new entry. */
  lemma KeyTextInjective(md5: string -> string, s: Story, c: string, l: string, s': Story, c': string, l': string)
    requires NoBars(KeyParts(md5, s, c, l)[2..]) && NoBars(KeyParts(md5, s', c', l')[2..])
    requires KeyText(md5, s, c, l) == KeyText(md5, s', c', l')
    ensures KeyParts(md5, s, c, l) == KeyParts(md5, s', c', l')
    ensures s.id == s'.id && s.title == s'.title && l == l'
  {
    var p := KeyParts(md5, s, c, l);
    var p' := KeyParts(md5, s', c', l');
    IdHasNoBar(s.id);
    IdHasNoBar(s'.id);
    assert NoBars(p) by {
      assert forall k :: 2 <= k < 5 ==> p[k] == p[2..][k - 2];
    }
    assert NoBars(p') by {
      assert forall k :: 2 <= k < 5 ==> p'[k] == p'[2..][k - 2];
    }
    SplitJoin(p, '|');
    SplitJoin(p', '|');
    ParseIntOfInt(s.id);
    ParseIntOfInt(s'.id);
  }

  // ---------------------------------------------------------------- cache lines

  /** `_parse_cache_line`: None unless the category is valid. */
  function ParseCacheLine(val: string, valid: set<string>): (r: Option<StoryResult>)
    ensures r.None? <==> ExtractField(val, "category") !in valid
    ensures r.Some? ==> r.value.category in valid && (r.value.isTop <==> ExtractField(val, "rank") == "top")
    ensures r.Some? ==> ',' !in r.value.translation && ',' !in r.value.summary
  {
    var cat := ExtractField(val, "category");
    var rank := ExtractField(val, "rank");
    var title := ExtractField(val, "title");
    var summary := ExtractField(val, "summary");
    if cat !in valid then None else Some(StoryResult(cat, rank == "top", title, summary))
  }

  /** `_serialize_result`. */
  function SerializeResult(r: StoryResult): string {
    "category=" + r.category + ",rank=" + RankText(r.isTop) + ",title=" + r.translation + ",summary=" + r.summary
  }

  const ResultFields: seq<string> := ["category", "rank", "title", "summary"]

  function ResultValues(r: StoryResult): seq<string> {
    [r.category, RankText(r.isTop), r.translation, r.summary]
  }

  /** A result whose text fields survive the cache: stripped and comma-free. */
  predicate Storable(r: StoryResult) {
    && IsStripped(r.category) && ',' !in r.category
    && IsStripped(r.translation) && ',' !in r.translation
    && IsStripped(r.summary) && ',' !in r.summary
  }

  /** The four field names, spelled out. */
  lemma ResultFieldsSpelled()
    ensures ResultFields == [['c', 'a', 't', 'e', 'g', 'o', 'r', 'y'], ['r', 'a', 'n', 'k'],
                             ['t', 'i', 't', 'l', 'e'], ['s', 'u', 'm', 'm', 'a', 'r', 'y']]
  {
  }

  lemma ResultFieldNames()
    ensures FieldNames(ResultFields)
  {
    var c, r, t, s := ['c', 'a', 't', 'e', 'g', 'o', 'r', 'y'], ['r', 'a', 'n', 'k'], ['t', 'i', 't', 'l', 'e'], ['s', 'u', 'm', 'm', 'a', 'r', 'y'];
    ResultFieldsSpelled();
    assert !IsSpace('c') && !IsSpace('r') && !IsSpace('t') && !IsSpace('s');
    assert '=' !in c && ',' !in c && '=' !in r && ',' !in r;
    assert '=' !in t && ',' !in t && '=' !in s && ',' !in s;
  }

  lemma ResultShape(r: StoryResult)
    requires Storable(r)
    ensures FieldNames(ResultFields) && FieldValues(ResultValues(r))
  {
    ResultFieldNames();
    assert IsStripped(RankText(r.isTop));
  }

  lemma SerializeAsRecord(r: StoryResult)
    ensures SerializeResult(r) == Record(ResultFields, ResultValues(r))
  {
    RecordFour(ResultFields, ResultValues(r));
    ResultFieldsSpelled();
    assert ResultFields[0] + "=" == "category=";
    assert "," + ResultFields[1] + "=" == ",rank=";
    assert "," + ResultFields[2] + "=" == ",title=";
    assert "," + ResultFields[3] + "=" == ",summary=";
  }

  /** A written entry reads back, after the `.strip()` of `read_text`, as the result
      that was written, when its category is valid and its fields are storable. */
  lemma CacheLineRoundTrip(r: StoryResult, valid: set<string>)
    requires r.category in valid && Storable(r)
    ensures ParseCacheLine(Strip(SerializeResult(r)), valid) == Some(r)
  {
    var vs := ResultValues(r);
    ResultShape(r);
    SerializeAsRecord(r);
    RecordStripped(ResultFields, vs);
    RecordField(ResultFields, vs, 0);
    RecordField(ResultFields, vs, 1);
    RecordField(ResultFields, vs, 2);
    RecordField(ResultFields, vs, 3);
  }

  // ---------------------------------------------------------------- prompt

  /** The instruction when titles stay in English. */
  const TranslationKeep: string := "Keep the original title as-is (do not translate)"

  /** `translation_instruction`: the translate request when the channel has a prompt. */
  function TranslationInstruction(channel: Channel): (r: string)
    ensures r == TranslationKeep <==> channel.prompt == ""
  {
    if channel.prompt != "" then
      var head := "Translate the title to ";
      var r := head + (channel.language + " (" + channel.prompt + ")");
      // the two instructions differ in their first letter
      var keep, tail := "Keep the original title as-is", " (do not translate)";
      assert TranslationKeep == keep + tail && keep[0] == 'K';
      assert TranslationKeep[0] == (keep + tail)[0] == 'K';
      assert r[0] == head[0] == 'T';
      r
    else TranslationKeep
  }

  /** The heading line of story `i`. */
  function StoryHead(i: nat, s: Story): string {
    NatToString(i + 1) + ". Title: " + s.title + " (" + IntToString(s.points) + " pts, " + IntToString(s.comments) + " comments)"
  }

  /** Story `i`'s block: its heading, then the first 12000 characters of its article
      when it has one. */
  function StoryBlock(i: nat, s: Story, contents: map<int, string>): (r: string)
    ensures var head := StoryHead(i, s);
      |head| <= |r| <= |head| + 10 + 12000 && r[..|head|] == head
    ensures |r| == |StoryHead(i, s)| <==> ContentOf(contents, s.id) == ""
  {
    var content := ContentOf(contents, s.id);
    if content != "" then StoryHead(i, s) + "\n" + "Article: " + PyTake(content, 12000) else StoryHead(i, s)
  }

  function StoryBlocks(stories: seq<Story>, contents: map<int, string>): (r: seq<string>)
    ensures |r| == |stories|
    ensures forall i :: 0 <= i < |r| ==> r[i] == StoryBlock(i, stories[i], contents)
  {
    seq(|stories|, i requires 0 <= i < |stories| => StoryBlock(i, stories[i], contents))
  }

  /** `_build_prompt`; `fill(instruction, language, stories)` is `PROCESS_PROMPT.format`. */
  function BuildPrompt(stories: seq<Story>, contents: map<int, string>, channel: Channel,
                       fill: (string, string, string) -> string): string {
    fill(TranslationInstruction(channel), channel.language, Join(StoryBlocks(stories, contents), "\n---\n"))
  }

  /** Story `i`'s heading, read as a response line, names index `i`. */
  lemma StoryHeadIndex(i: nat, s: Story)
    ensures ParseNumbered(StoryHead(i, s)).Numbered? && ParseNumbered(StoryHead(i, s)).index == i
  {
    var body := " Title: " + s.title + " (" + IntToString(s.points) + " pts, " + IntToString(s.comments) + " comments)";
    assert StoryHead(i, s) == NatToString(i + 1) + "." + body;
    assert body[|body| - 1] == ')';
    NumberedRoundTrip(i, body);
  }

  // ---------------------------------------------------------------- response lines

  /** The fallback category has no blank at either end and no comma. */
  lemma OtherPlain()
    ensures IsStripped("other") && ',' !in "other"
  {
    var o := "other";
    assert o == ['o', 't', 'h', 'e', 'r'];
    assert !IsSpace('o') && !IsSpace('r');
  }

  /** `_parse_result_line`: None for a line that is blank, not digit-led, without "." or
      with a non-integer number; otherwise the 0-based index, which may be -1 or past
      the end, and the result read from the text after the ".". */
  function ParseResultLine(line: string, valid: set<string>): (r: Option<(int, StoryResult)>)
    ensures r.None? <==> !ParseNumbered(line).Numbered?
    ensures r.Some? ==> r.value.0 == ParseNumbered(line).index
    ensures r.Some? ==> r.value.1.category in valid || r.value.1.category == "other"
    ensures r.Some? ==> IsStripped(r.value.1.category) && ',' !in r.value.1.category
    ensures r.Some? ==> ',' !in r.value.1.translation && ',' !in r.value.1.summary
  {
    match ParseNumbered(line)
    case Skip => None
    case NotInteger => None
    case Numbered(num, tail) =>
      var rest := Strip(tail);
      var restLower := Lower(rest);
      var cat := ExtractField(restLower, "category");
      var rank := ExtractField(restLower, "rank");
      var title := ExtractField(rest, "title");
      var summary := ExtractField(rest, "summary");
      OtherPlain();
      Some((num, StoryResult(if cat in valid then cat else "other", rank == "top", StripQuotes(title), StripQuotes(summary))))
  }

  /** A response line in the layout the prompt asks for. */
  function ResultLine(i: nat, r: StoryResult): string {
    NatToString(i + 1) + ". " + SpacedRecord(ResultFields, ResultValues(r))
  }

  lemma {:induction false} RankTextLower(isTop: bool)
    ensures Lower(RankText(isTop)) == RankText(isTop)
  {
    var t := RankText(isTop);
    assert forall k :: 0 <= k < |t| ==> !('A' <= t[k] <= 'Z');
    assert Lower(t) == t;
  }

  lemma ResultFieldsLower()
    ensures forall i :: 0 <= i < |ResultFields| ==> Lower(ResultFields[i]) == ResultFields[i]
  {
    forall i | 0 <= i < |ResultFields|
      ensures Lower(ResultFields[i]) == ResultFields[i]
    {
      var f := ResultFields[i];
      assert forall k :: 0 <= k < |f| ==> !('A' <= f[k] <= 'Z');
    }
  }

  /** The number of a response line, and the record after it with the blank removed. */
  lemma ResultLineNumbered(i: nat, r: StoryResult)
    requires Storable(r)
    ensures var rec := SpacedRecord(ResultFields, ResultValues(r));
      ParseNumbered(ResultLine(i, r)) == LineParse.Numbered(i, " " + rec) && Strip(" " + rec) == rec
  {
    var vs := ResultValues(r);
    var rec := SpacedRecord(ResultFields, vs);
    ResultShape(r);
    SpacedRecordStripped(ResultFields, vs);
    var body := " " + rec;
    assert ResultLine(i, r) == NatToString(i + 1) + "." + body;
    assert body[|body| - 1] == rec[|rec| - 1];
    NumberedRoundTrip(i, body);
    StripLeadingBlank(rec);
  }

  /** Category and rank read from the lowercased record. */
  lemma ResultLowerFields(r: StoryResult)
    requires Storable(r) && Lower(r.category) == r.category
    ensures var rec := SpacedRecord(ResultFields, ResultValues(r));
      ExtractField(Lower(rec), "category") == r.category && ExtractField(Lower(rec), "rank") == RankText(r.isTop)
  {
    var vs := ResultValues(r);
    ResultShape(r);
    ResultFieldsLower();
    LowerSpacedRecord(ResultFields, vs);
    LowerValues(vs);
    SpacedRecordField(ResultFields, LowerAll(vs), 0);
    SpacedRecordField(ResultFields, LowerAll(vs), 1);
    RankTextLower(r.isTop);
  }

  /** Title and summary read from the record as written. */
  lemma ResultTextFields(r: StoryResult)
    requires Storable(r)
    ensures var rec := SpacedRecord(ResultFields, ResultValues(r));
      ExtractField(rec, "title") == r.translation && ExtractField(rec, "summary") == r.summary
  {
    var vs := ResultValues(r);
    ResultShape(r);
    SpacedRecordField(ResultFields, vs, 2);
    SpacedRecordField(ResultFields, vs, 3);
  }

  /**
   * A line written as the prompt asks reads back as its story's index and exactly
   * the result it describes, when the category is a valid lowercase key and the
   * title and summary are storable and not quoted.
   */
  lemma ResponseLineRoundTrip(i: nat, r: StoryResult, valid: set<string>)
    requires r.category in valid && Lower(r.category) == r.category && Storable(r)
    requires IsStrippedBy(r.translation, IsQuote) && IsStrippedBy(r.summary, IsQuote)
    ensures ParseResultLine(ResultLine(i, r), valid) == Some((i, r))
  {
    ResultLineNumbered(i, r);
    ResultLowerFields(r);
    ResultTextFields(r);
    StripByStripped(r.translation, IsQuote);
    StripByStripped(r.summary, IsQuote);
  }

  /** An unknown category in a response line is read as "other". */
  lemma UnknownCategoryIsOther(line: string, valid: set<string>)
    requires ParseNumbered(line).Numbered?
    requires ExtractField(Lower(Strip(ParseNumbered(line).rest)), "category") !in valid
    ensures ParseResultLine(line, valid).Some? && ParseResultLine(line, valid).value.1.category == "other"
  {
  }

  /** Whatever a response line yields can be cached and read back unchanged, when
      "other" is a valid key and the title and summary carry no outer blanks. */
  lemma ParsedResultCaches(line: string, valid: set<string>)
    requires "other" in valid
    requires ParseResultLine(line, valid).Some?
    requires var r := ParseResultLine(line, valid).value.1; IsStripped(r.translation) && IsStripped(r.summary)
    ensures var r := ParseResultLine(line, valid).value.1; ParseCacheLine(Strip(SerializeResult(r)), valid) == Some(r)
  {
    var r := ParseResultLine(line, valid).value.1;
    assert Storable(r);
    CacheLineRoundTrip(r, valid);
  }

  // ---------------------------------------------------------------- the cache scan

  /** A story's cached result, when its entry exists and reads back. */
  function CachedResult(files: map<string, string>, env: Env, s: Story): Option<StoryResult> {
    var key := KeyFor(env, s);
    if key in files then ParseCacheLine(Strip(files[key]), env.valid) else None
  }

  /** The `cached` dict after the scan: later stories with the same id win. */
  function CachedResults(files: map<string, string>, env: Env, stories: seq<Story>): map<int, StoryResult> {
    ById(s => CachedResult(files, env, s), stories)
  }

  /**
   * The scan holds the id of every story with a readable entry and nothing else, and
   * it reaches `len(stories)` entries only when every story has one and no two
   * stories share an id, so a list with a repeated id always goes to the generation
   * call.
   */
  lemma CachedResultsShape(files: map<string, string>, env: Env, stories: seq<Story>)
    ensures var cm := CachedResults(files, env, stories);
      && cm.Keys <= Ids(stories)
      && (forall i :: 0 <= i < |stories| && CachedResult(files, env, stories[i]).Some? ==> stories[i].id in cm)
      && (forall id :: id in cm ==>
            exists i :: 0 <= i < |stories| && stories[i].id == id && CachedResult(files, env, stories[i]) == Some(cm[id]))
      && |cm| <= |stories|
      && (|cm| == |stories| ==>
            (forall i :: 0 <= i < |stories| ==> CachedResult(files, env, stories[i]).Some?) &&
            (forall i, j :: 0 <= i < j < |stories| ==> stories[i].id != stories[j].id))
  {
    ByIdKeys(s => CachedResult(files, env, s), stories);
    ByIdFull(s => CachedResult(files, env, s), stories);
  }

  // ---------------------------------------------------------------- applying a response

  /** The `results` dict and the cache directory while a response is parsed. */
  datatype State = State(results: map<int, StoryResult>, files: map<string, string>)

  /** A response line once read: the index it names and its result, or None when skipped. */
  type Parsed = Option<(int, StoryResult)>

  /** What a read line does: an index inside the story list sets that story's result
      and writes its cache entry at once; anything else changes nothing. */
  function ApplyParsed(p: Parsed, stories: seq<Story>, env: Env, st: State): State {
    match p
    case None => st
    case Some((num, r)) =>
      if 0 <= num < |stories| then
        var s := stories[num];
        State(st.results[s.id := r], st.files[KeyFor(env, s) := SerializeResult(r)])
      else st
  }

  /** One response line. */
  function ApplyResultLine(line: string, stories: seq<Story>, env: Env, st: State): State {
    ApplyParsed(ParseResultLine(line, env.valid), stories, env, st)
  }

  function ApplyResultLines(lines: seq<string>, stories: seq<Story>, env: Env, st: State): State {
    if lines == [] then st
    else ApplyResultLine(lines[|lines| - 1], stories, env, ApplyResultLines(lines[..|lines| - 1], stories, env, st))
  }

  /** The read lines applied in order. */
  function ApplyAll(ps: seq<Parsed>, stories: seq<Story>, env: Env, st: State): State {
    if ps == [] then st
    else ApplyParsed(ps[|ps| - 1], stories, env, ApplyAll(ps[..|ps| - 1], stories, env, st))
  }

  /** Every line of a response, read. */
  function ParseAll(lines: seq<string>, valid: set<string>): (ps: seq<Parsed>)
    ensures |ps| == |lines|
    ensures forall k :: 0 <= k < |lines| ==> ps[k] == ParseResultLine(lines[k], valid)
  {
    seq(|lines|, k requires 0 <= k < |lines| => ParseResultLine(lines[k], valid))
  }

  /** Applying the lines one by one is applying them once all are read. */
  lemma {:induction false} LinesAsParsed(lines: seq<string>, stories: seq<Story>, env: Env, st: State)
    ensures ApplyResultLines(lines, stories, env, st) == ApplyAll(ParseAll(lines, env.valid), stories, env, st)
  {
    if lines != [] {
      var n := |lines| - 1;
      var ps := ParseAll(lines, env.valid);
      LinesAsParsed(lines[..n], stories, env, st);
      assert ps[..n] == ParseAll(lines[..n], env.valid);
    }
  }

  /** A read line naming story `i`. */
  predicate NamesParsed(p: Parsed, count: int, i: int) {
    p.Some? && p.value.0 == i && 0 <= i < count
  }

  /** The story a response line names, when it is accepted. */
  predicate Names(line: string, stories: seq<Story>, valid: set<string>, i: int) {
    NamesParsed(ParseResultLine(line, valid), |stories|, i)
  }

  /** The last accepted line naming a story decides that story's result. */
  lemma LastLineWins(lines: seq<string>, line: string, stories: seq<Story>, env: Env, st: State, i: int)
    requires Names(line, stories, env.valid, i)
    ensures var r := ApplyResultLines(lines + [line], stories, env, st);
      stories[i].id in r.results && r.results[stories[i].id] == ParseResultLine(line, env.valid).value.1
  {
    ApplyResultLinesSnoc(lines, line, stories, env, st);
    ApplyNamed(line, stories, env, ApplyResultLines(lines, stories, env, st), i);
  }

  lemma ApplyResultLinesSnoc(lines: seq<string>, line: string, stories: seq<Story>, env: Env, st: State)
    ensures ApplyResultLines(lines + [line], stories, env, st) ==
      ApplyResultLine(line, stories, env, ApplyResultLines(lines, stories, env, st))
  {
    var all := lines + [line];
    assert all[..|lines|] == lines && all[|lines|] == line;
  }

  lemma ApplyNamed(line: string, stories: seq<Story>, env: Env, st: State, i: int)
    requires Names(line, stories, env.valid, i)
    ensures ApplyResultLine(line, stories, env, st).results ==
      st.results[stories[i].id := ParseResultLine(line, env.valid).value.1]
  {
  }

  /** Every id in the results was there before or is named by a read line. */
  lemma {:induction false} ParsedResultsNamed(ps: seq<Parsed>, stories: seq<Story>, env: Env, st: State)
    ensures var r := ApplyAll(ps, stories, env, st);
      forall id :: id in r.results ==>
        id in st.results || exists k, i :: 0 <= k < |ps| && NamesParsed(ps[k], |stories|, i) && stories[i].id == id
  {
    if ps != [] {
      var n := |ps| - 1;
      var init := ps[..n];
      ParsedResultsNamed(init, stories, env, st);
      var prev := ApplyAll(init, stories, env, st);
      var r := ApplyAll(ps, stories, env, st);
      forall id | id in r.results && id !in st.results
        ensures exists k, i :: 0 <= k < |ps| && NamesParsed(ps[k], |stories|, i) && stories[i].id == id
      {
        if id in prev.results {
          var k, i :| 0 <= k < n && NamesParsed(init[k], |stories|, i) && stories[i].id == id;
          assert init[k] == ps[k];
        } else {
          assert NamesParsed(ps[n], |stories|, ps[n].value.0);
        }
      }
    }
  }

  /** Every id in the results was there before or is named by an accepted line. */
  lemma ResultsNamed(lines: seq<string>, stories: seq<Story>, env: Env, st: State)
    ensures var r := ApplyResultLines(lines, stories, env, st);
      forall id :: id in r.results ==>
        id in st.results || exists k, i :: 0 <= k < |lines| && Names(lines[k], stories, env.valid, i) && stories[i].id == id
  {
    var ps := ParseAll(lines, env.valid);
    LinesAsParsed(lines, stories, env, st);
    ParsedResultsNamed(ps, stories, env, st);
    var r := ApplyResultLines(lines, stories, env, st);
    forall id | id in r.results && id !in st.results
      ensures exists k, i :: 0 <= k < |lines| && Names(lines[k], stories, env.valid, i) && stories[i].id == id
    {
      var k, i :| 0 <= k < |ps| && NamesParsed(ps[k], |stories|, i) && stories[i].id == id;
      assert Names(lines[k], stories, env.valid, i);
    }
  }

  /** Every category in the results is a valid key or "other". */
  predicate CategoriesValid(results: map<int, StoryResult>, valid: set<string>) {
    forall id :: id in results ==> results[id].category in valid || results[id].category == "other"
  }

  lemma {:induction false} ResultsValid(lines: seq<string>, stories: seq<Story>, env: Env, st: State)
    requires CategoriesValid(st.results, env.valid)
    ensures CategoriesValid(ApplyResultLines(lines, stories, env, st).results, env.valid)
  {
    if lines != [] {
      ResultsValid(lines[..|lines| - 1], stories, env, st);
    }
  }

  /** The cache entries a run may have changed: none removed, only the stories' own keys written. */
  predicate WritesOnly(before: map<string, string>, after: map<string, string>, stories: seq<Story>, env: Env) {
    && before.Keys <= after.Keys
    && (forall key :: key in after && (key !in before || after[key] != before[key]) ==>
          exists s :: s in stories && key == KeyFor(env, s))
  }

  lemma {:induction false} ParsedFilesWritten(ps: seq<Parsed>, stories: seq<Story>, env: Env, st: State)
    ensures WritesOnly(st.files, ApplyAll(ps, stories, env, st).files, stories, env)
  {
    if ps != [] {
      var n := |ps| - 1;
      ParsedFilesWritten(ps[..n], stories, env, st);
      if ps[n].Some? && 0 <= ps[n].value.0 < |stories| {
        assert stories[ps[n].value.0] in stories;
      }
    }
  }

  /** No cache entry is removed, and only entries of the given stories change. */
  lemma FilesWritten(lines: seq<string>, stories: seq<Story>, env: Env, st: State)
    ensures var r := ApplyResultLines(lines, stories, env, st);
      && st.files.Keys <= r.files.Keys
      && (forall key :: key in r.files && (key !in st.files || r.files[key] != st.files[key]) ==>
            exists s :: s in stories && key == KeyFor(env, s))
  {
    LinesAsParsed(lines, stories, env, st);
    ParsedFilesWritten(ParseAll(lines, env.valid), stories, env, st);
  }

  /**
   * Starting from an empty dict, the results hold exactly the ids of stories named by
   * accepted lines (cached-only stories are not merged in), every category is valid
   * or "other", and only those stories' cache files are written.
   */
  lemma ApplyResultLinesEffect(lines: seq<string>, stories: seq<Story>, env: Env, st: State)
    requires forall id :: id in st.results ==> st.results[id].category in env.valid || st.results[id].category == "other"
    ensures var r := ApplyResultLines(lines, stories, env, st);
      && (forall id :: id in r.results ==>
            id in st.results || exists k, i :: 0 <= k < |lines| && Names(lines[k], stories, env.valid, i) && stories[i].id == id)
      && (forall id :: id in r.results ==> r.results[id].category in env.valid || r.results[id].category == "other")
      && st.files.Keys <= r.files.Keys
      && (forall key :: key in r.files && (key !in st.files || r.files[key] != st.files[key]) ==>
            exists s :: s in stories && key == KeyFor(env, s))
  {
    ResultsNamed(lines, stories, env, st);
    ResultsValid(lines, stories, env, st);
    FilesWritten(lines, stories, env, st);
  }

  lemma {:induction false} ParsedNamedIn(ps: seq<Parsed>, stories: seq<Story>, env: Env, st: State)
    ensures var r := ApplyAll(ps, stories, env, st);
      forall k, i :: 0 <= k < |ps| && NamesParsed(ps[k], |stories|, i) ==>
        stories[i].id in r.results && KeyFor(env, stories[i]) in r.files
  {
    if ps != [] {
      var n := |ps| - 1;
      var init := ps[..n];
      ParsedNamedIn(init, stories, env, st);
      forall k, i | 0 <= k < n && NamesParsed(ps[k], |stories|, i)
        ensures NamesParsed(init[k], |stories|, i)
      {
        assert init[k] == ps[k];
      }
    }
  }

  /** Every story named by an accepted line gets a result and a cache entry. */
  lemma NamedInResults(lines: seq<string>, stories: seq<Story>, env: Env, st: State)
    ensures var r := ApplyResultLines(lines, stories, env, st);
      forall k, i :: 0 <= k < |lines| && Names(lines[k], stories, env.valid, i) ==>
        stories[i].id in r.results && KeyFor(env, stories[i]) in r.files
  {
    var ps := ParseAll(lines, env.valid);
    LinesAsParsed(lines, stories, env, st);
    ParsedNamedIn(ps, stories, env, st);
    forall k, i | 0 <= k < |lines| && Names(lines[k], stories, env.valid, i)
      ensures NamesParsed(ps[k], |stories|, i)
    {
    }
  }

  /** One line removes no result and no cache entry, and adds those of the story it names. */
  lemma ApplyKeepsKeys(line: string, stories: seq<Story>, env: Env, st: State)
    ensures var r := ApplyResultLine(line, stories, env, st);
      && st.results.Keys <= r.results.Keys && st.files.Keys <= r.files.Keys
      && (forall i :: Names(line, stories, env.valid, i) ==> stories[i].id in r.results && KeyFor(env, stories[i]) in r.files)
  {
  }

  lemma {:induction false} ParsedResultOfLast(ps: seq<Parsed>, stories: seq<Story>, env: Env, st: State, k: int, i: int)
    requires 0 <= k < |ps| && NamesParsed(ps[k], |stories|, i)
    requires forall k2, i2 :: k < k2 < |ps| && NamesParsed(ps[k2], |stories|, i2) ==> stories[i2].id != stories[i].id
    ensures var r := ApplyAll(ps, stories, env, st);
      stories[i].id in r.results && r.results[stories[i].id] == ps[k].value.1
  {
    var n := |ps| - 1;
    var init := ps[..n];
    if k < n {
      assert init[k] == ps[k];
      forall k2, i2 | k < k2 < n && NamesParsed(init[k2], |stories|, i2)
        ensures stories[i2].id != stories[i].id
      {
        assert init[k2] == ps[k2];
      }
      ParsedResultOfLast(init, stories, env, st, k, i);
      if ps[n].Some? && 0 <= ps[n].value.0 < |stories| {
        assert NamesParsed(ps[n], |stories|, ps[n].value.0);
      }
    }
  }

  /**
   * The value of an id is decided by the last accepted line naming a story with that
   * id: line `k` names story `i` and no later accepted line names a story sharing its
   * id, so the id's result is what line `k` parsed.
   */
  lemma ResultOfLastNaming(lines: seq<string>, stories: seq<Story>, env: Env, st: State, k: int, i: int)
    requires 0 <= k < |lines| && Names(lines[k], stories, env.valid, i)
    requires forall k2, i2 :: k < k2 < |lines| && Names(lines[k2], stories, env.valid, i2) ==> stories[i2].id != stories[i].id
    ensures var r := ApplyResultLines(lines, stories, env, st);
      stories[i].id in r.results && r.results[stories[i].id] == ParseResultLine(lines[k], env.valid).value.1
  {
    var ps := ParseAll(lines, env.valid);
    LinesAsParsed(lines, stories, env, st);
    forall k2, i2 | k < k2 < |ps| && NamesParsed(ps[k2], |stories|, i2)
      ensures stories[i2].id != stories[i].id
    {
      assert Names(lines[k2], stories, env.valid, i2);
    }
    ParsedResultOfLast(ps, stories, env, st, k, i);
  }

  lemma {:induction false} ParsedFileOfLast(ps: seq<Parsed>, stories: seq<Story>, env: Env, st: State, k: int, i: int)
    requires 0 <= k < |ps| && NamesParsed(ps[k], |stories|, i)
    requires forall k2, i2 :: k < k2 < |ps| && NamesParsed(ps[k2], |stories|, i2) ==>
      KeyFor(env, stories[i2]) != KeyFor(env, stories[i])
    ensures var r := ApplyAll(ps, stories, env, st);
      KeyFor(env, stories[i]) in r.files && r.files[KeyFor(env, stories[i])] == SerializeResult(ps[k].value.1)
  {
    var n := |ps| - 1;
    var init := ps[..n];
    if k < n {
      assert init[k] == ps[k];
      forall k2, i2 | k < k2 < n && NamesParsed(init[k2], |stories|, i2)
        ensures KeyFor(env, stories[i2]) != KeyFor(env, stories[i])
      {
        assert init[k2] == ps[k2];
      }
      ParsedFileOfLast(init, stories, env, st, k, i);
      if ps[n].Some? && 0 <= ps[n].value.0 < |stories| {
        assert NamesParsed(ps[n], |stories|, ps[n].value.0);
      }
    }
  }

  /**
   * The same for the cache directory: the entry at a story's key holds the
   * serialization of the last accepted line naming a story with that key.
   */
  lemma FileOfLastNaming(lines: seq<string>, stories: seq<Story>, env: Env, st: State, k: int, i: int)
    requires 0 <= k < |lines| && Names(lines[k], stories, env.valid, i)
    requires forall k2, i2 :: k < k2 < |lines| && Names(lines[k2], stories, env.valid, i2) ==>
      KeyFor(env, stories[i2]) != KeyFor(env, stories[i])
    ensures var r := ApplyResultLines(lines, stories, env, st);
      KeyFor(env, stories[i]) in r.files &&
      r.files[KeyFor(env, stories[i])] == SerializeResult(ParseResultLine(lines[k], env.valid).value.1)
  {
    var ps := ParseAll(lines, env.valid);
    LinesAsParsed(lines, stories, env, st);
    forall k2, i2 | k < k2 < |ps| && NamesParsed(ps[k2], |stories|, i2)
      ensures KeyFor(env, stories[i2]) != KeyFor(env, stories[i])
    {
      assert Names(lines[k2], stories, env.valid, i2);
    }
    ParsedFileOfLast(ps, stories, env, st, k, i);
  }

  /** A line naming a story writes that story's cache entry. */
  lemma ApplyWrites(line: string, stories: seq<Story>, env: Env, st: State, i: int)
    requires Names(line, stories, env.valid, i)
    ensures ApplyResultLine(line, stories, env, st).files ==
      st.files[KeyFor(env, stories[i]) := SerializeResult(ParseResultLine(line, env.valid).value.1)]
  {
  }

  /** A line leaves the result of every id it does not name. */
  lemma ApplyKeepsResult(line: string, stories: seq<Story>, env: Env, st: State, id: int)
    requires var p := ParseResultLine(line, env.valid); p.Some? && 0 <= p.value.0 < |stories| ==> stories[p.value.0].id != id
    ensures var r := ApplyResultLine(line, stories, env, st);
      (id in r.results <==> id in st.results) && (id in st.results ==> r.results[id] == st.results[id])
  {
  }

  /** A line leaves the cache entry of every key it does not write. */
  lemma ApplyKeepsFile(line: string, stories: seq<Story>, env: Env, st: State, key: string)
    requires var p := ParseResultLine(line, env.valid); p.Some? && 0 <= p.value.0 < |stories| ==> KeyFor(env, stories[p.value.0]) != key
    ensures var r := ApplyResultLine(line, stories, env, st);
      (key in r.files <==> key in st.files) && (key in st.files ==> r.files[key] == st.files[key])
  {
  }

  // ---------------------------------------------------------------- process_stories

  /** The cache scan loop. */
  method ScanResults(files: map<string, string>, env: Env, stories: seq<Story>) returns (cached: map<int, StoryResult>)
    ensures cached == CachedResults(files, env, stories)
  {
    cached := map[];
    var i := 0;
    while i < |stories|
      invariant 0 <= i <= |stories|
      invariant cached == CachedResults(files, env, stories[..i])
    {
      var s := stories[i];
      assert stories[..i + 1][..i] == stories[..i];
      var key := KeyFor(env, s);
      if key in files {
        var result := ParseCacheLine(Strip(files[key]), env.valid);
        if result.Some? {
          cached := cached[s.id := result.value];
        }
      }
      i := i + 1;
    }
    assert stories[..|stories|] == stories;
  }

  /** One turn of the parse loop. */
  method ParseResultStep(store: Store, env: Env, stories: seq<Story>, line: string, results: map<int, StoryResult>)
    returns (next: map<int, StoryResult>)
    modifies store
    ensures State(next, store.files) == ApplyResultLine(line, stories, env, State(results, old(store.files)))
  {
    next := results;
    var parsed := ParseResultLine(line, env.valid);
    if parsed.Some? {
      var (num, result) := parsed.value;
      if 0 <= num < |stories| {
        var story := stories[num];
        next := results[story.id := result];
        store.files := store.files[KeyFor(env, story) := SerializeResult(result)];
      }
    }
  }

  /** The parse loop, writing each accepted line's cache entry as it goes. */
  method ParseResults(store: Store, env: Env, stories: seq<Story>, lines: seq<string>)
    returns (results: map<int, StoryResult>)
    modifies store
    ensures State(results, store.files) == ApplyResultLines(lines, stories, env, State(map[], old(store.files)))
  {
    results := map[];
    var j := 0;
    while j < |lines|
      invariant 0 <= j <= |lines|
      invariant State(results, store.files) == ApplyResultLines(lines[..j], stories, env, State(map[], old(store.files)))
    {
      assert lines[..j + 1][..j] == lines[..j];
      results := ParseResultStep(store, env, stories, lines[j], results);
      j := j + 1;
    }
    assert lines[..|lines|] == lines;
  }

  /**
   * `process_stories(session, api_key, stories, contents, channel)`. The cache
   * directory is `store`, `md5` the hash, `valid` the valid category keys, `fill`
   * the prompt template and `g` answers the requests. Returns the results by story
   * id, the seconds slept and the number of requests sent.
   */
  method ProcessStories(store: Store, md5: string -> string, apiKey: string, stories: seq<Story>,
                        contents: map<int, string>, channel: Channel, valid: set<string>,
                        fill: (string, string, string) -> string, g: Oracle)
    returns (results: map<int, StoryResult>, waits: seq<int>, requests: nat)
    modifies store
    ensures apiKey == "" || stories == [] ==>
      results == map[] && store.files == old(store.files) && requests == 0 && waits == []
    ensures apiKey != "" && stories != [] ==>
      var env := Env(md5, contents, channel.language, valid);
      var cm := CachedResults(old(store.files), env, stories);
      var prompt := BuildPrompt(stories, contents, channel, fill);
      if |cm| == |stories| then
        results == cm && store.files == old(store.files) && requests == 0 && waits == []
      else
        && requests == Requests(g, prompt)
        && waits == Backoff(RateLimits(g, prompt))
        && match Response(g, prompt)
           case None => results == cm && store.files == old(store.files)
           case Some(text) =>
             State(results, store.files) == ApplyResultLines(Split(Strip(text), '\n'), stories, env, State(map[], old(store.files)))
  {
    results := map[];
    waits := [];
    requests := 0;
    if apiKey == "" || stories == [] {
      return;
    }
    var env := Env(md5, contents, channel.language, valid);
    var cached := ScanResults(store.files, env, stories);
    if |cached| == |stories| {
      results := cached;
      return;
    }
    var prompt := BuildPrompt(stories, contents, channel, fill);
    var response;
    response, waits, requests := Request(g, prompt);
    if response.Some? {
      results := ParseResults(store, env, stories, Split(Strip(response.value), '\n'));
    } else {
      results := cached;
    }
  }
}
