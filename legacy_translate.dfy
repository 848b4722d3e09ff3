/**
 * hndigest/translate.py: `translate_batch`. Titles with a cache entry take it; the
 * others are numbered into one prompt, the numbered response lines become
 * translations, which are cached and returned in title order. A line whose number
 * `int()` rejects raises inside the parse, so the whole response is dropped.
 */
module LegacyTranslate {
  import opened Wrappers
  import opened Text
  import opened Cache
  import opened Generation
  import opened Fields

  /** `md5(f"{prompt_base[:20]}|{title}")`. */
  function TitleKey(md5: string -> string, promptBase: string, title: string): string {
    md5(PyTake(promptBase, 20) + "|" + title)
  }

  // ---------------------------------------------------------------- cache scan

  /** `cached`: the stripped cache text of every title that has an entry. */
  function CachedTitles(files: map<string, string>, md5: string -> string, promptBase: string,
                        titles: seq<string>): (r: map<int, string>)
    ensures forall i :: i in r <==> 0 <= i < |titles| && TitleKey(md5, promptBase, titles[i]) in files
    ensures forall i :: i in r ==> r[i] == Strip(files[TitleKey(md5, promptBase, titles[i])])
  {
    if titles == [] then map[]
    else
      var n := |titles| - 1;
      var prev := CachedTitles(files, md5, promptBase, titles[..n]);
      var key := TitleKey(md5, promptBase, titles[n]);
      if key in files then prev[n := Strip(files[key])] else prev
  }

  /** `uncached_idx`: the positions of titles without an entry, ascending. */
  function UncachedIdx(files: map<string, string>, md5: string -> string, promptBase: string,
                       titles: seq<string>): (r: seq<int>)
    ensures forall k :: 0 <= k < |r| ==> 0 <= r[k] < |titles|
    ensures forall k :: 0 <= k < |r| ==> TitleKey(md5, promptBase, titles[r[k]]) !in files
    ensures forall k, l :: 0 <= k < l < |r| ==> r[k] < r[l]
    ensures forall i :: 0 <= i < |titles| && TitleKey(md5, promptBase, titles[i]) !in files ==> i in r
  {
    if titles == [] then []
    else
      var n := |titles| - 1;
      var prev := UncachedIdx(files, md5, promptBase, titles[..n]);
      prev + (if TitleKey(md5, promptBase, titles[n]) in files then [] else [n])
  }

  // ---------------------------------------------------------------- prompt

  /** The uncached titles numbered from 1, in their original order. */
  function Numbered(titles: seq<string>, idx: seq<int>): (r: seq<string>)
    requires forall k :: 0 <= k < |idx| ==> 0 <= idx[k] < |titles|
    ensures |r| == |idx|
    ensures forall k :: 0 <= k < |idx| ==> r[k] == NatToString(k + 1) + ". " + titles[idx[k]]
  {
    seq(|idx|, k requires 0 <= k < |idx| => NatToString(k + 1) + ". " + titles[idx[k]])
  }

  /** A numbered title read back as a response line names its position in the
      uncached list, when the title does not end in blank. */
  lemma NumberedTitleIndex(k: nat, title: string)
    requires |title| > 0 && !IsSpace(title[|title| - 1])
    ensures ParseNumbered(NatToString(k + 1) + ". " + title) == LineParse.Numbered(k, " " + title)
  {
    assert NatToString(k + 1) + ". " + title == NatToString(k + 1) + "." + (" " + title);
    NumberedRoundTrip(k, " " + title);
  }

  // ---------------------------------------------------------------- translations dict

  /** A dict in insertion order: assigning to a present key keeps its position. */
  type Assoc = seq<(int, string)>

  function Put(a: Assoc, k: int, v: string): (r: Assoc)
    ensures forall e :: e in r ==> e in a || e == (k, v)
  {
    if a == [] then [(k, v)]
    else if a[0].0 == k then [(k, v)] + a[1..]
    else [a[0]] + Put(a[1..], k, v)
  }

  function Get(a: Assoc, k: int): Option<string> {
    if a == [] then None else if a[0].0 == k then Some(a[0].1) else Get(a[1..], k)
  }

  /** The last assignment to a key is the one read back; other keys are untouched. */
  lemma {:induction false} PutGet(a: Assoc, k: int, v: string, k': int)
    ensures Get(Put(a, k, v), k') == if k' == k then Some(v) else Get(a, k')
  {
    if a != [] && a[0].0 != k {
      PutGet(a[1..], k, v, k');
    }
  }

  /** No key twice. */
  predicate DistinctKeys(a: Assoc) {
    forall i, j :: 0 <= i < j < |a| ==> a[i].0 != a[j].0
  }

  lemma {:induction false} PutDistinct(a: Assoc, k: int, v: string)
    requires DistinctKeys(a)
    ensures DistinctKeys(Put(a, k, v))
    ensures forall e :: e in Put(a, k, v) ==> e.0 == k || exists e' :: e' in a && e'.0 == e.0
  {
    if a != [] && a[0].0 != k {
      PutDistinct(a[1..], k, v);
      var r := Put(a[1..], k, v);
      forall j | 0 <= j < |r|
        ensures r[j].0 != a[0].0
      {
        assert r[j] in r;
        if r[j].0 != k {
          var e' :| e' in a[1..] && e'.0 == r[j].0;
          var m :| 0 <= m < |a[1..]| && a[1..][m] == e';
          assert a[m + 1] == e';
        }
      }
    }
  }

  /**
   * The parse loop: `translations[num] = trans` for each numbered line with an index
   * inside the uncached list; None as soon as a line's number is not an integer
   * (the ValueError that ends the attempt).
   */
  function Translations(lines: seq<string>, count: nat): (r: Option<Assoc>)
    ensures r.Some? ==> DistinctKeys(r.value) && forall e :: e in r.value ==> 0 <= e.0 < count
  {
    if lines == [] then Some([])
    else
      match Translations(lines[..|lines| - 1], count)
      case None => None
      case Some(a) => TranslationStep(a, lines[|lines| - 1], count)
  }

  /** One response line read into the translations so far. */
  function TranslationStep(a: Assoc, line: string, count: nat): (r: Option<Assoc>)
    requires DistinctKeys(a) && forall e :: e in a ==> 0 <= e.0 < count
    ensures r.Some? ==> DistinctKeys(r.value) && forall e :: e in r.value ==> 0 <= e.0 < count
  {
    match ParseNumbered(line)
    case Skip => Some(a)
    case NotInteger => None
    case Numbered(num, rest) =>
      if 0 <= num < count then
        PutDistinct(a, num, StripQuotes(Strip(rest)));
        Some(Put(a, num, StripQuotes(Strip(rest))))
      else Some(a)
  }

  /** One bad number anywhere discards the whole response. */
  lemma {:induction false} NotIntegerDiscards(lines: seq<string>, count: nat, i: nat)
    requires i < |lines| && ParseNumbered(lines[i]) == NotInteger
    ensures Translations(lines, count) == None
  {
    if i < |lines| - 1 {
      assert lines[..|lines| - 1][i] == lines[i];
      NotIntegerDiscards(lines[..|lines| - 1], count, i);
    }
  }

  /** The last line naming a position decides its translation: its rest, stripped of
      blanks and then of quote characters. */
  lemma LastLineWins(lines: seq<string>, count: nat, line: string)
    requires Translations(lines, count).Some?
    requires ParseNumbered(line).Numbered? && 0 <= ParseNumbered(line).index < count
    ensures var p := ParseNumbered(line);
      Translations(lines + [line], count).Some? &&
      Get(Translations(lines + [line], count).value, p.index) == Some(StripQuotes(Strip(p.rest)))
  {
    var p := ParseNumbered(line);
    assert (lines + [line])[..|lines|] == lines;
    PutGet(Translations(lines, count).value, p.index, StripQuotes(Strip(p.rest)), p.index);
  }

  /** A line that sets position `p`: a numbered line with that index, inside the list. */
  predicate NamesPosition(line: string, count: nat, p: int) {
    ParseNumbered(line).Numbered? && ParseNumbered(line).index == p && 0 <= p < count
  }

  /** A line that does not set `p` leaves its translation as it was. */
  lemma StepKeepsOther(a: Assoc, line: string, count: nat, p: int)
    requires DistinctKeys(a) && forall e :: e in a ==> 0 <= e.0 < count
    requires TranslationStep(a, line, count).Some? && !NamesPosition(line, count, p)
    ensures Get(TranslationStep(a, line, count).value, p) == Get(a, p)
  {
    var q := ParseNumbered(line);
    if q.Numbered? && 0 <= q.index < count {
      PutGet(a, q.index, StripQuotes(Strip(q.rest)), p);
    }
  }

  /**
   * In a kept response, the translation of a position is set by the last line naming
   * it: line `k` names `p` and no later line does, so `p` reads back line `k`'s rest,
   * stripped of blanks and then of quote characters.
   */
  lemma {:induction false} TranslationOfLastNaming(lines: seq<string>, count: nat, k: int, p: int)
    requires Translations(lines, count).Some?
    requires 0 <= k < |lines| && NamesPosition(lines[k], count, p)
    requires forall k2 :: k < k2 < |lines| ==> !NamesPosition(lines[k2], count, p)
    ensures Get(Translations(lines, count).value, p) == Some(StripQuotes(Strip(ParseNumbered(lines[k]).rest)))
  {
    var n := |lines| - 1;
    var init := lines[..n];
    TranslationsLast(lines, count);
    var a := Translations(init, count).value;
    if k == n {
      StepNamed(a, lines[n], count, p);
    } else {
      assert init[k] == lines[k];
      forall k2 | k < k2 < |init|
        ensures !NamesPosition(init[k2], count, p)
      {
        assert init[k2] == lines[k2];
      }
      TranslationOfLastNaming(init, count, k, p);
      StepKeepsOther(a, lines[n], count, p);
    }
  }

  /** A kept response is the kept response without its last line, read one line further. */
  lemma TranslationsLast(lines: seq<string>, count: nat)
    requires |lines| > 0 && Translations(lines, count).Some?
    ensures var init := lines[..|lines| - 1];
      Translations(init, count).Some? &&
      Translations(lines, count) == TranslationStep(Translations(init, count).value, lines[|lines| - 1], count)
  {
  }

  /** A line that sets `p` reads its rest, stripped, into `p`. */
  lemma StepNamed(a: Assoc, line: string, count: nat, p: int)
    requires DistinctKeys(a) && forall e :: e in a ==> 0 <= e.0 < count
    requires NamesPosition(line, count, p)
    ensures TranslationStep(a, line, count).Some?
    ensures Get(TranslationStep(a, line, count).value, p) == Some(StripQuotes(Strip(ParseNumbered(line).rest)))
  {
    var v := StripQuotes(Strip(ParseNumbered(line).rest));
    assert TranslationStep(a, line, count) == Some(Put(a, p, v));
    PutGet(a, p, v, p);
  }

  /** A position no line names has no translation. */
  lemma {:induction false} UnnamedUntranslated(lines: seq<string>, count: nat, p: int)
    requires Translations(lines, count).Some?
    requires forall k :: 0 <= k < |lines| ==> !NamesPosition(lines[k], count, p)
    ensures Get(Translations(lines, count).value, p) == None
  {
    if lines != [] {
      var n := |lines| - 1;
      var init := lines[..n];
      forall k | 0 <= k < |init|
        ensures !NamesPosition(init[k], count, p)
      {
        assert init[k] == lines[k];
      }
      UnnamedUntranslated(init, count, p);
      StepKeepsOther(Translations(init, count).value, lines[n], count, p);
    }
  }

  // ---------------------------------------------------------------- cache writes and result

  /** The cached map and the cache directory while translations are written back. */
  datatype State = State(cached: map<int, string>, files: map<string, string>)

  /** The write loop over `translations.items()`, in dict order. */
  function WriteBack(tr: Assoc, idx: seq<int>, titles: seq<string>, md5: string -> string, promptBase: string,
                     st: State): State
    requires forall e :: e in tr ==> 0 <= e.0 < |idx|
    requires forall k :: 0 <= k < |idx| ==> 0 <= idx[k] < |titles|
  {
    if tr == [] then st
    else
      var n := |tr| - 1;
      assert forall e :: e in tr[..n] ==> e in tr;
      assert tr[n] in tr;
      var prev := WriteBack(tr[..n], idx, titles, md5, promptBase, st);
      var orig := idx[tr[n].0];
      State(prev.cached[orig := tr[n].1], prev.files[TitleKey(md5, promptBase, titles[orig]) := tr[n].1])
  }

  /** The write loop is the loop over all but the last entry, then one more write. */
  lemma WriteBackLast(tr: Assoc, idx: seq<int>, titles: seq<string>, md5: string -> string, promptBase: string,
                      st: State)
    requires tr != []
    requires forall e :: e in tr ==> 0 <= e.0 < |idx|
    requires forall k :: 0 <= k < |idx| ==> 0 <= idx[k] < |titles|
    ensures var init := tr[..|tr| - 1];
      (forall e :: e in init ==> 0 <= e.0 < |idx|) &&
      0 <= tr[|tr| - 1].0 < |idx| &&
      WriteBack(tr, idx, titles, md5, promptBase, st).cached ==
        WriteBack(init, idx, titles, md5, promptBase, st).cached[idx[tr[|tr| - 1].0] := tr[|tr| - 1].1]
  {
    assert tr[|tr| - 1] in tr;
  }

  /** After the write loop every translated position holds its translation. */
  lemma {:induction false} WriteBackTranslated(tr: Assoc, idx: seq<int>, titles: seq<string>, md5: string -> string,
                                               promptBase: string, st: State)
    requires DistinctKeys(tr)
    requires forall e :: e in tr ==> 0 <= e.0 < |idx|
    requires forall k :: 0 <= k < |idx| ==> 0 <= idx[k] < |titles|
    requires forall k, l :: 0 <= k < l < |idx| ==> idx[k] < idx[l]
    ensures forall m :: 0 <= m < |tr| ==>
      idx[tr[m].0] in WriteBack(tr, idx, titles, md5, promptBase, st).cached &&
      WriteBack(tr, idx, titles, md5, promptBase, st).cached[idx[tr[m].0]] == tr[m].1
  {
    if tr != [] {
      var n := |tr| - 1;
      var init := tr[..n];
      WriteBackLast(tr, idx, titles, md5, promptBase, st);
      assert DistinctKeys(init) by {
        forall i, j | 0 <= i < j < |init|
          ensures init[i].0 != init[j].0
        {
          assert init[i] == tr[i] && init[j] == tr[j];
        }
      }
      WriteBackTranslated(init, idx, titles, md5, promptBase, st);
      var prevCached := WriteBack(init, idx, titles, md5, promptBase, st).cached;
      var c := WriteBack(tr, idx, titles, md5, promptBase, st).cached;
      forall m | 0 <= m < n
        ensures idx[tr[m].0] in c && c[idx[tr[m].0]] == tr[m].1
      {
        assert init[m] == tr[m];
        assert tr[m] in tr;
        assert tr[m].0 != tr[n].0;
        if tr[m].0 < tr[n].0 {
          assert idx[tr[m].0] < idx[tr[n].0];
        } else {
          assert idx[tr[n].0] < idx[tr[m].0];
        }
      }
    }
  }

  /** After the write loop every position no entry translates keeps what it had. */
  lemma {:induction false} WriteBackKept(tr: Assoc, idx: seq<int>, titles: seq<string>, md5: string -> string,
                                         promptBase: string, st: State, i: int)
    requires forall e :: e in tr ==> 0 <= e.0 < |idx|
    requires forall k :: 0 <= k < |idx| ==> 0 <= idx[k] < |titles|
    requires forall e :: e in tr ==> idx[e.0] != i
    ensures var c := WriteBack(tr, idx, titles, md5, promptBase, st).cached;
      (i in c <==> i in st.cached) && (i in st.cached ==> c[i] == st.cached[i])
  {
    if tr != [] {
      var n := |tr| - 1;
      assert forall e :: e in tr[..n] ==> e in tr;
      assert tr[n] in tr;
      WriteBackKept(tr[..n], idx, titles, md5, promptBase, st, i);
    }
  }

  /** After the write loop every translated position holds its translation and every
      other position keeps what it had. */
  lemma WriteBackCached(tr: Assoc, idx: seq<int>, titles: seq<string>, md5: string -> string,
                        promptBase: string, st: State)
    requires DistinctKeys(tr)
    requires forall e :: e in tr ==> 0 <= e.0 < |idx|
    requires forall k :: 0 <= k < |idx| ==> 0 <= idx[k] < |titles|
    requires forall k, l :: 0 <= k < l < |idx| ==> idx[k] < idx[l]
    ensures var r := WriteBack(tr, idx, titles, md5, promptBase, st);
      && (forall e :: e in tr ==> idx[e.0] in r.cached && r.cached[idx[e.0]] == e.1)
      && (forall i :: (forall e :: e in tr ==> idx[e.0] != i) ==>
            (i in r.cached <==> i in st.cached) && (i in st.cached ==> r.cached[i] == st.cached[i]))
  {
    WriteBackTranslated(tr, idx, titles, md5, promptBase, st);
    forall e | e in tr
      ensures var c := WriteBack(tr, idx, titles, md5, promptBase, st).cached;
        idx[e.0] in c && c[idx[e.0]] == e.1
    {
      var m :| 0 <= m < |tr| && tr[m] == e;
    }
    forall i | forall e :: e in tr ==> idx[e.0] != i
      ensures var c := WriteBack(tr, idx, titles, md5, promptBase, st).cached;
        (i in c <==> i in st.cached) && (i in st.cached ==> c[i] == st.cached[i])
    {
      WriteBackKept(tr, idx, titles, md5, promptBase, st, i);
    }
  }

  /** Only keys of translated titles are written, and no entry is removed. */
  lemma {:induction false} WriteBackFiles(tr: Assoc, idx: seq<int>, titles: seq<string>, md5: string -> string,
                                          promptBase: string, st: State)
    requires forall e :: e in tr ==> 0 <= e.0 < |idx|
    requires forall k :: 0 <= k < |idx| ==> 0 <= idx[k] < |titles|
    ensures var r := WriteBack(tr, idx, titles, md5, promptBase, st);
      && st.files.Keys <= r.files.Keys
      && (forall key :: key in st.files && (forall e :: e in tr ==> key != TitleKey(md5, promptBase, titles[idx[e.0]])) ==>
            r.files[key] == st.files[key])
      && (forall key :: key in r.files && key !in st.files ==>
            exists e :: e in tr && key == TitleKey(md5, promptBase, titles[idx[e.0]]))
  {
    if tr != [] {
      var n := |tr| - 1;
      assert forall e :: e in tr[..n] ==> e in tr;
      assert tr[n] in tr;
      WriteBackFiles(tr[..n], idx, titles, md5, promptBase, st);
    }
  }

  /** `[cached.get(i, titles[i]) for i in range(len(titles))]`. */
  function Assemble(titles: seq<string>, cached: map<int, string>): (r: seq<string>)
    ensures |r| == |titles|
    ensures forall i :: 0 <= i < |titles| ==> r[i] == (if i in cached then cached[i] else titles[i])
  {
    seq(|titles|, i requires 0 <= i < |titles| => if i in cached then cached[i] else titles[i])
  }

  // ---------------------------------------------------------------- translate_batch

  /** One more title scanned. */
  lemma ScanSnoc(files: map<string, string>, md5: string -> string, promptBase: string, titles: seq<string>, i: int)
    requires 0 <= i < |titles|
    ensures var key := TitleKey(md5, promptBase, titles[i]);
      && CachedTitles(files, md5, promptBase, titles[..i + 1]) ==
           (if key in files then CachedTitles(files, md5, promptBase, titles[..i])[i := Strip(files[key])]
            else CachedTitles(files, md5, promptBase, titles[..i]))
      && UncachedIdx(files, md5, promptBase, titles[..i + 1]) ==
           UncachedIdx(files, md5, promptBase, titles[..i]) + (if key in files then [] else [i])
  {
    assert titles[..i + 1][..i] == titles[..i];
  }

  /** The cache scan loop. */
  method ScanTitles(files: map<string, string>, md5: string -> string, promptBase: string, titles: seq<string>)
    returns (cached: map<int, string>, uncachedIdx: seq<int>)
    ensures cached == CachedTitles(files, md5, promptBase, titles)
    ensures uncachedIdx == UncachedIdx(files, md5, promptBase, titles)
  {
    cached := map[];
    uncachedIdx := [];
    var i := 0;
    while i < |titles|
      invariant 0 <= i <= |titles|
      invariant cached == CachedTitles(files, md5, promptBase, titles[..i])
      invariant uncachedIdx == UncachedIdx(files, md5, promptBase, titles[..i])
    {
      ScanSnoc(files, md5, promptBase, titles, i);
      var key := TitleKey(md5, promptBase, titles[i]);
      if key in files {
        cached := cached[i := Strip(files[key])];
      } else {
        uncachedIdx := uncachedIdx + [i];
      }
      i := i + 1;
    }
    assert titles[..|titles|] == titles;
  }

  /** The parse loop; None when a line's number raises. */
  method ParseTranslations(lines: seq<string>, count: nat) returns (tr: Option<Assoc>)
    ensures tr == Translations(lines, count)
  {
    var translations: Assoc := [];
    var j := 0;
    while j < |lines|
      invariant 0 <= j <= |lines|
      invariant Translations(lines[..j], count) == Some(translations)
    {
      assert lines[..j + 1][..j] == lines[..j];
      assert Translations(lines[..j + 1], count) == TranslationStep(translations, lines[j], count);
      var p := ParseNumbered(lines[j]);
      if p.NotInteger? {
        NotIntegerDiscards(lines, count, j);
        return None;
      }
      if p.Numbered? {
        var trans := StripQuotes(Strip(p.rest));
        if 0 <= p.index < count {
          translations := Put(translations, p.index, trans);
        }
      }
      j := j + 1;
    }
    assert lines[..|lines|] == lines;
    tr := Some(translations);
  }

  /** The write-back loop over the translations. */
  method WriteTranslations(store: Store, md5: string -> string, promptBase: string, titles: seq<string>,
                           idx: seq<int>, tr: Assoc, cached: map<int, string>)
    returns (cachedOut: map<int, string>)
    requires forall e :: e in tr ==> 0 <= e.0 < |idx|
    requires forall k :: 0 <= k < |idx| ==> 0 <= idx[k] < |titles|
    modifies store
    ensures State(cachedOut, store.files) == WriteBack(tr, idx, titles, md5, promptBase, State(cached, old(store.files)))
  {
    cachedOut := cached;
    var k := 0;
    while k < |tr|
      invariant 0 <= k <= |tr|
      invariant forall e :: e in tr[..k] ==> e in tr
      invariant State(cachedOut, store.files) == WriteBack(tr[..k], idx, titles, md5, promptBase, State(cached, old(store.files)))
    {
      assert tr[..k + 1][..k] == tr[..k];
      assert tr[k] in tr;
      var (localIdx, trans) := tr[k];
      var origIdx := idx[localIdx];
      store.files := store.files[TitleKey(md5, promptBase, titles[origIdx]) := trans];
      cachedOut := cachedOut[origIdx := trans];
      k := k + 1;
    }
    assert tr[..|tr|] == tr;
  }

  /**
   * `translate_batch(session, api_key, prompt_base, titles)`: `store` is the cache
   * directory, `md5` the hash, `fill(prompt_base, numbered)` the batch prompt text
   * and `g` answers the requests. Returns the titles, the seconds slept and the
   * number of requests sent.
   */
  method TranslateBatch(store: Store, md5: string -> string, promptBase: string, titles: seq<string>,
                        fill: (string, string) -> string, g: Oracle)
    returns (out: seq<string>, waits: seq<int>, requests: nat)
    modifies store
    ensures promptBase == "" || titles == [] ==> out == titles && store.files == old(store.files) && requests == 0 && waits == []
    ensures promptBase != "" && titles != [] ==>
      var cached := CachedTitles(old(store.files), md5, promptBase, titles);
      var idx := UncachedIdx(old(store.files), md5, promptBase, titles);
      var prompt := fill(promptBase, Join(Numbered(titles, idx), "\n"));
      if idx == [] then
        out == Assemble(titles, cached) && store.files == old(store.files) && requests == 0 && waits == []
      else
        && requests == Requests(g, prompt)
        && waits == Backoff(RateLimits(g, prompt))
        && var tr := if Response(g, prompt).Some? then Translations(Split(Strip(Response(g, prompt).value), '\n'), |idx|) else None;
           match tr
           case None => out == Assemble(titles, cached) && store.files == old(store.files)
           case Some(a) =>
             var st := WriteBack(a, idx, titles, md5, promptBase, State(cached, old(store.files)));
             out == Assemble(titles, st.cached) && store.files == st.files
  {
    waits := [];
    requests := 0;
    if promptBase == "" || titles == [] {
      out := titles;
      return;
    }
    var cached, uncachedIdx := ScanTitles(store.files, md5, promptBase, titles);
    if uncachedIdx == [] {
      out := Assemble(titles, cached);
      return;
    }
    var numbered := Join(Numbered(titles, uncachedIdx), "\n");
    var prompt := fill(promptBase, numbered);
    var response;
    response, waits, requests := Request(g, prompt);
    if response.Some? {
      var tr := ParseTranslations(Split(Strip(response.value), '\n'), |uncachedIdx|);
      if tr.Some? {
        cached := WriteTranslations(store, md5, promptBase, titles, uncachedIdx, tr.value, cached);
      }
    }
    out := Assemble(titles, cached);
  }

  /**
   * What the caller gets: one title per input title; a position translated by the
   * response holds that translation, a position with a cache entry and no new
   * translation holds the cached text, and every other position its original title.
   */
  lemma TranslateResult(files: map<string, string>, md5: string -> string, promptBase: string,
                        titles: seq<string>, tr: Assoc)
    requires var idx := UncachedIdx(files, md5, promptBase, titles);
      DistinctKeys(tr) && forall e :: e in tr ==> 0 <= e.0 < |idx|
    ensures var idx := UncachedIdx(files, md5, promptBase, titles);
      var cached := CachedTitles(files, md5, promptBase, titles);
      var out := Assemble(titles, WriteBack(tr, idx, titles, md5, promptBase, State(cached, files)).cached);
      && |out| == |titles|
      && (forall e :: e in tr ==> out[idx[e.0]] == e.1)
      && (forall i :: 0 <= i < |titles| && (forall e :: e in tr ==> idx[e.0] != i) ==>
            out[i] == if i in cached then cached[i] else titles[i])
  {
    var idx := UncachedIdx(files, md5, promptBase, titles);
    var cached := CachedTitles(files, md5, promptBase, titles);
    WriteBackCached(tr, idx, titles, md5, promptBase, State(cached, files));
  }
}
