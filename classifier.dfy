/**
 * The keyword/domain fallback classifier. `categorize_story` and `category_name`
 * are the same code in both packages (hndigest/config.py:320-346 and
 * hn_digest/config.py:302-328); only the table and the default bucket differ, so
 * the search is written once here over a table and a default, and each config
 * module instantiates it with its own constants.
 */
module Classifier {
  import opened Wrappers
  import opened Text

  /** One entry of `CATEGORIES`: its key, its title keywords and its domains. */
  datatype Rule = Rule(key: string, keywords: seq<string>, domains: seq<string>)

  /** The thread kinds checked before every other category. */
  predicate IsPriority(key: string) {
    key == "show_hn" || key == "ask_hn"
  }

  /** The keys of a table. */
  function Keys(table: seq<Rule>): set<string> {
    set i | 0 <= i < |table| :: table[i].key
  }

  /** `CATEGORIES[key]`: the first rule with that key. */
  function Lookup(table: seq<Rule>, key: string): (r: Option<Rule>)
    ensures r.Some? ==> r.value in table && r.value.key == key
    ensures r.None? <==> key !in Keys(table)
  {
    if |table| == 0 then None
    else if table[0].key == key then Some(table[0])
    else
      var r := Lookup(table[1..], key);
      assert Keys(table) == {table[0].key} + Keys(table[1..]) by {
        assert forall i :: 1 <= i < |table| ==> table[i] == table[1..][i - 1];
      }
      r
  }

  /** The rule at index `i` is the one found when no earlier rule has its key. */
  lemma {:induction false} LookupAt(table: seq<Rule>, key: string, i: nat)
    requires i < |table| && table[i].key == key
    requires forall j :: 0 <= j < i ==> table[j].key != key
    ensures Lookup(table, key) == Some(table[i])
    decreases i
  {
    if i > 0 {
      assert table[0].key != key;
      assert forall j :: 0 <= j < i - 1 ==> table[1..][j] == table[j + 1];
      LookupAt(table[1..], key, i - 1);
    }
  }

  /** A table usable by the classifier: `CATEGORIES["show_hn"]` and `CATEGORIES["ask_hn"]` exist. */
  predicate HasThreadKinds(table: seq<Rule>) {
    "show_hn" in Keys(table) && "ask_hn" in Keys(table)
  }

  /** A rule fires when one of its keywords is in the lowercased title, or one of
      its domains is in the lowercased domain. */
  predicate Matches(r: Rule, titleLower: string, domainLower: string) {
    ContainsAny(titleLower, r.keywords) || ContainsAny(domainLower, r.domains)
  }

  /** Index of the first non-priority rule that fires, or |table| when none does. */
  function FirstMatch(table: seq<Rule>, titleLower: string, domainLower: string): (i: nat)
    ensures i <= |table|
    ensures i < |table| ==> !IsPriority(table[i].key) && Matches(table[i], titleLower, domainLower)
    ensures forall j :: 0 <= j < i ==> IsPriority(table[j].key) || !Matches(table[j], titleLower, domainLower)
  {
    if |table| == 0 then 0
    else if !IsPriority(table[0].key) && Matches(table[0], titleLower, domainLower) then 0
    else 1 + FirstMatch(table[1..], titleLower, domainLower)
  }

  /** True when the title names one of the keywords of thread kind `key`. */
  predicate ThreadHit(table: seq<Rule>, key: string, titleLower: string)
    requires HasThreadKinds(table) && IsPriority(key)
  {
    ContainsAny(titleLower, Lookup(table, key).value.keywords)
  }

  /** `categorize_story`: "show_hn", then "ask_hn", then the first firing rule in
      table order, then the default bucket. */
  function Categorize(table: seq<Rule>, default: string, title: string, domain: string): (r: string)
    requires HasThreadKinds(table)
    ensures r == default || r in Keys(table)
  {
    var t := Lower(title);
    var d := Lower(domain);
    if ThreadHit(table, "show_hn", t) then "show_hn"
    else if ThreadHit(table, "ask_hn", t) then "ask_hn"
    else
      var i := FirstMatch(table, t, d);
      if i < |table| then table[i].key else default
  }

  /** The first rule to fire in table order decides, whatever fires after it. */
  lemma {:induction false} CategorizeFirstMatch(table: seq<Rule>, default: string, title: string, domain: string, i: nat)
    requires HasThreadKinds(table)
    requires !ThreadHit(table, "show_hn", Lower(title)) && !ThreadHit(table, "ask_hn", Lower(title))
    requires i < |table| && !IsPriority(table[i].key) && Matches(table[i], Lower(title), Lower(domain))
    requires forall j :: 0 <= j < i ==> IsPriority(table[j].key) || !Matches(table[j], Lower(title), Lower(domain))
    ensures Categorize(table, default, title, domain) == table[i].key
  {
  }

  /** With no thread keyword and no firing rule, the result is the default bucket. */
  lemma CategorizeDefault(table: seq<Rule>, default: string, title: string, domain: string)
    requires HasThreadKinds(table)
    requires !ThreadHit(table, "show_hn", Lower(title)) && !ThreadHit(table, "ask_hn", Lower(title))
    requires forall j :: 0 <= j < |table| ==> IsPriority(table[j].key) || !Matches(table[j], Lower(title), Lower(domain))
    ensures Categorize(table, default, title, domain) == default
  {
  }

  /** "show_hn" is the answer exactly when the title names a Show HN keyword, and
      "ask_hn" exactly when it names an Ask HN keyword and no Show HN one. */
  lemma ThreadKindsFirst(table: seq<Rule>, default: string, title: string, domain: string)
    requires HasThreadKinds(table) && !IsPriority(default)
    ensures Categorize(table, default, title, domain) == "show_hn" <==> ThreadHit(table, "show_hn", Lower(title))
    ensures Categorize(table, default, title, domain) == "ask_hn" <==>
      !ThreadHit(table, "show_hn", Lower(title)) && ThreadHit(table, "ask_hn", Lower(title))
  {
  }

  /** `CATEGORY_NAMES.get(key, {}).get(language, key)`. */
  function CategoryName(names: map<string, map<string, string>>, key: string, language: string): string {
    if key in names && language in names[key] then names[key][language] else key
  }

  /** A key and language both in the table give the table's name; a missing key or a
      missing language falls back to the key itself. */
  lemma CategoryNameFallback(names: map<string, map<string, string>>, key: string, language: string)
    ensures key in names && language in names[key] ==> CategoryName(names, key, language) == names[key][language]
    ensures key !in names ==> CategoryName(names, key, language) == key
    ensures key in names && language !in names[key] ==> CategoryName(names, key, language) == key
  {
  }
}
