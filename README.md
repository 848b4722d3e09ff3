# hndigest in Dafny

This project models the core of **hndigest**, a tool that turns recent Hacker News
stories into a weekly digest for Telegram channels. The repository holds two
generations of the same pipeline:

- `hndigest/` is the older pipeline. It selects stories from search hits. It asks a
  generation API to categorise and rank them, and separately to translate their
  titles. It posts the result as a thread whose root can later be edited.
- `hn_digest/` is the newer pipeline. It fetches each story's article text and
  makes one generation call per channel that categorises, ranks, translates and
  summarises every story at once. It formats the digest as Telegram HTML and posts
  it as a thread.

Both pipelines keep a file cache keyed by a hash of the request. They share one
retry schedule: three attempts, and after an HTTP 429 they sleep 10, 20 or 30
seconds.

## Modules

| Dafny module | file | models |
|---|---|---|
| `Wrappers` | wrappers.dfy | Python's `None` as `Option` |
| `Text` | text.dfy | the Python string built-ins the core uses: `lower`, `strip`, `split`, `join`, `in`, `int()`, `str()`, slicing |
| `Records` | records.dfy | the story dict, and the "dict filled by id" pattern of the cache scans |
| `Fields` | fields.dfy | the numbered response lines, and the `field=value,...` records read by `_extract_field` |
| `Cache` | cache.dfy | a cache directory, as a class whose `files` map the methods update |
| `Generation` | generation.dfy | the attempt loop the three batch calls share; the API is an oracle |
| `Classifier` | classifier.dfy | `categorize_story`, over any category table |
| `LegacyConfig` | legacy_config.dfy | hndigest/config.py |
| `LegacyHn` | legacy_hn.dfy | `_parse_hits` and `select_stories` of hndigest/hn.py |
| `LegacyCategorize` | legacy_categorize.dfy | hndigest/categorize.py |
| `LegacyTranslate` | legacy_translate.dfy | hndigest/translate.py |
| `LegacyTelegram` | legacy_telegram.dfy | `post_thread` of hndigest/telegram.py |
| `DigestConfig` | digest_config.dfy | hn_digest/config.py |
| `DigestContent` | digest_content.dfy | `_truncate_words`, `_fetch_one` and `fetch_articles` of hn_digest/content.py |
| `DigestProcess` | digest_process.dfy | hn_digest/process.py |
| `DigestFormatter` | digest_formatter.dfy | hn_digest/formatter.py |
| `DigestCli` | digest_cli.dfy | `generate_digest` of hn_digest/cli.py, from the selection onward |
| `DigestTelegram` | digest_telegram.dfy | `post_thread` of hn_digest/telegram.py |

Loops in the source are `method`s with `while` loops. Each one is proved equal to a
prefix-recursive function, and the properties are lemmas about those functions. The
cache directory is a `Cache.Store` object. Every batch call changes it in place, and
its contract gives the new `files` as a function of the old ones. Sleeps are returned
as the list of seconds slept. Requests are counted, and the API answers through an
oracle parameter.

## Model

| member | source | states |
|---|---|---|
| `Cache.Store.constructor` | hndigest/categorize.py:70-81 | a cache directory starts with exactly the given files |
| `Text.Lower` | hndigest/config.py:327 | lowercasing keeps the length and maps each character on its own |
| `Text.LowerConcat` | hn_digest/process.py:140 | lowercasing distributes over concatenation |
| `Text.Split` | hndigest/categorize.py:109 | `split` never returns an empty list, and no piece holds the separator |
| `Text.JoinSplit` | hndigest/categorize.py:109 | joining the pieces of a split with the separator gives the text back |
| `Text.SplitJoin` | hndigest/categorize.py:158 | splitting a join of separator-free pieces gives the pieces back |
| `Text.SplitOnce` | hndigest/categorize.py:113 | `split(c, 1)` gives one piece exactly when `c` is absent, else two |
| `Text.SplitOnceAt` | hndigest/categorize.py:161 | `split(c, 1)` cuts at the first `c` |
| `Text.StripByStripped` | hndigest/translate.py:67 | the result of `strip(chars)` starts and ends with no stripped character |
| `Text.StripLeadingBlank` | hndigest/categorize.py:123 | a blank in front of a stripped non-empty text is stripped off again |
| `Text.Words` | hn_digest/content.py:19 | `split()` yields non-empty runs of non-blank characters |
| `Text.WordsJoin` | hn_digest/content.py:20-22 | joining words with single spaces and splitting again gives the words back |
| `Text.NatToString` | hndigest/translate.py:35-36 | `str(n)` of a natural number is a non-empty string of digits |
| `Text.ParseIntOfInt` | hndigest/hn.py:16 | `int(str(n)) == n` for every integer |
| `Text.PyTake` | hn_digest/formatter.py:54-55 | `s[:n]` is a prefix of `s`, bounded by `n` when `n >= 0` |
| `Records.Ids` | hn_digest/formatter.py:56 | the id set holds the id of every story and nothing else |
| `Records.ByIdKeys` | hndigest/categorize.py:70-81 | a dict filled by id holds the id of every story with an entry, and each value is the entry of a story with that id |
| `Records.ByIdLast` | hn_digest/cli.py:81 | a later story with the same id overwrites: each value is the entry of the last story with that id that has one |
| `Records.ByIdFull` | hn_digest/process.py:177-190 | the dict has at most one entry per story, and one per story only when every story has an entry and no two share an id |
| `Records.SubseqMember` | hndigest/hn.py:70-78 | a story of a subsequence is a story of the sequence |
| `Fields.ParseNumbered` | hndigest/categorize.py:110-121 | a line is skipped exactly when, once stripped, it is empty, not digit-led, or without "." |
| `Fields.NumberedRoundTrip` | hndigest/categorize.py:113-117 | a line numbered `i + 1` reads back as index `i`, whatever follows the "." |
| `Fields.NotIntegerExample` | hndigest/translate.py:66 | a digit-led number `int()` rejects, such as "1a", is a ValueError and not a skip |
| `Fields.NotIntegerLine` | hn_digest/process.py:134-137 | every stripped digit-led line whose number `int()` rejects reads as a ValueError |
| `Fields.ExtractFrom` | hndigest/categorize.py:158-162 | a value read from comma-split parts is stripped and has no comma |
| `Fields.ExtractField` | hndigest/categorize.py:156-162 | `_extract_field` returns a stripped value with no comma |
| `Fields.ExtractFromAt` | hndigest/categorize.py:158-161 | the first part written `field=value` decides the value |
| `Fields.RecordField` | hndigest/categorize.py:156-162 | every field of a written record reads back as the value written for it |
| `Fields.RecordStripped` | hndigest/categorize.py:74 | the `.strip()` after `read_text` leaves a written record unchanged |
| `Fields.SpacedRecordField` | hn_digest/process.py:142-145 | the blank after each comma of a response line does not change the value read for any field |
| `Fields.SpacedRecordStripped` | hn_digest/process.py:139 | a spaced record has no blank at either end |
| `Fields.LowerSpacedRecord` | hn_digest/process.py:140 | lowercasing a record with lowercase field names lowercases the values only |
| `Generation.SettledFrom` | hndigest/categorize.py:95-151 | the loop settles at the first attempt that is not a 429, or after three |
| `Generation.Requests` | hndigest/categorize.py:95 | one to three requests are sent |
| `Generation.Backoff` | hndigest/categorize.py:142-145 | the `k`-th 429 sleeps `10 * k` seconds |
| `Generation.SettledAt` | hndigest/translate.py:83-92 | the attempt the loop settles at is the first non-429 reply |
| `Generation.Request` | hn_digest/process.py:195-240 | the attempt loop returns the settled response text, the sleeps of its 429s and its request count |
| `Generation.TwoRateLimitsThenAnswer` | hndigest/translate.py:46-86 | two 429s and then an answer give three requests, sleeps of 10 and 20 seconds, and that answer |
| `Generation.NotRateLimitedFirst` | hndigest/categorize.py:146-151 | a first reply that is not a 429 ends the loop after one request with no sleep |
| `Generation.AlwaysRateLimited` | hn_digest/process.py:230-242 | three 429s give three requests, 60 seconds of sleep and nothing to parse |
| `Classifier.Lookup` | hndigest/config.py:332 | `CATEGORIES[key]` finds a rule with that key exactly when the key is in the table |
| `Classifier.LookupAt` | hndigest/config.py:332 | the lookup finds the first rule with the key |
| `Classifier.FirstMatch` | hndigest/config.py:336-344 | the first non-priority rule that fires, after only non-firing or priority rules |
| `Classifier.Categorize` | hndigest/config.py:325-346 | the category is a key of the table or the default bucket |
| `Classifier.CategorizeFirstMatch` | hn_digest/config.py:318-326 | without a thread keyword, the first firing rule in table order decides |
| `Classifier.CategorizeDefault` | hn_digest/config.py:328 | with no thread keyword and no firing rule, the default bucket is returned |
| `Classifier.ThreadKindsFirst` | hn_digest/config.py:312-316 | "show_hn" exactly when a Show HN keyword is in the title; "ask_hn" exactly when an Ask HN keyword is and no Show HN one |
| `Classifier.CategoryNameFallback` | hndigest/config.py:320-322 | a key and language in the name table give the table's name; a missing key or a missing language gives the key itself |
| `LegacyConfig.ThreadKindsOfTable` | hndigest/config.py:309-316 | the table holds the "show_hn" and "ask_hn" rules |
| `LegacyConfig.CategoryKeys` | hndigest/config.py:102-317 | the table's keys are exactly the eleven category keys |
| `LegacyConfig.NamedKeys` | hndigest/config.py:73-86 | every table key has a display name in "uz", "ru" and "en" |
| `LegacyConfig.ShowHnFirst` | hndigest/config.py:330-334 | a story is "show_hn" exactly when its lowercased title contains "show hn" |
| `LegacyConfig.AskHnNext` | hndigest/config.py:330-334 | a story is "ask_hn" exactly when its lowercased title contains "ask hn" and not "show hn" |
| `LegacyConfig.CategorizeStoryKey` | hndigest/config.py:325-346 | every story lands in a key of the table ("culture" is one) |
| `LegacyConfig.CategorizeStoryNamed` | hndigest/config.py:320-322 | every story's category has a display name of its own in every channel language |
| `LegacyConfig.StoryCategoryName` | hndigest/config.py:320-322 | in "uz", "ru" and "en" the name of a story's category is its entry in `CATEGORY_NAMES`, not the key fallback |
| `LegacyConfig.UnnamedKeyShown` | hndigest/config.py:320-322 | a key without display names is shown as the key itself, in any language |
| `LegacyConfig.EmailIsAi` | hndigest/config.py:105 | keywords match as substrings, so a title "email" goes to "ai" |
| `LegacyHn.ParseHit` | hndigest/hn.py:14-22 | a hit gives a story exactly when its `objectID` is an integer, with that id |
| `LegacyHn.ParseHits` | hndigest/hn.py:12-23 | one story per hit in order, and a failure when any `objectID` is not an integer |
| `LegacyHn.CountsDefaultToZero` | hndigest/hn.py:17-20 | missing points and comment counts read as 0, a missing title or url as "" |
| `LegacyHn.ParseHitsRoundTrip` | hndigest/hn.py:12-23 | parsing the hits of fresh stories gives the stories back |
| `LegacyHn.Enrich` | hndigest/hn.py:63-64 | the score is points plus twice the comments, the domain is the host without "www.", nothing else changes |
| `LegacyHn.SurvivorsFrom` | hndigest/hn.py:57-65 | every survivor is an enriched kept input story, and every kept input story survives |
| `LegacyHn.SurvivorsNoJobs` | hndigest/hn.py:58-62 | no survivor is a job post or a short story without a link |
| `LegacyHn.InsertPerm` | hndigest/hn.py:67 | inserting adds exactly one story |
| `LegacyHn.InsertSorted` | hndigest/hn.py:67 | inserting into a list sorted by descending score keeps it sorted |
| `LegacyHn.InsertWithScore` | hndigest/hn.py:67 | an inserted story goes in front of the stories of its own score |
| `LegacyHn.SortByScoreCorrect` | hndigest/hn.py:67 | the sort orders by descending score, is a permutation, and keeps equal scores in input order |
| `LegacyHn.CountDomainSnoc` | hndigest/hn.py:75-76 | one more story adds one to its domain's count |
| `LegacyHn.GreedySubseq` | hndigest/hn.py:70-78 | the admitted stories are a subsequence of the sorted list |
| `LegacyHn.GreedyDomainCap` | hndigest/hn.py:74 | no domain has more than 3 admitted stories |
| `LegacyHn.GreedySize` | hndigest/hn.py:77-78 | at most `limit` stories; exactly one when `limit <= 0` and there is input |
| `LegacyHn.GreedyPrefix` | hndigest/hn.py:72-78 | the result after the first `j` stories is a prefix of the final result: the loop only appends |
| `LegacyHn.GreedyTurn` | hndigest/hn.py:73-78 | at story `j`'s turn the story is appended, or left out with its domain already at 3 or, past the first story, the limit already reached |
| `LegacyHn.GreedyLeftOut` | hndigest/hn.py:73-78 | per turn: a story left out at its turn had its domain full or came after the limit was reached; a story missing from the result was left out at its turn; so the result has its domain full or `limit` stories |
| `LegacyHn.GreedyDomainClosed` | hndigest/hn.py:74-76 | once a domain has 3 admitted stories, no later story of that domain is admitted |
| `LegacyHn.GreedyPrefersTop` | hndigest/hn.py:55-78 | over a list sorted by descending score, a story left out scores no higher than every admitted story of its domain (domain full) or than every admitted story (limit reached) |
| `LegacyHn.GreedyCorrect` | hndigest/hn.py:70-78 | all of the above about the admission loop, the preference for top stories included when the input is sorted |
| `LegacyHn.GreedyStops` | hndigest/hn.py:77-78 | once `limit` stories are in, later stories change nothing |
| `LegacyHn.DomainCountsAgree` | hndigest/hn.py:71-76 | `domain_count.get(d, 0)` equals the number of admitted stories of domain `d` |
| `LegacyHn.FilterStories` | hndigest/hn.py:56-65 | the filter loop returns the kept stories, enriched, in input order |
| `LegacyHn.AdmitOne` | hndigest/hn.py:73-76 | a story goes in when its domain has fewer than 3 stories in, and the count dict keeps up |
| `LegacyHn.AdmitStories` | hndigest/hn.py:70-78 | the admission loop returns the greedy admission of the sorted list |
| `LegacyHn.SelectStories` | hndigest/hn.py:54-80 | `select_stories` is filter, stable sort, then admission |
| `LegacyHn.SelectFiltered` | hndigest/hn.py:54-80 | every selected story is an enriched kept input story: no job post, no short story without a link |
| `LegacyHn.SelectBounded` | hndigest/hn.py:54-80 | the selection follows the score order (ties in input order), has at most 3 stories per domain and at most `limit` stories, and takes the top stories: a survivor left out scores no higher than every selected story of its domain (domain full) or than every selected story (limit reached) |
| `LegacyCategorize.ParseCacheValue` | hndigest/categorize.py:165-171 | ("", False) exactly when the category is not valid; otherwise that category, and the flag is whether rank is "top" |
| `LegacyCategorize.SerializeAsRecord` | hndigest/categorize.py:137 | the cache value is the record `category=…,rank=…` |
| `LegacyCategorize.CacheRoundTrip` | hndigest/categorize.py:74-76 | a written entry reads back, after `read_text().strip()`, as the pair that was written |
| `LegacyCategorize.UnknownCategoryIsMiss` | hndigest/categorize.py:76-79 | a cached value with an unknown category counts as no entry |
| `LegacyCategorize.StoryLines` | hndigest/categorize.py:87-93 | one prompt line per uncached story, in order |
| `LegacyCategorize.StoryLineNumber` | hndigest/categorize.py:89-91 | the prompt line of position `i`, read as a response line, names index `i` |
| `LegacyCategorize.RankLine` | hndigest/categorize.py:123-130 | an accepted line gives a valid category, the line's own or "culture", and the top flag is whether rank is "top" |
| `LegacyCategorize.CachedEntry` | hndigest/categorize.py:71-79 | a cache entry is used only when its category is valid |
| `LegacyCategorize.UncachedExact` | hndigest/categorize.py:70-81 | the uncached list holds exactly the stories without a valid entry |
| `LegacyCategorize.ScanPartition` | hndigest/categorize.py:70-81 | the scan splits stories into the cached map, under valid categories, and the uncached list |
| `LegacyCategorize.ApplyLineEffect` | hndigest/categorize.py:111-138 | an accepted line sets the story's pair and writes an entry that reads back as that pair; any other line changes nothing |
| `LegacyCategorize.ApplyLinesPreserves` | hndigest/categorize.py:109-138 | a response only adds: old ids stay, new ids are uncached stories, categories stay valid, only uncached stories' files are written |
| `LegacyCategorize.ScanCache` | hndigest/categorize.py:70-81 | the scan loop fills `cached` and `uncached` as the scan functions say |
| `LegacyCategorize.BuildStoryLines` | hndigest/categorize.py:87-93 | the prompt loop builds the numbered story lines |
| `LegacyCategorize.ParseResponseLine` | hndigest/categorize.py:110-138 | one turn of the parse loop applies one line, and its file write, to the state |
| `LegacyCategorize.ParseResponse` | hndigest/categorize.py:109-138 | the parse loop applies every response line in order |
| `LegacyCategorize.CategorizeAndRankBatch` | hndigest/categorize.py:53-153 | nothing happens without a key or stories; nothing is sent when all are cached; otherwise the cached pairs updated by the settled response, with the sleeps and requests of the retry loop |
| `LegacyTranslate.CachedTitles` | hndigest/translate.py:23-29 | `cached` holds the stripped cache text of exactly the titles that have an entry |
| `LegacyTranslate.UncachedIdx` | hndigest/translate.py:23-29 | `uncached_idx` holds, ascending, exactly the positions without an entry |
| `LegacyTranslate.Numbered` | hndigest/translate.py:35-36 | uncached title `k` is numbered `k + 1` |
| `LegacyTranslate.NumberedTitleIndex` | hndigest/translate.py:62-66 | a numbered title read back as a response line names its position in the uncached list |
| `LegacyTranslate.PutGet` | hndigest/translate.py:69 | the last assignment to a key is the one read back, and other keys are untouched |
| `LegacyTranslate.PutDistinct` | hndigest/translate.py:69 | a dict keeps one entry per key |
| `LegacyTranslate.Translations` | hndigest/translate.py:60-69 | the parsed dict has distinct keys, each a position in the uncached list |
| `LegacyTranslate.NotIntegerDiscards` | hndigest/translate.py:66 | one non-integer number anywhere discards the whole response |
| `LegacyTranslate.LastLineWins` | hndigest/translate.py:67-69 | a line appended to a kept response sets its position's translation, stripped of blanks and then of quotes |
| `LegacyTranslate.StepKeepsOther` | hndigest/translate.py:60-69 | a line that does not set a position leaves that position's translation as it was |
| `LegacyTranslate.TranslationOfLastNaming` | hndigest/translate.py:60-69 | in a kept response each position's translation is the rest of the last line naming it, stripped of blanks and then of quotes |
| `LegacyTranslate.UnnamedUntranslated` | hndigest/translate.py:60-69 | a position no line names has no translation |
| `LegacyTranslate.WriteBackCached` | hndigest/translate.py:72-79 | after write-back, every translated position holds its translation and every other position keeps what it had |
| `LegacyTranslate.WriteBackFiles` | hndigest/translate.py:72-79 | only the cache keys of translated titles are written, and no entry is removed |
| `LegacyTranslate.Assemble` | hndigest/translate.py:94 | one title per input title: the cached text when there is one, else the original |
| `LegacyTranslate.ScanTitles` | hndigest/translate.py:23-29 | the scan loop computes `cached` and `uncached_idx` |
| `LegacyTranslate.ParseTranslations` | hndigest/translate.py:60-69 | the parse loop computes the translations, or fails on a non-integer number |
| `LegacyTranslate.WriteTranslations` | hndigest/translate.py:72-79 | the write loop updates `cached` and the cache directory as the write-back function says |
| `LegacyTranslate.TranslateBatch` | hndigest/translate.py:11-94 | the titles unchanged, with no request and no sleep, without a prompt base or titles; no request when all are cached; otherwise the titles after write-back of the settled response, with the loop's sleeps and requests |
| `LegacyTranslate.TranslateResult` | hndigest/translate.py:72-94 | a translated position shows its translation; any other shows its cached text, else its original title |
| `LegacyTelegram.ReplyCalls` | hndigest/telegram.py:73-75 | each reply is posted once, to the root, in order |
| `LegacyTelegram.ReplyIdsCount` | hndigest/telegram.py:73-77 | at most one id per reply, and one per reply exactly when every reply went through |
| `LegacyTelegram.ReplyIdsFromPosts` | hndigest/telegram.py:75-77 | each recorded id is one that a reply post returned |
| `LegacyTelegram.EditCalls` | hndigest/telegram.py:80-83 | at most one edit, made exactly when the edit is wanted and the new text differs from the root's |
| `LegacyTelegram.EditNeedsAllReplies` | hndigest/telegram.py:80-83 | when there are as many categories as replies, the root is edited only if every reply went through (with fewer categories the source can edit after a failed reply) |
| `LegacyTelegram.PostThread` | hndigest/telegram.py:53-85 | nothing posted for no messages; a failed root ends the run; otherwise every reply in order, then at most one edit; the verdict is whether the root went through |
| `DigestConfig.ThreadKindsOfTable` | hn_digest/config.py:291-298 | the table holds the "show_hn" and "ask_hn" rules |
| `DigestConfig.CategoryKeys` | hn_digest/config.py:104-299 | the table's keys are exactly the eleven category keys |
| `DigestConfig.NamedKeys` | hn_digest/config.py:74-88 | every table key, and "other", has a display name in "uz", "ru" and "en" |
| `DigestConfig.ShowHnFirst` | hn_digest/config.py:312-316 | a story is "show_hn" exactly when its lowercased title contains "show hn" |
| `DigestConfig.AskHnNext` | hn_digest/config.py:312-316 | a story is "ask_hn" exactly when its lowercased title contains "ask hn" and not "show hn" |
| `DigestConfig.CategorizeStoryKey` | hn_digest/config.py:307-328 | every story lands in a key of the table or in "other" |
| `DigestConfig.CategorizeStoryNamed` | hn_digest/config.py:302-304 | every story's category has a display name of its own in every channel language |
| `DigestConfig.StoryCategoryName` | hn_digest/config.py:302-304 | in "uz", "ru" and "en" the name of a story's category, "other" included, is its entry in `CATEGORY_NAMES`, not the key fallback |
| `DigestConfig.UnnamedKeyShown` | hn_digest/config.py:302-304 | a key without display names is shown as the key itself, in any language |
| `DigestContent.TruncateWords` | hn_digest/content.py:17-22 | a text of at most `max_words` words is returned unchanged; otherwise the result has exactly `max_words` words, a prefix of the text's |
| `DigestContent.TruncatedIsJoin` | hn_digest/content.py:20-22 | a cut text is the first `max_words` words, one space apart |
| `DigestContent.FetchedText` | hn_digest/content.py:36-47 | a failed or empty extraction is ""; every text has at most 3000 words |
| `DigestContent.FetchOutcome` | hn_digest/content.py:30-47 | a hit returns the cached text with the cache unchanged; a miss caches and returns the cut extraction |
| `DigestContent.FetchTwiceSame` | hn_digest/content.py:32-34 | a second fetch of the same url is a hit with the same text |
| `DigestContent.FetchOne` | hn_digest/content.py:30-47 | `_fetch_one` updates the cache as the outcome says, and requests the url only on a miss |
| `DigestContent.WithUrl` | hn_digest/content.py:63-68 | `url_stories` is the stories with a url, in order |
| `DigestContent.NoUrlResults` | hn_digest/content.py:63-68 | the partition gives "" to exactly the ids of stories without a url |
| `DigestContent.PartitionByUrl` | hn_digest/content.py:63-68 | the partition loop computes both halves |
| `DigestContent.FetchAllKeys` | hn_digest/content.py:75-84 | the fetch loop gives a text to each id of `url_stories` |
| `DigestContent.FetchAllUrls` | hn_digest/content.py:75-84 | only the stories' urls are requested |
| `DigestContent.FetchAllKeepsOthers` | hn_digest/content.py:75-84 | an id none of the fetched stories has keeps the text it had before the loop |
| `DigestContent.FetchAllLastText` | hn_digest/content.py:30-84 | an id's text is what `_fetch_one` gave the last story with that id, on the cache as it stood at that story's turn |
| `DigestContent.NoUrlTextEmpty` | hn_digest/content.py:63-84 | a story without a url whose id no story with a url shares ends with "" |
| `DigestContent.NoEmptyUrlFetched` | hn_digest/content.py:63-84 | no story without a url is fetched |
| `DigestContent.PartitionIds` | hn_digest/content.py:63-68 | the ids without a url and the ids of `url_stories` are together all the ids |
| `DigestContent.EveryStoryGetsText` | hn_digest/content.py:50-88 | every story's id ends with a text, and only the stories' ids do |
| `DigestContent.FetchArticles` | hn_digest/content.py:50-88 | an early return when no story has a url; otherwise one `_fetch_one` per story with a url, in list order |
| `DigestProcess.ContentHash` | hn_digest/process.py:59-61 | the short hash is a prefix of at most eight characters of the MD5 digest |
| `DigestProcess.IdHasNoBar` | hn_digest/process.py:66 | the id in a key text never contains "\|" |
| `DigestProcess.KeyTextInjective` | hn_digest/process.py:64-68 | two key texts without stray bars agree only when id, title, content hash and language agree |
| `DigestProcess.ParseCacheLine` | hn_digest/process.py:71-84 | None exactly when the category is not valid; else that category, with the top flag read from rank |
| `DigestProcess.SerializeAsRecord` | hn_digest/process.py:87-90 | the cache line is the record `category=…,rank=…,title=…,summary=…` |
| `DigestProcess.CacheLineRoundTrip` | hn_digest/process.py:71-90 | a written result with a valid category and storable fields reads back unchanged |
| `DigestProcess.TranslationInstruction` | hn_digest/process.py:98-105 | the keep-title instruction is used exactly when the channel has no prompt |
| `DigestProcess.StoryBlock` | hn_digest/process.py:108-116 | a story's prompt block is its heading, then at most 12000 characters of article text when there is any |
| `DigestProcess.StoryBlocks` | hn_digest/process.py:108-116 | one block per story, in order |
| `DigestProcess.StoryHeadIndex` | hn_digest/process.py:110-111 | story `i`'s heading, read as a response line, names index `i` |
| `DigestProcess.ParseResultLine` | hn_digest/process.py:124-157 | None exactly for a skipped line; otherwise the number minus one, a valid category or "other", and comma-free text fields |
| `DigestProcess.ResponseLineRoundTrip` | hn_digest/process.py:124-157 | a line written as the prompt asks reads back as its index and exactly the result it describes |
| `DigestProcess.UnknownCategoryIsOther` | hn_digest/process.py:149-150 | an unknown category in a response line reads as "other" |
| `DigestProcess.ParsedResultCaches` | hn_digest/process.py:222-227 | what a response line yields is cached and reads back unchanged, when "other" is valid |
| `DigestProcess.CachedResultsShape` | hn_digest/process.py:177-190 | the scan holds exactly the ids with a readable entry, each with the entry of a story of that id, and all stories only when each has one and no id repeats |
| `DigestProcess.LastLineWins` | hn_digest/process.py:210-219 | an accepted line appended to a response decides the result of the story it names |
| `DigestProcess.ApplyKeepsKeys` | hn_digest/process.py:210-219 | one line removes no result and no cache entry, and adds those of the story it names |
| `DigestProcess.ApplyKeepsResult` | hn_digest/process.py:210-219 | one line leaves the result of every id it does not name |
| `DigestProcess.ApplyKeepsFile` | hn_digest/process.py:210-219 | one line leaves the cache entry of every key it does not write |
| `DigestProcess.ApplyWrites` | hn_digest/process.py:217-219 | an accepted line writes the serialized result to the cache entry of the story it names |
| `DigestProcess.NamedInResults` | hn_digest/process.py:209-219 | every story named by an accepted line has a result and a cache entry |
| `DigestProcess.ResultOfLastNaming` | hn_digest/process.py:209-219 | an id's result is what the last accepted line naming a story with that id parsed |
| `DigestProcess.FileOfLastNaming` | hn_digest/process.py:209-227 | a story's cache entry holds the serialized result of the last accepted line naming a story with that cache key |
| `DigestProcess.ApplyResultLinesEffect` | hn_digest/process.py:209-227 | the results hold only ids named by accepted lines, their categories are valid or "other", and only the stories' cache files are written |
| `DigestProcess.ScanResults` | hn_digest/process.py:177-186 | the scan loop computes the cached results |
| `DigestProcess.ParseResultStep` | hn_digest/process.py:211-227 | one turn of the parse loop applies one line, and its cache write, to the state |
| `DigestProcess.ParseResults` | hn_digest/process.py:209-227 | the parse loop applies every response line in order, starting from an empty dict |
| `DigestProcess.ProcessStories` | hn_digest/process.py:160-242 | empty without a key or stories; the cache when every story is cached; otherwise the settled response's results, or the cache when every attempt fails |
| `DigestFormatter.EscapePerChar` | hn_digest/formatter.py:17-19 | because "&" is replaced first, the three replacements escape each character on its own |
| `DigestFormatter.EscapeNoAngles` | hn_digest/formatter.py:17-19 | escaped text has no angle brackets |
| `DigestFormatter.EscapeUnchanged` | hn_digest/formatter.py:17-19 | text without "&", "<" and ">" is left unchanged |
| `DigestFormatter.EscapeRoundTrip` | hn_digest/formatter.py:17-19 | decoding the three entities gives the original text back |
| `DigestFormatter.HeaderNamed` | hn_digest/formatter.py:22-25 | the header of "top" and of every category in the reply order is `<b># name</b>` with the category's display name in each channel language |
| `DigestFormatter.Link` | hn_digest/formatter.py:131-139 | a Show/Ask HN story links to its HN item; another story links to its url, or nowhere without one |
| `DigestFormatter.FormatStoryLines` | hn_digest/formatter.py:115-155 | the title line, the escaped summary only for a non-thread story that has one, then the meta line |
| `DigestFormatter.TitleTextSafe` | hn_digest/formatter.py:122 | the title shown carries no markup and decodes to the chosen title |
| `DigestFormatter.IssueNumber` | hn_digest/formatter.py:42 | the issue number is at least 1 |
| `DigestFormatter.IssueOfWeek` | hn_digest/formatter.py:42 | day `d` of week `k` after the first issue is issue `k + 1` |
| `DigestFormatter.IssueMonotone` | hn_digest/formatter.py:42 | issue numbers never go back, and every day before the first issue is issue 1 |
| `DigestFormatter.Flagged` | hn_digest/formatter.py:52 | the flagged stories are exactly the stories with `is_top`, in order |
| `DigestFormatter.TopStories` | hn_digest/formatter.py:52-55 | the first ten flagged stories, or the first ten stories when none is flagged |
| `DigestFormatter.TopFromList` | hn_digest/formatter.py:52-55 | top stories come from the list, and are flagged when any story is |
| `DigestFormatter.Members` | hn_digest/formatter.py:60-64 | a category collects exactly the stories outside the top section with that category, in order |
| `DigestFormatter.GroupedMembers` | hn_digest/formatter.py:59-64 | each group is its category's members, and a category has a group exactly when it has members |
| `DigestFormatter.RepliesContent` | hn_digest/formatter.py:100-110 | each reply is for a key of the order and shows one to five of its category's stories, the first ones |
| `DigestFormatter.RepliesComplete` | hn_digest/formatter.py:100-103 | every category of the order with stories gets a reply |
| `DigestFormatter.RepliesOrdered` | hn_digest/formatter.py:85-100 | replies follow `category_order` |
| `DigestFormatter.PlanShape` | hn_digest/formatter.py:51-110 | at most ten top stories; replies show one to five stories of their category, none from the top section; every category with such stories has a reply |
| `DigestFormatter.UnlistedCategoryHidden` | hn_digest/formatter.py:85-101 | a story whose category is not in `category_order` is in no reply |
| `DigestFormatter.RootEnds` | hn_digest/formatter.py:76-82 | the root post ends with the footer line and the tag line |
| `DigestFormatter.ReplyEnds` | hn_digest/formatter.py:108-110 | every reply ends with a blank line and the tag |
| `DigestFormatter.RenderShape` | hn_digest/formatter.py:82-112 | one root message and one message per reply, each ending as above |
| `DigestFormatter.GroupStories` | hn_digest/formatter.py:59-64 | the grouping loop computes the groups |
| `DigestFormatter.AppendStories` | hn_digest/formatter.py:72-74 | each story adds a blank line and its lines |
| `DigestFormatter.CategoryReplies` | hn_digest/formatter.py:100-110 | the reply loop renders a message for each category of the order that has stories |
| `DigestFormatter.FormatDigest` | hn_digest/formatter.py:28-112 | `format_digest` returns the rendered plan of its stories |
| `DigestCli.MergedPrefix` | hn_digest/cli.py:35-42 | the general selection comes first, unchanged; the rest comes from the extras, in order |
| `DigestCli.MergedFresh` | hn_digest/cli.py:40-42 | no appended story repeats an id already in the list |
| `DigestCli.MergedCovers` | hn_digest/cli.py:39-42 | every extra's id ends up in the list |
| `DigestCli.MergedShape` | hn_digest/cli.py:35-42 | all three facts about the merge, and no appended id is in the general selection |
| `DigestCli.MergeAddsAtMostFour` | hn_digest/cli.py:36-42 | two Show HN and two Ask HN picks add at most four stories, Show HN first |
| `DigestCli.MergeSelections` | hn_digest/cli.py:35-42 | the merge loop computes the merge of the general selection with Show HN then Ask HN picks |
| `DigestCli.AssignedKeeps` | hn_digest/cli.py:56-68 | only the category and the top flag change, and the flag is only set from a result |
| `DigestCli.ShowHnTitle` | hn_digest/cli.py:59-60 | a title starting with "show hn" gives "show_hn" with or without a result |
| `DigestCli.AskHnTitle` | hn_digest/cli.py:61-62 | a title starting with "ask hn" and not mentioning "show hn" gives "ask_hn" |
| `DigestCli.AssignedCategoryKnown` | hn_digest/cli.py:56-68 | the category is a thread kind, the result's category, a table key, or "other" |
| `DigestCli.AssignAll` | hn_digest/cli.py:56-80 | every story gets its assignment, in place and in order |
| `DigestCli.NoResultsTopIsFirstTen` | hn_digest/cli.py:77-80 | without results no story is flagged, so the top section is the first ten stories |
| `DigestCli.AssignCategories` | hn_digest/cli.py:56-68 | the assignment loop computes the assigned stories |
| `DigestCli.TranslatedTitles` | hn_digest/cli.py:69 | titles hold the translation of exactly the stories with a result |
| `DigestCli.FillTitles` | hn_digest/cli.py:72-76 | every id gets a title: its translation, or the first story's original title |
| `DigestCli.ResultTitles` | hn_digest/cli.py:69-76 | every story's id has its translation when it has a result, else the original title of the first story with that id |
| `DigestCli.ResultSummaries` | hn_digest/cli.py:70-76 | every story's id has its result's summary, else "" |
| `DigestCli.PlainTitles` | hn_digest/cli.py:81 | without a key, every id has the title of the last story with that id |
| `DigestCli.PlainSummaries` | hn_digest/cli.py:82 | without a key, every summary is "" |
| `DigestCli.CompleteTexts` | hn_digest/cli.py:54-82 | on both paths, each story has a title and a summary, taken from its result when there is one; otherwise the title is the first same-id story's with results and the last one's without |
| `DigestCli.GenerateDigest` | hn_digest/cli.py:32-84 | the final stories are the assigned merge, its titles and summaries come from the results (else the first same-id story's title with results, the last one's without), and the messages are the formatted digest |
| `DigestTelegram.ReplyPosts` | hn_digest/telegram.py:43-44 | each reply is posted once, to the root, in order |
| `DigestTelegram.PostThread` | hn_digest/telegram.py:34-46 | nothing posted for no messages; a failed root ends the run; otherwise every reply goes to the root; the verdict is whether the root went through |
| `DigestTelegram.EveryMessagePostedOnce` | hn_digest/telegram.py:34-46 | after a good root every message is posted once, in order, and all but the first reply to the root |

## Left out

- HTTP, the generation API and the Telegram Bot API are oracles: reply codes, JSON paths, time-outs and transport errors appear only as the `Reply` and `Option` outcomes they lead to.
- The prompt templates (`CATEGORIZE_PROMPT`, `PROCESS_PROMPT` and the translation prompt text) are `fill` parameters: the model fixes what is put into them, not their wording.
- MD5 (`hashlib.md5`), `urlparse(url).netloc` and trafilatura's extraction are function parameters; the model makes no assumption about them beyond their being functions.
- Clocks are parameters: `format_digest` receives the days since the first issue and the formatted start and end dates, and the month tables of hn_digest/config.py are not modelled.
- `time.sleep` is not modelled: each batch call returns the list of seconds it would sleep.
- Logging (`log.info`, `log.warning`) is left out: it changes no state the pipeline reads.
- The thread pool of `fetch_articles` is modelled as one fetch after another in list order; the completion order of `as_completed` is not modelled. Two stories with the same url could race on one cache file in the source.
- Exceptions from `write_text` and from reading a cache file are left out; the model treats the file system as always succeeding.
- `fetch_stories`, `hndigest/http.py`, the `main` entry points and argument parsing are not part of this model.
- hn_digest/hn.py and hn_digest/categorize.py are not part of this model. `generate_digest` receives the three selections as parameters; the `valid` set of `DigestProcess.ProcessStories` stands for hn_digest's `VALID_CATEGORIES`.
- The `_extract_field` used by hn_digest/process.py is assumed to be the one of hndigest/categorize.py:156-162; its own definition is not part of this model.
- `Text.Lower` lowercases ASCII letters only: Python's Unicode case mapping is not modelled (a Cyrillic or accented title keeps its case). `Text.IsSpace` is Python's whitespace set, so `strip` and `split()` are exact.
- `Text.IsDigit` accepts ASCII digits only, where `str.isdigit` also accepts other Unicode digits.
- `Text.ParseInt` accepts ASCII digits with optional sign, blanks and single underscores, as `int()` does for ASCII; other Unicode digits are not modelled.
- Story dicts are a datatype with every key present; a key the source has not set yet reads as its falsy default (0, "" or false), which is how the source reads it with `s.get(key)`.
- LegacyHn.ParseHit: a title or url that is JSON null reads as "", the same as a missing key; the source keeps `None` there, and `select_stories` then raises on a null title at hndigest/hn.py:58. The model does not tell a null field from a missing one.
- LegacyHn.CountsDefaultToZero: states a missing or null title or url as "", which is exact for a missing key only, as the line above says.
- DigestCli.GenerateDigest: `results` is a parameter standing for what `process_stories` returns (None when `GEMINI_API_KEY` is empty). The calls to `fetch_articles` and `process_stories` at hn_digest/cli.py:48-55 are not composed into one method, so the model does not state that the fetched articles are the contents the prompt reads.
- LegacyTelegram.PostThread: the result of the root edit is not modelled (the source ignores it too), and an edit callback that raises is not modelled.
- LegacyTranslate.TranslateBatch: a later line naming the same position overwrites an earlier one (last line wins); this follows the code, which assigns into a dict.
- DigestProcess.ProcessStories: when the response is parsed, the cached results are not merged into what is returned; this follows the code at hn_digest/process.py:209-224.
- The channel table `CHANNELS`, the API URL constants and `LABELS` beyond the two labels used in story lines are data only and carry no property.
