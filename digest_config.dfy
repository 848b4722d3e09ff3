/**
 * hn_digest/config.py: the channel record, the 12-category taxonomy, its display
 * names and labels, and the fallback classifier over them (default bucket "other").
 */
module DigestConfig {
  import opened Wrappers
  import opened Text
  import opened Classifier

  /**
   * `Channel`: one Telegram channel. `prompt` is the translation instruction, empty
   * when titles stay in English; `firstIssueDate` only feeds the issue number, which
   * the formatter receives as a day count.
   */
  datatype Channel = Channel(
    id: string, telegram: string, title: string, language: string, prompt: string,
    footer: string, firstIssueDate: string, days: int, limit: int, minPoints: int)

  /** `HN_ITEM` with the id still to be appended. */
  const HnItemPrefix: string := "https://news.ycombinator.com/item?id="

  /** `JOB_WORDS`. */
  const JobWords: seq<string> := ["hiring", "who is hiring", "who wants to be hired", "freelancer", "job", "career"]

  /** The entries of `CATEGORIES`. */
  const AiRule: Rule := Rule("ai",
      ["ai", "gpt", "llm", "chatgpt", "openai", "anthropic", "gemini", "claude", "machine learning", "neural", "transformer", "diffusion", "deepmind", "copilot", "midjourney", "stable diffusion", "mistral", "llama", "waymo", "self-driving", "autonomous", "model"],
      ["openai.com", "anthropic.com", "deepmind.com", "huggingface.co"])
  const CodeRule: Rule := Rule("code",
      ["rust", "python", "javascript", "typescript", "golang", "compiler", "programming", "git", "linux", "kernel", "api", "open source", "docker", "kubernetes", "devops", "nginx", "vim", "emacs", "neovim", "terminal", "cli"],
      ["github.com", "gitlab.com", "dev.to", "sourceware.org"])
  const DataRule: Rule := Rule("data",
      ["database", "sql", "postgres", "redis", "data", "analytics", "bigquery", "elasticsearch", "mongodb", "sqlite", "cassandra"],
      ["postgresql.org"])
  const ScienceRule: Rule := Rule("science",
      ["research", "paper", "study", "physics", "biology", "chemistry", "math", "space", "nasa", "telescope", "quantum", "genome", "climate", "neuroscience", "arxiv", "peer review", "experiment"],
      ["arxiv.org", "nature.com", "science.org", "nasa.gov"])
  const SecurityRule: Rule := Rule("security",
      ["security", "vulnerability", "breach", "malware", "ransomware", "exploit", "zero-day", "privacy", "encryption", "backdoor", "hijack", "cve", "phishing", "infosec"],
      ["krebsonsecurity.com", "schneier.com"])
  const DesignRule: Rule := Rule("design",
      ["typography", "typeface", "font", "ui design", "ux design", "css", "animation", "svg", "color palette", "figma", "accessibility"],
      ["figma.com", "dribbble.com"])
  const BusinessRule: Rule := Rule("business",
      ["startup", "founder", "yc", "ycombinator", "funding", "series a", "acquisition", "ipo", "valuation", "layoff", "regulation", "law", "ban", "government", "congress", "court", "lawsuit", "antitrust", "policy", "legal", "fcc", "ftc", "firm", "cloud", "eu-native", "digital autonomy", "big tech"],
      ["techcrunch.com", "ycombinator.com", "theregister.com"])
  const WorkRule: Rule := Rule("work",
      ["remote work", "career", "hiring culture", "management", "interview", "workplace", "burnout", "salary", "freelance", "work-life"],
      [])
  const LearnRule: Rule := Rule("learn",
      ["tutorial", "guide", "how to", "learn", "course", "introduction to", "beginner", "walkthrough"],
      ["freecodecamp.org", "coursera.org"])
  const ShowHnRule: Rule := Rule("show_hn",
      ["show hn"],
      [])
  const AskHnRule: Rule := Rule("ask_hn",
      ["ask hn"],
      [])

  /** `CATEGORIES`, in dict order. */
  const Categories: seq<Rule> :=
    [AiRule, CodeRule, DataRule, ScienceRule, SecurityRule, DesignRule, BusinessRule, WorkRule, LearnRule, ShowHnRule, AskHnRule]

  /** `CATEGORY_NAMES`: display name per category and language, "other" included. */
  const CategoryNames: map<string, map<string, string>> := map[
    "top" := map["uz" := "Eng yaxshilar", "ru" := "Лучшее", "en" := "Top"],
    "ai" := map["uz" := "AI", "ru" := "AI", "en" := "AI"],
    "code" := map["uz" := "Kod", "ru" := "Код", "en" := "Code"],
    "data" := map["uz" := "Ma'lumotlar", "ru" := "Данные", "en" := "Data"],
    "science" := map["uz" := "Fan", "ru" := "Наука", "en" := "Science"],
    "security" := map["uz" := "Xavfsizlik", "ru" := "Безопасность", "en" := "Security"],
    "design" := map["uz" := "Dizayn", "ru" := "Дизайн", "en" := "Design"],
    "business" := map["uz" := "Biznes", "ru" := "Бизнес", "en" := "Business"],
    "work" := map["uz" := "Ish", "ru" := "Работа", "en" := "Work"],
    "learn" := map["uz" := "O'rganish", "ru" := "Обучение", "en" := "Learn"],
    "show_hn" := map["uz" := "Show HN", "ru" := "Show HN", "en" := "Show HN"],
    "ask_hn" := map["uz" := "Ask HN", "ru" := "Ask HN", "en" := "Ask HN"],
    "other" := map["uz" := "Boshqalar", "ru" := "Другое", "en" := "Other"]
  ]

  /** `LABELS`: the localised words for points and comments. */
  const Labels: map<string, map<string, string>> := map[
    "points" := map["uz" := "ball", "ru" := "баллов", "en" := "points"],
    "comments" := map["uz" := "izoh", "ru" := "комм.", "en" := "comments"]
  ]

  /** `CATEGORIES["show_hn"]` and `CATEGORIES["ask_hn"]` are the two thread-kind rules. */
  lemma ThreadKindsOfTable()
    ensures Lookup(Categories, "show_hn") == Some(ShowHnRule)
    ensures Lookup(Categories, "ask_hn") == Some(AskHnRule)
    ensures HasThreadKinds(Categories)
  {
    ShowHnOfTable();
    AskHnOfTable();
  }

  lemma ShowHnOfTable()
    ensures Lookup(Categories, "show_hn") == Some(ShowHnRule)
  {
    assert |Categories| == 11;
    assert forall j :: 0 <= j < 9 ==> Categories[j].key != "show_hn";
    LookupAt(Categories, "show_hn", 9);
  }

  lemma AskHnOfTable()
    ensures Lookup(Categories, "ask_hn") == Some(AskHnRule)
  {
    assert |Categories| == 11;
    assert forall j :: 0 <= j < 10 ==> Categories[j].key != "ask_hn";
    LookupAt(Categories, "ask_hn", 10);
  }

  /** A key with a display name in every channel language. */
  predicate Named(k: string) {
    k in CategoryNames && "uz" in CategoryNames[k] && "ru" in CategoryNames[k] && "en" in CategoryNames[k]
  }

  /** The keys of `CATEGORIES`. */
  lemma CategoryKeys()
    ensures Keys(Categories) == {"ai", "code", "data", "science", "security", "design", "business", "work", "learn", "show_hn", "ask_hn"}
  {
    assert |Categories| == 11;
    assert Categories[0].key == "ai";
    assert Categories[1].key == "code";
    assert Categories[2].key == "data";
    assert Categories[3].key == "science";
    assert Categories[4].key == "security";
    assert Categories[5].key == "design";
    assert Categories[6].key == "business";
    assert Categories[7].key == "work";
    assert Categories[8].key == "learn";
    assert Categories[9].key == "show_hn";
    assert Categories[10].key == "ask_hn";
  }

  lemma NamesTopics()
    ensures forall k :: k in {"ai", "code", "data", "science"} ==> Named(k)
  {
    assert Named("ai");
    assert Named("code");
    assert Named("data");
    assert Named("science");
  }

  lemma NamesFields()
    ensures forall k :: k in {"security", "design", "business", "work"} ==> Named(k)
  {
    assert Named("security");
    assert Named("design");
    assert Named("business");
    assert Named("work");
  }

  lemma NamesRest()
    ensures forall k :: k in {"learn", "show_hn", "ask_hn", "other"} ==> Named(k)
  {
    assert Named("learn");
    assert Named("show_hn");
    assert Named("ask_hn");
    assert Named("other");
  }

  /** Every key of `CATEGORIES`, and "other", has a display name in every channel language. */
  lemma NamedKeys()
    ensures forall k :: k in Keys(Categories) + {"other"} ==> Named(k)
  {
    CategoryKeys();
    NamesTopics();
    NamesFields();
    NamesRest();
  }

  /** `category_name(key, language)`. */
  function CategoryName(key: string, language: string): string {
    Classifier.CategoryName(CategoryNames, key, language)
  }

  /** `categorize_story(story)`, given the story's title and domain. */
  function CategorizeStory(title: string, domain: string): string {
    ThreadKindsOfTable();
    Categorize(Categories, "other", title, domain)
  }

  /** A title naming "show hn" (in any ASCII case) is always a Show HN thread. */
  lemma ShowHnFirst(title: string, domain: string)
    ensures CategorizeStory(title, domain) == "show_hn" <==> Contains(Lower(title), "show hn")
  {
    ThreadKindsOfTable();
    ThreadKindsFirst(Categories, "other", title, domain);
    ContainsAnyOne(Lower(title), "show hn");
  }

  /** "ask hn" wins over every topic, but not over "show hn". */
  lemma AskHnNext(title: string, domain: string)
    ensures CategorizeStory(title, domain) == "ask_hn" <==>
      !Contains(Lower(title), "show hn") && Contains(Lower(title), "ask hn")
  {
    ThreadKindsOfTable();
    ThreadKindsFirst(Categories, "other", title, domain);
    ContainsAnyOne(Lower(title), "show hn");
    ContainsAnyOne(Lower(title), "ask hn");
  }

  /** Every story lands in a key of `CATEGORIES` or in "other". */
  lemma CategorizeStoryKey(title: string, domain: string)
    ensures CategorizeStory(title, domain) in Keys(Categories) + {"other"}
  {
  }

  /** Every story's category has a display name of its own in every channel language. */
  lemma CategorizeStoryNamed(title: string, domain: string)
    ensures var k := CategorizeStory(title, domain);
      k in CategoryNames && "uz" in CategoryNames[k] && "ru" in CategoryNames[k] && "en" in CategoryNames[k]
  {
    CategorizeStoryKey(title, domain);
    NamedKeys();
  }

  /** The header of a story's category shows its entry in `CATEGORY_NAMES`, not the key fallback, in
      every channel language. */
  lemma StoryCategoryName(title: string, domain: string, language: string)
    requires language in {"uz", "ru", "en"}
    ensures var k := CategorizeStory(title, domain);
      k in CategoryNames && language in CategoryNames[k] && CategoryName(k, language) == CategoryNames[k][language]
  {
    CategorizeStoryNamed(title, domain);
  }

  /** A key without display names is shown as the key itself, in any language. */
  lemma UnnamedKeyShown(key: string, language: string)
    requires key !in CategoryNames
    ensures CategoryName(key, language) == key
  {
    Classifier.CategoryNameFallback(CategoryNames, key, language);
  }
}
