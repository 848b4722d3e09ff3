/**
 * hndigest/config.py: the 9-category taxonomy, its display names, the job-post
 * phrases, and the fallback classifier over them (default bucket "culture").
 */
module LegacyConfig {
  import opened Wrappers
  import opened Text
  import opened Classifier

  /** `JOB_WORDS`: title phrases that mark a job post. */
  const JobWords: seq<string> := ["hiring", "who is hiring", "who wants to be hired", "freelancer", "job", "career"]

  /** The entries of `CATEGORIES`. */
  const AiRule: Rule := Rule("ai",
      ["ai", "gpt", "llm", "chatgpt", "openai", "anthropic", "gemini", "claude", "machine learning", "neural", "transformer", "diffusion", "deepmind", "copilot", "midjourney", "stable diffusion", "mistral", "llama", "waymo", "self-driving", "autonomous", "model"],
      ["openai.com", "anthropic.com", "deepmind.com", "huggingface.co"])
  const DevRule: Rule := Rule("dev",
      ["rust", "python", "javascript", "typescript", "golang", "compiler", "programming", "git", "open source", "api", "webassembly", "wasm", "software architecture", "vim", "emacs", "neovim", "terminal", "cli"],
      ["github.com", "gitlab.com", "dev.to", "sourceware.org"])
  const OpsRule: Rule := Rule("ops",
      ["linux", "kernel", "docker", "kubernetes", "devops", "nginx", "serverless", "sysadmin", "raspberry pi", "fpga", "hardware", "database", "sql", "postgres", "redis", "mongodb", "sqlite", "cassandra", "elasticsearch"],
      ["postgresql.org"])
  const DataRule: Rule := Rule("data",
      ["data engineering", "analytics", "bigquery", "data science", "visualization", "spreadsheet", "big data", "pandas", "dbt", "data pipeline"],
      [])
  const ScienceRule: Rule := Rule("science",
      ["research", "paper", "study", "physics", "biology", "chemistry", "math", "mathematics", "space", "spacex", "nasa", "telescope", "quantum", "genome", "climate", "climate change", "neuroscience", "arxiv", "peer review", "experiment", "solar", "nuclear", "energy"],
      ["arxiv.org", "nature.com", "science.org", "nasa.gov", "spacex.com"])
  const SecurityRule: Rule := Rule("security",
      ["security", "vulnerability", "breach", "malware", "ransomware", "exploit", "zero-day", "privacy", "encryption", "backdoor", "hijack", "cve", "phishing", "infosec"],
      ["krebsonsecurity.com", "schneier.com"])
  const TechRule: Rule := Rule("tech",
      ["startup", "founder", "yc", "ycombinator", "funding", "series a", "acquisition", "ipo", "valuation", "layoff", "regulation", "law", "ban", "government", "congress", "court", "lawsuit", "antitrust", "policy", "legal", "fcc", "ftc", "firm", "cloud", "eu-native", "digital autonomy", "big tech"],
      ["techcrunch.com", "ycombinator.com", "theregister.com"])
  const CareerRule: Rule := Rule("career",
      ["remote work", "career", "hiring culture", "management", "interview", "workplace", "burnout", "salary", "freelance", "work-life"],
      [])
  const CultureRule: Rule := Rule("culture",
      ["history", "urbanism", "philosophy", "gaming", "typography", "typeface", "font", "ui design", "ux design", "css", "svg", "figma", "accessibility", "copyright", "digital rights", "culture", "animation", "color palette"],
      ["figma.com", "dribbble.com"])
  const ShowHnRule: Rule := Rule("show_hn", ["show hn"], [])
  const AskHnRule: Rule := Rule("ask_hn", ["ask hn"], [])

  /** `CATEGORIES`, in dict order. */
  const Categories: seq<Rule> :=
    [AiRule, DevRule, OpsRule, DataRule, ScienceRule, SecurityRule, TechRule, CareerRule, CultureRule, ShowHnRule, AskHnRule]

  /** `CATEGORY_NAMES`: display name per category and language. */
  const CategoryNames: map<string, map<string, string>> := map[
    "top" := map["uz" := "Eng yaxshilar", "ru" := "Лучшее", "en" := "Top"],
    "ai" := map["uz" := "AI", "ru" := "AI", "en" := "AI"],
    "dev" := map["uz" := "Dev", "ru" := "Код", "en" := "Dev"],
    "ops" := map["uz" := "Ops", "ru" := "Ops", "en" := "Ops"],
    "data" := map["uz" := "Ma'lumotlar", "ru" := "Данные", "en" := "Data"],
    "science" := map["uz" := "Fan", "ru" := "Наука", "en" := "Science"],
    "security" := map["uz" := "Xavfsizlik", "ru" := "Безопасность", "en" := "Security"],
    "tech" := map["uz" := "Texnologiya", "ru" := "Индустрия", "en" := "Tech"],
    "career" := map["uz" := "Karyera", "ru" := "Карьера", "en" := "Career"],
    "culture" := map["uz" := "Madaniyat", "ru" := "Культура", "en" := "Culture"],
    "show_hn" := map["uz" := "Show HN", "ru" := "Show HN", "en" := "Show HN"],
    "ask_hn" := map["uz" := "Ask HN", "ru" := "Ask HN", "en" := "Ask HN"]
  ]

  /** `CATEGORIES["show_hn"]` and `CATEGORIES["ask_hn"]` are the two thread-kind rules. */
  lemma ThreadKindsOfTable()
    ensures Lookup(Categories, "show_hn") == Some(ShowHnRule)
    ensures Lookup(Categories, "ask_hn") == Some(AskHnRule)
    ensures HasThreadKinds(Categories)
  {
    ShowHnOfTable();
    AskHnOfTable();
  }

  lemma ShowHnOfTable()
    ensures Lookup(Categories, "show_hn") == Some(ShowHnRule)
  {
    assert |Categories| == 11;
    assert forall j :: 0 <= j < 9 ==> Categories[j].key != "show_hn";
    LookupAt(Categories, "show_hn", 9);
  }

  lemma AskHnOfTable()
    ensures Lookup(Categories, "ask_hn") == Some(AskHnRule)
  {
    assert |Categories| == 11;
    assert forall j :: 0 <= j < 10 ==> Categories[j].key != "ask_hn";
    LookupAt(Categories, "ask_hn", 10);
  }

  /** A key with a display name in every channel language. */
  predicate Named(k: string) {
    k in CategoryNames && "uz" in CategoryNames[k] && "ru" in CategoryNames[k] && "en" in CategoryNames[k]
  }

  /** The keys of `CATEGORIES`. */
  lemma CategoryKeys()
    ensures Keys(Categories) == {"ai", "dev", "ops", "data", "science", "security", "tech", "career", "culture", "show_hn", "ask_hn"}
  {
    assert |Categories| == 11;
    assert Categories[0].key == "ai";
    assert Categories[1].key == "dev";
    assert Categories[2].key == "ops";
    assert Categories[3].key == "data";
    assert Categories[4].key == "science";
    assert Categories[5].key == "security";
    assert Categories[6].key == "tech";
    assert Categories[7].key == "career";
    assert Categories[8].key == "culture";
    assert Categories[9].key == "show_hn";
    assert Categories[10].key == "ask_hn";
  }

  lemma NamesTopics()
    ensures forall k :: k in {"ai", "dev", "ops", "data"} ==> Named(k)
  {
    assert Named("ai");
    assert Named("dev");
    assert Named("ops");
    assert Named("data");
  }

  lemma NamesFields()
    ensures forall k :: k in {"science", "security", "tech", "career"} ==> Named(k)
  {
    assert Named("science");
    assert Named("security");
    assert Named("tech");
    assert Named("career");
  }

  lemma NamesRest()
    ensures forall k :: k in {"culture", "show_hn", "ask_hn"} ==> Named(k)
  {
    assert Named("culture");
    assert Named("show_hn");
    assert Named("ask_hn");
  }

  /** Every key of `CATEGORIES` has a display name in every channel language. */
  lemma NamedKeys()
    ensures forall k :: k in Keys(Categories) ==> Named(k)
  {
    CategoryKeys();
    NamesTopics();
    NamesFields();
    NamesRest();
  }

  /** `category_name(key, language)`. */
  function CategoryName(key: string, language: string): string {
    Classifier.CategoryName(CategoryNames, key, language)
  }

  /** `categorize_story(story)`, given the story's title and domain. */
  function CategorizeStory(title: string, domain: string): string {
    ThreadKindsOfTable();
    Categorize(Categories, "culture", title, domain)
  }

  /** A title naming "show hn" (in any ASCII case) is always a Show HN thread. */
  lemma ShowHnFirst(title: string, domain: string)
    ensures CategorizeStory(title, domain) == "show_hn" <==> Contains(Lower(title), "show hn")
  {
    ThreadKindsOfTable();
    ThreadKindsFirst(Categories, "culture", title, domain);
    ContainsAnyOne(Lower(title), "show hn");
  }

  /** "ask hn" wins over every topic, but not over "show hn". */
  lemma AskHnNext(title: string, domain: string)
    ensures CategorizeStory(title, domain) == "ask_hn" <==>
      !Contains(Lower(title), "show hn") && Contains(Lower(title), "ask hn")
  {
    ThreadKindsOfTable();
    ThreadKindsFirst(Categories, "culture", title, domain);
    ContainsAnyOne(Lower(title), "show hn");
    ContainsAnyOne(Lower(title), "ask hn");
  }

  /** Every story lands in one of the keys of `CATEGORIES`. */
  lemma CategorizeStoryKey(title: string, domain: string)
    ensures CategorizeStory(title, domain) in Keys(Categories)
  {
    assert Categories[8].key == "culture";
  }

  /** Every story's category has a display name of its own in every channel language. */
  lemma CategorizeStoryNamed(title: string, domain: string)
    ensures var k := CategorizeStory(title, domain);
      k in CategoryNames && "uz" in CategoryNames[k] && "ru" in CategoryNames[k] && "en" in CategoryNames[k]
  {
    CategorizeStoryKey(title, domain);
    NamedKeys();
  }

  lemma EmailWords()
    ensures Lower("email") == "email"
    ensures !Contains("email", "show hn") && !Contains("email", "ask hn")
    ensures ContainsAny("email", AiRule.keywords)
  {
    var t := "email";
    assert Lower(t) == t;
    if Contains(t, "show hn") { ContainsLength(t, "show hn"); }
    if Contains(t, "ask hn") { ContainsLength(t, "ask hn"); }
    assert Contains(t, "ai") by {
      assert t[1..][1..] == "ail";
    }
    ContainsAnyAt(t, AiRule.keywords);
  }

  /** Keywords match as substrings of the title, so the "ai" keyword takes any
      title containing those two letters, such as "email", into the AI section. */
  lemma EmailIsAi()
    ensures CategorizeStory("email", "") == "ai"
  {
    EmailWords();
    ShowHnFirst("email", "");
    AskHnNext("email", "");
    ThreadKindsOfTable();
    assert Categories[0] == AiRule;
    CategorizeFirstMatch(Categories, "culture", "email", "", 0);
  }

  /** The header of a story's category shows its entry in `CATEGORY_NAMES`, not the key fallback, in
      every channel language. */
  lemma StoryCategoryName(title: string, domain: string, language: string)
    requires language in {"uz", "ru", "en"}
    ensures var k := CategorizeStory(title, domain);
      k in CategoryNames && language in CategoryNames[k] && CategoryName(k, language) == CategoryNames[k][language]
  {
    CategorizeStoryNamed(title, domain);
  }

  /** A key without display names is shown as the key itself, in any language. */
  lemma UnnamedKeyShown(key: string, language: string)
    requires key !in CategoryNames
    ensures CategoryName(key, language) == key
  {
    Classifier.CategoryNameFallback(CategoryNames, key, language);
  }
}
