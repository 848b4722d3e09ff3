/**
 * The generation API as an oracle, and the retry schedule the three batch calls
 * share: `for attempt in range(3)`, where a 429 sleeps `(attempt + 1) * 10`
 * seconds and tries again, and any other outcome ends the loop.
 */
module Generation {
  import opened Wrappers

  /** What one request yields: the response text, an HTTP 429, or any other failure
      (another status, a transport error, a response without the expected JSON path). */
  datatype Reply = Answer(text: string) | RateLimited | Failed

  /** The oracle: the reply to `prompt` on attempt number `attempt` (0-based). */
  type Oracle = (string, nat) -> Reply

  const MaxAttempts: nat := 3

  /** First attempt at or after `a` that is not rate limited, or `MaxAttempts`. */
  function SettledFrom(g: Oracle, prompt: string, a: nat): (k: nat)
    requires a <= MaxAttempts
    ensures a <= k <= MaxAttempts
    ensures forall j :: a <= j < k ==> g(prompt, j) == RateLimited
    ensures k < MaxAttempts ==> g(prompt, k) != RateLimited
    decreases MaxAttempts - a
  {
    if a == MaxAttempts then MaxAttempts
    else if g(prompt, a) == RateLimited then SettledFrom(g, prompt, a + 1)
    else a
  }

  /** Number of 429 replies before the loop settles (all three when it never does). */
  function RateLimits(g: Oracle, prompt: string): nat {
    SettledFrom(g, prompt, 0)
  }

  /** Requests sent: one per attempt until one is not rate limited. */
  function Requests(g: Oracle, prompt: string): (n: nat)
    ensures 1 <= n <= MaxAttempts
  {
    var k := RateLimits(g, prompt);
    if k < MaxAttempts then k + 1 else MaxAttempts
  }

  /** The seconds slept: 10, 20, 30 for the first, second, third 429. */
  function Backoff(k: nat): (w: seq<int>)
    ensures |w| == k
    ensures forall i :: 0 <= i < k ==> w[i] == 10 * (i + 1)
  {
    if k == 0 then [] else Backoff(k - 1) + [10 * k]
  }

  /** The response text the loop goes on to parse, if any. */
  function Response(g: Oracle, prompt: string): Option<string> {
    var k := RateLimits(g, prompt);
    if k < MaxAttempts && g(prompt, k).Answer? then Some(g(prompt, k).text) else None
  }

  /** The attempt at which the loop settles, read off from the replies. */
  lemma {:induction false} SettledAt(g: Oracle, prompt: string, a: nat, k: nat)
    requires a <= k <= MaxAttempts
    requires forall j :: a <= j < k ==> g(prompt, j) == RateLimited
    requires k < MaxAttempts ==> g(prompt, k) != RateLimited
    ensures SettledFrom(g, prompt, a) == k
    decreases k - a
  {
    if a < k {
      SettledAt(g, prompt, a + 1, k);
    }
  }

  /**
   * The attempt loop: send `prompt`; on a 429 sleep `(attempt + 1) * 10` seconds and
   * try again, up to three attempts; any other reply ends the loop. Returns the
   * response text (None when every attempt failed), the seconds slept, and the
   * number of requests sent.
   */
  method Request(g: Oracle, prompt: string) returns (response: Option<string>, waits: seq<int>, requests: nat)
    ensures response == Response(g, prompt)
    ensures waits == Backoff(RateLimits(g, prompt))
    ensures requests == Requests(g, prompt)
  {
    response := None;
    waits := [];
    requests := 0;
    var attempt: nat := 0;
    while attempt < MaxAttempts
      invariant attempt <= MaxAttempts
      invariant forall j :: 0 <= j < attempt ==> g(prompt, j) == RateLimited
      invariant waits == Backoff(attempt) && requests == attempt && response == None
    {
      var reply := g(prompt, attempt);
      requests := requests + 1;
      if reply.RateLimited? {
        waits := waits + [(attempt + 1) * 10];
        attempt := attempt + 1;
      } else {
        if reply.Answer? {
          response := Some(reply.text);
        }
        SettledAt(g, prompt, 0, attempt);
        return;
      }
    }
    SettledAt(g, prompt, 0, MaxAttempts);
  }

  /** Two 429s then an answer: three requests, 10 s and 20 s of backoff, and the
      same text as an answer on the first attempt would have given. */
  lemma TwoRateLimitsThenAnswer(g: Oracle, prompt: string, text: string)
    requires g(prompt, 0) == RateLimited && g(prompt, 1) == RateLimited
    requires g(prompt, 2) == Answer(text)
    ensures Requests(g, prompt) == 3
    ensures Backoff(RateLimits(g, prompt)) == [10, 20]
    ensures Response(g, prompt) == Some(text)
  {
    assert SettledFrom(g, prompt, 2) == 2;
    assert SettledFrom(g, prompt, 1) == 2;
  }

  /** A reply other than 429 settles the loop at once: one request, no backoff. */
  lemma NotRateLimitedFirst(g: Oracle, prompt: string)
    requires g(prompt, 0) != RateLimited
    ensures Requests(g, prompt) == 1 && RateLimits(g, prompt) == 0
    ensures Response(g, prompt) == if g(prompt, 0).Answer? then Some(g(prompt, 0).text) else None
  {
  }

  /** Three 429s: three requests, 60 s of backoff, nothing to parse. */
  lemma AlwaysRateLimited(g: Oracle, prompt: string)
    requires forall a :: 0 <= a < MaxAttempts ==> g(prompt, a) == RateLimited
    ensures Requests(g, prompt) == 3 && Backoff(RateLimits(g, prompt)) == [10, 20, 30]
    ensures Response(g, prompt) == None
  {
    assert SettledFrom(g, prompt, 2) == 3;
    assert SettledFrom(g, prompt, 1) == 3;
  }
}
