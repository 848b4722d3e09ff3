/**
 * hn_digest/telegram.py, `post_thread`: the root message, then every other message
 * as a reply to it. The Bot API is an oracle: `post(n, text, replyTo)` is what the
 * `n`-th post of the run returns; the run is described by the posts it makes.
 */
module DigestTelegram {
  import opened Wrappers

  type PostOracle = (nat, string, Option<int>) -> Option<int>

  /** One `post_to_telegram` call: the text and the message it replies to. */
  datatype Post = Post(text: string, replyTo: Option<int>)

  /** One reply post per message, each to the root: the same loop as
      `LegacyTelegram.ReplyCalls`, kept apart as the two packages keep it. */
  function ReplyPosts(replies: seq<string>, root: int): (r: seq<Post>)
    ensures |r| == |replies|
    ensures forall k :: 0 <= k < |replies| ==> r[k] == Post(replies[k], Some(root))
  {
    if replies == [] then []
    else
      var n := |replies| - 1;
      ReplyPosts(replies[..n], root) + [Post(replies[n], Some(root))]
  }

  /**
   * `post_thread`. Nothing is posted for no messages; a failed root ends the run;
   * otherwise every further message is posted exactly once, in order, as a reply to
   * the root, whatever the replies return. The verdict is true exactly when the
   * root went through.
   */
  method PostThread(messages: seq<string>, post: PostOracle) returns (ok: bool, posts: seq<Post>)
    ensures ok <==> messages != [] && post(0, messages[0], None).Some?
    ensures messages == [] ==> posts == []
    ensures messages != [] && !ok ==> posts == [Post(messages[0], None)]
    ensures ok ==> posts == [Post(messages[0], None)] + ReplyPosts(messages[1..], post(0, messages[0], None).value)
  {
    ok := false;
    posts := [];
    if messages == [] {
      return;
    }
    var mainId := post(0, messages[0], None);
    posts := [Post(messages[0], None)];
    if mainId.None? {
      return;
    }
    var root := mainId.value;
    var i := 1;
    while i < |messages|
      invariant 1 <= i <= |messages|
      invariant posts == [Post(messages[0], None)] + ReplyPosts(messages[1..i], root)
    {
      assert messages[1..i + 1][..i - 1] == messages[1..i];
      var _ := post(i, messages[i], Some(root));
      posts := posts + [Post(messages[i], Some(root))];
      i := i + 1;
    }
    assert messages[1..|messages|] == messages[1..];
    ok := true;
  }

  /** After a good root every message is posted once: as many posts as messages, the
      `k`-th carrying message `k`, and all but the first replying to the root. */
  lemma EveryMessagePostedOnce(messages: seq<string>, root: int)
    requires messages != []
    ensures var posts := [Post(messages[0], None)] + ReplyPosts(messages[1..], root);
      |posts| == |messages| && (forall k :: 0 <= k < |messages| ==> posts[k].text == messages[k]) &&
      (forall k :: 1 <= k < |messages| ==> posts[k].replyTo == Some(root))
  {
    var posts := [Post(messages[0], None)] + ReplyPosts(messages[1..], root);
    forall k | 1 <= k < |messages|
      ensures posts[k] == Post(messages[k], Some(root))
    {
      assert posts[k] == ReplyPosts(messages[1..], root)[k - 1];
    }
  }
}
