/**
 * hndigest/telegram.py, `post_thread`: the root message, then every other message as
 * a reply to it, then at most one edit of the root with links to the replies.
 *
 * The Bot API is an oracle: `post(n, text, replyTo)` is what the `n`-th post of the
 * run returns (the new message id, or nothing on any failure). The edit's own result
 * is never looked at, so the model only records that it was made. The run is
 * described by the calls it makes, in order.
 */
module LegacyTelegram {
  import opened Wrappers

  /** `post_to_telegram` for the `n`-th post of a run. */
  type PostOracle = (nat, string, Option<int>) -> Option<int>

  /** `edit_main_callback(main_text, reply_categories, reply_ids)`. */
  type EditCallback = (string, seq<string>, seq<int>) -> string

  datatype Call = Post(text: string, replyTo: Option<int>) | Edit(messageId: int, text: string)

  /** One reply post per message, each to the root. hn_digest/telegram.py repeats
      this loop in its own `post_thread`, and `DigestTelegram.ReplyPosts` models it
      there. */
  function ReplyCalls(replies: seq<string>, root: int): (r: seq<Call>)
    ensures |r| == |replies|
    ensures forall k :: 0 <= k < |replies| ==> r[k] == Post(replies[k], Some(root))
  {
    if replies == [] then []
    else
      var n := |replies| - 1;
      ReplyCalls(replies[..n], root) + [Post(replies[n], Some(root))]
  }

  /** `reply_ids`: the ids of the replies that went through, in posting order; reply
      `k` is post `k + 1` of the run. */
  function ReplyIds(post: PostOracle, replies: seq<string>, root: int): seq<int> {
    if replies == [] then []
    else
      var n := |replies| - 1;
      var prev := ReplyIds(post, replies[..n], root);
      match post(n + 1, replies[n], Some(root))
      case Some(id) => prev + [id]
      case None => prev
  }

  /** There is no more than one id per reply, and one per reply exactly when every
      reply went through. */
  lemma {:induction false} ReplyIdsCount(post: PostOracle, replies: seq<string>, root: int)
    ensures |ReplyIds(post, replies, root)| <= |replies|
    ensures |ReplyIds(post, replies, root)| == |replies| <==>
      forall k :: 0 <= k < |replies| ==> post(k + 1, replies[k], Some(root)).Some?
  {
    if replies != [] {
      var n := |replies| - 1;
      ReplyIdsCount(post, replies[..n], root);
      assert forall k :: 0 <= k < n ==> replies[..n][k] == replies[k];
    }
  }

  /** Each recorded id is what some reply post returned. */
  lemma {:induction false} ReplyIdsFromPosts(post: PostOracle, replies: seq<string>, root: int)
    ensures forall id :: id in ReplyIds(post, replies, root) ==>
      exists k :: 0 <= k < |replies| && post(k + 1, replies[k], Some(root)) == Some(id)
  {
    if replies != [] {
      var n := |replies| - 1;
      ReplyIdsFromPosts(post, replies[..n], root);
      forall id | id in ReplyIds(post, replies, root)
        ensures exists k :: 0 <= k < |replies| && post(k + 1, replies[k], Some(root)) == Some(id)
      {
        if id in ReplyIds(post, replies[..n], root) {
          var k :| 0 <= k < n && post(k + 1, replies[..n][k], Some(root)) == Some(id);
          assert replies[..n][k] == replies[k];
        } else {
          assert post(n + 1, replies[n], Some(root)) == Some(id);
        }
      }
    }
  }

  /** The edit condition: categories and a callback given, and one reply id per
      category. */
  predicate EditWanted(categories: seq<string>, callback: Option<EditCallback>, replyIds: seq<int>) {
    categories != [] && callback.Some? && |replyIds| == |categories|
  }

  /** The edit made at the end, if any: only when it is wanted and the callback's text
      differs from the root's. */
  function EditCalls(main: string, categories: seq<string>, callback: Option<EditCallback>, root: int,
                     replyIds: seq<int>): (r: seq<Call>)
    ensures |r| <= 1
    ensures r != [] <==> EditWanted(categories, callback, replyIds) && callback.value(main, categories, replyIds) != main
    ensures r != [] ==> r[0] == Edit(root, callback.value(main, categories, replyIds))
  {
    if EditWanted(categories, callback, replyIds) then
      var updated := callback.value(main, categories, replyIds);
      if updated != main then [Edit(root, updated)] else []
    else []
  }

  /** The edit goes to the root only when every reply went through, if there are as
      many categories as replies. */
  lemma EditNeedsAllReplies(post: PostOracle, messages: seq<string>, categories: seq<string>,
                            callback: Option<EditCallback>, root: int)
    requires |messages| >= 1 && |categories| == |messages| - 1
    requires EditCalls(messages[0], categories, callback, root, ReplyIds(post, messages[1..], root)) != []
    ensures forall k :: 1 <= k < |messages| ==> post(k, messages[k], Some(root)).Some?
  {
    ReplyIdsCount(post, messages[1..], root);
    forall k | 1 <= k < |messages|
      ensures post(k, messages[k], Some(root)).Some?
    {
      assert messages[1..][k - 1] == messages[k];
    }
  }

  /** One more reply posted. */
  lemma ReplySnoc(post: PostOracle, messages: seq<string>, i: int, root: int)
    requires 1 <= i < |messages|
    ensures [Post(messages[0], None)] + ReplyCalls(messages[1..i + 1], root) ==
      [Post(messages[0], None)] + ReplyCalls(messages[1..i], root) + [Post(messages[i], Some(root))]
    ensures ReplyIds(post, messages[1..i + 1], root) ==
      ReplyIds(post, messages[1..i], root) + (match post(i, messages[i], Some(root)) case Some(id) => [id] case None => [])
  {
    var next := messages[1..i + 1];
    assert next[..i - 1] == messages[1..i] && next[i - 1] == messages[i];
  }

  /**
   * `post_thread`. Returns the verdict, the calls made and `reply_ids`. Nothing is
   * posted for no messages; a failed root ends the run; otherwise every further
   * message is posted as a reply to the root, in order, whatever happens to the
   * others, and the run ends with at most one edit of the root. The verdict is
   * true exactly when the root went through.
   */
  method PostThread(messages: seq<string>, categories: seq<string>, callback: Option<EditCallback>, post: PostOracle)
    returns (ok: bool, calls: seq<Call>, replyIds: seq<int>)
    ensures ok <==> messages != [] && post(0, messages[0], None).Some?
    ensures messages == [] ==> calls == [] && replyIds == []
    ensures messages != [] && !ok ==> calls == [Post(messages[0], None)] && replyIds == []
    ensures ok ==>
      var root := post(0, messages[0], None).value;
      && replyIds == ReplyIds(post, messages[1..], root)
      && calls == [Post(messages[0], None)] + ReplyCalls(messages[1..], root)
                  + EditCalls(messages[0], categories, callback, root, replyIds)
  {
    ok := false;
    calls := [];
    replyIds := [];
    if messages == [] {
      return;
    }
    var mainId := post(0, messages[0], None);
    calls := [Post(messages[0], None)];
    if mainId.None? {
      return;
    }
    var root := mainId.value;
    var i := 1;
    while i < |messages|
      invariant 1 <= i <= |messages|
      invariant calls == [Post(messages[0], None)] + ReplyCalls(messages[1..i], root)
      invariant replyIds == ReplyIds(post, messages[1..i], root)
    {
      ReplySnoc(post, messages, i, root);
      var msgId := post(i, messages[i], Some(root));
      calls := calls + [Post(messages[i], Some(root))];
      if msgId.Some? {
        replyIds := replyIds + [msgId.value];
      }
      i := i + 1;
    }
    assert messages[1..|messages|] == messages[1..];
    if categories != [] && callback.Some? && |replyIds| == |categories| {
      var updated := callback.value(messages[0], categories, replyIds);
      if updated != messages[0] {
        calls := calls + [Edit(root, updated)];
      }
    }
    ok := true;
  }
}
