/**
 * A story as the pipeline passes it around: the Python dict built from a search
 * hit, with the keys the selector (`score`, `domain`) and the enrichment step
 * (`category`, `is_top`) add later. A key that has not been set yet reads as its
 * falsy default (0, "" or false), exactly as the source reads it with `s.get(key)`.
 */
module Records {
  import opened Wrappers

  datatype Story = Story(
    id: int,
    title: string,
    url: string,
    points: int,
    comments: int,
    score: int,
    domain: string,
    category: string,
    isTop: bool)

  /** The ids of a list of stories (`{s["id"] for s in stories}`). */
  function Ids(stories: seq<Story>): (r: set<int>)
    ensures forall i :: 0 <= i < |stories| ==> stories[i].id in r
    ensures forall id :: id in r ==> exists i :: 0 <= i < |stories| && stories[i].id == id
  {
    set i | 0 <= i < |stories| :: stories[i].id
  }

  lemma IdsSnoc(stories: seq<Story>, s: Story)
    ensures Ids(stories + [s]) == Ids(stories) + {s.id}
  {
    var r := stories + [s];
    forall id | id in Ids(r)
      ensures id in Ids(stories) + {s.id}
    {
      var i :| 0 <= i < |r| && r[i].id == id;
      if i < |stories| {
        assert r[i] == stories[i];
      }
    }
    forall id | id in Ids(stories) + {s.id}
      ensures id in Ids(r)
    {
      if id in Ids(stories) {
        var i :| 0 <= i < |stories| && stories[i].id == id;
        assert r[i] == stories[i];
      } else {
        assert r[|stories|].id == id;
      }
    }
  }

  /** A dict filled by id in list order from each story's optional entry (a later
      story with the same id overwrites), as the cache scans fill `cached`. */
  function ById<R>(entry: Story -> Option<R>, stories: seq<Story>): map<int, R> {
    if stories == [] then map[]
    else
      var s := stories[|stories| - 1];
      var m := ById(entry, stories[..|stories| - 1]);
      match entry(s)
      case Some(r) => m[s.id := r]
      case None => m
  }

  /** The dict holds the id of every story with an entry, and each of its values is
      the entry of a story with that id. */
  lemma {:induction false} ByIdKeys<R>(entry: Story -> Option<R>, stories: seq<Story>)
    ensures var m := ById(entry, stories);
      && m.Keys <= Ids(stories)
      && (forall i :: 0 <= i < |stories| && entry(stories[i]).Some? ==> stories[i].id in m)
      && (forall id :: id in m ==> exists i :: 0 <= i < |stories| && stories[i].id == id && entry(stories[i]) == Some(m[id]))
  {
    if stories != [] {
      var n := |stories| - 1;
      var init := stories[..n];
      var s := stories[n];
      var m := ById(entry, init);
      ByIdKeys(entry, init);
      var cm := ById(entry, stories);
      assert m.Keys <= cm.Keys;
      forall id | id in cm
        ensures exists i :: 0 <= i < |stories| && stories[i].id == id && entry(stories[i]) == Some(cm[id])
      {
        if entry(s).Some? && id == s.id {
          assert stories[n].id == id && entry(stories[n]) == Some(cm[id]);
        } else {
          var i :| 0 <= i < n && init[i].id == id && entry(init[i]) == Some(m[id]);
          assert stories[i] == init[i];
        }
      }
      forall i | 0 <= i < |stories| && entry(stories[i]).Some?
        ensures stories[i].id in cm
      {
        if i < n {
          assert init[i] == stories[i];
          assert init[i].id in m;
        }
      }
    }
  }

  /** `i` is the last position holding id `id` whose story has an entry. */
  predicate LastEntry<R>(entry: Story -> Option<R>, stories: seq<Story>, i: int, id: int) {
    && 0 <= i < |stories| && stories[i].id == id && entry(stories[i]).Some?
    && forall k :: i < k < |stories| && stories[k].id == id ==> entry(stories[k]).None?
  }

  /** A later story with the same id overwrites: each value is the entry of the last
      story with that id that has one. */
  lemma {:induction false} ByIdLast<R>(entry: Story -> Option<R>, stories: seq<Story>)
    ensures forall id :: id in ById(entry, stories) ==>
      exists i :: LastEntry(entry, stories, i, id) && entry(stories[i]) == Some(ById(entry, stories)[id])
  {
    if stories != [] {
      var n := |stories| - 1;
      var init := stories[..n];
      var s := stories[n];
      ByIdLast(entry, init);
      var cm := ById(entry, stories);
      forall id | id in cm
        ensures exists i :: LastEntry(entry, stories, i, id) && entry(stories[i]) == Some(cm[id])
      {
        if entry(s).Some? && id == s.id {
          assert LastEntry(entry, stories, n, id) && entry(stories[n]) == Some(cm[id]);
        } else {
          var m := ById(entry, init);
          var i :| LastEntry(entry, init, i, id) && entry(init[i]) == Some(m[id]);
          assert stories[i] == init[i];
          forall k | i < k < |stories| && stories[k].id == id
            ensures entry(stories[k]).None?
          {
            if k < n {
              assert stories[k] == init[k];
            }
          }
          assert LastEntry(entry, stories, i, id);
        }
      }
    }
  }

  /** The dict has at most one entry per story. */
  lemma {:induction false} ByIdSize<R>(entry: Story -> Option<R>, stories: seq<Story>)
    ensures |ById(entry, stories)| <= |stories|
  {
    if stories != [] {
      ByIdSize(entry, stories[..|stories| - 1]);
    }
  }

  /** A full dict means every story has an entry. */
  lemma {:induction false} ByIdFullEntries<R>(entry: Story -> Option<R>, stories: seq<Story>)
    requires |ById(entry, stories)| == |stories|
    ensures forall i :: 0 <= i < |stories| ==> entry(stories[i]).Some?
  {
    if stories != [] {
      var n := |stories| - 1;
      var init := stories[..n];
      var m := ById(entry, init);
      ByIdSize(entry, init);
      assert entry(stories[n]).Some? && |m| == n;
      ByIdFullEntries(entry, init);
      forall i | 0 <= i < n
        ensures entry(stories[i]).Some?
      {
        assert init[i] == stories[i];
      }
    }
  }

  /** A full dict means no two stories share an id. */
  lemma {:induction false} ByIdFullDistinct<R>(entry: Story -> Option<R>, stories: seq<Story>)
    requires |ById(entry, stories)| == |stories|
    ensures forall i, j :: 0 <= i < j < |stories| ==> stories[i].id != stories[j].id
  {
    if stories != [] {
      var n := |stories| - 1;
      var init := stories[..n];
      var s := stories[n];
      var m := ById(entry, init);
      ByIdSize(entry, init);
      assert entry(s).Some? && s.id !in m && |m| == n;
      ByIdFullDistinct(entry, init);
      ByIdFullEntries(entry, init);
      ByIdKeys(entry, init);
      forall i, j | 0 <= i < j < |stories|
        ensures stories[i].id != stories[j].id
      {
        assert init[i] == stories[i];
        if j < n {
          assert init[j] == stories[j];
        } else {
          assert stories[i].id in m;
        }
      }
    }
  }

  /** The dict has at most one entry per story, and as many only when every story has
      an entry and no two stories share an id. */
  lemma ByIdFull<R>(entry: Story -> Option<R>, stories: seq<Story>)
    ensures |ById(entry, stories)| <= |stories|
    ensures |ById(entry, stories)| == |stories| ==>
      && (forall i :: 0 <= i < |stories| ==> entry(stories[i]).Some?)
      && (forall i, j :: 0 <= i < j < |stories| ==> stories[i].id != stories[j].id)
  {
    ByIdSize(entry, stories);
    if |ById(entry, stories)| == |stories| {
      ByIdFullEntries(entry, stories);
      ByIdFullDistinct(entry, stories);
    }
  }

  /** `a` is `b` with some stories left out, order kept. */
  predicate IsSubseq(a: seq<Story>, b: seq<Story>) {
    if a == [] then true
    else if b == [] then false
    else
      (a[|a| - 1] == b[|b| - 1] && IsSubseq(a[..|a| - 1], b[..|b| - 1])) || IsSubseq(a, b[..|b| - 1])
  }

  lemma {:induction false} SubseqMember(a: seq<Story>, b: seq<Story>)
    requires IsSubseq(a, b)
    ensures forall x :: x in a ==> x in b
  {
    if a != [] && b != [] {
      if a[|a| - 1] == b[|b| - 1] && IsSubseq(a[..|a| - 1], b[..|b| - 1]) {
        SubseqMember(a[..|a| - 1], b[..|b| - 1]);
        assert a == a[..|a| - 1] + [a[|a| - 1]];
        assert b == b[..|b| - 1] + [b[|b| - 1]];
      } else {
        SubseqMember(a, b[..|b| - 1]);
        assert b == b[..|b| - 1] + [b[|b| - 1]];
      }
    }
  }

  lemma SubseqSnoc(a: seq<Story>, b: seq<Story>, x: Story)
    requires IsSubseq(a, b)
    ensures IsSubseq(a, b + [x]) && IsSubseq(a + [x], b + [x])
  {
    assert (b + [x])[..|b|] == b;
    assert (a + [x])[..|a|] == a;
  }
}
