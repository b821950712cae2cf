/**
 * The home page's computations: the posts shown pinned first, the divider
 * after every post but the last, and the number of links that touch a node
 * of the community graph.
 */
module HomePage {
  import opened Text

  datatype Post = Post(name: string, timestamp: string, pinned: bool)

  // ---------------------------------------------------------------------
  // Pinned-first ordering
  // ---------------------------------------------------------------------

  /** The comparator `(b.pinned ? 1 : 0) - (a.pinned ? 1 : 0)`: negative puts a first. */
  function Compare(a: Post, b: Post): (c: int)
    ensures c > 0 <==> b.pinned && !a.pinned
    ensures c < 0 <==> a.pinned && !b.pinned
  {
    (if b.pinned then 1 else 0) - (if a.pinned then 1 else 0)
  }

  /**
   * Insertion into an already sorted sequence from its end: x moves in front
   * of every element the comparator puts after it, and stays behind the
   * others (a stable insertion).
   */
  function Insert(sorted: seq<Post>, x: Post): (r: seq<Post>)
    ensures |r| == |sorted| + 1
  {
    if sorted == [] then [x]
    else if Compare(sorted[|sorted| - 1], x) > 0 then Insert(sorted[..|sorted| - 1], x) + [sorted[|sorted| - 1]]
    else sorted + [x]
  }

  /**
   * `[...posts].sort(compare)`: a stable sort (section 23.1.3.30 of
   * ECMA-262 requires stability since the 2019 edition), written as
   * insertion sort over the copy.
   */
  function SortPosts(posts: seq<Post>): seq<Post>
  {
    if posts == [] then [] else Insert(SortPosts(posts[..|posts| - 1]), posts[|posts| - 1])
  }

  /** The pinned posts, in their original order. */
  function Pinned(posts: seq<Post>): (r: seq<Post>)
    ensures forall i :: 0 <= i < |r| ==> r[i].pinned
  {
    if posts == [] then []
    else Pinned(posts[..|posts| - 1]) + (if posts[|posts| - 1].pinned then [posts[|posts| - 1]] else [])
  }

  /** The unpinned posts, in their original order. */
  function Unpinned(posts: seq<Post>): (r: seq<Post>)
    ensures forall i :: 0 <= i < |r| ==> !r[i].pinned
  {
    if posts == [] then []
    else Unpinned(posts[..|posts| - 1]) + (if posts[|posts| - 1].pinned then [] else [posts[|posts| - 1]])
  }

  /** The reference order: every pinned post, then every unpinned one, each group as it came. */
  function PinnedFirst(posts: seq<Post>): seq<Post> {
    Pinned(posts) + Unpinned(posts)
  }

  /** A pinned post inserted behind unpinned ones moves in front of all of them. */
  lemma {:induction false} InsertPinnedPastUnpinned(pinned: seq<Post>, unpinned: seq<Post>, x: Post)
    requires |pinned| > 0 ==> pinned[|pinned| - 1].pinned
    requires forall i :: 0 <= i < |unpinned| ==> !unpinned[i].pinned
    requires x.pinned
    ensures Insert(pinned + unpinned, x) == pinned + [x] + unpinned
    decreases |unpinned|
  {
    var s := pinned + unpinned;
    if unpinned == [] {
      assert s == pinned;
      if pinned != [] {
        assert Compare(pinned[|pinned| - 1], x) == 0;
        assert Insert(pinned, x) == pinned + [x];
      }
    } else {
      var last := unpinned[|unpinned| - 1];
      var front := unpinned[..|unpinned| - 1];
      assert unpinned == front + [last];
      assert s[..|s| - 1] == pinned + front;
      assert s[|s| - 1] == last;
      assert Compare(last, x) > 0;
      assert Insert(s, x) == Insert(pinned + front, x) + [last];
      assert forall i :: 0 <= i < |front| ==> front[i] == unpinned[i];
      InsertPinnedPastUnpinned(pinned, front, x);
      assert pinned + [x] + front + [last] == pinned + [x] + (front + [last]);
    }
  }

  /** The stable sort by the comparator is exactly the reference order. */
  lemma {:induction false} SortIsPinnedFirst(posts: seq<Post>)
    ensures SortPosts(posts) == PinnedFirst(posts)
  {
    if posts != [] {
      var init := posts[..|posts| - 1];
      var x := posts[|posts| - 1];
      SortIsPinnedFirst(init);
      var p, u := Pinned(init), Unpinned(init);
      assert SortPosts(posts) == Insert(p + u, x);
      if x.pinned {
        InsertPinnedPastUnpinned(p, u, x);
        assert Pinned(posts) == p + [x] && Unpinned(posts) == u;
      } else {
        var s := p + u;
        if s != [] {
          assert Compare(s[|s| - 1], x) <= 0;
        }
        assert Insert(s, x) == s + [x];
        assert Pinned(posts) == p && Unpinned(posts) == u + [x];
      }
    }
  }

  lemma {:induction false} GroupsPartition(posts: seq<Post>)
    ensures multiset(Pinned(posts)) + multiset(Unpinned(posts)) == multiset(posts)
  {
    if posts != [] {
      var init := posts[..|posts| - 1];
      GroupsPartition(init);
      assert posts == init + [posts[|posts| - 1]];
    }
  }

  /** A sequence with no unpinned post before a pinned one. */
  predicate PinnedPrecedeUnpinned(r: seq<Post>) {
    forall i, j :: 0 <= i < j < |r| ==> Compare(r[i], r[j]) <= 0
  }

  /**
   * The posts as shown: the same posts (a permutation of the same length),
   * every pinned post before every unpinned one, and each group in its
   * original order.
   */
  lemma OrderedPostsProperties(posts: seq<Post>)
    ensures var r := SortPosts(posts);
      && |r| == |posts|
      && multiset(r) == multiset(posts)
      && PinnedPrecedeUnpinned(r)
      && Pinned(r) == Pinned(posts)
      && Unpinned(r) == Unpinned(posts)
  {
    SortIsPinnedFirst(posts);
    GroupsPartition(posts);
    var p, u := Pinned(posts), Unpinned(posts);
    GroupsOfPinnedFirst(p, u);
    assert |multiset(SortPosts(posts))| == |multiset(posts)|;
  }

  /** Splitting a pinned block followed by an unpinned block gives the blocks back. */
  lemma {:induction false} GroupsOfPinnedFirst(p: seq<Post>, u: seq<Post>)
    requires forall i :: 0 <= i < |p| ==> p[i].pinned
    requires forall i :: 0 <= i < |u| ==> !u[i].pinned
    ensures Pinned(p + u) == p && Unpinned(p + u) == u
    decreases |u|
  {
    if u == [] {
      assert p + u == p;
      PinnedOfAllPinned(p);
    } else {
      var s := p + u;
      var front := u[..|u| - 1];
      assert s[..|s| - 1] == p + front;
      GroupsOfPinnedFirst(p, front);
      assert front + [u[|u| - 1]] == u;
    }
  }

  lemma {:induction false} PinnedOfAllPinned(p: seq<Post>)
    requires forall i :: 0 <= i < |p| ==> p[i].pinned
    ensures Pinned(p) == p && Unpinned(p) == []
  {
    if p != [] {
      PinnedOfAllPinned(p[..|p| - 1]);
      assert p[..|p| - 1] + [p[|p| - 1]] == p;
    }
  }

  /**
   * Any arrangement with the same two groups in the same orders and pinned
   * posts first is the shown order: the result of a stable sort is unique.
   */
  lemma {:induction false} StableOrderIsUnique(posts: seq<Post>, r: seq<Post>)
    requires Pinned(r) == Pinned(posts) && Unpinned(r) == Unpinned(posts)
    requires PinnedPrecedeUnpinned(r)
    ensures r == SortPosts(posts)
  {
    SortIsPinnedFirst(posts);
    PinnedFirstOfOrdered(r);
  }

  lemma {:induction false} PinnedFirstOfOrdered(r: seq<Post>)
    requires PinnedPrecedeUnpinned(r)
    ensures r == PinnedFirst(r)
  {
    if r != [] {
      var init := r[..|r| - 1];
      var x := r[|r| - 1];
      assert r == init + [x];
      if x.pinned {
        AllPinnedBeforePinned(r);
        PinnedOfAllPinned(r);
      } else {
        OrderedPrefix(r);
        PinnedFirstOfOrdered(init);
        AppendUnpinned(init, x);
      }
    }
  }

  /** An unpinned post appended to a sequence already in the reference order keeps it in that order. */
  lemma AppendUnpinned(init: seq<Post>, x: Post)
    requires init == PinnedFirst(init) && !x.pinned
    ensures init + [x] == PinnedFirst(init + [x])
  {
    var r := init + [x];
    assert r[..|r| - 1] == init;
    assert Pinned(r) == Pinned(init) && Unpinned(r) == Unpinned(init) + [x];
    assert Pinned(init) + (Unpinned(init) + [x]) == Pinned(init) + Unpinned(init) + [x];
  }

  /** Dropping the last post keeps the order. */
  lemma OrderedPrefix(r: seq<Post>)
    requires r != [] && PinnedPrecedeUnpinned(r)
    ensures PinnedPrecedeUnpinned(r[..|r| - 1])
  {
    var init := r[..|r| - 1];
    forall i, j | 0 <= i < j < |init|
      ensures Compare(init[i], init[j]) <= 0
    {
      assert init[i] == r[i] && init[j] == r[j];
    }
  }

  /** When the last post is pinned, so is every post before it. */
  lemma AllPinnedBeforePinned(r: seq<Post>)
    requires r != [] && PinnedPrecedeUnpinned(r) && r[|r| - 1].pinned
    ensures forall i :: 0 <= i < |r| ==> r[i].pinned
  {
    forall i | 0 <= i < |r| - 1
      ensures r[i].pinned
    {
      assert Compare(r[i], r[|r| - 1]) <= 0;
    }
  }

  // ---------------------------------------------------------------------
  // Dividers
  // ---------------------------------------------------------------------

  /** `index < posts.length - 1`: a divider follows the post at `index`. */
  predicate HasDivider(index: nat, count: nat) {
    index < count - 1
  }

  /** The number of the first `k` posts that a divider follows. */
  function DividersBefore(k: nat, count: nat): nat {
    if k == 0 then 0 else DividersBefore(k - 1, count) + (if HasDivider(k - 1, count) then 1 else 0)
  }

  /** Every post but the last is followed by a divider, so there is one divider fewer than posts. */
  lemma DividersBetweenPosts(count: nat)
    ensures count > 0 ==> !HasDivider(count - 1, count)
    ensures forall i :: 0 <= i < count - 1 ==> HasDivider(i, count)
    ensures DividersBefore(count, count) == if count == 0 then 0 else count - 1
  {
    if count > 0 {
      DividersBeforeCount(count, count);
    }
  }

  lemma {:induction false} DividersBeforeCount(k: nat, count: nat)
    requires 0 < count && k <= count
    ensures DividersBefore(k, count) == if k < count then k else count - 1
  {
    if k > 0 {
      DividersBeforeCount(k - 1, count);
    }
  }

  /** The divider test uses the length of `posts`, which the sorted copy shares. */
  lemma DividersFollowShownPosts(posts: seq<Post>, index: nat)
    requires index < |SortPosts(posts)|
    ensures HasDivider(index, |posts|) <==> index + 1 < |SortPosts(posts)|
  {
    OrderedPostsProperties(posts);
  }

  // ---------------------------------------------------------------------
  // Connections of a graph node
  // ---------------------------------------------------------------------

  /** A link of the graph, with its ends resolved to node ids. */
  datatype Link = Link(source: string, target: string)

  predicate Touches(link: Link, nodeId: string) {
    link.source == nodeId || link.target == nodeId
  }

  /** `links.filter(l => l.source.id === nodeId || l.target.id === nodeId).length`. */
  function ConnectionCount(links: seq<Link>, nodeId: string): (n: nat)
    ensures n <= |links|
  {
    if links == [] then 0
    else ConnectionCount(links[..|links| - 1], nodeId) + (if Touches(links[|links| - 1], nodeId) then 1 else 0)
  }

  /** The positions of the links touching a node. */
  function TouchingIndices(links: seq<Link>, nodeId: string): set<nat> {
    set i: nat | i < |links| && Touches(links[i], nodeId)
  }

  /** The count is the number of link positions whose source or target is the node. */
  lemma {:induction false} ConnectionCountIsIndexCount(links: seq<Link>, nodeId: string)
    ensures ConnectionCount(links, nodeId) == |TouchingIndices(links, nodeId)|
  {
    if links != [] {
      var init := links[..|links| - 1];
      ConnectionCountIsIndexCount(init, nodeId);
      var before := TouchingIndices(init, nodeId);
      var after := TouchingIndices(links, nodeId);
      if Touches(links[|links| - 1], nodeId) {
        assert after == before + {|links| - 1};
      } else {
        assert after == before;
      }
    }
  }

  /** Counting over two lists of links adds up. */
  lemma {:induction false} ConnectionCountOfConcat(a: seq<Link>, b: seq<Link>, nodeId: string)
    ensures ConnectionCount(a + b, nodeId) == ConnectionCount(a, nodeId) + ConnectionCount(b, nodeId)
    decreases |b|
  {
    if b == [] {
      assert a + b == a;
    } else {
      assert (a + b)[..|a + b| - 1] == a + b[..|b| - 1];
      ConnectionCountOfConcat(a, b[..|b| - 1], nodeId);
    }
  }

  /** A star of links from distinct members to one hub: the hub has all of them, each member one. */
  lemma {:induction false} StarCounts(members: seq<string>, hub: string)
    requires hub !in members
    requires forall i, j :: 0 <= i < j < |members| ==> members[i] != members[j]
    ensures ConnectionCount(Star(members, hub), hub) == |members|
    ensures forall k :: 0 <= k < |members| ==> ConnectionCount(Star(members, hub), members[k]) == 1
  {
    if members != [] {
      var init := members[..|members| - 1];
      var last := members[|members| - 1];
      StarCounts(init, hub);
      assert Star(members, hub)[..|members| - 1] == Star(init, hub);
      forall k | 0 <= k < |members|
        ensures ConnectionCount(Star(members, hub), members[k]) == 1
      {
        if k < |members| - 1 {
          assert members[k] == init[k];
          assert members[k] != last;
        } else {
          assert last !in init;
          StarCountsAbsent(init, hub, last);
        }
      }
    }
  }

  lemma {:induction false} StarCountsAbsent(members: seq<string>, hub: string, other: string)
    requires other !in members && other != hub
    ensures ConnectionCount(Star(members, hub), other) == 0
  {
    if members != [] {
      StarCountsAbsent(members[..|members| - 1], hub, other);
      assert Star(members, hub)[..|members| - 1] == Star(members[..|members| - 1], hub);
    }
  }

  /** One link from each member to the hub, in member order. */
  function Star(members: seq<string>, hub: string): (links: seq<Link>)
    ensures |links| == |members|
    ensures forall i :: 0 <= i < |members| ==> links[i] == Link(members[i], hub)
  {
    seq(|members|, i requires 0 <= i < |members| => Link(members[i], hub))
  }

  // ---------------------------------------------------------------------
  // The site's own data
  // ---------------------------------------------------------------------

  const SitePosts: seq<Post> := [
    Post("An Introduction to Prototype", "2025-01-15", true),
    Post("Welcome to our new website", "2025-01-17", false),
    Post("Embracing the Softness of Software", "2025-01-15", false)
  ]

  /** The introduction is pinned and shown first; the other two keep their order below it. */
  lemma SitePostsShownOrder()
    ensures SortPosts(SitePosts) == SitePosts
    ensures DividersBefore(|SitePosts|, |SitePosts|) == 2
  {
    SortIsPinnedFirst(SitePosts);
    assert SitePosts == SitePosts[..1] + SitePosts[1..];
    GroupsOfPinnedFirst(SitePosts[..1], SitePosts[1..]);
    DividersBetweenPosts(3);
  }

  const SiteMembers: seq<string> := [
    "Luka Arnold", "Verda Korz", "Anton Balitskyi", "Jaivin Wylde", "Sav Sidorov",
    "Celeste", "Jared Mantell", "Joe Krisciunas", "Yoyo Yuan"
  ]

  /** Every member links to "Prototype": the organisation has nine connections, each member one. */
  lemma SiteConnectionCounts()
    ensures ConnectionCount(Star(SiteMembers, "Prototype"), "Prototype") == 9
    ensures forall k :: 0 <= k < |SiteMembers| ==> ConnectionCount(Star(SiteMembers, "Prototype"), SiteMembers[k]) == 1
  {
    StarCounts(SiteMembers, "Prototype");
  }
}
