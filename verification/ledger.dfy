/**
 * The data access layer over the ledger: how profiles and posts become
 * tagged transactions, and how they are read back through the tag index.
 *
 * The network is an oracle. The tag index is a function from a query to the
 * transaction ids it returns (`None` when the query fails or returns no
 * `edges`), and the payload store maps a transaction id to the decoded JSON
 * payload (an id that is absent is one whose fetch or parse fails). JSON
 * encoding and decoding are the identity on records.
 */
module Ledger {
  import opened Common
  import opened Text

  type TxId = string

  const AppName := "AR-Blog-App"
  const ProfileType := "AR-Blog-Profile"
  const PostType := "AR-Blog-Post"
  const JsonContentType := "application/json"
  const Anonymous := "Anonymous"
  const DefaultFeedLimit := 10

  /** A stored profile: `UserProfile`. */
  datatype UserProfile = UserProfile(address: string, name: string, joinDate: string, bio: string)

  /** What a caller supplies to create a profile: `Omit<UserProfile, "address">`. */
  datatype ProfileDraft = ProfileDraft(name: string, bio: string, joinDate: string)

  /** What a caller supplies to create a post: `Omit<BlogPost, "id" | "author" | "authorName" | "timestamp">`. */
  datatype PostDraft = PostDraft(title: string, description: string, content: string, tags: seq<string>)

  /**
   * A decoded post payload. The payload written by `CreateBlogPost` has no
   * `id`; one read from the ledger may carry any `id` field.
   */
  datatype PostRecord = PostRecord(
    id: Option<TxId>, title: string, description: string, content: string,
    author: string, authorName: string, timestamp: int, tags: seq<string>)

  /** A post as the readers return it: `BlogPost`. */
  datatype BlogPost = BlogPost(
    id: TxId, title: string, description: string, content: string,
    author: string, authorName: string, timestamp: int, tags: seq<string>)

  /** The decoded payload of a transaction. */
  datatype Payload = ProfileData(profile: UserProfile) | PostData(post: PostRecord)

  datatype Tag = Tag(name: string, value: string)

  /** One tag condition of an index query: the tag `name` has one of `values`. */
  datatype TagFilter = TagFilter(name: string, values: seq<string>)

  /** An index query: every filter must hold; `first` bounds the number of hits. */
  datatype Query = Query(filters: seq<TagFilter>, first: Option<int>)

  datatype WriteError = NoWalletConnected

  type Index = Query -> Option<seq<TxId>>
  type Store = map<TxId, Payload>

  /** A transaction under construction: its data is fixed, tags are appended. */
  class Transaction {
    const data: Payload
    var tags: seq<Tag>

    constructor (data: Payload)
      ensures this.data == data && tags == []
    {
      this.data := data;
      tags := [];
    }

    /** `tx.addTag(name, value)`. */
    method AddTag(name: string, value: string)
      modifies this
      ensures tags == old(tags) + [Tag(name, value)]
    {
      tags := tags + [Tag(name, value)];
    }
  }

  // ----- Tags and queries -------------------------------------------------

  function ProfileTags(address: string): seq<Tag>
  {
    [Tag("Content-Type", JsonContentType), Tag("App-Name", AppName),
     Tag("Type", ProfileType), Tag("Address", address)]
  }

  function FixedPostTags(address: string): seq<Tag>
  {
    [Tag("Content-Type", JsonContentType), Tag("App-Name", AppName),
     Tag("Type", PostType), Tag("Author", address)]
  }

  /** One `Post-Tag` per label, trimmed, in label order. */
  function LabelTags(labels: seq<string>): (tags: seq<Tag>)
    ensures |tags| == |labels|
    ensures forall i :: 0 <= i < |labels| ==> tags[i] == Tag("Post-Tag", Trim(labels[i]))
  {
    if labels == [] then []
    else
      var init := labels[..|labels| - 1];
      assert forall i :: 0 <= i < |init| ==> init[i] == labels[i];
      LabelTags(init) + [Tag("Post-Tag", Trim(labels[|labels| - 1]))]
  }

  function PostTags(address: string, labels: seq<string>): seq<Tag>
  {
    FixedPostTags(address) + LabelTags(labels)
  }

  function ProfileQuery(address: string): Query
  {
    Query([TagFilter("App-Name", [AppName]), TagFilter("Type", [ProfileType]),
           TagFilter("Address", [address])], Some(1))
  }

  function FeedQuery(limit: int): Query
  {
    Query([TagFilter("App-Name", [AppName]), TagFilter("Type", [PostType])], Some(limit))
  }

  function UserPostsQuery(address: string): Query
  {
    Query([TagFilter("App-Name", [AppName]), TagFilter("Type", [PostType]),
           TagFilter("Author", [address])], None)
  }

  /** Some tag is called `name` and has one of `values`. */
  predicate HasTag(tags: seq<Tag>, name: string, values: seq<string>)
  {
    exists j :: 0 <= j < |tags| && tags[j].name == name && tags[j].value in values
  }

  /** A transaction with these tags is a hit of the query (AND across filters, OR within one). */
  predicate Matches(tags: seq<Tag>, q: Query)
  {
    forall i :: 0 <= i < |q.filters| ==> HasTag(tags, q.filters[i].name, q.filters[i].values)
  }

  /** The index finds a profile under its owner's address, and only there. */
  lemma ProfileDiscoverable(a: string, b: string, limit: int)
    ensures Matches(ProfileTags(a), ProfileQuery(b)) <==> a == b
    ensures !Matches(ProfileTags(a), FeedQuery(limit))
    ensures !Matches(ProfileTags(a), UserPostsQuery(b))
  {
    var tags := ProfileTags(a);
    if a == b {
      assert tags[1].name == "App-Name" && tags[2].name == "Type" && tags[3].name == "Address";
    } else {
      assert ProfileQuery(b).filters[2] == TagFilter("Address", [b]);
      assert !HasTag(tags, "Address", [b]);
    }
    assert FeedQuery(limit).filters[1] == TagFilter("Type", [PostType]);
    assert UserPostsQuery(b).filters[1] == TagFilter("Type", [PostType]);
    assert !HasTag(tags, "Type", [PostType]);
  }

  /** The label tags are all called `Post-Tag`, so no label can pose as a fixed tag. */
  lemma LabelTagNames(labels: seq<string>, name: string, values: seq<string>)
    requires name != "Post-Tag"
    ensures !HasTag(LabelTags(labels), name, values)
  {
  }

  /** A tag condition on a fixed tag name holds of a post exactly when it holds of its fixed tags. */
  lemma PostHasTag(a: string, labels: seq<string>, name: string, values: seq<string>)
    requires name != "Post-Tag"
    ensures HasTag(PostTags(a, labels), name, values) <==> HasTag(FixedPostTags(a), name, values)
  {
    var tags := PostTags(a, labels);
    LabelTagNames(labels, name, values);
    if HasTag(FixedPostTags(a), name, values) {
      var j :| 0 <= j < 4 && FixedPostTags(a)[j].name == name && FixedPostTags(a)[j].value in values;
      assert tags[j] == FixedPostTags(a)[j];
    }
  }

  /** A query without a `Post-Tag` condition sees only a post's fixed tags. */
  lemma MatchesFixed(a: string, labels: seq<string>, q: Query)
    requires forall i :: 0 <= i < |q.filters| ==> q.filters[i].name != "Post-Tag"
    ensures Matches(PostTags(a, labels), q) <==> Matches(FixedPostTags(a), q)
  {
    forall i | 0 <= i < |q.filters|
      ensures HasTag(PostTags(a, labels), q.filters[i].name, q.filters[i].values)
          <==> HasTag(FixedPostTags(a), q.filters[i].name, q.filters[i].values)
    {
      PostHasTag(a, labels, q.filters[i].name, q.filters[i].values);
    }
  }

  /** The index finds a post in every feed query. */
  lemma PostInFeed(a: string, labels: seq<string>, limit: int)
    ensures Matches(PostTags(a, labels), FeedQuery(limit))
  {
    var fixed := FixedPostTags(a);
    assert fixed[1] == Tag("App-Name", AppName) && fixed[2] == Tag("Type", PostType);
    MatchesFixed(a, labels, FeedQuery(limit));
  }

  /** The index finds a post under its author's address and no other. */
  lemma PostUnderAuthor(a: string, b: string, labels: seq<string>)
    ensures Matches(PostTags(a, labels), UserPostsQuery(b)) <==> a == b
  {
    MatchesFixed(a, labels, UserPostsQuery(b));
    FixedUnderAuthor(a, b);
  }

  lemma FixedUnderAuthor(a: string, b: string)
    ensures Matches(FixedPostTags(a), UserPostsQuery(b)) <==> a == b
  {
    var fixed := FixedPostTags(a);
    assert fixed[1] == Tag("App-Name", AppName) && fixed[2] == Tag("Type", PostType);
    assert fixed[3] == Tag("Author", a);
    assert UserPostsQuery(b).filters[2] == TagFilter("Author", [b]);
    if HasTag(fixed, "Author", [b]) {
      var j :| 0 <= j < |fixed| && fixed[j].name == "Author" && fixed[j].value in [b];
      assert j == 3;
    }
  }

  /** A post is never found as a profile. */
  lemma PostNotProfile(a: string, b: string, labels: seq<string>)
    ensures !Matches(PostTags(a, labels), ProfileQuery(b))
  {
    PostHasTag(a, labels, "Type", [ProfileType]);
    assert ProfileQuery(b).filters[1] == TagFilter("Type", [ProfileType]);
  }

  /** The post's tags: the four fixed ones, then one trimmed `Post-Tag` per label, in order. */
  lemma PostTagsShape(address: string, labels: seq<string>)
    ensures |PostTags(address, labels)| == 4 + |labels|
    ensures PostTags(address, labels)[..4] == FixedPostTags(address)
    ensures forall i :: 0 <= i < |labels| ==>
      PostTags(address, labels)[4 + i] == Tag("Post-Tag", Trim(labels[i]))
  {
  }

  // ----- Writes -------------------------------------------------------------

  /** The profile payload: the draft with the address added. */
  function ProfilePayload(profile: ProfileDraft, address: string): UserProfile
  {
    UserProfile(address, profile.name, profile.joinDate, profile.bio)
  }

  /** `profile?.name || "Anonymous"`: the author's name frozen into a new post. */
  function AuthorName(profile: Option<UserProfile>): (name: string)
    ensures name != ""
    ensures name == Anonymous || (profile.Some? && name == profile.value.name)
    ensures profile.Some? && profile.value.name != "" ==> name == profile.value.name
  {
    if profile.Some? && profile.value.name != "" then profile.value.name else Anonymous
  }

  /** The post payload: the draft with author, author name and clock time, and no id. */
  function PostPayload(post: PostDraft, address: string, authorName: string, now: int): PostRecord
  {
    PostRecord(None, post.title, post.description, post.content, address, authorName, now, post.tags)
  }

  /**
   * `createUserProfile`: refuses an empty address before building anything,
   * otherwise builds the profile transaction. Signing and posting are left
   * to the external wallet.
   */
  method CreateUserProfile(profile: ProfileDraft, address: string) returns (r: Result<Transaction, WriteError>)
    ensures r.Failure? <==> address == ""
    ensures r.Failure? ==> r.error == NoWalletConnected
    ensures r.Success? ==> fresh(r.value)
    ensures r.Success? ==> r.value.data == ProfileData(ProfilePayload(profile, address))
    ensures r.Success? ==> r.value.tags == ProfileTags(address)
  {
    if address == "" {
      return Failure(NoWalletConnected);
    }
    var tx := new Transaction(ProfileData(ProfilePayload(profile, address)));
    tx.AddTag("Content-Type", JsonContentType);
    tx.AddTag("App-Name", AppName);
    tx.AddTag("Type", ProfileType);
    tx.AddTag("Address", address);
    return Success(tx);
  }

  /**
   * `createBlogPost`: refuses an empty address before anything else, looks up
   * the author's profile for the name to freeze into the post, stamps the
   * clock time `now`, and builds the transaction, adding one `Post-Tag` per
   * label.
   */
  method CreateBlogPost(post: PostDraft, address: string, index: Index, store: Store, now: int)
    returns (r: Result<Transaction, WriteError>)
    ensures r.Failure? <==> address == ""
    ensures r.Failure? ==> r.error == NoWalletConnected
    ensures r.Success? ==> fresh(r.value)
    ensures r.Success? ==>
      r.value.data == PostData(PostPayload(post, address, AuthorName(GetUserProfile(address, index, store)), now))
    ensures r.Success? ==> r.value.tags == PostTags(address, post.tags)
  {
    if address == "" {
      return Failure(NoWalletConnected);
    }
    var profile := GetUserProfile(address, index, store);
    var authorName := AuthorName(profile);
    var tx := new Transaction(PostData(PostPayload(post, address, authorName, now)));
    tx.AddTag("Content-Type", JsonContentType);
    tx.AddTag("App-Name", AppName);
    tx.AddTag("Type", PostType);
    tx.AddTag("Author", address);
    assert tx.tags == FixedPostTags(address);
    AddLabelTags(tx, post.tags);
    return Success(tx);
  }

  /** `post.tags.forEach((tag) => tx.addTag("Post-Tag", tag.trim()))`. */
  method AddLabelTags(tx: Transaction, labels: seq<string>)
    modifies tx
    ensures tx.tags == old(tx.tags) + LabelTags(labels)
  {
    ghost var before := tx.tags;
    var i := 0;
    while i < |labels|
      invariant 0 <= i <= |labels|
      invariant tx.tags == before + LabelTags(labels[..i])
    {
      ghost var done := LabelTags(labels[..i]);
      var tag := Tag("Post-Tag", Trim(labels[i]));
      tx.AddTag(tag.name, tag.value);
      TakeSnoc(labels, i);
      assert LabelTags(labels[..i + 1]) == done + [tag];
      ConcatAssoc(before, done, [tag]);
      i := i + 1;
    }
    TakeAll(labels);
  }

  // ----- Single-record reads ------------------------------------------------

  /** The edges of an index answer; a failed query has none. */
  function Edges(answer: Option<seq<TxId>>): seq<TxId>
  {
    if answer.Some? then answer.value else []
  }

  /**
   * `getUserProfile`: asks the index for the address's profile and fetches
   * only the first hit; no hit, a failed query, fetch or parse all give `None`.
   */
  function GetUserProfile(address: string, index: Index, store: Store): (r: Option<UserProfile>)
    ensures r.Some? <==>
      var edges := Edges(index(ProfileQuery(address)));
      |edges| > 0 && edges[0] in store && store[edges[0]].ProfileData?
    ensures r.Some? ==> store[Edges(index(ProfileQuery(address)))[0]] == ProfileData(r.value)
  {
    var edges := Edges(index(ProfileQuery(address)));
    if |edges| == 0 then None
    else if edges[0] in store && store[edges[0]].ProfileData? then Some(store[edges[0]].profile)
    else None
  }

  /** `{ ...post, id }`: the payload with the transaction id written over any `id` it carries. */
  function Stamp(rec: PostRecord, id: TxId): (p: BlogPost)
    ensures p.id == id
  {
    BlogPost(id, rec.title, rec.description, rec.content, rec.author, rec.authorName, rec.timestamp, rec.tags)
  }

  /** The id fetches and parses as a post. */
  predicate Readable(id: TxId, store: Store)
  {
    id in store && store[id].PostData?
  }

  /** `getPost`: fetches the id directly; any failure gives `None`. */
  function GetPost(id: TxId, store: Store): (r: Option<BlogPost>)
    ensures r.Some? <==> Readable(id, store)
    ensures r.Some? ==> r.value.id == id
    ensures r.Some? ==> r.value == Stamp(store[id].post, id)
  {
    if Readable(id, store) then Some(Stamp(store[id].post, id)) else None
  }

  /** A profile written for `address` reads back field for field once the index returns it first. */
  lemma ProfileRoundTrip(profile: ProfileDraft, address: string, id: TxId, index: Index, store: Store)
    requires Edges(index(ProfileQuery(address))) != [] && Edges(index(ProfileQuery(address)))[0] == id
    requires id in store && store[id] == ProfileData(ProfilePayload(profile, address))
    ensures GetUserProfile(address, index, store) ==
      Some(UserProfile(address, profile.name, profile.joinDate, profile.bio))
  {
  }

  /** A post written by `address` reads back under its transaction id with every field kept. */
  lemma PostRoundTrip(post: PostDraft, address: string, authorName: string, now: int, id: TxId, store: Store)
    requires id in store && store[id] == PostData(PostPayload(post, address, authorName, now))
    ensures GetPost(id, store) == Some(BlogPost(id, post.title, post.description, post.content,
                                                address, authorName, now, post.tags))
  {
  }

  // ----- List reads ---------------------------------------------------------

  /** The readable edges, each stamped with its id, in edge order. */
  function Resolve(edges: seq<TxId>, store: Store): (posts: seq<BlogPost>)
    ensures |posts| <= |edges|
    ensures forall i :: 0 <= i < |posts| ==> posts[i].id in edges
  {
    if edges == [] then []
    else
      var last := edges[|edges| - 1];
      var init := Resolve(edges[..|edges| - 1], store);
      if Readable(last, store) then init + [Stamp(store[last].post, last)] else init
  }

  /** Resolving is done edge by edge: one edge's failure does not affect the others. */
  lemma {:induction false} ResolveAppend(a: seq<TxId>, b: seq<TxId>, store: Store)
    ensures Resolve(a + b, store) == Resolve(a, store) + Resolve(b, store)
  {
    if b != [] {
      var b' := b[..|b| - 1];
      assert (a + b)[..|a + b| - 1] == a + b';
      assert (a + b)[|a + b| - 1] == b[|b| - 1];
      ResolveAppend(a, b', store);
    } else {
      assert a + b == a;
    }
  }

  /** An edge that cannot be fetched or parsed is simply left out. */
  lemma FailedEdgeSkipped(a: seq<TxId>, x: TxId, b: seq<TxId>, store: Store)
    requires !Readable(x, store)
    ensures Resolve(a + [x] + b, store) == Resolve(a + b, store)
  {
    ResolveAppend(a + [x], b, store);
    ResolveAppend(a, [x], store);
    ResolveAppend(a, b, store);
    assert Resolve([x], store) == [] by {
      assert [x][..0] == [];
    }
  }

  /** Every readable edge contributes its post. */
  lemma ReadableEdgeKept(edges: seq<TxId>, k: nat, store: Store)
    requires k < |edges| && Readable(edges[k], store)
    ensures Stamp(store[edges[k]].post, edges[k]) in Resolve(edges, store)
  {
    var x := edges[k];
    assert edges == edges[..k] + [x] + edges[k + 1..];
    ResolveAppend(edges[..k] + [x], edges[k + 1..], store);
    ResolveAppend(edges[..k], [x], store);
    assert [x][..0] == [];
    assert Resolve([x], store) == [Stamp(store[x].post, x)];
  }

  /** Each post is no newer than the one before it. */
  predicate NewestFirst(posts: seq<BlogPost>)
  {
    forall i :: 0 < i < |posts| ==> posts[i - 1].timestamp >= posts[i].timestamp
  }

  /** Any two posts are in newest-first order. */
  lemma {:induction false} NewestFirstPairwise(posts: seq<BlogPost>, i: nat, j: nat)
    requires NewestFirst(posts) && i <= j < |posts|
    ensures posts[i].timestamp >= posts[j].timestamp
    decreases j - i
  {
    if i < j {
      NewestFirstPairwise(posts, i + 1, j);
    }
  }

  /** Places `p` before the first post that is not newer, so equal timestamps keep their order. */
  function Insert(p: BlogPost, sorted: seq<BlogPost>): (r: seq<BlogPost>)
    requires NewestFirst(sorted)
    ensures NewestFirst(r)
    ensures multiset(r) == multiset(sorted) + multiset{p}
    ensures |r| == |sorted| + 1 && (r[0] == p || (sorted != [] && r[0] == sorted[0]))
  {
    if sorted == [] || p.timestamp >= sorted[0].timestamp then [p] + sorted
    else
      var rest := Insert(p, sorted[1..]);
      assert sorted == [sorted[0]] + sorted[1..];
      assert multiset(sorted) == multiset{sorted[0]} + multiset(sorted[1..]);
      assert multiset([sorted[0]] + rest) == multiset{sorted[0]} + multiset(rest);
      [sorted[0]] + rest
  }

  /** `posts.sort((a, b) => b.timestamp - a.timestamp)`: a stable sort, newest first. */
  function SortNewestFirst(posts: seq<BlogPost>): (r: seq<BlogPost>)
    ensures NewestFirst(r)
    ensures multiset(r) == multiset(posts)
    ensures |r| == |posts|
  {
    if posts == [] then []
    else
      assert posts == [posts[0]] + posts[1..];
      Insert(posts[0], SortNewestFirst(posts[1..]))
  }

  /**
   * The loop of `getFeedPosts` and `getUserPosts`: fetch every edge in turn,
   * skip the ones that fail, stamp the others with their id.
   */
  method CollectPosts(edges: seq<TxId>, store: Store) returns (posts: seq<BlogPost>)
    ensures posts == Resolve(edges, store)
  {
    posts := [];
    var i := 0;
    while i < |edges|
      invariant 0 <= i <= |edges|
      invariant posts == Resolve(edges[..i], store)
    {
      var id := edges[i];
      assert edges[..i + 1][..i] == edges[..i];
      if Readable(id, store) {
        posts := posts + [Stamp(store[id].post, id)];
      }
      i := i + 1;
    }
    assert edges[..i] == edges;
  }

  /** The posts of an index answer: resolved edge by edge, then sorted newest first. */
  method ListPosts(answer: Option<seq<TxId>>, store: Store) returns (posts: seq<BlogPost>)
    ensures posts == SortNewestFirst(Resolve(Edges(answer), store))
    ensures forall i, j :: 0 <= i <= j < |posts| ==> posts[i].timestamp >= posts[j].timestamp
    ensures forall i :: 0 <= i < |posts| ==> posts[i].id in Edges(answer)
    ensures |posts| <= |Edges(answer)|
  {
    var edges := Edges(answer);
    if |edges| == 0 {
      return [];
    }
    var collected := CollectPosts(edges, store);
    posts := SortNewestFirst(collected);
    forall i, j | 0 <= i <= j < |posts| ensures posts[i].timestamp >= posts[j].timestamp {
      NewestFirstPairwise(posts, i, j);
    }
    forall i | 0 <= i < |posts| ensures posts[i].id in edges {
      assert posts[i] in multiset(collected);
    }
  }

  /** `getFeedPosts(limit)`: the index's first `limit` feed hits, read and sorted newest first. */
  method GetFeedPosts(index: Index, store: Store, limit: int := DefaultFeedLimit) returns (posts: seq<BlogPost>)
    ensures posts == SortNewestFirst(Resolve(Edges(index(FeedQuery(limit))), store))
    ensures forall i, j :: 0 <= i <= j < |posts| ==> posts[i].timestamp >= posts[j].timestamp
    ensures forall i :: 0 <= i < |posts| ==> posts[i].id in Edges(index(FeedQuery(limit)))
    ensures |posts| <= |Edges(index(FeedQuery(limit)))|
  {
    posts := ListPosts(index(FeedQuery(limit)), store);
  }

  /** `getUserPosts(address)`: every post the index lists under the author, newest first. */
  method GetUserPosts(address: string, index: Index, store: Store) returns (posts: seq<BlogPost>)
    ensures posts == SortNewestFirst(Resolve(Edges(index(UserPostsQuery(address))), store))
    ensures forall i, j :: 0 <= i <= j < |posts| ==> posts[i].timestamp >= posts[j].timestamp
    ensures forall i :: 0 <= i < |posts| ==> posts[i].id in Edges(index(UserPostsQuery(address)))
    ensures |posts| <= |Edges(index(UserPostsQuery(address)))|
  {
    posts := ListPosts(index(UserPostsQuery(address)), store);
  }
}
