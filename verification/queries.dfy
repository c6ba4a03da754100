/**
 * The query hooks: the cache key, `enabled` flag, initial data and stale
 * window each read query uses, and the cache entries each successful
 * mutation invalidates.
 */
module ArweaveQueries {
  import opened Common
  import QueryClient
  import Ledger

  /** One element of a query key. */
  datatype KeyPart = Text(s: string) | Number(n: int)

  type QueryKey = seq<KeyPart>

  /** The stand-in for an absent address or id in a disabled query's key. */
  const Placeholder := "none"

  // ----- `queryKeys` --------------------------------------------------------

  function ProfileKey(address: string): QueryKey
  {
    [Text("profile"), Text(address)]
  }

  const FeedPostsKey: QueryKey := [Text("feedPosts")]

  function UserPostsKey(address: string): QueryKey
  {
    [Text("userPosts"), Text(address)]
  }

  function PostKey(id: string): QueryKey
  {
    [Text("post"), Text(id)]
  }

  /** The key of one feed window: `[...queryKeys.feedPosts, limit]`. */
  function FeedKey(limit: int): QueryKey
  {
    FeedPostsKey + [Number(limit)]
  }

  /** Every key a read hook can use. */
  predicate HookKey(k: QueryKey)
  {
    && |k| == 2
    && (k[0] == Text("feedPosts") ==> k[1].Number?)
    && (k[0] != Text("feedPosts") ==> k[0] in [Text("profile"), Text("userPosts"), Text("post")] && k[1].Text?)
  }

  /** The keys the hooks build are exactly the `HookKey`s. */
  lemma HookKeys(k: QueryKey)
    ensures HookKey(k) <==>
      || (exists a :: k == ProfileKey(a))
      || (exists a :: k == UserPostsKey(a))
      || (exists id :: k == PostKey(id))
      || (exists limit :: k == FeedKey(limit))
  {
    if HookKey(k) {
      if k[0] == Text("feedPosts") {
        assert k == FeedKey(k[1].n);
      } else if k[0] == Text("profile") {
        assert k == ProfileKey(k[1].s);
      } else if k[0] == Text("userPosts") {
        assert k == UserPostsKey(k[1].s);
      } else {
        assert k == PostKey(k[1].s);
      }
    }
  }

  // ----- Read queries -------------------------------------------------------

  /** The options a read hook passes to `useQuery` (the query function aside). */
  datatype QueryConfig = QueryConfig(key: QueryKey, enabled: bool, initialDataNull: bool, staleTime: int)

  /**
   * `useUserProfileQuery(address)`: keyed by the address when it is truthy,
   * by the placeholder otherwise; disabled, with initial data `null`, only
   * when the address is `null` (an empty address runs and yields `null`).
   */
  function UserProfileQuery(address: Option<string>): (c: QueryConfig)
    ensures Present(address) ==> c.key == ProfileKey(address.value)
    ensures !Present(address) ==> c.key == ProfileKey(Placeholder)
    ensures !c.enabled <==> address.None?
    ensures c.initialDataNull <==> !c.enabled
    ensures c.staleTime == QueryClient.DefaultStaleTime
  {
    QueryConfig(
      if Present(address) then ProfileKey(address.value) else ProfileKey(Placeholder),
      address.Some?, address.None?, QueryClient.DefaultStaleTime)
  }

  /** The query function of `useUserProfileQuery`: a lookup only for a truthy address. */
  function UserProfileQueryFn(address: Option<string>, index: Ledger.Index, store: Ledger.Store): (r: Option<Ledger.UserProfile>)
    ensures !Present(address) ==> r.None?
    ensures Present(address) ==> r == Ledger.GetUserProfile(address.value, index, store)
  {
    if Present(address) then Ledger.GetUserProfile(address.value, index, store) else None
  }

  /** The query function of `useUserPosts`: the author's posts for a truthy address, `[]` otherwise. */
  method UserPostsQueryFn(address: Option<string>, index: Ledger.Index, store: Ledger.Store)
    returns (posts: seq<Ledger.BlogPost>)
    ensures !Present(address) ==> posts == []
    ensures Present(address) ==>
      posts == Ledger.SortNewestFirst(Ledger.Resolve(Ledger.Edges(index(Ledger.UserPostsQuery(address.value))), store))
  {
    if Present(address) {
      posts := Ledger.GetUserPosts(address.value, index, store);
    } else {
      posts := [];
    }
  }

  /** The query function of `usePost`: a fetch only for a truthy id. */
  function PostQueryFn(id: Option<string>, store: Ledger.Store): (r: Option<Ledger.BlogPost>)
    ensures !Present(id) ==> r.None?
    ensures r.Some? <==> Present(id) && Ledger.Readable(id.value, store)
    ensures r.Some? ==> r.value.id == id.value
  {
    if Present(id) then Ledger.GetPost(id.value, store) else None
  }

  /** `useFeedPosts(limit)`: always enabled, keyed by the limit, stale after ten minutes. */
  function FeedPostsQuery(limit: int := Ledger.DefaultFeedLimit): (c: QueryConfig)
    ensures c.enabled && !c.initialDataNull
    ensures c.key == FeedKey(limit) && FeedPostsKey <= c.key
    ensures c.staleTime == 2 * QueryClient.DefaultStaleTime
  {
    QueryConfig(FeedKey(limit), true, false, 1000 * 60 * 10)
  }

  /** `useUserPosts(address)`: enabled, and keyed by the address, exactly when it is truthy. */
  function UserPostsQuery(address: Option<string>): (c: QueryConfig)
    ensures c.enabled <==> Present(address)
    ensures c.enabled ==> c.key == UserPostsKey(address.value)
    ensures !c.enabled ==> c.key == UserPostsKey(Placeholder)
    ensures c.staleTime == QueryClient.DefaultStaleTime
  {
    var enabled := Present(address);
    QueryConfig(if enabled then UserPostsKey(address.value) else UserPostsKey(Placeholder),
                enabled, false, QueryClient.DefaultStaleTime)
  }

  /** `usePost(id)`: enabled, and keyed by the id, exactly when it is truthy; stale after ten minutes. */
  function PostQuery(id: Option<string>): (c: QueryConfig)
    ensures c.enabled <==> Present(id)
    ensures c.enabled ==> c.key == PostKey(id.value)
    ensures !c.enabled ==> c.key == PostKey(Placeholder)
    ensures c.staleTime == 2 * QueryClient.DefaultStaleTime
  {
    var enabled := Present(id);
    QueryConfig(if enabled then PostKey(id.value) else PostKey(Placeholder), enabled, false, 1000 * 60 * 10)
  }

  /**
   * Keys of different kinds never collide, a key determines its input, and a
   * real key equals its placeholder only for the input "none".
   */
  lemma KeysDistinct(a: string, b: string, limit: int)
    ensures ProfileKey(a) != UserPostsKey(b) && ProfileKey(a) != PostKey(b) && UserPostsKey(a) != PostKey(b)
    ensures ProfileKey(a) != FeedKey(limit) && UserPostsKey(a) != FeedKey(limit) && PostKey(a) != FeedKey(limit)
    ensures ProfileKey(a) == ProfileKey(b) <==> a == b
    ensures UserPostsKey(a) == UserPostsKey(b) <==> a == b
    ensures PostKey(a) == PostKey(b) <==> a == b
  {
    assert ProfileKey(a)[0] == Text("profile") && UserPostsKey(b)[0] == Text("userPosts");
    assert PostKey(b)[0] == Text("post") && FeedKey(limit)[0] == Text("feedPosts");
    assert ProfileKey(a) == ProfileKey(b) ==> ProfileKey(a)[1] == ProfileKey(b)[1];
    assert UserPostsKey(a) == UserPostsKey(b) ==> UserPostsKey(a)[1] == UserPostsKey(b)[1];
    assert PostKey(a) == PostKey(b) ==> PostKey(a)[1] == PostKey(b)[1];
  }

  // ----- Cache invalidation -------------------------------------------------

  /** `invalidateQueries({ queryKey: p })` matches every key that starts with `p`. */
  predicate Invalidated(prefixes: seq<QueryKey>, k: QueryKey)
  {
    exists i :: 0 <= i < |prefixes| && prefixes[i] <= k
  }

  /** The key prefixes `useCreateUserProfile`'s `onSuccess` invalidates. */
  function ProfileCreationInvalidates(address: string): seq<QueryKey>
  {
    [ProfileKey(address)]
  }

  /** The key prefixes `useCreateBlogPost`'s `onSuccess` invalidates. */
  function PostCreationInvalidates(address: string): seq<QueryKey>
  {
    [FeedPostsKey, UserPostsKey(address)]
  }

  /** Among the hooks' keys, creating a profile invalidates exactly that address's profile. */
  lemma ProfileCreationExact(address: string, k: QueryKey)
    requires HookKey(k)
    ensures Invalidated(ProfileCreationInvalidates(address), k) <==> k == ProfileKey(address)
  {
    var p := ProfileKey(address);
    if Invalidated(ProfileCreationInvalidates(address), k) {
      assert p <= k;
      assert k[0] == Text("profile") && k[1] == Text(address);
    } else {
      assert ProfileCreationInvalidates(address)[0] == p;
    }
  }

  /**
   * Creating a post invalidates every feed window and the author's post
   * list, and no profile, no single post and no other author's list.
   */
  lemma PostCreationExact(address: string, b: string, id: string, limit: int)
    ensures Invalidated(PostCreationInvalidates(address), FeedKey(limit))
    ensures Invalidated(PostCreationInvalidates(address), UserPostsKey(address))
    ensures !Invalidated(PostCreationInvalidates(address), ProfileKey(b))
    ensures !Invalidated(PostCreationInvalidates(address), PostKey(id))
    ensures b != address ==> !Invalidated(PostCreationInvalidates(address), UserPostsKey(b))
  {
    var ps := PostCreationInvalidates(address);
    assert ps[0] <= FeedKey(limit);
    assert ps[1] <= UserPostsKey(address);
    assert ps[0][0] == Text("feedPosts") && ps[1][0] == Text("userPosts");
    assert ProfileKey(b)[0] == Text("profile") && PostKey(id)[0] == Text("post");
    assert UserPostsKey(b)[1] == Text(b) && ps[1][1] == Text(address);
  }

  /** The stale flags after invalidating `prefixes`: matching entries become stale, nothing else changes. */
  function AfterInvalidate(stale: map<QueryKey, bool>, prefixes: seq<QueryKey>): (m: map<QueryKey, bool>)
    ensures m.Keys == stale.Keys
    ensures forall k :: k in m ==> (m[k] <==> stale[k] || Invalidated(prefixes, k))
  {
    map k | k in stale :: stale[k] || Invalidated(prefixes, k)
  }

  /**
   * After a post is created, cached feeds and the author's list are stale and
   * must be refetched; the author's cached profile keeps its flag.
   */
  lemma AfterPostCreated(stale: map<QueryKey, bool>, address: string, limit: int)
    ensures var m := AfterInvalidate(stale, PostCreationInvalidates(address));
      && (FeedKey(limit) in stale ==> m[FeedKey(limit)])
      && (UserPostsKey(address) in stale ==> m[UserPostsKey(address)])
      && (ProfileKey(address) in stale ==> m[ProfileKey(address)] == stale[ProfileKey(address)])
  {
    PostCreationExact(address, address, "", limit);
  }

  /** A key is matched by a list of prefixes when one of its two parts matches it. */
  lemma InvalidatedConcat(p: seq<QueryKey>, q: seq<QueryKey>, k: QueryKey)
    ensures Invalidated(p + q, k) <==> Invalidated(p, k) || Invalidated(q, k)
  {
    if Invalidated(p + q, k) {
      var i :| 0 <= i < |p + q| && (p + q)[i] <= k;
      if i >= |p| {
        assert q[i - |p|] <= k;
      }
    }
    if Invalidated(q, k) {
      var i :| 0 <= i < |q| && q[i] <= k;
      assert (p + q)[|p| + i] <= k;
    }
    if Invalidated(p, k) {
      var i :| 0 <= i < |p| && p[i] <= k;
      assert (p + q)[i] <= k;
    }
  }

  /** Two invalidations in a row are one invalidation of both lists of prefixes. */
  lemma AfterInvalidateTwice(stale: map<QueryKey, bool>, p: seq<QueryKey>, q: seq<QueryKey>)
    ensures AfterInvalidate(AfterInvalidate(stale, p), q) == AfterInvalidate(stale, p + q)
  {
    forall k | k in stale
      ensures AfterInvalidate(AfterInvalidate(stale, p), q)[k] == AfterInvalidate(stale, p + q)[k]
    {
      InvalidatedConcat(p, q, k);
    }
  }

  /** One prefix matches exactly the keys that start with it. */
  lemma InvalidatedSingle(prefix: QueryKey, k: QueryKey)
    ensures Invalidated([prefix], k) <==> prefix <= k
  {
    assert [prefix][0] == prefix;
  }

  /** Invalidating nothing changes nothing. */
  lemma NoInvalidation(stale: map<QueryKey, bool>)
    ensures AfterInvalidate(stale, []) == stale
  {
  }

  /** The shared query cache: for each cached key, whether it must be refetched. */
  class QueryCache {
    var stale: map<QueryKey, bool>

    /** A cache holding `entries`, filled by earlier queries. */
    constructor (entries: map<QueryKey, bool>)
      ensures stale == entries
    {
      stale := entries;
    }

    /** `invalidateQueries({ queryKey: prefix })`. */
    method Invalidate(prefix: QueryKey)
      modifies this
      ensures stale == AfterInvalidate(old(stale), [prefix])
    {
      stale := map k | k in stale :: stale[k] || prefix <= k;
      forall k | k in stale
        ensures stale[k] == AfterInvalidate(old(stale), [prefix])[k]
      {
        InvalidatedSingle(prefix, k);
      }
    }
  }

  /**
   * `useCreateUserProfile().mutateAsync({ profile, address })`: builds the
   * profile transaction for `address`; `submitted` says whether signing and
   * posting it succeeded. Only a success invalidates, and it invalidates
   * the address's profile.
   */
  method CreateUserProfileMutation(cache: QueryCache, profile: Ledger.ProfileDraft, address: string, submitted: bool)
    returns (tx: Result<Ledger.Transaction, Ledger.WriteError>, ok: bool)
    modifies cache
    ensures tx.Failure? <==> address == ""
    ensures tx.Success? ==> fresh(tx.value)
    ensures tx.Success? ==> tx.value.data == Ledger.ProfileData(Ledger.ProfilePayload(profile, address))
    ensures tx.Success? ==> tx.value.tags == Ledger.ProfileTags(address)
    ensures ok <==> tx.Success? && submitted
    ensures cache.stale == AfterInvalidate(old(cache.stale), if ok then ProfileCreationInvalidates(address) else [])
  {
    tx := Ledger.CreateUserProfile(profile, address);
    ok := tx.Success? && submitted;
    if ok {
      cache.Invalidate(ProfileKey(address));
    } else {
      NoInvalidation(cache.stale);
    }
  }

  /**
   * `useCreateBlogPost().mutateAsync({ post, address })`: builds the post
   * transaction (looking up the author's name and stamping `now`);
   * a success invalidates the feed and the author's posts.
   */
  method CreateBlogPostMutation(cache: QueryCache, post: Ledger.PostDraft, address: string,
                                index: Ledger.Index, store: Ledger.Store, now: int, submitted: bool)
    returns (tx: Result<Ledger.Transaction, Ledger.WriteError>, ok: bool)
    modifies cache
    ensures tx.Failure? <==> address == ""
    ensures tx.Success? ==> fresh(tx.value)
    ensures tx.Success? ==>
      tx.value.data == Ledger.PostData(Ledger.PostPayload(post, address, Ledger.AuthorName(Ledger.GetUserProfile(address, index, store)), now))
    ensures tx.Success? ==> tx.value.tags == Ledger.PostTags(address, post.tags)
    ensures ok <==> tx.Success? && submitted
    ensures cache.stale == AfterInvalidate(old(cache.stale), if ok then PostCreationInvalidates(address) else [])
  {
    tx := Ledger.CreateBlogPost(post, address, index, store, now);
    ok := tx.Success? && submitted;
    if ok {
      ghost var before := cache.stale;
      cache.Invalidate(FeedPostsKey);
      cache.Invalidate(UserPostsKey(address));
      AfterInvalidateTwice(before, [FeedPostsKey], [UserPostsKey(address)]);
      assert [FeedPostsKey] + [UserPostsKey(address)] == PostCreationInvalidates(address);
    } else {
      NoInvalidation(cache.stale);
    }
  }
}
