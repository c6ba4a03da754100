/**
 * The session context: what the provider derives from the wallet's active
 * address and the profile query, and its `createProfile` action.
 *
 * The wallet's address is `undefined` while the wallet kit is still
 * connecting, `null` when no wallet is connected, and a string otherwise.
 */
module ArweaveProvider {
  import opened Common
  import Ledger
  import ArweaveQueries

  /** The context value every page reads. */
  datatype Context = Context(
    address: Option<string>, profile: Option<Ledger.UserProfile>,
    loading: bool, addressLoading: bool, isProfileCreated: bool)

  /**
   * The address handed to the profile query and exposed by the context:
   * `null` while loading and for a falsy address, the address otherwise.
   */
  function SessionAddress(wallet: JsString): (a: Option<string>)
    ensures a.Some? <==> Truthy(wallet)
    ensures a.Some? ==> a.value == wallet.s && a.value != ""
    ensures a.Some? <==> Present(a)
  {
    if wallet.Undefined? then None
    else if Truthy(wallet) then Some(wallet.s)
    else None
  }

  /** The context for the profile query's current `data` and `isLoading`. */
  function Derive(wallet: JsString, profileData: Option<Ledger.UserProfile>, profileLoading: bool): (c: Context)
    ensures c.addressLoading <==> wallet.Undefined?
    ensures c.address == SessionAddress(wallet)
    ensures c.loading <==> wallet.Undefined? || profileLoading
    ensures c.isProfileCreated <==> c.profile.Some?
    ensures c.profile == profileData
  {
    var addressLoading := wallet.Undefined?;
    Context(SessionAddress(wallet), profileData, addressLoading || profileLoading, addressLoading, profileData.Some?)
  }

  /**
   * The profile query the provider runs: disabled, with `null` as its data,
   * until a wallet address is known and truthy; keyed by that address once
   * it is.
   */
  lemma ProfileQueryFollowsWallet(wallet: JsString)
    ensures var q := ArweaveQueries.UserProfileQuery(SessionAddress(wallet));
      && (q.enabled <==> Truthy(wallet))
      && (q.initialDataNull <==> !Truthy(wallet))
      && (Truthy(wallet) ==> q.key == ArweaveQueries.ProfileKey(wallet.s))
      && (!Truthy(wallet) ==> q.key == ArweaveQueries.ProfileKey(ArweaveQueries.Placeholder))
  {
  }

  /** The context once the profile query has settled against the ledger. */
  function Settled(wallet: JsString, index: Ledger.Index, store: Ledger.Store): Context
  {
    var a := SessionAddress(wallet);
    Derive(wallet, ArweaveQueries.UserProfileQueryFn(a, index, store), false)
  }

  /**
   * Once settled, a profile is reported exactly when a wallet is connected
   * and the ledger holds a readable profile for its address.
   */
  lemma SettledProfile(wallet: JsString, index: Ledger.Index, store: Ledger.Store)
    ensures var c := Settled(wallet, index, store);
      && (c.isProfileCreated <==> Truthy(wallet) && Ledger.GetUserProfile(wallet.s, index, store).Some?)
      && (c.isProfileCreated ==> c.profile == Ledger.GetUserProfile(wallet.s, index, store))
      && (c.loading <==> wallet.Undefined?)
  {
  }

  /**
   * The application shell's condition for prompting a profile: connected,
   * nothing loading, no profile.
   */
  predicate PromptForProfile(c: Context)
  {
    c.address.Some? && c.address.value != "" && !c.addressLoading && !c.loading && c.profile.None?
  }

  /** Once settled, the profile prompt appears exactly for a connected wallet without a profile. */
  lemma PromptWhenProfileMissing(wallet: JsString, index: Ledger.Index, store: Ledger.Store)
    ensures PromptForProfile(Settled(wallet, index, store)) <==>
      Truthy(wallet) && Ledger.GetUserProfile(wallet.s, index, store).None?
  {
    SettledProfile(wallet, index, store);
  }

  /**
   * `createProfile(name, bio)`: `false` without touching the ledger when no
   * wallet is connected; otherwise runs the profile mutation for
   * `{ name, bio, joinDate }` (the join date being the formatted current
   * month) and the session address, and reports whether it succeeded.
   * `submitted` says whether signing and posting succeeded; `tx` is the
   * transaction the mutation built, if it ran.
   */
  method CreateProfile(cache: ArweaveQueries.QueryCache, wallet: JsString, name: string, bio: string,
                       joinDate: string, submitted: bool)
    returns (ok: bool, tx: Option<Ledger.Transaction>)
    modifies cache
    ensures tx.Some? <==> Truthy(wallet)
    ensures tx.Some? ==> fresh(tx.value)
    ensures tx.Some? ==>
      tx.value.data == Ledger.ProfileData(Ledger.UserProfile(wallet.s, name, joinDate, bio))
    ensures tx.Some? ==> tx.value.tags == Ledger.ProfileTags(wallet.s)
    ensures ok <==> Truthy(wallet) && submitted
    ensures !Truthy(wallet) ==> cache.stale == old(cache.stale)
    ensures cache.stale == ArweaveQueries.AfterInvalidate(old(cache.stale),
      if ok then ArweaveQueries.ProfileCreationInvalidates(wallet.s) else [])
  {
    if !Truthy(wallet) {
      ArweaveQueries.NoInvalidation(cache.stale);
      return false, None;
    }
    var r;
    r, ok := ArweaveQueries.CreateUserProfileMutation(cache, Ledger.ProfileDraft(name, bio, joinDate), wallet.s, submitted);
    tx := Some(r.value);
  }
}
