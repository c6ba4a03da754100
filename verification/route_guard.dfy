/**
 * The route guard wrapped around the profile and compose pages. Its effect
 * runs after every render whose inputs changed and decides, once, whether
 * the visitor may stay; its render shows a placeholder, nothing or the page.
 */
module RouteGuard {
  import opened Common
  import Ledger
  import ArweaveProvider

  const ConnectWalletMessage := "Please connect your wallet first"
  const CreateProfileMessage := "Please create a profile first"

  /** What one run of the effect does besides updating `checkedAuth`. */
  datatype Effect = NoEffect | RedirectHome(message: string)

  /** What the guard renders. */
  datatype View = LoadingPlaceholder | RedirectNull | Children

  datatype StepResult = StepResult(effect: Effect, checked: bool)

  /**
   * One run of the effect with the current context: nothing once checked or
   * while the wallet connects; a redirect for a missing address; a wait
   * while the profile loads; a redirect for a missing required profile;
   * otherwise the check passes.
   */
  function Step(requireProfile: bool, checked: bool, c: ArweaveProvider.Context): (r: StepResult)
    ensures checked ==> r == StepResult(NoEffect, true)
    ensures !checked && c.addressLoading ==> r == StepResult(NoEffect, false)
    ensures r.effect.RedirectHome? <==>
      !checked && !c.addressLoading && (!Present(c.address) || (!c.loading && requireProfile && c.profile.None?))
    ensures r.effect.RedirectHome? ==>
      r.effect.message == (if Present(c.address) then CreateProfileMessage else ConnectWalletMessage)
    ensures r.checked <==> checked || (!c.addressLoading && (!Present(c.address) || !c.loading))
  {
    if checked then StepResult(NoEffect, true)
    else if c.addressLoading then StepResult(NoEffect, false)
    else if !Present(c.address) then StepResult(RedirectHome(ConnectWalletMessage), true)
    else if c.loading then StepResult(NoEffect, false)
    else if requireProfile && c.profile.None? then StepResult(RedirectHome(CreateProfileMessage), true)
    else StepResult(NoEffect, true)
  }

  /** The effects of running the effect once per context in `inputs`, starting from `checked`. */
  function Effects(requireProfile: bool, checked: bool, inputs: seq<ArweaveProvider.Context>): (es: seq<Effect>)
    ensures |es| == |inputs|
    decreases inputs
  {
    if inputs == [] then []
    else
      var r := Step(requireProfile, checked, inputs[0]);
      [r.effect] + Effects(requireProfile, r.checked, inputs[1..])
  }

  /** The number of redirects in a run. */
  function Redirects(es: seq<Effect>): nat
  {
    if es == [] then 0 else (if es[0].RedirectHome? then 1 else 0) + Redirects(es[1..])
  }

  /** Once checked, the guard never acts again. */
  lemma {:induction false} QuietOnceChecked(requireProfile: bool, inputs: seq<ArweaveProvider.Context>)
    ensures Redirects(Effects(requireProfile, true, inputs)) == 0
  {
    if inputs != [] {
      QuietOnceChecked(requireProfile, inputs[1..]);
    }
  }

  /** However the context changes, the guard redirects at most once. */
  lemma {:induction false} RedirectsAtMostOnce(requireProfile: bool, checked: bool, inputs: seq<ArweaveProvider.Context>)
    ensures Redirects(Effects(requireProfile, checked, inputs)) <= 1
    decreases inputs
  {
    if inputs != [] {
      var r := Step(requireProfile, checked, inputs[0]);
      if r.effect.RedirectHome? {
        QuietOnceChecked(requireProfile, inputs[1..]);
      } else {
        RedirectsAtMostOnce(requireProfile, r.checked, inputs[1..]);
      }
    }
  }

  /** One mounted guard and its `checkedAuth` state. */
  class Guard {
    const requireProfile: bool
    var checkedAuth: bool

    /** A fresh guard has not checked yet; a profile is required unless the page says otherwise. */
    constructor (requireProfile: bool := true)
      ensures this.requireProfile == requireProfile && !checkedAuth
    {
      this.requireProfile := requireProfile;
      checkedAuth := false;
    }

    /** The `useEffect` body for the current context. */
    method RunEffect(c: ArweaveProvider.Context) returns (e: Effect)
      modifies this
      ensures StepResult(e, checkedAuth) == Step(requireProfile, old(checkedAuth), c)
      ensures old(checkedAuth) ==> checkedAuth && e == NoEffect
    {
      if checkedAuth {
        return NoEffect;
      }
      if c.addressLoading {
        return NoEffect;
      }
      if !Present(c.address) {
        e := RedirectHome(ConnectWalletMessage);
        checkedAuth := true;
        return;
      }
      if c.loading {
        return NoEffect;
      }
      if requireProfile && c.profile.None? {
        e := RedirectHome(CreateProfileMessage);
        checkedAuth := true;
        return;
      }
      checkedAuth := true;
      e := NoEffect;
    }

    /**
     * The render: the placeholder while an address is known and something
     * is still loading before the check; nothing (after navigating home) once
     * checked without an address; the page in every other case.
     */
    function Render(c: ArweaveProvider.Context): (v: View)
      reads this
      ensures v == LoadingPlaceholder <==> !checkedAuth && (c.loading || c.addressLoading) && Present(c.address)
      ensures v == RedirectNull <==> checkedAuth && !Present(c.address)
    {
      if !checkedAuth && (c.loading || c.addressLoading) && Present(c.address) then LoadingPlaceholder
      else if checkedAuth && (!Present(c.address) || (requireProfile && c.profile.None?)) then
        if !Present(c.address) then RedirectNull else Children
      else Children
    }
  }

  /**
   * With the provider's context the `addressLoading` disjunct of the
   * placeholder condition never matters, since the exposed address is
   * `null` while the wallet connects: the placeholder shows exactly while
   * the profile of a connected wallet loads.
   */
  lemma PlaceholderWhileProfileLoads(g: Guard, wallet: JsString, data: Option<Ledger.UserProfile>, profileLoading: bool)
    ensures g.Render(ArweaveProvider.Derive(wallet, data, profileLoading)) == LoadingPlaceholder <==>
      !g.checkedAuth && profileLoading && Truthy(wallet)
  {
  }

  /**
   * Before the first check the page itself is rendered while the wallet is
   * still connecting, since neither the placeholder nor the fallback applies.
   */
  lemma PageShownWhileWalletConnects(g: Guard, data: Option<Ledger.UserProfile>, profileLoading: bool)
    requires !g.checkedAuth
    ensures g.Render(ArweaveProvider.Derive(Undefined, data, profileLoading)) == Children
  {
  }

  /**
   * After a check that redirected for a missing profile the page is still
   * rendered: the fallback only catches a missing address.
   */
  lemma PageShownAfterProfileRedirect(g: Guard, c: ArweaveProvider.Context)
    requires g.checkedAuth && Present(c.address) && c.profile.None?
    ensures g.Render(c) == Children
  {
  }
}
