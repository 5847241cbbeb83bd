/**
 * The subscription gate that wraps the signed-in application. On mount it asks for the current
 * user and that user's profile, then renders the children, a spinner or the paywall.
 */
module SubscriptionGuard {
  import opened Wrappers
  import opened Supabase

  datatype SubscriptionStatus = Trial | Active | PastDue | Canceled | Unpaid

  /** The profile record kept by the backend for each principal. */
  datatype UserProfile = UserProfile(
    id: string,
    email: string,
    companyName: string,
    subscriptionStatus: SubscriptionStatus,
    subscriptionEndDate: string)

  /** Access is granted to active and trial subscriptions. */
  predicate Grants(s: SubscriptionStatus) {
    s == Active || s == Trial
  }

  /** The transient profile made up for a user without a stored one. */
  function FallbackProfile(u: User, nowIso: string): (p: UserProfile)
    ensures p.id == u.id && p.subscriptionStatus == Active && Grants(p.subscriptionStatus)
    ensures p.email == u.email.GetOr("")
  {
    UserProfile(u.id, u.email.GetOr(""), "", Active, nowIso)
  }

  /**
   * The profile after `checkStatus`. `user` is what `getUser` gave, `stored` what the profile
   * lookup gave; `Err` is an exception, which leaves the profile as it was.
   */
  function Resolve(previous: Option<UserProfile>, user: Result<Option<User>, string>,
                   stored: Result<Option<UserProfile>, string>, nowIso: string): (p: Option<UserProfile>)
    ensures user.Err? || user == Ok(None) ==> p == previous
    ensures user.Ok? && user.value.Some? && stored.Err? ==> p == previous
    ensures user.Ok? && user.value.Some? && stored == Ok(None) ==> p == Some(FallbackProfile(user.value.value, nowIso))
    ensures user.Ok? && user.value.Some? && stored.Ok? && stored.value.Some? ==> p == stored.value
  {
    match user
    case Err(_) => previous
    case Ok(None) => previous
    case Ok(Some(u)) =>
      match stored
      case Err(_) => previous
      case Ok(None) => Some(FallbackProfile(u, nowIso))
      case Ok(Some(found)) => Some(found)
  }

  const TrialEndedText := "Seu período de teste gratuito acabou."
  const PendingText := "Sua assinatura está pendente ou foi cancelada."

  datatype Screen = Spinner | Children | Paywall(text: string)

  /**
   * What the gate renders. The children exactly when loading is over and a profile with an active
   * or trial status exists; the paywall never shows the "trial ended" text, because a trial
   * status is let through before the paywall is reached.
   */
  function Render(loading: bool, profile: Option<UserProfile>): (v: Screen)
    ensures v == Spinner <==> loading
    ensures v == Children <==> !loading && profile.Some? && Grants(profile.value.subscriptionStatus)
    ensures v.Paywall? ==> v.text == PendingText && v.text != TrialEndedText
  {
    if loading then Spinner
    else if profile.Some? && Grants(profile.value.subscriptionStatus) then Children
    else Paywall(if profile.Some? && profile.value.subscriptionStatus == Trial then TrialEndedText else PendingText)
  }

  class Gate {
    var loading: bool
    var profile: Option<UserProfile>

    constructor()
      ensures loading && profile == None
    {
      loading := true;
      profile := None;
    }

    function View(): Screen
      reads this
    {
      Render(loading, profile)
    }

    /** `checkStatus`: resolves the profile, and whatever happens, ends loading. */
    method CheckStatus(user: Result<Option<User>, string>, stored: Result<Option<UserProfile>, string>, nowIso: string)
      modifies this
      ensures !loading
      ensures profile == Resolve(old(profile), user, stored, nowIso)
    {
      if user.Ok? && user.value.Some? {
        var u := user.value.value;
        if stored.Ok? {
          if stored.value.None? {
            profile := Some(FallbackProfile(u, nowIso));
          } else {
            profile := stored.value;
          }
        }
      }
      loading := false;
    }
  }

  // ----- The gate's decisions after a check on a fresh mount -----

  /** A user without a stored profile is let in. */
  lemma FailOpen(u: User, nowIso: string)
    ensures Render(false, Resolve(None, Ok(Some(u)), Ok(None), nowIso)) == Children
  {
  }

  /** No user: no profile and the paywall. */
  lemma NoUserBlocked(stored: Result<Option<UserProfile>, string>, nowIso: string)
    ensures Render(false, Resolve(None, Ok(None), stored, nowIso)) == Paywall(PendingText)
  {
  }

  /** A stored profile that is past due, canceled or unpaid is blocked. */
  lemma LapsedBlocked(u: User, p: UserProfile, nowIso: string)
    requires !Grants(p.subscriptionStatus)
    ensures Render(false, Resolve(None, Ok(Some(u)), Ok(Some(p)), nowIso)) == Paywall(PendingText)
  {
  }

  /** An exception anywhere in the check leaves the profile absent and the user blocked. */
  lemma ExceptionBlocked(user: Result<Option<User>, string>, stored: Result<Option<UserProfile>, string>, nowIso: string)
    requires user.Err? || stored.Err?
    ensures Render(false, Resolve(None, user, stored, nowIso)).Paywall?
  {
  }

  /**
   * The profile lookup as shipped: `SupabaseService.auth` defines no `getProfile`, so the call
   * throws a `TypeError` before any profile is read.
   */
  const ShippedLookupReply: Result<Option<UserProfile>, string> := Err("SupabaseService.auth.getProfile is not a function")

  /**
   * With the shipped adapter every signed-in user ends on the paywall, although the same user
   * without a stored profile is let in once a lookup answers.
   */
  lemma SignedInBlockedAsShipped(u: User, nowIso: string)
    ensures Render(false, Resolve(None, Ok(Some(u)), ShippedLookupReply, nowIso)) == Paywall(PendingText)
    ensures Render(false, Resolve(None, Ok(Some(u)), Ok(None), nowIso)) == Children
  {
  }

  /** A fresh gate after its check: the full life cycle of one mount. */
  method Mount(user: Result<Option<User>, string>, stored: Result<Option<UserProfile>, string>, nowIso: string)
    returns (v: Screen)
    ensures v == Render(false, Resolve(None, user, stored, nowIso))
    ensures v == Children <==> user.Ok? && user.value.Some? && stored.Ok?
                               && (stored.value.None? || Grants(stored.value.value.subscriptionStatus))
  {
    var g := new Gate();
    assert g.View() == Spinner;
    g.CheckStatus(user, stored, nowIso);
    v := g.View();
  }
}
