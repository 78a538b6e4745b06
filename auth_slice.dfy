/** The store slice that records whether the user is signed in. */
module AuthSlice {
  import opened Wrappers

  datatype AuthState = AuthState(isAuthenticated: bool, redirectMessage: Option<string>)

  datatype AuthAction = Login | Logout | SetRedirectMessage(message: Option<string>)

  /**
   * The state the slice starts in: signed in exactly when a non-empty token
   * is stored (`!!` of the stored string, so "" counts as none).
   */
  function InitialAuth(hasStoredToken: bool): (s: AuthState)
    ensures s.isAuthenticated <==> hasStoredToken
    ensures s.redirectMessage.None?
  {
    AuthState(hasStoredToken, None)
  }

  /** The slice's reducer: each action sets one field and keeps the other. */
  function Reduce(s: AuthState, a: AuthAction): (r: AuthState)
    ensures a.Login? ==> r.isAuthenticated && r.redirectMessage == s.redirectMessage
    ensures a.Logout? ==> !r.isAuthenticated && r.redirectMessage == s.redirectMessage
    ensures a.SetRedirectMessage? ==> r.isAuthenticated == s.isAuthenticated && r.redirectMessage == a.message
  {
    match a
    case Login => s.(isAuthenticated := true)
    case Logout => s.(isAuthenticated := false)
    case SetRedirectMessage(m) => s.(redirectMessage := m)
  }

  /** Applying the actions in order. */
  function ReduceAll(s: AuthState, actions: seq<AuthAction>): AuthState
    decreases |actions|
  {
    if |actions| == 0 then s else ReduceAll(Reduce(s, actions[0]), actions[1..])
  }

  /** Whether signed in after a run of actions depends only on the last Login or Logout. */
  lemma {:induction false} SignedInAfterLast(s: AuthState, actions: seq<AuthAction>, k: nat)
    requires k < |actions| && !actions[k].SetRedirectMessage?
    requires forall j :: k < j < |actions| ==> actions[j].SetRedirectMessage?
    ensures ReduceAll(s, actions).isAuthenticated <==> actions[k].Login?
    decreases |actions|
  {
    if k == 0 {
      MessagesKeepSignIn(Reduce(s, actions[0]), actions[1..]);
    } else {
      SignedInAfterLast(Reduce(s, actions[0]), actions[1..], k - 1);
    }
  }

  /** Setting redirect messages never signs the user in or out. */
  lemma {:induction false} MessagesKeepSignIn(s: AuthState, actions: seq<AuthAction>)
    requires forall j :: 0 <= j < |actions| ==> actions[j].SetRedirectMessage?
    ensures ReduceAll(s, actions).isAuthenticated == s.isAuthenticated
    decreases |actions|
  {
    if |actions| > 0 {
      MessagesKeepSignIn(Reduce(s, actions[0]), actions[1..]);
    }
  }

  /** Signing in or out never changes the redirect message. */
  lemma {:induction false} SignInKeepsMessage(s: AuthState, actions: seq<AuthAction>)
    requires forall j :: 0 <= j < |actions| ==> !actions[j].SetRedirectMessage?
    ensures ReduceAll(s, actions).redirectMessage == s.redirectMessage
    decreases |actions|
  {
    if |actions| > 0 {
      SignInKeepsMessage(Reduce(s, actions[0]), actions[1..]);
    }
  }

  /** Every action is idempotent. */
  lemma ReduceIdempotent(s: AuthState, a: AuthAction)
    ensures Reduce(Reduce(s, a), a) == Reduce(s, a)
  {
  }

  /** The slice state, which the reducers change in place. */
  class AuthStore {
    var isAuthenticated: bool
    var redirectMessage: Option<string>

    function State(): AuthState
      reads this
    {
      AuthState(isAuthenticated, redirectMessage)
    }

    /** `hasStoredToken` stands for whether local storage holds an access token. */
    constructor (hasStoredToken: bool)
      ensures State() == InitialAuth(hasStoredToken)
    {
      isAuthenticated := hasStoredToken;
      redirectMessage := None;
    }

    method LoginAction()
      modifies this
      ensures State() == Reduce(old(State()), Login)
      ensures isAuthenticated && redirectMessage == old(redirectMessage)
    {
      isAuthenticated := true;
    }

    method LogoutAction()
      modifies this
      ensures State() == Reduce(old(State()), Logout)
      ensures !isAuthenticated && redirectMessage == old(redirectMessage)
    {
      isAuthenticated := false;
    }

    method SetRedirect(message: Option<string>)
      modifies this
      ensures State() == Reduce(old(State()), SetRedirectMessage(message))
      ensures redirectMessage == message && isAuthenticated == old(isAuthenticated)
    {
      redirectMessage := message;
    }
  }
}
