/** The account area of the header: a loading skeleton, the signed-in
    account menu, or the login/sign-up buttons with their two dialogs. */
module Auth {
  import opened Types
  import Initials

  /** The signed-in identity as far as this view reads it. */
  datatype User = User(
    uid: string,
    displayName: Option<string>,
    email: Option<string>,
    photoUrl: Option<string>)

  /** The two dialog flags (`loginOpen`, `signupOpen`), both initially closed. */
  datatype Dialogs = Dialogs(loginOpen: bool, signupOpen: bool)

  const Closed: Dialogs := Dialogs(false, false)

  /** The "Sign up" link inside the login form. */
  function OpenSignup(d: Dialogs): (r: Dialogs)
    ensures r.signupOpen && !r.loginOpen
  {
    d.(loginOpen := false, signupOpen := true)
  }

  /** The "Log in" link inside the sign-up form. */
  function OpenLogin(d: Dialogs): (r: Dialogs)
    ensures r.loginOpen && !r.signupOpen
  {
    d.(signupOpen := false, loginOpen := true)
  }

  /** A successful login closes the login dialog only. */
  function LoginSucceeded(d: Dialogs): (r: Dialogs)
    ensures !r.loginOpen && r.signupOpen == d.signupOpen
  {
    d.(loginOpen := false)
  }

  /** A successful sign-up closes the sign-up dialog only. */
  function SignupSucceeded(d: Dialogs): (r: Dialogs)
    ensures !r.signupOpen && r.loginOpen == d.loginOpen
  {
    d.(signupOpen := false)
  }

  /** What can happen to the dialogs: the two cross links, the two success
      callbacks, and each dialog's own open/close (`onOpenChange`, fired by
      its trigger button, its close button or a click outside). */
  datatype DialogEvent =
    | SignupLink | LoginLink | LoginSuccess | SignupSuccess
    | LoginOpenChange(open: bool) | SignupOpenChange(open: bool)

  function Apply(d: Dialogs, e: DialogEvent): (r: Dialogs)
    ensures e.LoginOpenChange? ==> r.loginOpen == e.open && r.signupOpen == d.signupOpen
    ensures e.SignupOpenChange? ==> r.signupOpen == e.open && r.loginOpen == d.loginOpen
    ensures AtMostOneOpen(d) && !OpensSecond(d, e) ==> AtMostOneOpen(r)
  {
    match e
    case SignupLink => OpenSignup(d)
    case LoginLink => OpenLogin(d)
    case LoginSuccess => LoginSucceeded(d)
    case SignupSuccess => SignupSucceeded(d)
    case LoginOpenChange(b) => d.(loginOpen := b)
    case SignupOpenChange(b) => d.(signupOpen := b)
  }

  predicate AtMostOneOpen(d: Dialogs) {
    !(d.loginOpen && d.signupOpen)
  }

  /** A trigger that opens a dialog while the other one is open. */
  predicate OpensSecond(d: Dialogs, e: DialogEvent) {
    (e.LoginOpenChange? && e.open && d.signupOpen)
    || (e.SignupOpenChange? && e.open && d.loginOpen)
  }

  function ApplyAll(d: Dialogs, es: seq<DialogEvent>): Dialogs
    decreases |es|
  {
    if |es| == 0 then d else ApplyAll(Apply(d, es[0]), es[1..])
  }

  /** From at most one open dialog (the closed start among them), the two
      dialogs are never open together unless a
      trigger opens one while the other is already open: the cross links
      close the dialog they leave. */
  lemma {:induction false} NeverBothOpen(d: Dialogs, es: seq<DialogEvent>)
    requires AtMostOneOpen(d)
    requires forall k :: 0 <= k < |es| ==> !OpensSecond(ApplyAll(d, es[..k]), es[k])
    ensures AtMostOneOpen(ApplyAll(d, es))
    decreases |es|
  {
    if |es| > 0 {
      assert es[..0] == [];
      var d' := Apply(d, es[0]);
      forall k | 0 <= k < |es[1..]|
        ensures !OpensSecond(ApplyAll(d', es[1..][..k]), es[1..][k])
      {
        assert es[..k + 1] == [es[0]] + es[1..][..k];
        assert ApplyAll(d, es[..k + 1]) == ApplyAll(d', es[1..][..k]);
      }
      NeverBothOpen(d', es[1..]);
    }
  }

  /** Which of the three renderings the component returns. */
  datatype AuthView =
    | Skeleton
    | AccountMenu(avatarSrc: Option<string>, avatarAlt: string, avatarFallback: string,
                  heading: Option<string>, email: Option<string>)
    | AuthChoice(loginOpen: bool, signupOpen: bool)

  /** The account menu for a signed-in user. `photoURL || undefined` keeps
      only a non-empty photo; `displayName || 'User'` is the alt text. */
  function Menu(u: User): (v: AuthView)
    ensures v.AccountMenu?
    ensures v.avatarAlt == OrElse(u.displayName, "User")
    ensures v.avatarFallback == Initials.GetInitials(u.displayName)
    ensures v.avatarSrc.Some? <==> Truthy(u.photoUrl)
    ensures v.avatarSrc.Some? ==> v.avatarSrc == u.photoUrl
  {
    AccountMenu(if Truthy(u.photoUrl) then u.photoUrl else None,
                OrElse(u.displayName, "User"),
                Initials.GetInitials(u.displayName),
                u.displayName, u.email)
  }

  /** The render branch: loading first, then a present user, else the
      login/sign-up buttons with the current dialog flags. */
  function Render(isUserLoading: bool, user: Option<User>, d: Dialogs): (v: AuthView)
    ensures v.Skeleton? <==> isUserLoading
    ensures v.AccountMenu? <==> !isUserLoading && user.Some?
    ensures v.AuthChoice? <==> !isUserLoading && user.None?
    ensures v.AuthChoice? ==> v.loginOpen == d.loginOpen && v.signupOpen == d.signupOpen
  {
    if isUserLoading then Skeleton
    else if user.Some? then Menu(user.value)
    else AuthChoice(d.loginOpen, d.signupOpen)
  }

  /** While loading, neither the user nor the dialog state shows. */
  lemma LoadingHidesUser(u1: Option<User>, u2: Option<User>, d1: Dialogs, d2: Dialogs)
    ensures Render(true, u1, d1) == Render(true, u2, d2)
  {
  }

  /** A signed-in user without a display name gets alt text "User" and
      initials "U"; with a one-word name, its upper-cased first letter. */
  lemma AnonymousAvatar(u: User)
    ensures u.displayName.None? ==>
      Render(false, Some(u), Closed).avatarAlt == "User"
      && Render(false, Some(u), Closed).avatarFallback == "U"
    ensures Truthy(u.displayName) && Initials.Space !in u.displayName.value ==>
      Render(false, Some(u), Closed).avatarFallback == [Initials.UpperChar(u.displayName.value[0])]
  {
    if Truthy(u.displayName) && Initials.Space !in u.displayName.value {
      Initials.SingleWord(u.displayName.value);
    }
  }
}
