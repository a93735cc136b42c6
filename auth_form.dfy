/**
 * The sign-in / sign-up form. Which form is shown (title, subtitle, the link to the other form) and
 * which account call a submit makes are decided by substring tests on the current pathname; the
 * submit handler brackets that call with the `isLoading` flag.
 */
module AuthForm {
  import opened Wrappers
  import opened Strings

  const SignInFragment := "sign-in"
  const SignUpFragment := "sign-up"

  const SignInTitle := "Sign in to Roboseasy"
  const SignUpTitle := "Create your Roboseasy account"
  const WelcomeTitle := "Welcome to Roboseasy"
  const SignUpSubtitle := "Create an account to control robots and train AI easily."
  const DefaultSubtitle := "Easy robot control & AI training platform."

  const MissingCredentials := "Email and password are required."
  const AccountCreated := "Account created! Please check your email for the confirmation code."
  const WelcomeBack := "Welcome back to Roboseasy!"
  const SomethingWentWrong := "Something went wrong. Please try again."

  /** The heading: `sign-in` is tested before `sign-up`. */
  function Title(pathname: string): (t: string)
    ensures Includes(pathname, SignInFragment) ==> t == SignInTitle
    ensures !Includes(pathname, SignInFragment) && Includes(pathname, SignUpFragment) ==> t == SignUpTitle
    ensures !Includes(pathname, SignInFragment) && !Includes(pathname, SignUpFragment) ==> t == WelcomeTitle
  {
    if Includes(pathname, SignInFragment) then SignInTitle
    else if Includes(pathname, SignUpFragment) then SignUpTitle
    else WelcomeTitle
  }

  /** The line under the brand: the account-creation text exactly on sign-up paths. */
  function Subtitle(pathname: string): (t: string)
    ensures t == SignUpSubtitle <==> Includes(pathname, SignUpFragment)
    ensures t != SignUpSubtitle ==> t == DefaultSubtitle
  {
    if Includes(pathname, SignUpFragment) then SignUpSubtitle else DefaultSubtitle
  }

  /** The link under the form: to the sign-up form from a sign-in path, to the sign-in form from anywhere else. */
  datatype Link = Link(prompt: string, href: string, caption: string)

  function AlternateLink(pathname: string): (l: Link)
    ensures l.href == "/sign-up" <==> Includes(pathname, SignInFragment)
    ensures l.href != "/sign-up" ==> l == Link("Already have an account?", "/sign-in", "Sign in")
    ensures l.href == "/sign-up" ==> l == Link("Don't have an account?", "/sign-up", "Sign up")
  {
    if Includes(pathname, SignInFragment) then Link("Don't have an account?", "/sign-up", "Sign up")
    else Link("Already have an account?", "/sign-in", "Sign in")
  }

  /** The two account calls of the authentication context. */
  datatype AuthCall = Signup | Login

  /** The call a submit makes: `sign-up` is tested before `sign-in`; a path with neither makes no call. */
  function SubmitAction(pathname: string): (c: Option<AuthCall>)
    ensures c == Some(Signup) <==> Includes(pathname, SignUpFragment)
    ensures c == Some(Login) <==> !Includes(pathname, SignUpFragment) && Includes(pathname, SignInFragment)
    ensures c == None <==> !Includes(pathname, SignUpFragment) && !Includes(pathname, SignInFragment)
  {
    if Includes(pathname, SignUpFragment) then Some(Signup)
    else if Includes(pathname, SignInFragment) then Some(Login)
    else None
  }

  /** Where a completed sign-in goes: `location.state?.from?.pathname || "/"`. */
  function ReturnPath(stateFrom: Option<string>): (p: string)
    ensures p != ""
    ensures stateFrom.Some? && stateFrom.value != "" ==> p == stateFrom.value
    ensures stateFrom.None? || stateFrom.value == "" ==> p == "/"
  {
    if stateFrom.Some? && stateFrom.value != "" then stateFrom.value else "/"
  }

  /** Where a completed sign-up goes; `encode` stands for `encodeURIComponent`. */
  function ConfirmUrl(email: string, encode: string -> string): (u: string)
    ensures StartsWith(u, "/sign-up/confirm?email=")
    ensures u[|"/sign-up/confirm?email="|..] == encode(email)
  {
    "/sign-up/confirm?email=" + encode(email)
  }

  lemma SignUpPathFacts()
    ensures Includes("/sign-up", SignUpFragment) && !Includes("/sign-up", SignInFragment)
  {
    assert OccursAt("/sign-up", SignUpFragment, 1);
    MismatchAt("/sign-up", SignInFragment, 0, 0);
    MismatchAt("/sign-up", SignInFragment, 1, 5);
  }

  lemma SignInPathFacts()
    ensures Includes("/sign-in", SignInFragment) && !Includes("/sign-in", SignUpFragment)
  {
    assert OccursAt("/sign-in", SignInFragment, 1);
    MismatchAt("/sign-in", SignUpFragment, 0, 0);
    MismatchAt("/sign-in", SignUpFragment, 1, 5);
  }

  /** Following the link always lands on the form that makes the other call: sign-in pages lead to sign-up and back. */
  lemma LinkLeadsToOtherForm(pathname: string)
    ensures Includes(pathname, SignInFragment) ==> SubmitAction(AlternateLink(pathname).href) == Some(Signup)
    ensures !Includes(pathname, SignInFragment) ==> SubmitAction(AlternateLink(pathname).href) == Some(Login)
  {
    if Includes(pathname, SignInFragment) {
      SignUpPathFacts();
      assert AlternateLink(pathname).href == "/sign-up";
    } else {
      SignInPathFacts();
      assert AlternateLink(pathname).href == "/sign-in";
    }
  }

  /** On a path that names exactly one form, title, subtitle, link and call all describe that same form. */
  lemma FormIsConsistent(pathname: string)
    requires Includes(pathname, SignInFragment) != Includes(pathname, SignUpFragment)
    ensures Includes(pathname, SignInFragment) ==>
      Title(pathname) == SignInTitle && Subtitle(pathname) == DefaultSubtitle &&
      SubmitAction(pathname) == Some(Login) && AlternateLink(pathname).href == "/sign-up"
    ensures Includes(pathname, SignUpFragment) ==>
      Title(pathname) == SignUpTitle && Subtitle(pathname) == SignUpSubtitle &&
      SubmitAction(pathname) == Some(Signup) && AlternateLink(pathname).href == "/sign-in"
  {
  }

  /**
   * The two orders differ: a path naming both forms is titled as the sign-in form and links to
   * sign-up, yet its submit creates an account.
   */
  lemma BothFragmentsDisagree(pathname: string)
    requires Includes(pathname, SignInFragment) && Includes(pathname, SignUpFragment)
    ensures Title(pathname) == SignInTitle
    ensures Subtitle(pathname) == SignUpSubtitle
    ensures AlternateLink(pathname).href == "/sign-up"
    ensures SubmitAction(pathname) == Some(Signup)
  {
  }

  /** Such paths exist: `/sign-in/sign-up` names both forms. */
  lemma SomePathNamesBothForms()
    ensures Includes("/sign-in/sign-up", SignInFragment) && Includes("/sign-in/sign-up", SignUpFragment)
  {
    assert OccursAt("/sign-in/sign-up", SignInFragment, 1);
    assert OccursAt("/sign-in/sign-up", SignUpFragment, 9);
  }

  /** What the form asks of the outside world, in order. */
  datatype Effect =
    | ToastError(message: string)
    | ToastSuccess(message: string)
    | CallSignup(email: string, password: string)
    | CallLogin(email: string, password: string)
    | Navigate(to: string, replace: bool)

  /** An account call that has been made and not yet settled, with the email it was made for. */
  datatype PendingCall = PendingCall(call: AuthCall, email: string)

  /** The form's state: the two inputs, `isLoading`, and the call it is waiting on. */
  class Form {
    var email: string
    var password: string
    var isLoading: bool
    var pending: Option<PendingCall>
    var effects: seq<Effect>

    /** `isLoading` is raised exactly while an account call is outstanding. */
    ghost predicate Valid()
      reads this
    {
      isLoading <==> pending.Some?
    }

    constructor ()
      ensures Valid()
      ensures email == "" && password == "" && !isLoading && effects == []
    {
      email, password, isLoading, pending, effects := "", "", false, None, [];
    }

    method SetEmail(value: string)
      requires Valid()
      modifies this`email
      ensures Valid()
      ensures email == value
    {
      email := value;
    }

    method SetPassword(value: string)
      requires Valid()
      modifies this`password
      ensures Valid()
      ensures password == value
    {
      password := value;
    }

    /**
     * The synchronous part of `handleSubmit`, up to the awaited account call. The button and both
     * inputs are disabled while `isLoading`, so a submit never starts while a call is outstanding.
     */
    method HandleSubmit(pathname: string)
      requires Valid() && !isLoading
      modifies this`isLoading, this`pending, this`effects
      ensures Valid()
      ensures email == "" || password == "" ==>
        !isLoading && effects == old(effects) + [ToastError(MissingCredentials)]
      ensures email != "" && password != "" && SubmitAction(pathname) == Some(Signup) ==>
        isLoading && pending == Some(PendingCall(Signup, email)) &&
        effects == old(effects) + [CallSignup(email, password)]
      ensures email != "" && password != "" && SubmitAction(pathname) == Some(Login) ==>
        isLoading && pending == Some(PendingCall(Login, email)) &&
        effects == old(effects) + [CallLogin(email, password)]
      ensures email != "" && password != "" && SubmitAction(pathname) == None ==>
        !isLoading && effects == old(effects)
    {
      isLoading := true;
      if email == "" || password == "" {
        effects := effects + [ToastError(MissingCredentials)];
        isLoading := false;
        return;
      }
      match SubmitAction(pathname)
      case Some(Signup) =>
        effects := effects + [CallSignup(email, password)];
        pending := Some(PendingCall(Signup, email));
      case Some(Login) =>
        effects := effects + [CallLogin(email, password)];
        pending := Some(PendingCall(Login, email));
      case None =>
        // the `try` block makes no call; the `finally` clause lowers the flag
        isLoading := false;
    }

    /**
     * The continuation of `handleSubmit` once the account call settles: on success a toast and a
     * navigation, on a thrown error a toast; `finally` lowers `isLoading` on every path.
     */
    method CallSettles(succeeded: bool, stateFrom: Option<string>, encode: string -> string)
      requires Valid() && pending.Some?
      modifies this`isLoading, this`pending, this`effects
      ensures Valid() && !isLoading
      ensures !succeeded ==> effects == old(effects) + [ToastError(SomethingWentWrong)]
      ensures succeeded && old(pending).value.call == Signup ==>
        effects == old(effects) + [ToastSuccess(AccountCreated), Navigate(ConfirmUrl(old(pending).value.email, encode), true)]
      ensures succeeded && old(pending).value.call == Login ==>
        effects == old(effects) + [ToastSuccess(WelcomeBack), Navigate(ReturnPath(stateFrom), true)]
    {
      var p := pending.value;
      if !succeeded {
        effects := effects + [ToastError(SomethingWentWrong)];
      } else if p.call == Signup {
        effects := effects + [ToastSuccess(AccountCreated), Navigate(ConfirmUrl(p.email, encode), true)];
      } else {
        effects := effects + [ToastSuccess(WelcomeBack), Navigate(ReturnPath(stateFrom), true)];
      }
      isLoading := false;
      pending := None;
    }
  }
}
