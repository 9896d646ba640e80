/**
 * The sign-in dialog (components/AuthModal.tsx): one `view` slot moving between
 * the login, registration and password-recovery forms, and a password-visibility flag.
 */
module AuthModal {

  datatype AuthView = Login | Register | ForgotPassword

  /** The buttons that change the view: submitting the current form, and the three links. */
  datatype AuthAction = Submit | ShowForgotPassword | ShowRegister | BackToLogin

  /** What a submit asks of the application. */
  datatype AuthEffect = CallLogin | RegisterSucceeded(message: string) | RecoveryAlert(message: string)

  const RegisterMessage := "¡Registro exitoso! Ahora puedes iniciar sesión."
  const RecoveryMessage := "Si tu correo está registrado, recibirás un enlace de recuperación pronto."

  /** The view after an action. */
  function Next(v: AuthView, a: AuthAction): AuthView {
    match a
    case Submit => Login
    case ShowForgotPassword => ForgotPassword
    case ShowRegister => Register
    case BackToLogin => Login
  }

  /** What submitting each form does besides changing the view. */
  function SubmitEffect(v: AuthView): AuthEffect {
    match v
    case Register => RegisterSucceeded(RegisterMessage)
    case Login => CallLogin
    case ForgotPassword => RecoveryAlert(RecoveryMessage)
  }

  /** Which links each form shows: login links to recovery and registration, the other two back to login. */
  predicate Offered(v: AuthView, a: AuthAction) {
    match a
    case Submit => true
    case ShowForgotPassword => v == Login
    case ShowRegister => v == Login
    case BackToLogin => v != Login
  }

  /** The view after pressing the buttons in order. */
  function Run(v: AuthView, actions: seq<AuthAction>): AuthView
    decreases |actions|
  {
    if actions == [] then v else Run(Next(v, actions[0]), actions[1..])
  }

  /** Every button in the sequence is shown on the form it is pressed on. */
  predicate AllOffered(v: AuthView, actions: seq<AuthAction>)
    decreases |actions|
  {
    actions == [] || (Offered(v, actions[0]) && AllOffered(Next(v, actions[0]), actions[1..]))
  }

  /** Submitting any form leaves the dialog on login; only submitting login asks the application to log in. */
  lemma SubmitReturnsToLogin(v: AuthView)
    ensures Next(v, Submit) == Login
    ensures SubmitEffect(v) == CallLogin <==> v == Login
  {
  }

  /** From any form every form is reachable with at most two offered buttons. */
  lemma EveryViewReachable(v: AuthView, w: AuthView)
    ensures exists actions :: |actions| <= 2 && AllOffered(v, actions) && Run(v, actions) == w
  {
    if v == w {
      assert AllOffered(v, []) && Run(v, []) == w;
    } else if v == Login {
      var a := if w == Register then ShowRegister else ShowForgotPassword;
      assert [a][1..] == [];
      assert Offered(v, a) && Next(v, a) == w;
      assert Run(v, [a]) == Run(w, []) == w;
      assert AllOffered(v, [a]);
    } else if w == Login {
      assert [BackToLogin][1..] == [];
      assert Run(v, [BackToLogin]) == Run(Login, []) == w;
      assert AllOffered(v, [BackToLogin]);
    } else {
      var a := if w == Register then ShowRegister else ShowForgotPassword;
      var actions := [BackToLogin, a];
      assert [a][1..] == [];
      assert Offered(Login, a) && Next(Login, a) == w;
      assert Run(Login, [a]) == Run(w, []) == w;
      assert AllOffered(Login, [a]);
      assert actions[0] == BackToLogin && actions[1..] == [a];
      assert Offered(v, BackToLogin) && Next(v, BackToLogin) == Login;
      assert AllOffered(v, actions);
      assert Run(v, actions) == Run(Login, [a]);
    }
  }

  /** The forms `renderContent` draws for a view tag: the three known tags, and the login form for anything else. */
  function RenderContent(tag: string): (form: AuthView)
    ensures tag !in {"login", "register", "forgotPassword"} ==> form == Login
  {
    if tag == "register" then Register
    else if tag == "forgotPassword" then ForgotPassword
    else Login
  }

  function Tag(v: AuthView): string {
    match v
    case Login => "login"
    case Register => "register"
    case ForgotPassword => "forgotPassword"
  }

  /** Each view draws its own form. */
  lemma RenderContentShowsView(v: AuthView)
    ensures RenderContent(Tag(v)) == v
  {
  }

  class AuthDialog {
    var view: AuthView
    var showPassword: bool

    constructor ()
      ensures view == Login && !showPassword
    {
      view := Login;
      showPassword := false;
    }

    /** `handleFormSubmit`: registration reports success and returns to login; login asks to log in and stays; recovery alerts and returns to login. */
    method HandleFormSubmit() returns (effect: AuthEffect)
      modifies this
      ensures view == Next(old(view), Submit) && effect == SubmitEffect(old(view))
      ensures old(view) == Login ==> effect == CallLogin && view == Login
      ensures old(view) == Register ==> effect == RegisterSucceeded(RegisterMessage) && view == Login
      ensures showPassword == old(showPassword)
    {
      if view == Register {
        effect := RegisterSucceeded(RegisterMessage);
        view := Login;
      } else if view == Login {
        effect := CallLogin;
      } else {
        effect := RecoveryAlert(RecoveryMessage);
        view := Login;
      }
    }

    /** The "continue with Google" button: asks to log in, changes nothing here. */
    method HandleGoogleLogin() returns (effect: AuthEffect)
      ensures effect == CallLogin
    {
      effect := CallLogin;
    }

    /** The navigation links the current form shows: each sets the view to its target. */
    method Navigate(a: AuthAction)
      requires a != Submit && Offered(view, a)
      modifies this
      ensures view == Next(old(view), a)
      ensures showPassword == old(showPassword)
    {
      match a {
        case ShowForgotPassword => view := ForgotPassword;
        case ShowRegister => view := Register;
        case BackToLogin => view := Login;
      }
    }

    /** The eye button: flips password visibility and nothing else. */
    method TogglePassword()
      modifies this
      ensures showPassword == !old(showPassword) && view == old(view)
    {
      showPassword := !showPassword;
    }
  }
}
