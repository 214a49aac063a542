/** The local state of the login form: the two text fields, the
    show-password toggle and the remember-me checkbox, together with the
    derived sign-in button state and the submit handler that forwards the
    field values to the form's `onLogin` callback. */
module LoginForm {

  datatype Form = Form(email: string, password: string, showPassword: bool, rememberMe: bool)

  /** What submit hands to `onLogin`. */
  datatype Credentials = Credentials(email: string, password: string)

  /** The state the form mounts with: both fields empty, the password
      masked and remember-me unticked. */
  const Initial: Form := Form("", "", false, false)

  /** JavaScript truthiness of a string: only the empty string is falsy. */
  predicate Truthy(s: string)
  {
    |s| > 0
  }

  /** Typing into the email field. */
  function EditEmail(f: Form, value: string): (r: Form)
    ensures r.email == value
    ensures r.(email := f.email) == f
  {
    f.(email := value)
  }

  /** Typing into the password field. */
  function EditPassword(f: Form, value: string): (r: Form)
    ensures r.password == value
    ensures r.(password := f.password) == f
  {
    f.(password := value)
  }

  /** The eye button beside the password field. */
  function TogglePasswordVisibility(f: Form): (r: Form)
    ensures r.showPassword != f.showPassword
    ensures r.(showPassword := f.showPassword) == f
  {
    f.(showPassword := !f.showPassword)
  }

  /** The remember-me checkbox reporting its new checked value. */
  function SetRememberMe(f: Form, checked: bool): (r: Form)
    ensures r.rememberMe == checked
    ensures r.(rememberMe := f.rememberMe) == f
  {
    f.(rememberMe := checked)
  }

  /** The `type` attribute of the password input: the password is shown in
      clear exactly when the toggle is on. */
  function PasswordInputType(f: Form): (t: string)
    ensures t in {"text", "password"}
    ensures t == "text" <==> f.showPassword
  {
    if f.showPassword then "text" else "password"
  }

  /** The sign-in button is disabled while loading or while either field is
      falsy. */
  function SignInDisabled(isLoading: bool, f: Form): (disabled: bool)
    ensures disabled <==> isLoading || f.email == "" || f.password == ""
  {
    isLoading || !Truthy(f.email) || !Truthy(f.password)
  }

  /** The sign-in button's caption. */
  function SignInLabel(isLoading: bool): (caption: string)
    ensures caption in {"Signing In...", "Sign In"}
    ensures caption == "Signing In..." <==> isLoading
  {
    if isLoading then "Signing In..." else "Sign In"
  }

  /** Submitting forwards the current field values, unaltered; the toggle
      and the remember-me flag are not passed on. */
  function HandleSubmit(f: Form): (c: Credentials)
    ensures c.email == f.email && c.password == f.password
  {
    Credentials(f.email, f.password)
  }

  /** The user interactions the form reacts to. */
  datatype FormEvent =
    | EmailTyped(value: string)
    | PasswordTyped(value: string)
    | VisibilityToggled
    | RememberMeChecked(checked: bool)

  function Apply(f: Form, e: FormEvent): Form
  {
    match e
    case EmailTyped(v) => EditEmail(f, v)
    case PasswordTyped(v) => EditPassword(f, v)
    case VisibilityToggled => TogglePasswordVisibility(f)
    case RememberMeChecked(c) => SetRememberMe(f, c)
  }

  /** The form after a sequence of interactions, oldest first. */
  function ApplyAll(f: Form, es: seq<FormEvent>): Form
  {
    if |es| == 0 then f else Apply(ApplyAll(f, es[..|es| - 1]), es[|es| - 1])
  }

  /** The last value typed into the email field, or `default` if none was. */
  function LastEmail(es: seq<FormEvent>, default: string): string
  {
    if |es| == 0 then default
    else if es[|es| - 1].EmailTyped? then es[|es| - 1].value
    else LastEmail(es[..|es| - 1], default)
  }

  /** The last value typed into the password field, or `default`. */
  function LastPassword(es: seq<FormEvent>, default: string): string
  {
    if |es| == 0 then default
    else if es[|es| - 1].PasswordTyped? then es[|es| - 1].value
    else LastPassword(es[..|es| - 1], default)
  }

  /** Toggling password visibility twice restores the form. */
  lemma ToggleTwiceRestores(f: Form)
    ensures TogglePasswordVisibility(TogglePasswordVisibility(f)) == f
  {
  }

  /** Each toggle flips the password input between masked and clear. */
  lemma ToggleFlipsInputType(f: Form)
    ensures PasswordInputType(TogglePasswordVisibility(f)) != PasswordInputType(f)
    ensures PasswordInputType(TogglePasswordVisibility(f)) == "text" <==> PasswordInputType(f) == "password"
  {
  }

  /** The freshly mounted form cannot be submitted through its button. */
  lemma InitialFormSignInDisabled(isLoading: bool)
    ensures SignInDisabled(isLoading, Initial)
    ensures PasswordInputType(Initial) == "password"
  {
  }

  /** Whenever the button is enabled, submit forwards two non-empty
      strings. */
  lemma EnabledSubmitForwardsNonEmpty(isLoading: bool, f: Form)
    requires !SignInDisabled(isLoading, f)
    ensures !isLoading
    ensures HandleSubmit(f).email != "" && HandleSubmit(f).password != ""
  {
  }

  /** Submit forwards exactly the last values the user typed into the two
      fields, whatever else happened in between. */
  lemma {:induction false} SubmitForwardsLastTyped(f: Form, es: seq<FormEvent>)
    ensures HandleSubmit(ApplyAll(f, es)) == Credentials(LastEmail(es, f.email), LastPassword(es, f.password))
  {
    if |es| > 0 {
      SubmitForwardsLastTyped(f, es[..|es| - 1]);
    }
  }

  /** From the initial form, typing an email and a password and submitting
      hands exactly those two strings to `onLogin`; the visibility toggle and
      remember-me do not affect what is sent. */
  lemma TypedCredentialsRoundTrip(email: string, password: string, extra: seq<FormEvent>)
    requires forall i :: 0 <= i < |extra| ==> extra[i].VisibilityToggled? || extra[i].RememberMeChecked?
    ensures HandleSubmit(ApplyAll(Initial, [EmailTyped(email), PasswordTyped(password)] + extra)) == Credentials(email, password)
  {
    var es := [EmailTyped(email), PasswordTyped(password)] + extra;
    SubmitForwardsLastTyped(Initial, es);
    LastTypedSkipsOthers(es, email, password);
  }

  /** Events after the first two that type nothing leave the last typed
      values as those first two set them. */
  lemma {:induction false} LastTypedSkipsOthers(es: seq<FormEvent>, email: string, password: string)
    requires 2 <= |es|
    requires es[0] == EmailTyped(email) && es[1] == PasswordTyped(password)
    requires forall i :: 2 <= i < |es| ==> es[i].VisibilityToggled? || es[i].RememberMeChecked?
    ensures LastEmail(es, "") == email && LastPassword(es, "") == password
    decreases |es|
  {
    if |es| > 2 {
      LastTypedSkipsOthers(es[..|es| - 1], email, password);
      assert LastEmail(es, "") == LastEmail(es[..|es| - 1], "");
    } else {
      assert es[..1] == [EmailTyped(email)];
      assert es[..1][..0] == [];
    }
  }
}
