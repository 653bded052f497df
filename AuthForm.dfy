/**
 * The sign-up / sign-in page: the ordered field checks of its two submit
 * handlers, where the first failing check is the one reported, and the
 * resets of the form fields after a completed call and on a mode switch.
 *
 * The checks are pure predicates; the page itself is `AuthPage`, whose
 * fields are the component's state variables. The authentication service
 * is outside the model: whether its call completes is a parameter of each
 * handler, and the calls the page makes are recorded in `authCalls`.
 */
module AuthForm {
  import opened Optional
  import opened Text

  const MsgShortName: string := "Nome deve ter pelo menos 3 caracteres"
  const MsgBadEmail: string := "Email inválido"
  const MsgShortPassword: string := "Senha deve ter pelo menos 8 caracteres"
  const MsgTerms: string := "Você deve aceitar os termos e condições"
  const MsgPasswordRequired: string := "Senha é obrigatória"

  // ----- the field checks, stated on their meaning -----

  /** A name passes when it is not all whitespace and has at least 3 characters, counting surrounding blanks. */
  predicate NameAccepted(fullName: string) {
    !AllWhitespace(fullName) && |fullName| >= 3
  }

  /** An email passes when it is not all whitespace and holds an '@' somewhere. */
  predicate EmailAccepted(email: string) {
    !AllWhitespace(email) && '@' in email
  }

  /** Sign-up asks for at least 8 characters, whitespace included. */
  predicate SignUpPasswordAccepted(password: string) {
    |password| >= 8
  }

  /** Sign-in asks only for a password that is not all whitespace. */
  predicate SignInPasswordAccepted(password: string) {
    !AllWhitespace(password)
  }

  // ----- the check chains -----

  /**
   * The error `handleSignUp` reports, or `None` when it goes on to call the
   * service: name, then email, then password length, then the terms box,
   * and only the first failure is reported.
   */
  function SignUpError(fullName: string, email: string, password: string, acceptTerms: bool): (err: Option<string>)
    ensures err == None <==>
      NameAccepted(fullName) && EmailAccepted(email) && SignUpPasswordAccepted(password) && acceptTerms
    ensures err == Some(MsgShortName) <==> !NameAccepted(fullName)
    ensures err == Some(MsgBadEmail) <==> NameAccepted(fullName) && !EmailAccepted(email)
    ensures err == Some(MsgShortPassword) <==>
      NameAccepted(fullName) && EmailAccepted(email) && !SignUpPasswordAccepted(password)
    ensures err == Some(MsgTerms) <==>
      NameAccepted(fullName) && EmailAccepted(email) && SignUpPasswordAccepted(password) && !acceptTerms
  {
    if Blank(fullName) || |fullName| < 3 then Some(MsgShortName)
    else if Blank(email) || '@' !in email then Some(MsgBadEmail)
    else if |password| < 8 then Some(MsgShortPassword)
    else if !acceptTerms then Some(MsgTerms)
    else None
  }

  /** The error `handleSignIn` reports, or `None`: email first, then a non-blank password. */
  function SignInError(email: string, password: string): (err: Option<string>)
    ensures err == None <==> EmailAccepted(email) && SignInPasswordAccepted(password)
    ensures err == Some(MsgBadEmail) <==> !EmailAccepted(email)
    ensures err == Some(MsgPasswordRequired) <==> EmailAccepted(email) && !SignInPasswordAccepted(password)
  {
    if Blank(email) || '@' !in email then Some(MsgBadEmail)
    else if Blank(password) then Some(MsgPasswordRequired)
    else None
  }

  // ----- how the two chains relate -----

  /** Credentials sign-up accepts are accepted by sign-in too, unless the password is all whitespace. */
  lemma SignUpCredentialsPassSignIn(fullName: string, email: string, password: string, acceptTerms: bool)
    requires SignUpError(fullName, email, password, acceptTerms) == None
    ensures SignInError(email, password) == None <==> !AllWhitespace(password)
  {
  }

  /** A password of eight spaces is accepted at sign-up and refused at sign-in. */
  lemma BlankPasswordAcceptedOnlyAtSignUp()
    ensures SignUpError("Ana", "a@b", "        ", true) == None
    ensures SignInError("a@b", "        ") == Some(MsgPasswordRequired)
  {
    assert AllWhitespace("        ");
    assert !AllWhitespace("Ana") by { assert !IsWhitespace("Ana"[0]); }
    assert !AllWhitespace("a@b") by { assert !IsWhitespace("a@b"[0]); }
    assert '@' in "a@b" by { assert "a@b"[1] == '@'; }
  }

  /**
   * The name check counts blanks around the name: two letters padded by a
   * space pass it. An illustration of `NameAccepted`, which already says so.
   */
  lemma PaddedShortNameAccepted()
    ensures SignUpError(" Al", "a@b", "12345678", true) == None
  {
    assert !AllWhitespace(" Al") by { assert !IsWhitespace(" Al"[1]); }
    assert !AllWhitespace("a@b") by { assert !IsWhitespace("a@b"[0]); }
    assert '@' in "a@b" by { assert "a@b"[1] == '@'; }
  }

  // ----- the page -----

  /** A call the page makes into the authentication service. */
  datatype AuthCall = SignUpCall(email: string, password: string, fullName: string) | SignInCall(email: string, password: string)

  /**
   * The page's state variables, the error toasts the handlers show, and
   * the service calls they make, in order.
   */
  class AuthPage {
    var fullName: string
    var email: string
    var password: string
    var acceptTerms: bool
    var isSignUp: bool
    var isLoading: bool
    var toasts: seq<string>
    var authCalls: seq<AuthCall>

    /** The page as first rendered: sign-in mode, every field empty. */
    constructor()
      ensures fullName == "" && email == "" && password == "" && !acceptTerms
      ensures !isSignUp && !isLoading && toasts == [] && authCalls == []
    {
      fullName, email, password, acceptTerms := "", "", "", false;
      isSignUp, isLoading := false, false;
      toasts, authCalls := [], [];
    }

    /**
     * Submitting the sign-up form. A failed check shows its message and
     * changes nothing else; otherwise the service is called once with the
     * fields as typed, the four fields are cleared if the call completes and
     * kept if it throws, and the page is not loading afterwards either way.
     */
    method HandleSignUp(signUpCompletes: bool)
      modifies this
      ensures isSignUp == old(isSignUp)
      ensures var err := SignUpError(old(fullName), old(email), old(password), old(acceptTerms));
        err.Some? ==>
          toasts == old(toasts) + [err.value] && authCalls == old(authCalls) &&
          fullName == old(fullName) && email == old(email) && password == old(password) &&
          acceptTerms == old(acceptTerms) && isLoading == old(isLoading)
      ensures var err := SignUpError(old(fullName), old(email), old(password), old(acceptTerms));
        err.None? ==>
          toasts == old(toasts) &&
          authCalls == old(authCalls) + [SignUpCall(old(email), old(password), old(fullName))] &&
          !isLoading &&
          (if signUpCompletes then fullName == "" && email == "" && password == "" && !acceptTerms
           else fullName == old(fullName) && email == old(email) && password == old(password) &&
                acceptTerms == old(acceptTerms))
    {
      var err := SignUpError(fullName, email, password, acceptTerms);
      if err.Some? {
        toasts := toasts + [err.value];
        return;
      }

      isLoading := true;
      authCalls := authCalls + [SignUpCall(email, password, fullName)];
      if signUpCompletes {
        email := "";
        password := "";
        fullName := "";
        acceptTerms := false;
      }
      isLoading := false;
    }

    /**
     * Submitting the sign-in form: the same shape with two checks, and only
     * email and password are cleared after a completed call.
     */
    method HandleSignIn(signInCompletes: bool)
      modifies this
      ensures isSignUp == old(isSignUp) && fullName == old(fullName) && acceptTerms == old(acceptTerms)
      ensures var err := SignInError(old(email), old(password));
        err.Some? ==>
          toasts == old(toasts) + [err.value] && authCalls == old(authCalls) &&
          email == old(email) && password == old(password) && isLoading == old(isLoading)
      ensures var err := SignInError(old(email), old(password));
        err.None? ==>
          toasts == old(toasts) &&
          authCalls == old(authCalls) + [SignInCall(old(email), old(password))] &&
          !isLoading &&
          (if signInCompletes then email == "" && password == ""
           else email == old(email) && password == old(password))
    {
      var err := SignInError(email, password);
      if err.Some? {
        toasts := toasts + [err.value];
        return;
      }

      isLoading := true;
      authCalls := authCalls + [SignInCall(email, password)];
      if signInCompletes {
        email := "";
        password := "";
      }
      isLoading := false;
    }

    /** The link under the form: switch mode and clear the four form fields. */
    method ToggleMode()
      modifies this
      ensures isSignUp == !old(isSignUp)
      ensures fullName == "" && email == "" && password == "" && !acceptTerms
      ensures isLoading == old(isLoading) && toasts == old(toasts) && authCalls == old(authCalls)
    {
      isSignUp := !isSignUp;
      email := "";
      password := "";
      fullName := "";
      acceptTerms := false;
    }
  }

  /**
   * Right after a mode switch nothing can be submitted: both handlers stop at
   * their first check, since the cleared name and email are blank.
   */
  lemma ClearedFormIsRefused()
    ensures SignUpError("", "", "", false) == Some(MsgShortName)
    ensures SignInError("", "") == Some(MsgBadEmail)
  {
  }
}
