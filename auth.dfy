/** The sign-in page: ordered guard chains in front of each backend call,
    the "already registered" retry, the `loading` flag and the mode, which
    starts as recovery when the URL carries `type=recovery`. Backend calls
    are not modelled; their results are parameters. */
module Auth {
  import opened Common

  datatype Mode = Login | Signup | Recover

  /** The backend calls the page can make. */
  datatype Request = SignInWithPassword | SignUp | SignInWithOtp | ResetPasswordForEmail | UpdateUser

  /** An error from the backend; its `message` may be absent. */
  datatype AuthError = AuthError(message: Option<string>)

  /** The toasts the page shows. */
  datatype Notice =
    | LoginFailed(reason: Option<string>)
    | LoggedIn
    | InvalidEmail
    | PasswordsDiffer
    | PasswordTooShort
    | SignupFailed(reason: Option<string>)
    | AccountExists
    | SignupStarted
    | EmailRequired
    | LinkFailed(reason: Option<string>)
    | LinkSent
    | ResetFailed(reason: Option<string>)
    | ResetSent
    | NewPasswordFailed(reason: Option<string>)
    | NewPasswordSet

  /** Where the page navigates afterwards, if anywhere. */
  datatype Route = Stay | Home | Onboarding

  /** Minimum password length for sign-up and reset. */
  const MinPassword := 6

  /** The sign-up guard chain: e-mail has an "@", then the passwords match,
      then the password is long enough; the first failure is reported. */
  function SignupProblem(email: string, password: string, confirm: string): (p: Option<Notice>)
    ensures p.None? <==> Contains(email, "@") && password == confirm && |password| >= MinPassword
    ensures p.Some? ==> p.value in {InvalidEmail, PasswordsDiffer, PasswordTooShort}
    ensures !Contains(email, "@") ==> p == Some(InvalidEmail)
    ensures Contains(email, "@") && password != confirm ==> p == Some(PasswordsDiffer)
    ensures Contains(email, "@") && password == confirm && |password| < MinPassword ==> p == Some(PasswordTooShort)
  {
    if !Contains(email, "@") then Some(InvalidEmail)
    else if password != confirm then Some(PasswordsDiffer)
    else if |password| < MinPassword then Some(PasswordTooShort)
    else None
  }

  /** The new-password guard chain checks the length first, then equality. */
  function NewPasswordProblem(password: string, confirm: string): (p: Option<Notice>)
    ensures p.None? <==> |password| >= MinPassword && password == confirm
    ensures p.Some? ==> p.value in {PasswordsDiffer, PasswordTooShort}
    ensures |password| < MinPassword ==> p == Some(PasswordTooShort)
    ensures |password| >= MinPassword && password != confirm ==> p == Some(PasswordsDiffer)
  {
    if |password| < MinPassword then Some(PasswordTooShort)
    else if password != confirm then Some(PasswordsDiffer)
    else None
  }

  /** The two chains accept the same passwords but order their checks
      differently: a short, mismatched password is reported as mismatched on
      sign-up and as too short on reset. */
  lemma GuardOrderDiffers(email: string)
    requires Contains(email, "@")
    ensures SignupProblem(email, "abc", "abd") == Some(PasswordsDiffer)
    ensures NewPasswordProblem("abc", "abd") == Some(PasswordTooShort)
    ensures forall p, c :: SignupProblem(email, p, c).None? <==> NewPasswordProblem(p, c).None?
  {
  }

  /** `String.prototype.toLowerCase` on ASCII letters. */
  function LowerAscii(s: string): (r: string)
    ensures |r| == |s|
    ensures forall i :: 0 <= i < |s| ==> r[i] == LowerChar(s[i])
  {
    seq(|s|, i requires 0 <= i < |s| => LowerChar(s[i]))
  }

  function LowerChar(c: char): char {
    if 'A' <= c <= 'Z' then (c as int + 32) as char else c
  }

  const AlreadyRegistered := "already registered"

  /** `error.message?.toLowerCase().includes("already registered")`: a
      present message holding the phrase somewhere, in any mix of ASCII
      case. */
  predicate IsAlreadyRegistered(message: Option<string>)
    ensures IsAlreadyRegistered(message) <==>
              message.Some? && exists i :: PhraseAt(message.value, i)
  {
    if message.Some? then
      PhraseWindows(message.value);
      Contains(LowerAscii(message.value), AlreadyRegistered)
    else
      false
  }

  /** The window of `s` at `i` lower-cases to the phrase. */
  predicate PhraseAt(s: string, i: int) {
    0 <= i && i + |AlreadyRegistered| <= |s| &&
    LowerAscii(s[i..i + |AlreadyRegistered|]) == AlreadyRegistered
  }

  /** Lower-casing the whole message and looking for the phrase is looking
      for a window of the message that lower-cases to it. */
  lemma PhraseWindows(s: string)
    ensures Contains(LowerAscii(s), AlreadyRegistered) <==> exists i :: PhraseAt(s, i)
  {
    var low := LowerAscii(s);
    if Contains(low, AlreadyRegistered) {
      var i :| 0 <= i <= |low| && OccursAt(low, AlreadyRegistered, i);
      LowerWindow(s, i);
      assert PhraseAt(s, i);
    }
    if exists i :: PhraseAt(s, i) {
      var i :| PhraseAt(s, i);
      LowerWindow(s, i);
      assert OccursAt(low, AlreadyRegistered, i);
    }
  }

  /** Lower-casing commutes with taking a window. */
  lemma LowerWindow(s: string, i: int)
    requires 0 <= i && i + |AlreadyRegistered| <= |s|
    ensures LowerAscii(s)[i..i + |AlreadyRegistered|] == LowerAscii(s[i..i + |AlreadyRegistered|])
  {
    var n := |AlreadyRegistered|;
    var low, w := LowerAscii(s), s[i..i + n];
    assert forall j :: 0 <= j < n ==> low[i..i + n][j] == low[i + j] == LowerChar(w[j]);
  }

  /** The phrase is recognised whatever the case of its ASCII letters. */
  lemma AlreadyRegisteredAnyCase(message: string, i: nat)
    requires i + |AlreadyRegistered| <= |message|
    requires LowerAscii(message[i..i + |AlreadyRegistered|]) == AlreadyRegistered
    ensures IsAlreadyRegistered(Some(message))
  {
    var low := LowerAscii(message);
    forall j | 0 <= j < |AlreadyRegistered|
      ensures low[i + j] == AlreadyRegistered[j]
    {
      assert LowerAscii(message[i..i + |AlreadyRegistered|])[j] == LowerChar(message[i + j]);
    }
    assert OccursAt(low, AlreadyRegistered, i);
  }

  /** An absent message never triggers the retry. */
  lemma AbsentMessageIsNotRegistered()
    ensures !IsAlreadyRegistered(None)
    ensures IsAlreadyRegistered(Some("User ALREADY Registered"))
  {
    AlreadyRegisteredAnyCase("User ALREADY Registered", 5);
  }

  /** The text before the first `?` of `s` (all of `s` when there is none). */
  function UpToQuestion(s: string): (r: string)
    ensures r <= s
    ensures '?' !in r
    ensures |r| < |s| ==> s[|r|] == '?'
  {
    if s == [] || s[0] == '?' then [] else [s[0]] + UpToQuestion(s[1..])
  }

  /** The string handed to `URLSearchParams`: with a `?` in the hash,
      `hash.split("?")[1]`, the piece between its first and second `?`;
      otherwise the search string. */
  function RecoveryQuery(hash: string, search: string): (q: string)
    ensures '?' !in hash ==> q == search
    ensures '?' in hash ==>
              exists i :: 0 <= i < |hash| && hash[i] == '?' && '?' !in hash[..i]
                && q == UpToQuestion(hash[i + 1..])
  {
    if '?' in hash then
      var i := |UpToQuestion(hash)|;
      assert hash[..i] == UpToQuestion(hash);
      UpToQuestion(hash[i + 1..])
    else search
  }

  /** `findRecoveryParam`: recovery mode iff the `type` parameter is
      exactly "recovery"; `typeOf` stands for `URLSearchParams.get("type")`. */
  predicate FindsRecovery(hash: string, search: string, typeOf: string -> Option<string>)
    ensures '?' !in hash ==> (FindsRecovery(hash, search, typeOf) <==> typeOf(search) == Some("recovery"))
    ensures '?' in hash ==>
              (FindsRecovery(hash, search, typeOf) <==> typeOf(RecoveryQuery(hash, "")) == Some("recovery"))
  {
    typeOf(RecoveryQuery(hash, search)) == Some("recovery")
  }

  /** With a `?` in the hash, the parameters are the hash's text after its
      first `?`, up to the next `?`; the search string is ignored. */
  lemma HashSegmentWins(route: string, params: string, tail: string, search: string)
    requires '?' !in route && '?' !in params
    requires tail == [] || tail[0] == '?'
    ensures RecoveryQuery(route + "?" + params + tail, search) == params
  {
    var hash := route + "?" + params + tail;
    StopsAtQuestion(route, "?" + params + tail);
    assert hash == route + ("?" + params + tail);
    assert hash[|route| + 1..] == params + tail;
    StopsAtQuestion(params, tail);
  }

  /** The text before the first `?` of `a + b`, where `a` has none and `b`
      is empty or starts with one, is `a`. */
  lemma StopsAtQuestion(a: string, b: string)
    requires '?' !in a
    requires b == [] || b[0] == '?'
    ensures UpToQuestion(a + b) == a
  {
    UpToQuestionAppend(a, b);
    if b == [] {
      assert a + b == a;
    }
  }

  /** Without a `?` in the hash, the search string is used. */
  lemma SearchQueryExample()
    ensures RecoveryQuery("#/auth", "?type=recovery") == "?type=recovery"
  {
    assert "#/auth" == ['#', '/', 'a', 'u', 't', 'h'];
  }

  /** `UpToQuestion` skips over a `?`-free prefix. */
  lemma {:induction false} UpToQuestionAppend(a: string, b: string)
    requires '?' !in a
    ensures UpToQuestion(a + b) == a + UpToQuestion(b)
  {
    if a != [] {
      assert (a + b)[1..] == a[1..] + b;
      UpToQuestionAppend(a[1..], b);
    } else {
      assert a + b == b;
    }
  }

  /** The card title: "Entrar" in login mode only; sign-up and recovery both
      say "Criar conta". */
  function CardTitle(mode: Mode): (t: string)
    ensures t == "Entrar" <==> mode == Login
    ensures mode != Login ==> t == "Criar conta"
  {
    if mode == Login then "Entrar" else "Criar conta"
  }

  datatype Field = Email | Password | ConfirmPassword | NewPassword | NewPasswordConfirm

  class AuthPage {
    var mode: Mode
    var email: string
    var password: string
    var confirmPassword: string
    var newPassword: string
    var newPasswordConfirm: string
    var loading: bool

    /** The page mounts in login mode with empty fields, then looks at the
        URL for a recovery link. */
    constructor(hash: string, search: string, typeOf: string -> Option<string>)
      ensures mode == (if FindsRecovery(hash, search, typeOf) then Recover else Login)
      ensures email == password == confirmPassword == newPassword == newPasswordConfirm == ""
      ensures !loading
    {
      mode := Login;
      email, password, confirmPassword := "", "", "";
      newPassword, newPasswordConfirm := "", "";
      loading := false;
      if FindsRecovery(hash, search, typeOf) {
        mode := Recover;
      }
    }

    /** The login and sign-up tab buttons. */
    method SelectMode(m: Mode)
      modifies this
      ensures mode == m
      ensures email == old(email) && password == old(password) && confirmPassword == old(confirmPassword)
      ensures newPassword == old(newPassword) && newPasswordConfirm == old(newPasswordConfirm)
      ensures loading == old(loading)
    {
      mode := m;
    }

    /** An input's `onChange`. */
    method Edit(f: Field, value: string)
      modifies this
      ensures email == (if f == Email then value else old(email))
      ensures password == (if f == Password then value else old(password))
      ensures confirmPassword == (if f == ConfirmPassword then value else old(confirmPassword))
      ensures newPassword == (if f == NewPassword then value else old(newPassword))
      ensures newPasswordConfirm == (if f == NewPasswordConfirm then value else old(newPasswordConfirm))
      ensures mode == old(mode) && loading == old(loading)
    {
      match f {
        case Email => email := value;
        case Password => password := value;
        case ConfirmPassword => confirmPassword := value;
        case NewPassword => newPassword := value;
        case NewPasswordConfirm => newPasswordConfirm := value;
      }
    }

    /** `onLogin`: on failure `loading` is reset; on success it stays set
        while the page navigates home. */
    method OnLogin(result: Option<AuthError>) returns (notice: Notice, route: Route, requests: seq<Request>)
      modifies this
      ensures requests == [SignInWithPassword]
      ensures result.Some? ==> notice == LoginFailed(result.value.message) && route == Stay && !loading
      ensures result.None? ==> notice == LoggedIn && route == Home && loading
      ensures mode == old(mode) && email == old(email) && password == old(password)
      ensures confirmPassword == old(confirmPassword) && newPassword == old(newPassword)
      ensures newPasswordConfirm == old(newPasswordConfirm)
    {
      loading := true;
      requests := [SignInWithPassword];
      if result.Some? {
        notice, route := LoginFailed(result.value.message), Stay;
        loading := false;
        return;
      }
      notice, route := LoggedIn, Home;
    }

    /** `onSignup`: the guard chain first, without any request; then the
        sign-up, and when its error says the address is already registered, a
        login with the same credentials. A failed retry shows the original
        sign-up error. Every path after the guards ends with `loading` false. */
    method OnSignup(signUpResult: Option<AuthError>, retryResult: Option<AuthError>)
      returns (notice: Notice, route: Route, requests: seq<Request>)
      modifies this
      ensures var problem := SignupProblem(old(email), old(password), old(confirmPassword));
              problem.Some? ==> notice == problem.value && route == Stay && requests == [] && loading == old(loading)
      ensures SignupProblem(old(email), old(password), old(confirmPassword)).None? ==>
                !loading
                && (signUpResult.None? ==> notice == SignupStarted && route == Onboarding && requests == [SignUp])
                && (signUpResult.Some? && !IsAlreadyRegistered(signUpResult.value.message) ==>
                      notice == SignupFailed(signUpResult.value.message) && route == Stay && requests == [SignUp])
                && (signUpResult.Some? && IsAlreadyRegistered(signUpResult.value.message) ==>
                      requests == [SignUp, SignInWithPassword]
                      && (retryResult.None? ==> notice == AccountExists && route == Onboarding)
                      && (retryResult.Some? ==> notice == SignupFailed(signUpResult.value.message) && route == Stay))
      ensures mode == old(mode) && email == old(email) && password == old(password)
      ensures confirmPassword == old(confirmPassword) && newPassword == old(newPassword)
      ensures newPasswordConfirm == old(newPasswordConfirm)
    {
      var problem := SignupProblem(email, password, confirmPassword);
      if problem.Some? {
        return problem.value, Stay, [];
      }
      loading := true;
      requests := [SignUp];
      if signUpResult.Some? {
        var error := signUpResult.value;
        if IsAlreadyRegistered(error.message) {
          requests := requests + [SignInWithPassword];
          if retryResult.Some? {
            notice, route := SignupFailed(error.message), Stay;
            loading := false;
            return;
          }
          notice, route := AccountExists, Onboarding;
          loading := false;
          return;
        }
        notice, route := SignupFailed(error.message), Stay;
        loading := false;
        return;
      }
      notice, route := SignupStarted, Onboarding;
      loading := false;
    }

    /** `sendMagicLink`: refuses an empty e-mail without any request. */
    method SendMagicLink(result: Option<AuthError>) returns (notice: Notice, requests: seq<Request>)
      modifies this
      ensures old(email) == "" ==> notice == EmailRequired && requests == [] && loading == old(loading)
      ensures old(email) != "" ==> requests == [SignInWithOtp] && !loading
      ensures old(email) != "" && result.Some? ==> notice == LinkFailed(result.value.message)
      ensures old(email) != "" && result.None? ==> notice == LinkSent
      ensures mode == old(mode) && email == old(email) && password == old(password)
      ensures confirmPassword == old(confirmPassword) && newPassword == old(newPassword)
      ensures newPasswordConfirm == old(newPasswordConfirm)
    {
      if email == "" {
        return EmailRequired, [];
      }
      loading := true;
      requests := [SignInWithOtp];
      loading := false;
      if result.Some? {
        return LinkFailed(result.value.message), requests;
      }
      notice := LinkSent;
    }

    /** `requestReset`: refuses an empty e-mail without any request. */
    method RequestReset(result: Option<AuthError>) returns (notice: Notice, requests: seq<Request>)
      modifies this
      ensures old(email) == "" ==> notice == EmailRequired && requests == [] && loading == old(loading)
      ensures old(email) != "" ==> requests == [ResetPasswordForEmail] && !loading
      ensures old(email) != "" && result.Some? ==> notice == ResetFailed(result.value.message)
      ensures old(email) != "" && result.None? ==> notice == ResetSent
      ensures mode == old(mode) && email == old(email) && password == old(password)
      ensures confirmPassword == old(confirmPassword) && newPassword == old(newPassword)
      ensures newPasswordConfirm == old(newPasswordConfirm)
    {
      if email == "" {
        return EmailRequired, [];
      }
      loading := true;
      requests := [ResetPasswordForEmail];
      loading := false;
      if result.Some? {
        return ResetFailed(result.value.message), requests;
      }
      notice := ResetSent;
    }

    /** `applyNewPassword`: the guard chain, then the update; only success
        switches the page back to login mode. */
    method ApplyNewPassword(result: Option<AuthError>) returns (notice: Notice, requests: seq<Request>)
      modifies this
      ensures var problem := NewPasswordProblem(old(newPassword), old(newPasswordConfirm));
              problem.Some? ==> notice == problem.value && requests == [] && loading == old(loading) && mode == old(mode)
      ensures NewPasswordProblem(old(newPassword), old(newPasswordConfirm)).None? ==>
                requests == [UpdateUser] && !loading
                && (result.Some? ==> notice == NewPasswordFailed(result.value.message) && mode == old(mode))
                && (result.None? ==> notice == NewPasswordSet && mode == Login)
      ensures email == old(email) && password == old(password)
      ensures confirmPassword == old(confirmPassword) && newPassword == old(newPassword)
      ensures newPasswordConfirm == old(newPasswordConfirm)
    {
      var problem := NewPasswordProblem(newPassword, newPasswordConfirm);
      if problem.Some? {
        return problem.value, [];
      }
      loading := true;
      requests := [UpdateUser];
      loading := false;
      if result.Some? {
        return NewPasswordFailed(result.value.message), requests;
      }
      notice := NewPasswordSet;
      mode := Login;
    }
  }
}
