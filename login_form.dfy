/**
  The login form: its three state cells (`sent`, `loading`, `loginWithLink`)
  and its submit handler, which asks the server what the next login step is
  and drives the form and the auth store from the answer.
 */
module LoginForm {
  import opened AuthContext

  /** The server's `LoginRes.LoginStep`; `OtherStep` is any value the form's
      switch has no arm for. */
  datatype LoginStep = InvalidUser | NeedPassword | SentLoginEmail | OtherStep(code: nat)

  /** What awaiting `checkUsername` yields: a step, or a thrown error with its message. */
  datatype CheckResult = Step(step: LoginStep) | Thrown(message: string)

  /** The form's state cells, as values. */
  datatype FormState = FormState(sent: bool, loading: bool, loginWithLink: bool)

  /** The state cells at mount: `useState(false)`, `useSafeState(false)`, `useState(true)`. */
  const Initial: FormState := FormState(false, false, true)

  /** One submission: the sanitised username (what the server was asked
      about), the password field, and the server's answer. */
  datatype Submission = Submission(username: string, password: string, response: CheckResult)

  /** The state a submission leaves and the store calls it made, in order. */
  datatype Transition = Transition(state: FormState, calls: seq<AuthAction>)

  /** What the handler carries across the `await`: the sanitised username,
      the password, and the `loginWithLink` it closed over when it began. */
  datatype Pending = Pending(username: string, password: string, capturedLoginWithLink: bool)

  /** The `switch` on the step: the cell updates and store calls of each arm. */
  function Dispatch(s: FormState, step: LoginStep): (t: Transition)
    ensures t.state.loading == s.loading
    ensures t.state.sent == (s.sent || step == SentLoginEmail)
    ensures t.state.loginWithLink == (s.loginWithLink && step != NeedPassword)
    ensures t.calls == if step == InvalidUser then [AuthErrorCall(CouldntFindUser)] else []
  {
    match step
    case InvalidUser => Transition(s, [AuthErrorCall(CouldntFindUser)])
    case NeedPassword => Transition(s.(loginWithLink := false), [])
    case SentLoginEmail => Transition(s.(sent := true), [])
    case OtherStep(_) => Transition(s, [])
  }

  /** The handler after the `await`: dispatch on the answer, then log in with
      the password if the captured `loginWithLink` was false; a thrown error is
      reported instead; `loading` is reset on every path. */
  function Resume(s: FormState, p: Pending, response: CheckResult): (t: Transition)
    ensures !t.state.loading
    ensures response.Thrown? ==>
      t.state == s.(loading := false) && t.calls == [AuthErrorCall(Text(response.message))]
    ensures response.Step? ==>
      t.state.sent == (s.sent || response.step == SentLoginEmail) &&
      t.state.loginWithLink == (s.loginWithLink && response.step != NeedPassword)
    // The password login depends on the captured value only, not on the
    // `loginWithLink` this very answer may have cleared.
    ensures PasswordLoginCall(p.username, p.password) in t.calls <==>
      (response.Step? && !p.capturedLoginWithLink)
    ensures forall c :: c in t.calls && c.PasswordLoginCall? ==> c == PasswordLoginCall(p.username, p.password)
    // An answer reports only an unknown user, and only then logs in.
    ensures response.Step? ==>
      (t.calls ==
        (if response.step == InvalidUser then [AuthErrorCall(CouldntFindUser)] else [])
        + (if !p.capturedLoginWithLink then [PasswordLoginCall(p.username, p.password)] else []))
  {
    match response
    case Thrown(message) =>
      Transition(s.(loading := false), [AuthErrorCall(Text(message))])
    case Step(step) =>
      var d := Dispatch(s, step);
      var login := if !p.capturedLoginWithLink then [PasswordLoginCall(p.username, p.password)] else [];
      Transition(d.state.(loading := false), d.calls + login)
  }

  /** One whole submission from state `s`: `loading` set and the error
      cleared, then the answer handled with the `loginWithLink` of `s`. */
  function OnSubmit(s: FormState, sub: Submission): (t: Transition)
    ensures !t.state.loading
    ensures |t.calls| >= 1 && t.calls[0] == ClearErrorCall
    ensures sub.response.Thrown? ==>
      t == Transition(s.(loading := false), [ClearErrorCall, AuthErrorCall(Text(sub.response.message))])
    ensures sub.response == Step(InvalidUser) ==>
      t.state == s.(loading := false) && AuthErrorCall(CouldntFindUser) in t.calls
    ensures sub.response == Step(NeedPassword) ==>
      t.state == s.(loading := false, loginWithLink := false)
    ensures sub.response == Step(SentLoginEmail) ==>
      t.state == s.(loading := false, sent := true)
    ensures sub.response.Step? && sub.response.step.OtherStep? ==>
      t.state == s.(loading := false)
    // The password login happens exactly when the answer arrived and the
    // `loginWithLink` read at the start was already false, never because of
    // this answer's NEED_PASSWORD; it uses the same sanitised username.
    ensures (exists c :: c in t.calls && c.PasswordLoginCall?) <==> (sub.response.Step? && !s.loginWithLink)
    ensures forall c :: c in t.calls && c.PasswordLoginCall? ==> c == PasswordLoginCall(sub.username, sub.password)
    // An answered submission clears the error once, reports only an unknown
    // user, and only then logs in with the password.
    ensures sub.response.Step? ==>
      (t.calls ==
        [ClearErrorCall]
        + (if sub.response.step == InvalidUser then [AuthErrorCall(CouldntFindUser)] else [])
        + (if !s.loginWithLink then [PasswordLoginCall(sub.username, sub.password)] else []))
  {
    var r := Resume(s.(loading := true), Pending(sub.username, sub.password, s.loginWithLink), sub.response);
    var calls := [ClearErrorCall] + r.calls;
    assert sub.response.Step? && !s.loginWithLink ==> calls[|calls| - 1] == PasswordLoginCall(sub.username, sub.password);
    Transition(r.state, calls)
  }

  /** A sequence of submissions, one after another, from state `s`. */
  function Run(s: FormState, subs: seq<Submission>): (t: Transition)
    ensures subs == [] ==> t == Transition(s, [])
    // A run of n submissions makes between n and 3n store calls.
    ensures |subs| <= |t.calls| <= 3 * |subs|
    ensures subs != [] ==> !t.state.loading && t.calls[0] == ClearErrorCall
    decreases |subs|
  {
    if subs == [] then Transition(s, [])
    else
      var before := Run(s, subs[..|subs| - 1]);
      var last := OnSubmit(before.state, subs[|subs| - 1]);
      Transition(last.state, before.calls + last.calls)
  }

  /** Whether some submission in `subs` was answered with this step. */
  predicate Answered(subs: seq<Submission>, step: LoginStep)
  {
    exists i :: 0 <= i < |subs| && subs[i].response == Step(step)
  }

  /** A step was answered in `subs` when it was answered before the last
      submission or by the last one. */
  lemma AnsweredLast(subs: seq<Submission>, step: LoginStep)
    requires subs != []
    ensures Answered(subs, step) ==
      (Answered(subs[..|subs| - 1], step) || subs[|subs| - 1].response == Step(step))
  {
    var prefix := subs[..|subs| - 1];
    if Answered(subs, step) && subs[|subs| - 1].response != Step(step) {
      var i :| 0 <= i < |subs| && subs[i].response == Step(step);
      assert prefix[i] == subs[i];
    }
    if Answered(prefix, step) {
      var i :| 0 <= i < |prefix| && prefix[i].response == Step(step);
      assert subs[i] == prefix[i];
    }
  }

  /** After any run of submissions: `loginWithLink` is false exactly when it
      started false or some answer was NEED_PASSWORD (nothing sets it back),
      `sent` is true exactly when it started true or some answer was
      SENT_LOGIN_EMAIL, and `loading` is false once anything was submitted. */
  lemma {:induction false} RunState(s: FormState, subs: seq<Submission>)
    ensures Run(s, subs).state.loginWithLink == (s.loginWithLink && !Answered(subs, NeedPassword))
    ensures Run(s, subs).state.sent == (s.sent || Answered(subs, SentLoginEmail))
    ensures subs != [] ==> !Run(s, subs).state.loading
    decreases |subs|
  {
    if subs != [] {
      var n := |subs|;
      var prefix := subs[..n - 1];
      RunState(s, prefix);
      AnsweredLast(subs, NeedPassword);
      AnsweredLast(subs, SentLoginEmail);
    }
  }

  /** Whether the `j`th submission of a run from `s` began with `loginWithLink` false. */
  predicate BeganWithPassword(s: FormState, subs: seq<Submission>, j: nat)
    requires j <= |subs|
  {
    !s.loginWithLink || Answered(subs[..j], NeedPassword)
  }

  /** Whether some call in `calls` is a password login. */
  predicate LogsIn(calls: seq<AuthAction>)
  {
    exists c :: c in calls && c.PasswordLoginCall?
  }

  /** Whether some submission of `subs` was answered after beginning with
      `loginWithLink` false. */
  predicate AnsweredWithPassword(s: FormState, subs: seq<Submission>)
  {
    exists j :: 0 <= j < |subs| && subs[j].response.Step? && BeganWithPassword(s, subs, j)
  }

  lemma LogsInConcat(a: seq<AuthAction>, b: seq<AuthAction>)
    ensures LogsIn(a + b) == (LogsIn(a) || LogsIn(b))
  {
    if LogsIn(a + b) {
      var c :| c in a + b && c.PasswordLoginCall?;
      assert c in a || c in b;
    }
  }

  /** Splitting `AnsweredWithPassword` into the submissions before the last
      one and the last one. */
  lemma AnsweredWithPasswordLast(s: FormState, subs: seq<Submission>)
    requires subs != []
    ensures var n := |subs|;
      AnsweredWithPassword(s, subs) ==
        (AnsweredWithPassword(s, subs[..n - 1]) ||
         (subs[n - 1].response.Step? && BeganWithPassword(s, subs, n - 1)))
  {
    var n := |subs|;
    var prefix := subs[..n - 1];
    forall j | 0 <= j < n - 1
      ensures prefix[j] == subs[j] && prefix[..j] == subs[..j]
    {
    }
    if AnsweredWithPassword(s, subs) {
      var j :| 0 <= j < n && subs[j].response.Step? && BeganWithPassword(s, subs, j);
      if j < n - 1 {
        assert prefix[j].response.Step? && BeganWithPassword(s, prefix, j);
      }
    }
    if AnsweredWithPassword(s, prefix) {
      var j :| 0 <= j < n - 1 && prefix[j].response.Step? && BeganWithPassword(s, prefix, j);
      assert subs[j].response.Step? && BeganWithPassword(s, subs, j);
    }
  }

  /** A run calls `passwordLogin` exactly when some submission was answered
      while the `loginWithLink` it read at its start was already false. */
  lemma {:induction false} PasswordLoginInRun(s: FormState, subs: seq<Submission>)
    ensures (exists c :: c in Run(s, subs).calls && c.PasswordLoginCall?) <==>
      (exists j :: 0 <= j < |subs| && subs[j].response.Step? && BeganWithPassword(s, subs, j))
    decreases |subs|
  {
    if subs != [] {
      var n := |subs|;
      var prefix := subs[..n - 1];
      PasswordLoginInRun(s, prefix);
      RunState(s, prefix);
      var before := Run(s, prefix);
      var last := OnSubmit(before.state, subs[n - 1]);
      assert LogsIn(last.calls) == (subs[n - 1].response.Step? && !before.state.loginWithLink);
      assert !before.state.loginWithLink == BeganWithPassword(s, subs, n - 1);
      LogsInConcat(before.calls, last.calls);
      AnsweredWithPasswordLast(s, subs);
      assert LogsIn(Run(s, subs).calls) == AnsweredWithPassword(s, subs);
    }
  }

  /** Whether some answered submission follows an earlier NEED_PASSWORD answer. */
  predicate NeedPasswordThenAnswer(subs: seq<Submission>)
  {
    exists i, j :: 0 <= i < j < |subs| && subs[i].response == Step(NeedPassword) && subs[j].response.Step?
  }

  /** From a fresh form, a submission begins with `loginWithLink` false
      exactly when an earlier one was answered NEED_PASSWORD. */
  lemma AnsweredWithPasswordFromInitial(subs: seq<Submission>)
    ensures AnsweredWithPassword(Initial, subs) == NeedPasswordThenAnswer(subs)
  {
    if NeedPasswordThenAnswer(subs) {
      var i, j :| 0 <= i < j < |subs| && subs[i].response == Step(NeedPassword) && subs[j].response.Step?;
      assert subs[..j][i] == subs[i];
      assert BeganWithPassword(Initial, subs, j);
    }
    if AnsweredWithPassword(Initial, subs) {
      var j :| 0 <= j < |subs| && subs[j].response.Step? && BeganWithPassword(Initial, subs, j);
      var i :| 0 <= i < j && subs[..j][i].response == Step(NeedPassword);
      assert subs[i] == subs[..j][i];
    }
  }

  /** From a freshly mounted form, `passwordLogin` is called only by a
      submission answered after an earlier submission's NEED_PASSWORD: the
      NEED_PASSWORD answer itself never triggers it. */
  lemma PasswordLoginAfterNeedPassword(subs: seq<Submission>)
    ensures (exists c :: c in Run(Initial, subs).calls && c.PasswordLoginCall?) <==>
      (exists i, j :: 0 <= i < j < |subs| && subs[i].response == Step(NeedPassword) && subs[j].response.Step?)
  {
    PasswordLoginInRun(Initial, subs);
    AnsweredWithPasswordFromInitial(subs);
    assert LogsIn(Run(Initial, subs).calls) == AnsweredWithPassword(Initial, subs);
  }

  /** The stale read on a concrete pair of submissions: the first
      NEED_PASSWORD answer only reveals the password field; the next answered
      submission logs in with its own username and password. */
  lemma NeedPasswordThenResubmit(first: Submission, second: Submission)
    requires first.response == Step(NeedPassword) && second.response.Step?
    ensures Run(Initial, [first]).calls == [ClearErrorCall]
    ensures !Run(Initial, [first]).state.loginWithLink
    ensures var calls := Run(Initial, [first, second]).calls;
      calls[|calls| - 1] == PasswordLoginCall(second.username, second.password)
  {
    assert [first, second][..1] == [first];
  }

  /** Once the captured `loginWithLink` is false, even an INVALID_USER answer
      is followed by a password login for the name the server rejected. */
  lemma InvalidUserAfterNeedPassword(s: FormState, sub: Submission)
    requires !s.loginWithLink && sub.response == Step(InvalidUser)
    ensures OnSubmit(s, sub).calls ==
      [ClearErrorCall, AuthErrorCall(CouldntFindUser), PasswordLoginCall(sub.username, sub.password)]
  {
  }

  /** What the form shows for a state (and the store's `loading`). */
  datatype View = View(
    checkEmailShown: bool,
    usernameDisabled: bool,
    passwordShown: bool,
    forgotPasswordShown: bool,
    submitDisabled: bool,
    submitLoading: bool)

  function ViewOf(s: FormState, authLoading: bool): (v: View)
    ensures v.checkEmailShown <==> s.sent
    ensures v.usernameDisabled <==> s.sent
    ensures v.submitDisabled <==> s.sent
    ensures v.passwordShown <==> !s.loginWithLink
    ensures v.forgotPasswordShown <==> !s.loginWithLink
    ensures v.submitLoading <==> (s.loading || authLoading)
  {
    View(s.sent, s.sent, !s.loginWithLink, !s.loginWithLink, s.sent, s.loading || authLoading)
  }

  /** After a SENT_LOGIN_EMAIL answer the notice shows and the username field
      and the submit button stay disabled; after a NEED_PASSWORD answer the
      password field and the forgot-password link stay shown. */
  lemma ViewAfterRun(subs: seq<Submission>, authLoading: bool)
    ensures var v := ViewOf(Run(Initial, subs).state, authLoading);
      (v.usernameDisabled <==> Answered(subs, SentLoginEmail)) &&
      (v.submitDisabled <==> Answered(subs, SentLoginEmail)) &&
      (v.checkEmailShown <==> Answered(subs, SentLoginEmail)) &&
      (v.passwordShown <==> Answered(subs, NeedPassword)) &&
      (v.forgotPasswordShown <==> Answered(subs, NeedPassword)) &&
      (subs != [] ==> (v.submitLoading <==> authLoading))
  {
    RunState(Initial, subs);
  }

  class LoginForm {
    var sent: bool
    var loading: bool
    var loginWithLink: bool
    /** The auth store reached through `useAuthContext()`. */
    const auth: AuthStore

    function State(): FormState
      reads this
    {
      FormState(sent, loading, loginWithLink)
    }

    constructor (auth: AuthStore)
      ensures this.auth == auth && State() == Initial
    {
      this.auth := auth;
      sent, loading, loginWithLink := false, false, true;
    }

    /** The handler up to the `await`: set `loading`, clear the error,
        sanitise the username once; the closed-over `loginWithLink` is kept. */
    method BeginSubmit(username: string, password: string, sanitizeName: string -> string) returns (p: Pending)
      modifies this`loading, auth`calls
      ensures loading && sent == old(sent) && loginWithLink == old(loginWithLink)
      ensures auth.calls == old(auth.calls) + [ClearErrorCall]
      ensures p == Pending(sanitizeName(username), password, loginWithLink)
    {
      loading := true;
      auth.ClearError();
      p := Pending(sanitizeName(username), password, loginWithLink);
    }

    /** The handler after the `await`, given what `checkUsername` yielded. */
    method FinishSubmit(p: Pending, response: CheckResult)
      modifies this, auth`calls
      ensures var t := Resume(old(State()), p, response);
        State() == t.state && auth.calls == old(auth.calls) + t.calls
    {
      match response {
        case Thrown(message) =>
          auth.AuthError(Text(message));
        case Step(step) =>
          match step {
            case InvalidUser =>
              auth.AuthError(CouldntFindUser);
            case NeedPassword =>
              loginWithLink := false;
            case SentLoginEmail =>
              sent := true;
            case OtherStep(_) =>
          }
          if !p.capturedLoginWithLink {
            auth.PasswordLogin(p.username, p.password);
          }
      }
      loading := false;
    }

    /** `onSubmit`: the two halves in sequence, the server answering
        `checkUsername` for the sanitised name. */
    method Submit(username: string, password: string, sanitizeName: string -> string,
                  checkUsername: string -> CheckResult)
      modifies this, auth`calls
      ensures var t := OnSubmit(old(State()),
          Submission(sanitizeName(username), password, checkUsername(sanitizeName(username))));
        State() == t.state && auth.calls == old(auth.calls) + t.calls
    {
      var p := BeginSubmit(username, password, sanitizeName);
      var response := checkUsername(p.username);
      FinishSubmit(p, response);
    }
  }

  /** A fresh form submitted twice for a user the server says needs a
      password: only the second submission logs in, with the sanitised name. */
  method NeedPasswordOnForm(username: string, password: string, sanitizeName: string -> string,
                            checkUsername: string -> CheckResult) returns (calls: seq<AuthAction>)
    requires checkUsername(sanitizeName(username)) == Step(NeedPassword)
    ensures calls == [ClearErrorCall, ClearErrorCall, PasswordLoginCall(sanitizeName(username), password)]
  {
    var store := new AuthStore(false, false, false);
    var form := new LoginForm(store);
    form.Submit(username, "", sanitizeName, checkUsername);
    assert store.calls == [ClearErrorCall] && !form.loginWithLink;
    form.Submit(username, password, sanitizeName, checkUsername);
    calls := store.calls;
  }
}
