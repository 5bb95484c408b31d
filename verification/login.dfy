/** The sign-in form: three fixed demonstration accounts, each a username
    equal to its password, and the buttons that fill one of them in. */
module Login {
  import opened Types

  /** The accepted usernames, each with the role it signs in as; the password
      of every account is its username. */
  const Accounts: map<string, UserRole> := map["xxx" := RECRUITER, "111" := WORKER, "aaa" := MANAGER]

  /** The keys the simulator buttons offer, in the order they are shown. */
  const SimulatorKeys: seq<string> := ["xxx", "aaa", "111"]

  const FailureMessage: string := "Identity verification failed."

  /** The role a credential pair signs in as, checked pair by pair. */
  function Authenticate(username: string, password: string): (r: Option<UserRole>)
    ensures r.Some? <==> username == password && username in Accounts
    ensures r.Some? ==> r.value == Accounts[username]
    ensures r != Some(ADMIN)
  {
    if username == "xxx" && password == "xxx" then Some(RECRUITER)
    else if username == "111" && password == "111" then Some(WORKER)
    else if username == "aaa" && password == "aaa" then Some(MANAGER)
    else None
  }

  /** The form's fields and the error line under them. */
  datatype LoginForm = LoginForm(username: string, password: string, error: string)

  /** What submitting the form does: the form afterwards, and the role handed
      to the application, if any. */
  datatype Outcome = Outcome(form: LoginForm, role: Option<UserRole>)

  /** Submitting the form: a known account signs in with its role and leaves
      the form as it is; anything else shows the failure message and signs
      nobody in. */
  function HandleLogin(f: LoginForm): (r: Outcome)
    ensures r.role.Some? <==> f.username == f.password && f.username in Accounts
    ensures r.role.Some? ==> r.role.value == Accounts[f.username] && r.form == f
    ensures r.role.None? ==> r.form == f.(error := FailureMessage)
  {
    match Authenticate(f.username, f.password)
    case Some(role) => Outcome(f, Some(role))
    case None => Outcome(f.(error := FailureMessage), None)
  }

  /** Pressing the submit button: both fields are `required`, so with either
      one empty the browser refuses to submit, the handler never runs and the
      form stays as it is; otherwise the handler runs. */
  function SubmitForm(f: LoginForm): (r: Outcome)
    ensures f.username == "" || f.password == "" ==> r == Outcome(f, None)
    ensures r.role.Some? <==> f.username == f.password && f.username in Accounts
    ensures r.role.Some? ==> r.role.value == Accounts[f.username] && r.form == f
    ensures r.role.None? && f.username != "" && f.password != "" ==> r.form == f.(error := FailureMessage)
  {
    if f.username == "" || f.password == "" then Outcome(f, None) else HandleLogin(f)
  }

  /** A simulator button: both fields take the given values and the error line
      is cleared. */
  function FillCredentials(f: LoginForm, u: string, p: string): (r: LoginForm)
    ensures r.username == u && r.password == p && r.error == ""
  {
    LoginForm(u, p, "")
  }

  /** Every simulator key, filled in and submitted, signs in; the three keys
      sign in as three different roles, none of them ADMIN. */
  lemma SimulatorKeysSignIn(f: LoginForm)
    ensures forall i :: 0 <= i < |SimulatorKeys| ==>
              SubmitForm(FillCredentials(f, SimulatorKeys[i], SimulatorKeys[i])).role.Some?
    ensures forall i, j :: 0 <= i < j < |SimulatorKeys| ==>
              SubmitForm(FillCredentials(f, SimulatorKeys[i], SimulatorKeys[i])).role
                != SubmitForm(FillCredentials(f, SimulatorKeys[j], SimulatorKeys[j])).role
  {
  }

  /** The three accounts sign in as RECRUITER, WORKER and MANAGER. */
  lemma AccountRoles()
    ensures Authenticate("xxx", "xxx") == Some(RECRUITER)
    ensures Authenticate("111", "111") == Some(WORKER)
    ensures Authenticate("aaa", "aaa") == Some(MANAGER)
  {
  }

  /** A username paired with another account's password is refused with the
      failure message. */
  lemma CrossedPairRefused(f: LoginForm)
    requires f.username in Accounts && f.password in Accounts && f.username != f.password
    ensures SubmitForm(f) == Outcome(f.(error := FailureMessage), None)
  {
  }

  /** No credential pair signs in as ADMIN, although ADMIN is a role. */
  lemma NeverAdmin(f: LoginForm)
    ensures SubmitForm(f).role != Some(ADMIN)
  {
  }
}
