/**
 * The two components together: the dashboard renders the login form while
 * it is not authenticated and passes `handleLogin` as the form's `onLogin`.
 */
module App {
  import opened Wrappers
  import opened Text
  import opened Endpoints
  import opened Login
  import opened Dashboard

  /** `if (!isAuthenticated) return <LoginScreen …/>`: the form is shown exactly while unauthenticated. */
  predicate ShowsLoginScreen(s: Session) {
    !s.isAuthenticated
  }

  /** The victory modal is part of the dashboard view and is open while the session reads as won. */
  predicate VictoryModalOpen(s: Session) {
    !ShowsLoginScreen(s) && s.victoryData.won
  }

  /** The dashboard after a form submission whose request resolved with `response`: `onLogin` drives `handleLogin`. */
  function AfterLoginAttempt(f: Form, response: CreateTeamResponse, s: Session): (r: Session)
    requires Submit(f).request != None
    ensures response.Created? ==> r == Step(s, Login(response.team.id, response.team.name))
    ensures !response.Created? ==> r == s
  {
    match CreateTeamSettled(Submit(f).form, response).onLogin
    case Some(team) => Step(s, Login(team.id, team.name))
    case None => s
  }

  /**
   * A valid form whose request returns a team authenticates the dashboard
   * with exactly that team and, unless the session already reads as won,
   * starts the poll on its id.
   */
  lemma SuccessfulLoginStartsSession(f: Form, s: Session, id: string, name: string)
    requires !Blank(f.teamName) && IsSpellingOfCode(f.accessCode)
    ensures Submit(f).request == Some(CreateTeamRequest(CreateTeamUrl, f.teamName))
    ensures var t := AfterLoginAttempt(f, Created(CreatedTeam(id, name)), s);
      && t.isAuthenticated && t.teamData == TeamData(id, name) && !ShowsLoginScreen(t)
      && (id != "" && !s.victoryData.won ==> PollRequest(t) == Some(StatusUrl(id)))
  {
  }

  /** A failed request leaves the dashboard as it was: still on the login form, still not polling. */
  lemma FailedLoginKeepsLoginScreen(f: Form, s: Session, response: CreateTeamResponse)
    requires Submit(f).request != None && !response.Created?
    requires ShowsLoginScreen(s)
    ensures var t := AfterLoginAttempt(f, response, s);
      ShowsLoginScreen(t) && PollRequest(t) == None
  {
  }

  /** The example login: "Ops" with the lower-case code, answered by team T1, authenticates as T1 and polls T1. */
  lemma ExampleLogin()
    ensures var f := InitialForm.(teamName := "Ops", accessCode := "demogorgon");
      && Submit(f).request == Some(CreateTeamRequest(CreateTeamUrl, "Ops"))
      && var t := AfterLoginAttempt(f, Created(CreatedTeam("T1", "Ops")), Initial);
      t.isAuthenticated && t.teamData.id == "T1" && PollRequest(t) == Some(StatusUrl("T1"))
  {
    var f := InitialForm.(teamName := "Ops", accessCode := "demogorgon");
    assert !Blank(f.teamName) by { assert !IsWhitespace(f.teamName[0]); }
    assert IsSpellingOfCode(f.accessCode) by {
      LowerCaseCodeAccepted(f);
      CodeAcceptedIff("demogorgon");
    }
    SuccessfulLoginStartsSession(f, Initial, "T1", "Ops");
  }

  /**
   * A status check that resolves after a reset leaves a won victory behind,
   * and `handleLogin` does not clear it: the next team's dashboard opens on
   * the victory modal with the previous key, and never polls.
   */
  lemma LateWinCarriesOverToNextLogin(s: Session, k: string, id: string, name: string)
    ensures var t := Step(Step(Step(s, Reset), StatusChecked(Escaped(KeyReceived(k)))), Login(id, name));
      && VictoryModalOpen(t) && t.victoryData.key == k && PollRequest(t) == None
  {
  }
}
