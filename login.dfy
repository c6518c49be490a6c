/**
 * The login form (`LoginScreen`): local validation of the team name and the
 * security clearance code, then the team-creation request and what its
 * outcome does to the form. `handleSubmit` is asynchronous, so it is modelled
 * in its two halves: `Submit`, the synchronous part that ends at the `await`
 * on the request, and `CreateTeamSettled`, the continuation once the request
 * has resolved.
 */
module Login {
  import opened Wrappers
  import opened Text
  import opened Endpoints

  const SecurityCode := "DEMOGORGON"
  const TeamNameRequired := "TEAM NAME REQUIRED"
  const InvalidClearance := "INVALID SECURITY CLEARANCE CODE"
  const ConnectionFailed := "CONNECTION TO HAWKINS LAB FAILED"

  /**
   * The spellings of the security code that the form accepts: ten characters,
   * each the code's letter at that position in upper or in lower case.
   */
  predicate IsSpellingOfCode(code: string) {
    && |code| == |SecurityCode|
    && forall i :: 0 <= i < |code| ==> code[i] == SecurityCode[i] || code[i] == LowerChar(SecurityCode[i])
  }

  /** The access-code test of `handleSubmit`: the upper-cased code equals `DEMOGORGON`. */
  predicate CodeAccepted(code: string) {
    ToUpper(code) == SecurityCode
  }

  /** Every character of the security code is an upper-case letter. */
  lemma CodeIsCapitals()
    ensures forall i :: 0 <= i < |SecurityCode| ==> 'A' <= SecurityCode[i] <= 'Z'
  {
  }

  /** The code test accepts exactly the mixed-case spellings of `DEMOGORGON`. */
  lemma CodeAcceptedIff(code: string)
    ensures CodeAccepted(code) <==> IsSpellingOfCode(code)
  {
    CodeIsCapitals();
    ToUpperMatches(code, SecurityCode);
  }

  /** Upper-casing a code first does not change whether it is accepted. */
  lemma CodeAcceptedUpToCase(code: string)
    ensures CodeAccepted(code) <==> CodeAccepted(ToUpper(code))
  {
    ToUpperIdempotent(code);
  }

  /** The errors that local validation reports. */
  datatype ValidationError = MissingTeamName | InvalidAccessCode {
    function Message(): string {
      match this
      case MissingTeamName => TeamNameRequired
      case InvalidAccessCode => InvalidClearance
    }
  }

  /**
   * The two local tests, in the order the form makes them: a blank team name
   * is reported before a wrong code is looked at.
   */
  function Validate(teamName: string, accessCode: string): (r: Option<ValidationError>)
    ensures r == Some(MissingTeamName) <==> Blank(teamName)
    ensures r == Some(InvalidAccessCode) <==> !Blank(teamName) && !IsSpellingOfCode(accessCode)
    ensures r == None <==> !Blank(teamName) && IsSpellingOfCode(accessCode)
  {
    CodeAcceptedIff(accessCode);
    if Trim(teamName) == [] then Some(MissingTeamName)
    else if !CodeAccepted(accessCode) then Some(InvalidAccessCode)
    else None
  }

  /** The state of the form: its two inputs, the error line ("" when none is shown) and the loading flag. */
  datatype Form = Form(teamName: string, accessCode: string, error: string, loading: bool)

  const InitialForm := Form("", "", "", false)

  /** A team-creation request: the URL it is posted to and the `team_name` of its JSON body. */
  datatype CreateTeamRequest = CreateTeamRequest(url: string, teamName: string)

  /** What the synchronous half of a submission leaves behind: the form, and the team-creation request, if one was made. */
  datatype Submission = Submission(form: Form, request: Option<CreateTeamRequest>)

  /**
   * The synchronous half of `handleSubmit`. A failed local test shows its
   * error and makes no request, leaving `loading` as it was; otherwise the
   * error line is cleared, `loading` is set and the untrimmed team name is sent.
   */
  function Submit(f: Form): (r: Submission)
    ensures r.form.teamName == f.teamName && r.form.accessCode == f.accessCode
    ensures r.request == None <==> Blank(f.teamName) || !IsSpellingOfCode(f.accessCode)
    ensures Blank(f.teamName) ==> r.form == f.(error := TeamNameRequired)
    ensures !Blank(f.teamName) && !IsSpellingOfCode(f.accessCode) ==> r.form == f.(error := InvalidClearance)
    ensures r.request != None ==> r.request == Some(CreateTeamRequest(CreateTeamUrl, f.teamName)) && r.form == f.(error := "", loading := true)
  {
    match Validate(f.teamName, f.accessCode)
    case Some(e) => Submission(f.(error := e.Message()), None)
    case None => Submission(f.(error := "", loading := true), Some(CreateTeamRequest(CreateTeamUrl, f.teamName)))
  }

  /** The team the service created: `team_id` and `team_name` of its JSON reply. */
  datatype CreatedTeam = CreatedTeam(id: string, name: string)

  /**
   * How a `POST /create_team` request resolves: it throws (no connection, or a
   * body that is not JSON), it answers with a status that is not OK, or it
   * answers OK with the created team.
   */
  datatype CreateTeamResponse = FetchFailed | NotOk | Created(team: CreatedTeam)

  /** The form after the request, and the call made to `onLogin`, if any. */
  datatype Settlement = Settlement(form: Form, onLogin: Option<CreatedTeam>)

  /**
   * The continuation of `handleSubmit`. An OK reply hands the created team to
   * `onLogin` and leaves the form as it is (still loading: the dashboard
   * replaces the form); any failure shows the connection error, clears
   * `loading` and calls nothing.
   */
  function CreateTeamSettled(f: Form, response: CreateTeamResponse): (r: Settlement)
    ensures r.onLogin != None <==> response.Created?
    ensures response.Created? ==> r == Settlement(f, Some(response.team))
    ensures !response.Created? ==> r.form == f.(error := ConnectionFailed, loading := false)
  {
    match response
    case Created(team) => Settlement(f, Some(team))
    case _ => Settlement(f.(error := ConnectionFailed, loading := false), None)
  }

  /** A validation failure: an error is shown, no request is made, and a form that was not loading still is not. */
  lemma ValidationFailureMakesNoRequest(f: Form)
    requires Blank(f.teamName) || !IsSpellingOfCode(f.accessCode)
    ensures Submit(f).request == None
    ensures Submit(f).form.error != ""
    ensures Submit(f).form.loading == f.loading
  {
  }

  /** Whatever the code, a blank name is the error reported. */
  lemma BlankNameReportedFirst(f: Form)
    requires Blank(f.teamName)
    ensures Submit(f).form.error == TeamNameRequired
  {
  }

  /** Two codes that upper-case alike give the same submission, apart from the code field itself. */
  lemma SubmitIgnoresCodeCase(f: Form, code1: string, code2: string)
    requires ToUpper(code1) == ToUpper(code2)
    ensures Submit(f.(accessCode := code1)).request == Submit(f.(accessCode := code2)).request
    ensures Submit(f.(accessCode := code1)).form.(accessCode := code2) == Submit(f.(accessCode := code2)).form
  {
    CodeAcceptedIff(code1);
    CodeAcceptedIff(code2);
  }

  /** `demogorgon` and `DEMOGORGON` are both accepted, and submit alike. */
  lemma LowerCaseCodeAccepted(f: Form)
    ensures CodeAccepted("demogorgon") && CodeAccepted("DEMOGORGON")
    ensures Submit(f.(accessCode := "demogorgon")).request == Submit(f.(accessCode := "DEMOGORGON")).request
  {
    CodeAcceptedIff("demogorgon");
    CodeAcceptedIff("DEMOGORGON");
    SubmitIgnoresCodeCase(f, "demogorgon", "DEMOGORGON");
  }

  /** A submission that ends in a failed request shows the connection error, is no longer loading and logs nobody in. */
  lemma FailedRequestDoesNotLogIn(f: Form, response: CreateTeamResponse)
    requires Submit(f).request != None && !response.Created?
    ensures var s := CreateTeamSettled(Submit(f).form, response);
      s.form.error == ConnectionFailed && !s.form.loading && s.onLogin == None
  {
  }

  /** A submission that ends in an OK reply calls `onLogin` with exactly the returned id and name. */
  lemma CreatedTeamLogsIn(f: Form, id: string, name: string)
    requires !Blank(f.teamName) && IsSpellingOfCode(f.accessCode)
    ensures var s := CreateTeamSettled(Submit(f).form, Created(CreatedTeam(id, name)));
      s.onLogin == Some(CreatedTeam(id, name)) && s.form.error == "" && s.form.loading
  {
  }

  /** `Submit` in the terms of the two tests as the form writes them: `trim()` and `toUpperCase()`. */
  lemma SubmitByTests(f: Form)
    ensures Trim(f.teamName) == [] ==> Submit(f) == Submission(f.(error := TeamNameRequired), None)
    ensures Trim(f.teamName) != [] && ToUpper(f.accessCode) != SecurityCode ==>
      Submit(f) == Submission(f.(error := InvalidClearance), None)
    ensures Trim(f.teamName) != [] && ToUpper(f.accessCode) == SecurityCode ==>
      Submit(f) == Submission(f.(error := "", loading := true), Some(CreateTeamRequest(CreateTeamUrl, f.teamName)))
  {
  }

  /** The login form component; its fields are the component's `useState` slots. */
  class LoginScreen {
    var teamName: string
    var accessCode: string
    var error: string
    var loading: bool

    function State(): Form
      reads this
    {
      Form(teamName, accessCode, error, loading)
    }

    constructor ()
      ensures State() == InitialForm
    {
      teamName, accessCode, error, loading := "", "", "", false;
    }

    /** The `onChange` handler of the team-name input. */
    method ChangeTeamName(value: string)
      modifies this
      ensures State() == old(State()).(teamName := value)
    {
      teamName := value;
    }

    /** The `onChange` handler of the access-code input. */
    method ChangeAccessCode(value: string)
      modifies this
      ensures State() == old(State()).(accessCode := value)
    {
      accessCode := value;
    }

    /** `handleSubmit` up to its `await`; returns the team-creation request it sends, if it sends one. */
    method HandleSubmit() returns (request: Option<CreateTeamRequest>)
      modifies this
      ensures Submission(State(), request) == Submit(old(State()))
    {
      SubmitByTests(State());
      error := "";
      if Trim(teamName) == [] {
        error := TeamNameRequired;
        return None;
      }
      if ToUpper(accessCode) != SecurityCode {
        error := InvalidClearance;
        return None;
      }
      loading := true;
      request := Some(CreateTeamRequest(CreateTeamUrl, teamName));
    }

    /** `handleSubmit` after its `await`; returns the arguments it passes to `onLogin`, if it calls it. */
    method HandleCreateTeamResponse(response: CreateTeamResponse) returns (onLogin: Option<CreatedTeam>)
      modifies this
      ensures Settlement(State(), onLogin) == CreateTeamSettled(old(State()), response)
    {
      if response.Created? {
        onLogin := Some(response.team);
      } else {
        error := ConnectionFailed;
        loading := false;
        onLogin := None;
      }
    }
  }
}
