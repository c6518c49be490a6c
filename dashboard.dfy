/**
 * The session and victory state of `StrangerThingsDashboard`: login, reset,
 * the dimension toggle, starting the game, the handbook and copy indicators,
 * and the victory poll. `Session` holds the component's state slots and
 * `Step` says what each handler does to them; the class below updates its
 * fields as the handlers do and is specified by `Step`.
 */
module Dashboard {
  import opened Wrappers
  import opened Endpoints

  datatype TeamData = TeamData(id: string, name: string)
  datatype VictoryData = VictoryData(won: bool, key: string)

  /** The component's state slots. */
  datatype Session = Session(
    isAuthenticated: bool,
    teamData: TeamData,
    isUpsideDown: bool,
    copied: string,
    gameStarted: bool,
    showHandbook: bool,
    victoryData: VictoryData)

  const NoTeam := TeamData("", "")
  const NotWon := VictoryData(false, "")
  const Initial := Session(false, NoTeam, false, "", false, false, NotWon)

  /**
   * How the escape-key request resolves. Its status is not looked at, so any
   * reply whose body parses yields whatever `escape_key` it holds; a request
   * that throws (no connection, or a body that is not JSON) yields nothing.
   */
  datatype KeyResponse = KeyFetchFailed | KeyReceived(escapeKey: string)

  /**
   * How one status check resolves: the request throws, answers with a status
   * that is not OK, answers `escaped: false`, or answers `escaped: true`, in
   * which case the key request follows.
   */
  datatype StatusResponse = StatusFetchFailed | StatusNotOk | NotEscaped | Escaped(key: KeyResponse)

  /** Everything that changes the dashboard's state. */
  datatype Event =
    | Login(id: string, name: string)    // handleLogin, called as onLogin by the form
    | Reset                               // handleReset ("NEXT MISSION")
    | ToggleDimension
    | StartGame                           // "START YOUR ESCAPE"
    | OpenHandbook
    | CloseHandbook
    | Copy(copyId: string)                // copyToClipboard, the indicator part
    | CopyExpired                         // the timeout that clears the indicator
    | StatusChecked(response: StatusResponse)   // one checkStatus, once it has resolved

  /** The victory data a resolved status check sets, if it sets any. */
  function Victory(response: StatusResponse): Option<VictoryData> {
    match response
    case Escaped(KeyReceived(k)) => Some(VictoryData(true, k))
    case _ => None
  }

  /**
   * What each handler does. A resolved status check applies whatever the
   * state: the source compares nothing with the state it started from.
   */
  function Step(s: Session, e: Event): (r: Session)
    ensures r.isAuthenticated != s.isAuthenticated || r.teamData != s.teamData ==> e.Login? || e.Reset?
    ensures r.victoryData != s.victoryData ==> e.Reset? || e.StatusChecked?
    ensures r.gameStarted != s.gameStarted ==> e.Reset? || e.StartGame?
    ensures r.isUpsideDown != s.isUpsideDown ==> e.Reset? || e.ToggleDimension?
    ensures r.showHandbook != s.showHandbook ==> e.OpenHandbook? || e.CloseHandbook?
    ensures r.copied != s.copied ==> e.Copy? || e.CopyExpired?
  {
    match e
    case Login(id, name) => s.(teamData := TeamData(id, name), isAuthenticated := true)
    case Reset =>
      s.(isAuthenticated := false, teamData := NoTeam, victoryData := NotWon,
         gameStarted := false, isUpsideDown := false)
    case ToggleDimension => s.(isUpsideDown := !s.isUpsideDown)
    case StartGame => s.(gameStarted := true)
    case OpenHandbook => s.(showHandbook := true)
    case CloseHandbook => s.(showHandbook := false)
    case Copy(id) => s.(copied := id)
    case CopyExpired => s.(copied := "")
    case StatusChecked(response) =>
      match Victory(response)
      case Some(v) => s.(victoryData := v)
      case None => s
  }

  /** The state after a sequence of events. */
  function Run(s: Session, events: seq<Event>): Session
    decreases |events|
  {
    if events == [] then s else Run(Step(s, events[0]), events[1..])
  }

  /** The gate of the polling effect: the interval runs exactly while this holds. */
  predicate PollActive(s: Session) {
    s.isAuthenticated && s.teamData.id != "" && !s.victoryData.won
  }

  /** The status request a tick of the interval sends in state `s`, if the interval exists. */
  function PollRequest(s: Session): (r: Option<string>)
    ensures r != None <==> PollActive(s)
    ensures r != None ==> r == Some(StatusUrl(s.teamData.id))
  {
    if PollActive(s) then Some(StatusUrl(s.teamData.id)) else None
  }

  /**
   * What holds in every state the dashboard can reach: an unauthenticated
   * session holds no team, and a session that has not won holds no key.
   */
  predicate Consistent(s: Session) {
    && (!s.isAuthenticated ==> s.teamData == NoTeam)
    && (!s.victoryData.won ==> s.victoryData.key == "")
  }

  lemma InitialConsistent()
    ensures Consistent(Initial) && !PollActive(Initial)
  {
  }

  lemma StepConsistent(s: Session, e: Event)
    requires Consistent(s)
    ensures Consistent(Step(s, e))
  {
  }

  lemma {:induction false} RunConsistent(s: Session, events: seq<Event>)
    requires Consistent(s)
    ensures Consistent(Run(s, events))
    decreases |events|
  {
    if events != [] {
      StepConsistent(s, events[0]);
      RunConsistent(Step(s, events[0]), events[1..]);
    }
  }

  /** handleLogin sets exactly the team and the authenticated flag. */
  lemma LoginSetsTeam(s: Session, id: string, name: string)
    ensures var t := Step(s, Login(id, name));
      && t.isAuthenticated && t.teamData == TeamData(id, name)
      && t.(isAuthenticated := s.isAuthenticated, teamData := s.teamData) == s
  {
  }

  /** Logging in with a non-empty id, in a session that has not won, starts the poll on that id. */
  lemma LoginStartsPolling(s: Session, id: string, name: string)
    requires id != "" && !s.victoryData.won
    ensures PollRequest(Step(s, Login(id, name))) == Some(StatusUrl(id))
  {
  }

  /**
   * Reset returns the five session slots to their initial values, leaves the
   * handbook and copy indicators alone, stops the poll, and is idempotent.
   */
  lemma ResetRestoresInitial(s: Session)
    ensures var t := Step(s, Reset);
      && t == Initial.(showHandbook := s.showHandbook, copied := s.copied)
      && !PollActive(t)
      && Step(t, Reset) == t
  {
  }

  /** Toggling the dimension twice changes nothing. */
  lemma ToggleTwice(s: Session)
    ensures Step(s, ToggleDimension).isUpsideDown != s.isUpsideDown
    ensures Step(Step(s, ToggleDimension), ToggleDimension) == s
  {
  }

  /** A status check that fails, or finds the team not escaped, or cannot fetch the key, leaves the state unchanged. */
  lemma FailedCheckChangesNothing(s: Session, response: StatusResponse)
    requires !(response.Escaped? && response.key.KeyReceived?)
    ensures Step(s, StatusChecked(response)) == s
  {
  }

  /** An escape with a key sets `won` and that key, changes nothing else, and stops the poll. */
  lemma EscapeWins(s: Session, k: string)
    ensures var t := Step(s, StatusChecked(Escaped(KeyReceived(k))));
      && t == s.(victoryData := VictoryData(true, k))
      && !PollActive(t)
  {
  }

  /** The only event that turns `won` on is a status check that saw the escape and got a key. */
  lemma OnlyEscapeWins(s: Session, e: Event)
    requires !s.victoryData.won && Step(s, e).victoryData.won
    ensures e.StatusChecked? && e.response.Escaped? && e.response.key.KeyReceived?
    ensures Step(s, e).victoryData.key == e.response.key.escapeKey
  {
  }

  /**
   * Once won, a session stays won and sends no status request until it is
   * reset, whatever else happens (a new login included).
   */
  lemma {:induction false} WonUntilReset(s: Session, events: seq<Event>)
    requires s.victoryData.won
    requires forall i :: 0 <= i < |events| ==> events[i] != Reset
    ensures Run(s, events).victoryData.won
    ensures PollRequest(Run(s, events)) == None
    decreases |events|
  {
    if events != [] {
      WonUntilReset(Step(s, events[0]), events[1..]);
    }
  }

  /**
   * After a reset no status request is sent until the next login, whatever
   * else happens, late status checks included.
   */
  lemma {:induction false} NoPollingAfterReset(s: Session, events: seq<Event>)
    requires !s.isAuthenticated
    requires forall i :: 0 <= i < |events| ==> !events[i].Login?
    ensures !Run(s, events).isAuthenticated
    ensures PollRequest(Run(s, events)) == None
    decreases |events|
  {
    if events != [] {
      NoPollingAfterReset(Step(s, events[0]), events[1..]);
    }
  }

  /**
   * A status check that was in flight at a reset and resolves after it still
   * sets the victory: the reset session reads as won, with the late key.
   */
  lemma LateCheckAfterReset(s: Session, k: string)
    ensures var t := Step(Step(s, Reset), StatusChecked(Escaped(KeyReceived(k))));
      && !t.isAuthenticated && t.victoryData == VictoryData(true, k)
  {
  }

  /** A status check in flight at the win that resolves afterwards replaces the key. */
  lemma LateCheckAfterWin(s: Session, k1: string, k2: string)
    ensures var won := Step(s, StatusChecked(Escaped(KeyReceived(k1))));
      Step(won, StatusChecked(Escaped(KeyReceived(k2)))).victoryData == VictoryData(true, k2)
  {
  }

  /**
   * The path from a fresh dashboard: log in as T1, a check finds the team not
   * escaped, the next one finds it escaped with key K1; the poll runs until
   * then and stops there.
   */
  lemma EscapeScenario()
    ensures var s1 := Step(Initial, Login("T1", "Ops"));
      var s2 := Step(s1, StatusChecked(NotEscaped));
      var s3 := Step(s2, StatusChecked(Escaped(KeyReceived("K1"))));
      && s1.isAuthenticated && s1.teamData.id == "T1"
      && PollRequest(s1) == Some(StatusUrl("T1"))
      && !s2.victoryData.won && PollRequest(s2) == Some(StatusUrl("T1"))
      && s3.victoryData == VictoryData(true, "K1") && PollRequest(s3) == None
  {
  }

  /** The dashboard component; its fields are the component's `useState` slots. */
  class StrangerThingsDashboard {
    var isAuthenticated: bool
    var teamData: TeamData
    var isUpsideDown: bool
    var copied: string
    var gameStarted: bool
    var showHandbook: bool
    var victoryData: VictoryData

    function State(): Session
      reads this
    {
      Session(isAuthenticated, teamData, isUpsideDown, copied, gameStarted, showHandbook, victoryData)
    }

    predicate Valid()
      reads this
    {
      Consistent(State())
    }

    /**
     * `teamIdDisplay`, the id shown in the endpoint table: the placeholder
     * while the login form is up, and the polled id while the poll runs.
     */
    function TeamIdShown(): (d: string)
      reads this
      requires Valid()
      ensures !isAuthenticated ==> d == Placeholder
      ensures PollActive(State()) ==> d == teamData.id
      ensures d == teamData.id || d == Placeholder
    {
      TeamIdDisplay(teamData.id)
    }

    constructor ()
      ensures Valid() && State() == Initial
    {
      isAuthenticated := false;
      teamData := TeamData("", "");
      isUpsideDown := false;
      copied := "";
      gameStarted := false;
      showHandbook := false;
      victoryData := VictoryData(false, "");
    }

    method HandleLogin(id: string, name: string)
      requires Valid()
      modifies this
      ensures Valid() && State() == Step(old(State()), Login(id, name))
      ensures isAuthenticated && teamData == TeamData(id, name)
    {
      teamData := TeamData(id, name);
      isAuthenticated := true;
    }

    method HandleReset()
      requires Valid()
      modifies this
      ensures Valid() && State() == Step(old(State()), Reset)
      ensures !PollActive(State())
    {
      isAuthenticated := false;
      teamData := TeamData("", "");
      victoryData := VictoryData(false, "");
      gameStarted := false;
      isUpsideDown := false;
    }

    method ToggleDimension()
      requires Valid()
      modifies this
      ensures Valid() && State() == Step(old(State()), Event.ToggleDimension)
    {
      isUpsideDown := !isUpsideDown;
    }

    method StartGame()
      requires Valid()
      modifies this
      ensures Valid() && State() == Step(old(State()), Event.StartGame)
    {
      gameStarted := true;
    }

    method OpenHandbook()
      requires Valid()
      modifies this
      ensures Valid() && State() == Step(old(State()), Event.OpenHandbook)
    {
      showHandbook := true;
    }

    method CloseHandbook()
      requires Valid()
      modifies this
      ensures Valid() && State() == Step(old(State()), Event.CloseHandbook)
    {
      showHandbook := false;
    }

    /** The state part of `copyToClipboard`: the indicator of the copied item. */
    method CopyToClipboard(id: string)
      requires Valid()
      modifies this
      ensures Valid() && State() == Step(old(State()), Copy(id))
    {
      copied := id;
    }

    /** The callback of the timeout `copyToClipboard` schedules. */
    method CopyExpired()
      requires Valid()
      modifies this
      ensures Valid() && State() == Step(old(State()), Event.CopyExpired)
    {
      copied := "";
    }

    /**
     * One firing of the polling interval: while the gate holds it requests
     * the team's status, and otherwise there is no interval to fire.
     */
    method Tick() returns (request: Option<string>)
      ensures request != None <==> isAuthenticated && teamData.id != "" && !victoryData.won
      ensures request != None ==> request == Some(StatusUrl(teamData.id))
    {
      if !isAuthenticated || teamData.id == "" || victoryData.won {
        return None;
      }
      request := Some(StatusUrl(teamData.id));
    }

    /** The end of one `checkStatus`, once its requests have resolved. */
    method CheckStatusSettled(response: StatusResponse)
      requires Valid()
      modifies this
      ensures Valid() && State() == Step(old(State()), StatusChecked(response))
    {
      if response.Escaped? {
        match response.key
        case KeyReceived(k) =>
          victoryData := VictoryData(true, k);
        case KeyFetchFailed =>
      }
    }
  }
}
