/**
 * The addresses the dashboard talks to or shows: the fixed service base URL,
 * the two URLs the victory poll requests, and the table of eleven REST
 * endpoints listed in the live terminal monitor.
 */
module Endpoints {

  const ApiBaseUrl := "https://api-quiz-161c.onrender.com"
  const CreateTeamUrl := ApiBaseUrl + "/create_team"
  const Placeholder := "{team_id}"

  /** The URL of the status check for a team. */
  function StatusUrl(teamId: string): string {
    ApiBaseUrl + "/team_status/" + teamId
  }

  /** The URL of the escape-key request for a team. */
  function KeyUrl(teamId: string): string {
    ApiBaseUrl + "/" + teamId + "/key"
  }

  /** `teamData.id || '{team_id}'`: the id when there is one, the placeholder otherwise; never empty. */
  function TeamIdDisplay(teamId: string): (d: string)
    ensures d != ""
    ensures teamId != "" ==> d == teamId
    ensures teamId == "" ==> d == Placeholder
  {
    if teamId != "" then teamId else Placeholder
  }

  /** The prefix shared by every listed endpoint. */
  function PathPrefix(teamId: string): string {
    "/" + TeamIdDisplay(teamId) + "/"
  }

  datatype Endpoint = Endpoint(httpMethod: string, url: string, desc: string)

  /** One row of the table: a method and a path below the team's prefix. */
  function Row(teamId: string, httpMethod: string, path: string, desc: string): (e: Endpoint)
    ensures PathPrefix(teamId) <= e.url && e.url[|PathPrefix(teamId)|..] == path
    ensures e.httpMethod == httpMethod
  {
    Endpoint(httpMethod, PathPrefix(teamId) + path, desc)
  }

  /** The `apiEndpoints` table: eleven rows, every URL under `/` + the displayed id + `/`. */
  function ApiEndpoints(teamId: string): (r: seq<Endpoint>)
    ensures |r| == 11
    ensures forall i :: 0 <= i < |r| ==> PathPrefix(teamId) <= r[i].url
  {
    [ Row(teamId, "GET", "eleven", "Eleven: Look around Hawkins Lab"),
      Row(teamId, "GET", "mike", "Mike: Look around Upside Down"),
      Row(teamId, "POST", "send_item", "Send item across dimensions"),
      Row(teamId, "PUT", "use_item", "Combine or use items"),
      Row(teamId, "PATCH", "fix", "Fix or adjust equipment"),
      Row(teamId, "DELETE", "remove", "Remove obstacle / activate panel"),
      Row(teamId, "HEAD", "status", "Quick dimension sync check"),
      Row(teamId, "OPTIONS", "escape", "Discover escape requirements"),
      Row(teamId, "POST", "escape", "Attempt to escape"),
      Row(teamId, "GET", "key", "Retrieve escape key"),
      Row(teamId, "GET", "hint", "Get context-aware hint") ]
  }

  /** Before a team id is known every listed URL starts with `/{team_id}/`. */
  lemma EndpointsShowPlaceholder()
    ensures forall e :: e in ApiEndpoints("") ==> "/{team_id}/" <= e.url
  {
    assert PathPrefix("") == "/{team_id}/";
  }

  /** For a known team the key the victory poll fetches is the "Retrieve escape key" row, joined to the base URL. */
  lemma KeyRowIsPolledKey(teamId: string)
    requires teamId != ""
    ensures ApiEndpoints(teamId)[9].httpMethod == "GET"
    ensures ApiBaseUrl + ApiEndpoints(teamId)[9].url == KeyUrl(teamId)
  {
  }
}
