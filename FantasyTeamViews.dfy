/**
  The fantasy-team routes: each rejects an empty path identifier with a
  `ValidationError` and otherwise answers with mock data or a fixed confirmation.
  The mock generator's random picks are passed in as draws whose ranges are those
  of the `random` calls they stand for.
 */
module FantasyTeamViews {
  import opened Wrappers
  import opened Errors
  import opened Handlers
  import opened Schema

  // ---------------------------------------------------------------------------
  // Rendering of the player number in the id f"p{i}"

  function DigitChar(d: nat): (c: char)
    requires d < 10
    ensures '0' <= c <= '9' && DigitValue(c) == d
  {
    ('0' as int + d) as char
  }

  /** The value of a decimal digit character (0 for any other character). */
  function DigitValue(c: char): nat {
    if '0' <= c <= '9' then c as int - '0' as int else 0
  }

  /** The number a string of decimal digits denotes, most significant digit first. */
  function DecimalValue(s: string): nat {
    if |s| == 0 then 0 else DecimalValue(s[..|s| - 1]) * 10 + DigitValue(s[|s| - 1])
  }

  /** The decimal rendering of a natural number, as Python's `str` gives it. */
  function DecimalString(n: nat): (s: string)
    ensures |s| >= 1 && (|s| == 1 <==> n < 10)
    ensures forall k :: 0 <= k < |s| ==> '0' <= s[k] <= '9'
  {
    if n < 10 then [DigitChar(n)] else DecimalString(n / 10) + [DigitChar(n % 10)]
  }

  /** Reading the rendering back gives the number. */
  lemma {:induction false} DecimalRoundTrip(n: nat)
    ensures DecimalValue(DecimalString(n)) == n
  {
    var s := DecimalString(n);
    if n < 10 {
      assert s[..|s| - 1] == [];
    } else {
      assert s[..|s| - 1] == DecimalString(n / 10);
      DecimalRoundTrip(n / 10);
    }
  }

  /** Distinct numbers have distinct renderings. */
  lemma {:induction false} DecimalStringInjective(a: nat, b: nat)
    requires DecimalString(a) == DecimalString(b)
    ensures a == b
  {
    var s := DecimalString(a);
    if a < 10 {
      assert |DecimalString(b)| == 1;
      assert b < 10;
    } else {
      assert |DecimalString(b)| != 1;
      assert DecimalString(a / 10) == s[..|s| - 1] == DecimalString(b / 10);
      assert DigitChar(a % 10) == s[|s| - 1] == DigitChar(b % 10);
      DecimalStringInjective(a / 10, b / 10);
    }
  }

  /** The id f"p{i}" of the i-th player: "p" followed by digits that read back as i. */
  function PlayerId(i: nat): (id: string)
    ensures |id| >= 2 && id[0] == 'p'
    ensures forall k :: 1 <= k < |id| ==> '0' <= id[k] <= '9'
    ensures DecimalValue(id[1..]) == i
  {
    DecimalRoundTrip(i);
    var id := "p" + DecimalString(i);
    assert id[1..] == DecimalString(i);
    id
  }

  lemma {:induction false} PlayerIdInjective(i: nat, j: nat)
    requires PlayerId(i) == PlayerId(j)
    ensures i == j
  {
  }

  // ---------------------------------------------------------------------------
  // The mock generator

  const PlayerNames: seq<string> := ["MS Dhoni", "Rohit Sharma", "Jasprit Bumrah"]
  const Positions: seq<string> := ["wk", "bat", "bowl", "allrounder"]
  const TeamIds: seq<string> := ["t1", "t2"]
  const PlayerCount := 11

  const PlayerImageUrl := "https://example.com/player.png"

  /** The random picks for one player: an index for each `random.choice`, the value of
      each `random.randint`, and the rounded `random.uniform(8, 11)` in tenths. */
  datatype PlayerDraw = PlayerDraw(nameChoice: nat, credits: int, points: int, positionChoice: nat, teamChoice: nat)

  /** The random picks for one generated fantasy team, in the order the source draws them. */
  datatype TeamDraw = TeamDraw(t1Players: int, t2Players: int, players: seq<PlayerDraw>)

  predicate ValidPlayerDraw(d: PlayerDraw) {
    && d.nameChoice < |PlayerNames|
    && 80 <= d.credits <= 110
    && 50 <= d.points <= 150
    && d.positionChoice < |Positions|
    && d.teamChoice < |TeamIds|
  }

  predicate ValidTeamDraw(d: TeamDraw) {
    && 4 <= d.t1Players <= 7
    && 4 <= d.t2Players <= 7
    && |d.players| == PlayerCount
    && forall k :: 0 <= k < |d.players| ==> ValidPlayerDraw(d.players[k])
  }

  /** The shape every generated team has: the two fixed teams, then players p1..p11
      with p1 captain, p2 vice-captain and every pick within its range or set. */
  predicate WellFormedPlayer(p: PlayerInfo, i: nat) {
    && p.playerId == PlayerId(i)
    && p.playerName in PlayerNames
    && p.playerImageUrl == Some(PlayerImageUrl)
    && p.isCaptain == (i == 1)
    && p.isViceCaptain == (i == 2)
    && p.credits.Some? && 80 <= p.credits.value <= 110
    && p.pointsEarned.Some? && 50 <= p.pointsEarned.value <= 150
    && p.position in Positions
    && p.teamId in TeamIds
  }

  predicate WellFormedTeam(t: FantasyTeam) {
    && |t.teams| == 2
    && t.teams[0].teamId == "t1" && t.teams[0].name == "Chennai Super Kings"
    && t.teams[0].teamImageUrl == Some("https://example.com/csk.png")
    && t.teams[1].teamId == "t2" && t.teams[1].name == "Mumbai Indians"
    && t.teams[1].teamImageUrl == Some("https://example.com/mi.png")
    && (forall j :: 0 <= j < 2 ==> 4 <= t.teams[j].numberOfPlayers <= 7)
    && |t.players| == PlayerCount
    && forall k :: 0 <= k < |t.players| ==> WellFormedPlayer(t.players[k], k + 1)
  }

  /** One element of the players comprehension: the i-th player, built from its draw. */
  function MakePlayer(i: nat, d: PlayerDraw): (p: PlayerInfo)
    requires ValidPlayerDraw(d)
    ensures WellFormedPlayer(p, i)
    ensures p.credits == Some(d.credits) && p.pointsEarned == Some(d.points)
  {
    PlayerInfo(
      playerId := PlayerId(i),
      playerName := PlayerNames[d.nameChoice],
      playerImageUrl := Some(PlayerImageUrl),
      isCaptain := i == 1,
      isViceCaptain := i == 2,
      credits := Some(d.credits),
      pointsEarned := Some(d.points),
      position := Positions[d.positionChoice],
      teamId := TeamIds[d.teamChoice])
  }

  /** `random_team`: the match id is accepted and not used. */
  function RandomTeam(matchId: string, draw: TeamDraw): (t: FantasyTeam)
    requires ValidTeamDraw(draw)
    ensures WellFormedTeam(t)
    ensures t.teams[0].numberOfPlayers == draw.t1Players && t.teams[1].numberOfPlayers == draw.t2Players
  {
    var teams := [
      TeamInfo("t1", "Chennai Super Kings", draw.t1Players, Some("https://example.com/csk.png")),
      TeamInfo("t2", "Mumbai Indians", draw.t2Players, Some("https://example.com/mi.png"))
    ];
    var players := seq(PlayerCount, k requires 0 <= k < PlayerCount => MakePlayer(k + 1, draw.players[k]));
    FantasyTeam(teams, players)
  }

  /** The players of a generated team are p1, p2, ..., p11, in that order. */
  lemma {:induction false} PlayerIdsAreP1ToP11(t: FantasyTeam)
    requires WellFormedTeam(t)
    ensures forall k :: 0 <= k < |t.players| ==>
      t.players[k].playerId == ["p1", "p2", "p3", "p4", "p5", "p6", "p7", "p8", "p9", "p10", "p11"][k]
  {
  }

  /** Player ids are pairwise distinct. */
  lemma {:induction false} PlayerIdsDistinct(t: FantasyTeam)
    requires WellFormedTeam(t)
    ensures forall j, k :: 0 <= j < k < |t.players| ==> t.players[j].playerId != t.players[k].playerId
  {
  }

  /** Exactly p1 is captain and exactly p2 is vice-captain, so no player is both. */
  lemma {:induction false} CaptainIsP1ViceCaptainIsP2(t: FantasyTeam)
    requires WellFormedTeam(t)
    ensures forall k :: 0 <= k < |t.players| ==> (t.players[k].isCaptain <==> t.players[k].playerId == "p1")
    ensures forall k :: 0 <= k < |t.players| ==> (t.players[k].isViceCaptain <==> t.players[k].playerId == "p2")
    ensures forall k :: 0 <= k < |t.players| ==> !(t.players[k].isCaptain && t.players[k].isViceCaptain)
  {
  }

  /** Every player belongs to one of the team's two listed teams. */
  lemma {:induction false} PlayerTeamsAreListed(t: FantasyTeam)
    requires WellFormedTeam(t)
    ensures forall k :: 0 <= k < |t.players| ==> exists j :: 0 <= j < |t.teams| && t.teams[j].teamId == t.players[k].teamId
  {
  }

  // ---------------------------------------------------------------------------
  // The routes

  predicate ValidDraws(draws: seq<TeamDraw>) {
    forall k :: 0 <= k < |draws| ==> ValidTeamDraw(draws[k])
  }

  /** The error the three routes under .../fTeams/{fantasyTeamId} raise on an empty identifier. */
  const MissingPathParameters := ValidationError("Missing required path parameters",
                                                 description := "userId, matchId, fantasyTeamId required")

  const PlayersUpdated: Confirmation := map["message" := "Players updated successfully"]
  const TeamDeleted: Confirmation := map["message" := "Fantasy team deleted successfully"]

  /** GET /fTeams/matches/{matchId}: `limit` generated teams, one draw each. */
  function GetDefaultFantasyTeams(matchId: string, draws: seq<TeamDraw>, limit: int := 2)
    : (r: Result<FantasyTeamResponse, AppError>)
    requires 1 <= limit <= 10
    requires |draws| == limit && ValidDraws(draws)
    ensures r.Err? <==> matchId == ""
    ensures r.Err? ==> r.error == ValidationError("matchId is required", "Missing matchId")
    ensures r.Ok? ==> |r.value.fantasyTeams| == limit
    ensures r.Ok? ==> forall k :: 0 <= k < limit ==>
      r.value.fantasyTeams[k] == RandomTeam(matchId, draws[k]) && WellFormedTeam(r.value.fantasyTeams[k])
  {
    if matchId == "" then
      Err(ValidationError("matchId is required", description := "Missing matchId"))
    else
      Ok(FantasyTeamResponse(seq(limit, k requires 0 <= k < limit => RandomTeam(matchId, draws[k]))))
  }

  /** GET /fTeams/user/{userId}/matches/{matchId}: `limit` generated teams. */
  function GetUserFantasyTeams(userId: string, matchId: string, draws: seq<TeamDraw>, limit: int := 2)
    : (r: Result<FantasyTeamResponse, AppError>)
    requires 1 <= limit <= 10
    requires |draws| == limit && ValidDraws(draws)
    ensures r.Err? <==> userId == "" || matchId == ""
    ensures r.Err? ==> r.error == ValidationError("userId and matchId are required", "Missing userId or matchId")
    ensures r.Ok? ==> |r.value.fantasyTeams| == limit
    ensures r.Ok? ==> forall k :: 0 <= k < limit ==>
      r.value.fantasyTeams[k] == RandomTeam(matchId, draws[k]) && WellFormedTeam(r.value.fantasyTeams[k])
  {
    if userId == "" || matchId == "" then
      Err(ValidationError("userId and matchId are required", description := "Missing userId or matchId"))
    else
      Ok(FantasyTeamResponse(seq(limit, k requires 0 <= k < limit => RandomTeam(matchId, draws[k]))))
  }

  /** GET /fTeams/user/{userId}/matches/{matchId}/fTeams/{fantasyTeamId}: one generated team. */
  function GetSingleFantasyTeam(userId: string, matchId: string, fantasyTeamId: string, draw: TeamDraw)
    : (r: Result<FantasyTeam, AppError>)
    requires ValidTeamDraw(draw)
    ensures r.Err? <==> userId == "" || matchId == "" || fantasyTeamId == ""
    ensures r.Err? ==> r.error == MissingPathParameters
    ensures r.Ok? ==> r.value == RandomTeam(matchId, draw)
    ensures r.Ok? ==> WellFormedTeam(r.value) && |r.value.teams| > 0 && |r.value.players| > 0
  {
    if userId == "" || matchId == "" || fantasyTeamId == "" then
      Err(MissingPathParameters)
    else
      Ok(RandomTeam(matchId, draw))
  }

  /** PUT .../fTeams/{fantasyTeamId}/players: a fixed confirmation; the body is not read. */
  function UpdateFantasyTeamPlayers(userId: string, matchId: string, fantasyTeamId: string,
                                    players: seq<FantasyTeamUpdateRequest>)
    : (r: Result<Confirmation, AppError>)
    ensures r.Err? <==> userId == "" || matchId == "" || fantasyTeamId == ""
    ensures r.Err? ==> r.error == MissingPathParameters
    ensures r.Ok? ==> r.value.Keys == {"message"} && r.value["message"] == "Players updated successfully"
  {
    if userId == "" || matchId == "" || fantasyTeamId == "" then
      Err(MissingPathParameters)
    else
      Ok(PlayersUpdated)
  }

  /** DELETE .../fTeams/{fantasyTeamId}: a fixed confirmation. */
  function DeleteFantasyTeam(userId: string, matchId: string, fantasyTeamId: string)
    : (r: Result<Confirmation, AppError>)
    ensures r.Err? <==> userId == "" || matchId == "" || fantasyTeamId == ""
    ensures r.Err? ==> r.error == MissingPathParameters
    ensures r.Ok? ==> r.value.Keys == {"message"} && r.value["message"] == "Fantasy team deleted successfully"
  {
    if userId == "" || matchId == "" || fantasyTeamId == "" then
      Err(MissingPathParameters)
    else
      Ok(TeamDeleted)
  }

  /** Without a `limit` query parameter the list routes generate two teams. */
  lemma {:induction false} DefaultLimitIsTwo(userId: string, matchId: string, draws: seq<TeamDraw>)
    requires |draws| == 2 && ValidDraws(draws)
    requires userId != "" && matchId != ""
    ensures |GetDefaultFantasyTeams(matchId, draws).value.fantasyTeams| == 2
    ensures |GetUserFantasyTeams(userId, matchId, draws).value.fantasyTeams| == 2
  {
  }

  /** The update's answer does not depend on the request body. */
  lemma {:induction false} UpdateIgnoresBody(userId: string, matchId: string, fantasyTeamId: string,
                                             a: seq<FantasyTeamUpdateRequest>, b: seq<FantasyTeamUpdateRequest>)
    ensures UpdateFantasyTeamPlayers(userId, matchId, fantasyTeamId, a)
         == UpdateFantasyTeamPlayers(userId, matchId, fantasyTeamId, b)
  {
  }

  // ---------------------------------------------------------------------------
  // Routes and translator together

  /** An empty match id is answered with 422, code VALIDATION_ERROR and the missing-parameter description. */
  lemma {:induction false} EmptyMatchIdAnswer(limit: int, draws: seq<TeamDraw>)
    requires 1 <= limit <= 10
    requires |draws| == limit && ValidDraws(draws)
    ensures var r := GetDefaultFantasyTeams("", draws, limit);
      r.Err? && var resp := AppExceptionHandler(App(r.error));
      resp.statusCode == 422 && resp.content["code"] == JString("VALIDATION_ERROR")
      && resp.content["error"] == JString("ValidationError")
      && resp.content["message"] == JString("matchId is required")
      && resp.content["description"] == JString("Missing matchId")
  {
  }

  /** A missing identifier on the single-team routes is answered with 422 and the full
      set of required identifiers as description. */
  lemma {:induction false} MissingPathParametersAnswer(userId: string, matchId: string, fantasyTeamId: string,
                                                       players: seq<FantasyTeamUpdateRequest>, draw: TeamDraw)
    requires ValidTeamDraw(draw)
    requires userId == "" || matchId == "" || fantasyTeamId == ""
    ensures var resp := AppExceptionHandler(App(MissingPathParameters));
      resp.statusCode == 422 && resp.content["code"] == JString("VALIDATION_ERROR")
      && resp.content["message"] == JString("Missing required path parameters")
      && resp.content["description"] == JString("userId, matchId, fantasyTeamId required")
    ensures GetSingleFantasyTeam(userId, matchId, fantasyTeamId, draw) == Err(MissingPathParameters)
    ensures UpdateFantasyTeamPlayers(userId, matchId, fantasyTeamId, players) == Err(MissingPathParameters)
    ensures DeleteFantasyTeam(userId, matchId, fantasyTeamId) == Err(MissingPathParameters)
  {
  }
}
