/** The response and request shapes of the fantasy-team routes (pydantic models, no behaviour). */
module Schema {
  import opened Wrappers

  datatype TeamInfo = TeamInfo(teamId: string, name: string, numberOfPlayers: int, teamImageUrl: Option<string>)

  /** `credits` is a float in the source; here it is held in tenths of a credit. */
  datatype PlayerInfo = PlayerInfo(
    playerId: string,
    playerName: string,
    playerImageUrl: Option<string>,
    isCaptain: bool,
    isViceCaptain: bool,
    credits: Option<int>,
    pointsEarned: Option<int>,
    position: string,
    teamId: string)

  /** One element of the body of the players update; the route accepts and ignores it. */
  datatype FantasyTeamUpdateRequest = FantasyTeamUpdateRequest(
    playerId: string,
    playerName: string,
    playerImageUrl: Option<string>,
    isCaptain: bool,
    isViceCaptain: bool,
    position: string,
    teamId: string)

  datatype FantasyTeam = FantasyTeam(teams: seq<TeamInfo>, players: seq<PlayerInfo>)

  datatype FantasyTeamResponse = FantasyTeamResponse(fantasyTeams: seq<FantasyTeam>)

  /** The `{"message": ...}` confirmation body of the update and delete routes. */
  type Confirmation = map<string, string>
}
