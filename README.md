# Fantasy-team API: error model and route guards

This project models the part of the fantasy-team HTTP service that has
behaviour to speak of. It has three pieces.

- **Error taxonomy** (`Errors`). The application exception family is a datatype: the base `AppError` plus `ValidationError`, `NotFoundError`, `ConflictError`, `AuthenticationError` and `AuthorizationError`. Each subclass fixes its `code` and HTTP status. The constructor parameter defaults are the Python keyword defaults.
- **Error translator** (`Handlers`). `AppExceptionHandler` and `GeneralExceptionHandler` map an exception to a response: an HTTP status and a five-key JSON body (`status_code`, `code`, `error`, `message`, `description`). A body is a `map<string, JsonValue>`, so "exactly five keys" is a stated property rather than a consequence of a record type. An exception that is not an application error is `Other(typeName, detail)`. It always gets the fixed 500 body.
- **Routes and mock data** (`Schema`, `FantasyTeamViews`). There are five route functions. Each returns `Result<body, AppError>`, where `Err` stands for the raised `ValidationError`. `RandomTeam` is the mock generator.

The generator's random picks are explicit `TeamDraw` values. A `random.choice` becomes an index into its list. A `random.randint` becomes the drawn integer. The rounded `random.uniform(8, 11)` becomes an integer number of tenths in [80, 110]. The `requires` clauses `ValidTeamDraw` / `ValidDraws` state the ranges these calls guarantee. A list route gets one draw per team it generates.

The query bound `1 <= limit <= 10` is enforced by the web framework before a route runs. In the model it is a precondition.

Two things in the source differ from its own declarations; the model follows the code in both:

- the declared error schema has a field `status`, but the handlers emit `status_code`;
- the routes declare a 400 error response, but `ValidationError` is answered with 422.

`register_exception_handlers` is never called by the application factory (`web/application.py`). The translator is therefore modelled standalone, as the function the handlers compute.

## Model

| member | source | states |
|---|---|---|
| Errors.AppError.Code | playground_fantasymanager/playground_fantasymanager/exceptions/base.py:16-107 | the `code` attribute: the base class's given code, and for a subclass the code of a taxonomy row |
| Errors.AppError.StatusCode | playground_fantasymanager/playground_fantasymanager/exceptions/base.py:17-107 | the `status_code` attribute: the base class's given status, and for a subclass a 4xx status of a taxonomy row |
| Errors.AppError.ClassName | playground_fantasymanager/playground_fantasymanager/exceptions/handlers.py:47 | the class name is "AppError" exactly for the base class; a subclass's (name, code, status) is its taxonomy row |
| Errors.BaseStoresFields | playground_fantasymanager/playground_fantasymanager/exceptions/base.py:9-19 | the base class keeps code, status, message and description exactly as given; description defaults to "" |
| Errors.ValidationErrorFixed | playground_fantasymanager/playground_fantasymanager/exceptions/base.py:26-38 | code VALIDATION_ERROR and status 422 for every message, description and field; description defaults to "" and field to none |
| Errors.NotFoundErrorFixed | playground_fantasymanager/playground_fantasymanager/exceptions/base.py:44-58 | code NOT_FOUND and status 404; resource type and id do not change either; description defaults to "" |
| Errors.ConflictErrorFixed | playground_fantasymanager/playground_fantasymanager/exceptions/base.py:64-74 | code CONFLICT and status 409; description defaults to "" |
| Errors.AuthenticationErrorFixed | playground_fantasymanager/playground_fantasymanager/exceptions/base.py:80-92 | code AUTHENTICATION_REQUIRED and status 401; with no arguments, message "Authentication required" and the fixed credentials description |
| Errors.AuthorizationErrorFixed | playground_fantasymanager/playground_fantasymanager/exceptions/base.py:98-110 | code INSUFFICIENT_PERMISSIONS and status 403; with no arguments, message "Insufficient permissions" and the fixed permissions description |
| Errors.SubclassMatchesTaxonomy | playground_fantasymanager/playground_fantasymanager/exceptions/base.py:23-110 | every subclass instance's (class name, code, status) is a row of the independently written taxonomy table |
| Errors.SubclassCodesDistinct | playground_fantasymanager/playground_fantasymanager/exceptions/base.py:34-107 | two subclass instances share a code exactly when they share a class, and share a status exactly when they share a class |
| Handlers.Envelope | playground_fantasymanager/playground_fantasymanager/exceptions/handlers.py:44-50 | the error body has exactly the keys status_code, code, error, message, description, holding the given values |
| Handlers.AppExceptionHandler | playground_fantasymanager/playground_fantasymanager/exceptions/handlers.py:15-51 | for an application error: response status = error status = body status_code; body code, error (class name) and message copied; description is the error's description when non-empty, else its message; any other exception gets exactly the general handler's response; always five keys |
| Handlers.GeneralExceptionHandler | playground_fantasymanager/playground_fantasymanager/exceptions/handlers.py:54-84 | status 500, code INTERNAL_SERVER_ERROR, error InternalServerError and the two fixed texts, in a five-key body |
| Handlers.GeneralResponseIsConstant | playground_fantasymanager/playground_fantasymanager/exceptions/handlers.py:75-84 | the general response is the same for every exception, so neither its type nor its text reaches the caller |
| Handlers.ResponseDependsOnPublicFields | playground_fantasymanager/playground_fantasymanager/exceptions/handlers.py:42-50 | two application errors with equal code, status, class, message and description get equal responses; diagnostic fields never matter |
| Handlers.SubclassResponseFollowsTaxonomy | playground_fantasymanager/playground_fantasymanager/exceptions/handlers.py:42-47 | a subclass instance is answered with the class name, code and status of one taxonomy row |
| Handlers.StatusAgreesWithBody | playground_fantasymanager/playground_fantasymanager/exceptions/handlers.py:42-45 | for every exception the body's status_code equals the response status; no subclass is answered with 500 |
| Handlers.DescriptionFallbackExample | playground_fantasymanager/playground_fantasymanager/exceptions/handlers.py:49 | `ValidationError("x")` is answered with 422, code VALIDATION_ERROR and description "x" |
| FantasyTeamViews.DecimalString | playground_fantasymanager/web/api/fantasy_teams/views.py:35 | the rendering of the player number is a non-empty digit string, one character long exactly below 10 |
| FantasyTeamViews.DigitChar | playground_fantasymanager/web/api/fantasy_teams/views.py:35 | a digit below 10 renders as a character '0'..'9' whose digit value is that digit |
| FantasyTeamViews.DecimalRoundTrip | playground_fantasymanager/web/api/fantasy_teams/views.py:35 | reading the decimal rendering of n back as digits gives n |
| FantasyTeamViews.DecimalStringInjective | playground_fantasymanager/web/api/fantasy_teams/views.py:35 | distinct numbers render differently |
| FantasyTeamViews.PlayerId | playground_fantasymanager/web/api/fantasy_teams/views.py:35 | the id f"p{i}" is "p" followed by decimal digits that read back as i |
| FantasyTeamViews.PlayerIdInjective | playground_fantasymanager/web/api/fantasy_teams/views.py:35 | distinct player numbers give distinct ids "p<i>" |
| FantasyTeamViews.MakePlayer | playground_fantasymanager/web/api/fantasy_teams/views.py:34-44 | the i-th player is well formed for position i (id, captaincy, picks in their sets and ranges) and carries its drawn credits and points |
| FantasyTeamViews.RandomTeam | playground_fantasymanager/web/api/fantasy_teams/views.py:18-47 | two teams t1 (Chennai Super Kings) and t2 (Mumbai Indians) with 4 to 7 players each, then players p1..p11: p1 alone captain, p2 alone vice-captain, name, position and team id from their sets, points in [50, 150], credits in [8.0, 11.0] |
| FantasyTeamViews.PlayerIdsAreP1ToP11 | playground_fantasymanager/web/api/fantasy_teams/views.py:35-45 | the players of a generated team have ids p1, p2, ..., p11 in that order |
| FantasyTeamViews.PlayerIdsDistinct | playground_fantasymanager/web/api/fantasy_teams/views.py:33-45 | the eleven player ids of a generated team are pairwise distinct |
| FantasyTeamViews.CaptainIsP1ViceCaptainIsP2 | playground_fantasymanager/web/api/fantasy_teams/views.py:38-39 | a player is captain exactly when its id is p1 and vice-captain exactly when it is p2, so none is both |
| FantasyTeamViews.PlayerTeamsAreListed | playground_fantasymanager/web/api/fantasy_teams/views.py:43 | every player's team id is the id of one of the two listed teams |
| FantasyTeamViews.GetDefaultFantasyTeams | playground_fantasymanager/web/api/fantasy_teams/views.py:50-64 | fails exactly when matchId is empty, with ValidationError("matchId is required", "Missing matchId"); otherwise exactly `limit` (2 when omitted) well-formed teams, the k-th from the k-th draw |
| FantasyTeamViews.GetUserFantasyTeams | playground_fantasymanager/web/api/fantasy_teams/views.py:67-84 | fails exactly when userId or matchId is empty, with the userId/matchId ValidationError; otherwise exactly `limit` (2 when omitted) well-formed teams, the k-th from the k-th draw |
| FantasyTeamViews.GetSingleFantasyTeam | playground_fantasymanager/web/api/fantasy_teams/views.py:87-103 | fails exactly when one of the three ids is empty, with "Missing required path parameters"; otherwise the team generated from the draw, well formed, with non-empty teams and players |
| FantasyTeamViews.UpdateFantasyTeamPlayers | playground_fantasymanager/web/api/fantasy_teams/views.py:106-124 | fails exactly when one of the three ids is empty; otherwise the one-key body {"message": "Players updated successfully"} |
| FantasyTeamViews.DefaultLimitIsTwo | playground_fantasymanager/web/api/fantasy_teams/views.py:58-64 | without a `limit` argument both list routes return two teams |
| FantasyTeamViews.UpdateIgnoresBody | playground_fantasymanager/web/api/fantasy_teams/views.py:115-124 | the update's answer does not depend on the submitted players |
| FantasyTeamViews.DeleteFantasyTeam | playground_fantasymanager/web/api/fantasy_teams/views.py:127-142 | fails exactly when one of the three ids is empty; otherwise the one-key body {"message": "Fantasy team deleted successfully"} |
| FantasyTeamViews.EmptyMatchIdAnswer | playground_fantasymanager/web/api/fantasy_teams/views.py:61-62 | an empty matchId, through the translator, is answered with 422, VALIDATION_ERROR, ValidationError, "matchId is required", "Missing matchId" |
| FantasyTeamViews.MissingPathParametersAnswer | playground_fantasymanager/web/api/fantasy_teams/views.py:98-142 | with any of the three ids empty, the single-team read, the update (whatever its body) and the delete fail with the missing-parameter error, which is answered with 422 and the description "userId, matchId, fantasyTeamId required" |

## Left out

- Logging: the warning and error log calls in both handlers are diagnostics with no effect on the response.
- Framework plumbing: `JSONResponse`, the request object, `register_exception_handlers` and the FastAPI route decorators. The application factory, the API router, the launcher and the package re-export are assembly only.
- Query parameter binding: the framework enforces `1 <= limit <= 10` and `offset >= 0`; the first is a precondition here. The default `limit` of 2 is the parameter's default value in the model. The `fields`, `offset` and `detail` parameters are never read, so they are not parameters of the model.
- Randomness: the distribution of the `random` calls is not modelled. Only their ranges and choice sets are, as the draws' preconditions.
- Floating point: `credits` is `round(random.uniform(8, 11), 1)`, a float. It is held as an integer number of tenths in [80, 110]. `points_earned`, a float in the schema, holds the drawn integer.
- NotFoundError: `resource_id` is any Python value in the source; here it is an optional string. It never reaches a response.
- Exceptions outside the application family are modelled by their type name and text only. Nothing about them beyond that is observable in a response.
- RandomTeam: the model does not relate a team's `number_of_players` to how many players carry its id; the source draws the two independently.
