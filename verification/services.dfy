/** The services over the in-memory stores: joining a game, logging out, clearing every
    store and listing the games. Each is a pure transition from the three stores to new
    stores or to the `DataAccessException` it throws; a throw leaves the stores as they
    were. Tokens, colours and game ids arrive from the request and may be null. */
module Services {
  import opened Wrappers
  import opened ServerModel
  import opened MemoryDaos

  datatype DataStores = DataStores(users: UserStore, games: GameStore, auths: AuthStore)

  /** The colour names a request may ask for. */
  predicate IsSeatName(playerColor: Option<string>)
  {
    playerColor == Some("WHITE") || playerColor == Some("BLACK")
  }

  /** The seat asked for is already held. */
  predicate SeatTaken(gameData: GameData, playerColor: string)
  {
    (playerColor == "WHITE" && gameData.whiteUsername.Some?)
    || (playerColor == "BLACK" && gameData.blackUsername.Some?)
  }

  /** The record with the requested seat given to `username`. */
  function Seated(gameData: GameData, playerColor: string, username: string): GameData
  {
    if playerColor == "WHITE" then gameData.(whiteUsername := Some(username))
    else if playerColor == "BLACK" then gameData.(blackUsername := Some(username))
    else gameData
  }

  /** `JoinGameService.joinGame`: check, in this order, a positive game id, a known token,
      a colour of WHITE or BLACK, an existing game (the store's own "Game not found"), and
      a free seat; then write the record back with the seat taken. */
  function JoinGame(s: DataStores, authToken: Option<string>, gameID: int, playerColor: Option<string>)
    : Result<DataStores, DataError>
  {
    if gameID <= 0 then Err(DataAccessError("Error: bad request"))
    else
      var authData := GetAuthToken(s.auths, authToken);
      if authData.None? then Err(DataAccessError("Error: unauthorized"))
      else
        var username := authData.value.username;
        if !IsSeatName(playerColor) then Err(DataAccessError("Error: bad request"))
        else
          match GetGame(s.games, gameID)
          case Err(e) => Err(e)
          case Ok(gameData) =>
            if SeatTaken(gameData, playerColor.value) then Err(DataAccessError("Error: already taken"))
            else
              match UpdateGame(s.games, Seated(gameData, playerColor.value, username))
              case Err(e) => Err(e)
              case Ok(games) => Ok(s.(games := games))
  }

  /** The join checks run in order: a bad id before anything else, then the token, then
      the colour, then the game's existence, then the seat. */
  lemma JoinGameErrors(s: DataStores, authToken: Option<string>, gameID: int, playerColor: Option<string>)
    ensures gameID <= 0 ==> JoinGame(s, authToken, gameID, playerColor) == Err(DataAccessError("Error: bad request"))
    ensures gameID > 0 && GetAuthToken(s.auths, authToken).None? ==>
              JoinGame(s, authToken, gameID, playerColor) == Err(DataAccessError("Error: unauthorized"))
    ensures gameID > 0 && GetAuthToken(s.auths, authToken).Some? && !IsSeatName(playerColor) ==>
              JoinGame(s, authToken, gameID, playerColor) == Err(DataAccessError("Error: bad request"))
    ensures gameID > 0 && GetAuthToken(s.auths, authToken).Some? && IsSeatName(playerColor)
            && gameID !in s.games ==>
              JoinGame(s, authToken, gameID, playerColor) == Err(DataAccessError("Game not found"))
    ensures gameID > 0 && GetAuthToken(s.auths, authToken).Some? && IsSeatName(playerColor)
            && gameID in s.games && SeatTaken(s.games[gameID], playerColor.value) ==>
              JoinGame(s, authToken, gameID, playerColor) == Err(DataAccessError("Error: already taken"))
  {
  }

  /** A join that passes every check succeeds, and it changes exactly one thing: the
      requested seat of that game now holds the token owner's name. The id, the name, the
      game, the other seat, every other game and the other stores are as before. */
  lemma JoinGameSuccess(s: DataStores, authToken: Option<string>, gameID: int, playerColor: Option<string>)
    requires GamesKeyed(s.games)
    requires gameID > 0 && GetAuthToken(s.auths, authToken).Some? && IsSeatName(playerColor)
    requires gameID in s.games && !SeatTaken(s.games[gameID], playerColor.value)
    ensures JoinGame(s, authToken, gameID, playerColor).Ok?
    ensures var after := JoinGame(s, authToken, gameID, playerColor).value;
            var before := s.games[gameID];
            var username := Some(GetAuthToken(s.auths, authToken).value.username);
            && after.users == s.users && after.auths == s.auths
            && after.games.Keys == s.games.Keys && GamesKeyed(after.games)
            && (forall id | id in s.games && id != gameID :: after.games[id] == s.games[id])
            && after.games[gameID].gameID == before.gameID
            && after.games[gameID].gameName == before.gameName
            && after.games[gameID].game == before.game
            && (playerColor == Some("WHITE") ==>
                  after.games[gameID].whiteUsername == username
                  && after.games[gameID].blackUsername == before.blackUsername)
            && (playerColor == Some("BLACK") ==>
                  after.games[gameID].blackUsername == username
                  && after.games[gameID].whiteUsername == before.whiteUsername)
  {
  }

  /** `LogoutService.logout`: a missing token is refused, a token the store cannot
      delete is reported as unauthorized, and otherwise the token is removed and the call
      answers true. */
  function Logout(s: DataStores, authToken: Option<string>): Result<(bool, DataStores), DataError>
  {
    if authToken.None? then Err(DataAccessError("Auth token is missing."))
    else
      match DeleteAuthToken(s.auths, authToken.value)
      case Err(_) => Err(DataAccessError("Error: unauthorized"))
      case Ok(auths) => Ok((true, s.(auths := auths)))
  }

  /** Logout fails exactly for a missing or unknown token. On success the token no longer
      authenticates, every other token still does, and the other stores are untouched. */
  lemma LogoutEffect(s: DataStores, authToken: Option<string>, other: string)
    ensures authToken.None? ==> Logout(s, authToken) == Err(DataAccessError("Auth token is missing."))
    ensures authToken.Some? && authToken.value !in s.auths ==>
              Logout(s, authToken) == Err(DataAccessError("Error: unauthorized"))
    ensures Logout(s, authToken).Ok? <==> authToken.Some? && authToken.value in s.auths
    ensures Logout(s, authToken).Ok? ==>
              var after := Logout(s, authToken).value;
              && after.0
              && GetAuthToken(after.1.auths, authToken) == None
              && (Some(other) != authToken ==>
                    GetAuthToken(after.1.auths, Some(other)) == GetAuthToken(s.auths, Some(other)))
              && after.1.users == s.users && after.1.games == s.games
  {
  }

  /** `ClearService.clear`: empty the users, then the games, then the tokens. */
  function Clear(s: DataStores): (r: DataStores)
    ensures |r.users| == 0 && |r.games| == 0 && |r.auths| == 0
  {
    DataStores(ClearUser(s.users), ClearGame(s.games), ClearAuth(s.auths))
  }

  /** After a clear no user, game or token is found, and clearing again changes nothing. */
  lemma ClearEffect(s: DataStores, username: string, gameId: int, authToken: Option<string>)
    ensures GetUser(Clear(s).users, username) == None
    ensures GetGame(Clear(s).games, gameId) == Err(DataAccessError("Game not found"))
    ensures GetAuthToken(Clear(s).auths, authToken) == None
    ensures Clear(Clear(s)) == Clear(s)
  {
  }

  /** `GameListService.getGameList`: an unknown token is unauthorized; otherwise every
      stored game, each once, whether or not its seats are filled. */
  method GameList(s: DataStores, authToken: Option<string>) returns (r: Result<seq<GameData>, DataError>)
    ensures r.Err? <==> GetAuthToken(s.auths, authToken).None?
    ensures r.Err? ==> r.error == DataAccessError("Error: unauthorized")
    ensures r.Ok? ==> |r.value| == |s.games|
    ensures r.Ok? ==> forall id | id in s.games :: s.games[id] in r.value
    ensures r.Ok? ==> forall i | 0 <= i < |r.value| :: r.value[i] in s.games.Values
  {
    var authData := GetAuthToken(s.auths, authToken);
    if authData.None? {
      return Err(DataAccessError("Error: unauthorized"));
    }
    var games := GetAllGames(s.games);
    return Ok(games);
  }
}
