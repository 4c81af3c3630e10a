/** The server's records. Fields the source may leave null are optional: a seat nobody has
    claimed, a game record created without a game. */
module ServerModel {
  import opened Wrappers
  import ChessGames

  datatype GameData = GameData(
    gameID: int,
    whiteUsername: Option<string>,
    blackUsername: Option<string>,
    gameName: string,
    game: Option<ChessGames.Game>)

  datatype AuthData = AuthData(authToken: string, username: string)

  datatype UserData = UserData(username: string, password: string, email: string)

  /** `DataAccessException` and its message. */
  datatype DataError = DataAccessError(message: string)
}
