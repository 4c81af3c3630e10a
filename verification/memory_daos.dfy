/** The in-memory data access objects: one hash map per store, keyed by game id, auth
    token and username. Each operation is a pure transition that returns the new map or
    the `DataAccessException` the source throws; a thrown call changes nothing. */
module MemoryDaos {
  import opened Wrappers
  import opened ServerModel

  type GameStore = map<int, GameData>
  type AuthStore = map<string, AuthData>
  type UserStore = map<string, UserData>

  /** Every record is filed under its own id, as `createGame` files it. */
  predicate GamesKeyed(games: GameStore)
  {
    forall id | id in games :: games[id].gameID == id
  }

  /** `MemoryGameDAO.getAllGames`: a new list of the map's values, in the map's iteration
      order. The list has one entry per id and holds every stored record and nothing
      else; in a store that files each record under its own id, each record appears
      exactly once. */
  method GetAllGames(games: GameStore) returns (r: seq<GameData>)
    ensures |r| == |games|
    ensures forall i | 0 <= i < |r| :: r[i] in games.Values
    ensures forall id | id in games :: games[id] in r
    ensures GamesKeyed(games) ==>
              forall i, j | 0 <= i < j < |r| :: r[i].gameID != r[j].gameID
  {
    r := [];
    var remaining := games.Items;
    ghost var listed: set<(int, GameData)> := {};
    ghost var ids: seq<int> := [];
    while remaining != {}
      invariant Drained(remaining, listed, games.Items)
      invariant Listing(games, r, ids, listed)
      decreases |remaining|
    {
      var entry :| entry in remaining;
      DrainStep(remaining, listed, games.Items, entry);
      ListingStep(games, r, ids, listed, entry);
      r := r + [entry.1];
      ids := ids + [entry.0];
      remaining := remaining - {entry};
      listed := listed + {entry};
    }
    assert listed == games.Items;
    ListedAllGames(games, r, ids);
  }

  /** An iteration over `all` has taken the entries `taken`; `remaining` are still due. */
  ghost predicate Drained<T>(remaining: set<T>, taken: set<T>, all: set<T>)
  {
    remaining !! taken && remaining + taken == all
  }

  /** Taking one more entry keeps the split and shrinks what is still due. */
  lemma DrainStep<T>(remaining: set<T>, taken: set<T>, all: set<T>, x: T)
    requires Drained(remaining, taken, all) && x in remaining
    ensures Drained(remaining - {x}, taken + {x}, all)
    ensures taken <= all && x in all && x !in taken
    ensures |remaining - {x}| < |remaining|
  {
  }

  /** `r` lists the records of the entries `listed`, once each, under the distinct ids
      `ids`. */
  ghost predicate Listing(games: GameStore, r: seq<GameData>, ids: seq<int>, listed: set<(int, GameData)>)
  {
    && |r| == |ids| == |listed|
    && (forall i | 0 <= i < |r| :: ids[i] in games && r[i] == games[ids[i]])
    && (forall i | 0 <= i < |r| :: (ids[i], r[i]) in listed)
    && (forall i, j | 0 <= i < j < |ids| :: ids[i] != ids[j])
    && (forall e | e in listed :: e.1 in r)
  }

  /** Listing one more stored entry keeps the listing. */
  lemma ListingStep(games: GameStore, r: seq<GameData>, ids: seq<int>, listed: set<(int, GameData)>,
                    entry: (int, GameData))
    requires listed <= games.Items && entry in games.Items && entry !in listed
    requires Listing(games, r, ids, listed)
    ensures Listing(games, r + [entry.1], ids + [entry.0], listed + {entry})
  {
    forall i | 0 <= i < |r| ensures ids[i] != entry.0 {
      assert (ids[i], r[i]) in games.Items;
    }
    var r' := r + [entry.1];
    var ids' := ids + [entry.0];
    assert forall i | 0 <= i < |r| :: r'[i] == r[i] && ids'[i] == ids[i];
  }

  /** A list built from distinct ids, one per stored game and one record per id, lists
      every stored game once. */
  lemma ListedAllGames(games: GameStore, r: seq<GameData>, ids: seq<int>)
    requires Listing(games, r, ids, games.Items)
    ensures |r| == |games|
    ensures forall i | 0 <= i < |r| :: r[i] in games.Values
    ensures forall id | id in games :: games[id] in r
    ensures GamesKeyed(games) ==>
              forall i, j | 0 <= i < j < |r| :: r[i].gameID != r[j].gameID
  {
    forall id | id in games ensures games[id] in r {
      assert (id, games[id]) in games.Items;
    }
  }

  /** `MemoryGameDAO.getGame`: the stored record, or "Game not found". */
  function GetGame(games: GameStore, gameId: int): (r: Result<GameData, DataError>)
    ensures r.Err? <==> gameId !in games
    ensures r.Err? ==> r.error == DataAccessError("Game not found")
    ensures r.Ok? ==> r.value == games[gameId]
  {
    if gameId in games then Ok(games[gameId]) else Err(DataAccessError("Game not found"))
  }

  /** `MemoryGameDAO.createGame`: refuse an id already present with "Game already exists";
      otherwise file the record under its id. */
  function CreateGame(games: GameStore, gameData: GameData): (r: Result<GameStore, DataError>)
    ensures r.Err? <==> gameData.gameID in games
    ensures r.Err? ==> r.error == DataAccessError("Game already exists")
    ensures r.Ok? ==> r.value.Keys == games.Keys + {gameData.gameID}
    ensures GamesKeyed(games) && r.Ok? ==> GamesKeyed(r.value)
  {
    if gameData.gameID in games then Err(DataAccessError("Game already exists"))
    else Ok(games[gameData.gameID := gameData])
  }

  /** `MemoryGameDAO.updateGame`: refuse an absent id with "Game not found"; otherwise
      replace the record under its id. */
  function UpdateGame(games: GameStore, gameData: GameData): (r: Result<GameStore, DataError>)
    ensures r.Err? <==> gameData.gameID !in games
    ensures r.Err? ==> r.error == DataAccessError("Game not found")
    ensures r.Ok? ==> r.value.Keys == games.Keys
    ensures GamesKeyed(games) && r.Ok? ==> GamesKeyed(r.value)
  {
    if gameData.gameID !in games then Err(DataAccessError("Game not found"))
    else Ok(games[gameData.gameID := gameData])
  }

  /** `MemoryGameDAO.clearGame`. */
  function ClearGame(games: GameStore): (r: GameStore)
    ensures |r| == 0
  {
    map[]
  }

  /** A created game reads back as created, and every other id reads back as before. */
  lemma CreateThenGet(games: GameStore, gameData: GameData, other: int)
    requires gameData.gameID !in games
    ensures CreateGame(games, gameData).Ok?
    ensures GetGame(CreateGame(games, gameData).value, gameData.gameID) == Ok(gameData)
    ensures other != gameData.gameID ==>
              GetGame(CreateGame(games, gameData).value, other) == GetGame(games, other)
  {
  }

  /** An update replaces only the record of its own id. */
  lemma UpdateThenGet(games: GameStore, gameData: GameData, other: int)
    requires gameData.gameID in games
    ensures UpdateGame(games, gameData).Ok?
    ensures GetGame(UpdateGame(games, gameData).value, gameData.gameID) == Ok(gameData)
    ensures other != gameData.gameID ==>
              GetGame(UpdateGame(games, gameData).value, other) == GetGame(games, other)
  {
  }

  /** After `clearGame` every lookup fails. */
  lemma ClearThenGet(games: GameStore, gameId: int)
    ensures GetGame(ClearGame(games), gameId) == Err(DataAccessError("Game not found"))
  {
  }

  /** `MemoryAuthDAO.getAuthToken`: the stored record, or null for an unknown token. A
      null token is never a key, so it finds nothing. */
  function GetAuthToken(auths: AuthStore, authToken: Option<string>): (r: Option<AuthData>)
    ensures r.Some? <==> authToken.Some? && authToken.value in auths
    ensures r.Some? ==> r.value == auths[authToken.value]
  {
    if authToken.Some? && authToken.value in auths then Some(auths[authToken.value]) else None
  }

  /** `MemoryAuthDAO.createAuthToken`: refuse a token already present; otherwise store the
      record under its token. */
  function CreateAuthToken(auths: AuthStore, authData: AuthData): (r: Result<AuthStore, DataError>)
    ensures r.Err? <==> authData.authToken in auths
    ensures r.Err? ==> r.error == DataAccessError("Error: Token already exists.")
    ensures r.Ok? ==> r.value.Keys == auths.Keys + {authData.authToken}
    ensures r.Ok? ==> forall t | t in auths :: r.value[t] == auths[t]
  {
    if authData.authToken in auths then Err(DataAccessError("Error: Token already exists."))
    else Ok(auths[authData.authToken := authData])
  }

  /** `MemoryAuthDAO.deleteAuthToken`: refuse an unknown token; otherwise remove it. */
  function DeleteAuthToken(auths: AuthStore, authToken: string): (r: Result<AuthStore, DataError>)
    ensures r.Err? <==> authToken !in auths
    ensures r.Err? ==> r.error == DataAccessError("Error: Token not found.")
    ensures r.Ok? ==> r.value.Keys == auths.Keys - {authToken}
  {
    if authToken !in auths then Err(DataAccessError("Error: Token not found."))
    else Ok(auths - {authToken})
  }

  /** `MemoryAuthDAO.clearAuth`. */
  function ClearAuth(auths: AuthStore): (r: AuthStore)
    ensures |r| == 0
  {
    map[]
  }

  /** A created token reads back as created; a deleted one reads back as null; no other
      token is affected by either. */
  lemma AuthRoundTrips(auths: AuthStore, authData: AuthData, token: string, other: string)
    ensures authData.authToken !in auths ==>
              && CreateAuthToken(auths, authData).Ok?
              && GetAuthToken(CreateAuthToken(auths, authData).value, Some(authData.authToken)) == Some(authData)
    ensures authData.authToken !in auths && other != authData.authToken ==>
              GetAuthToken(CreateAuthToken(auths, authData).value, Some(other)) == GetAuthToken(auths, Some(other))
    ensures token in auths ==>
              && DeleteAuthToken(auths, token).Ok?
              && GetAuthToken(DeleteAuthToken(auths, token).value, Some(token)) == None
              && (other != token ==>
                    GetAuthToken(DeleteAuthToken(auths, token).value, Some(other)) == GetAuthToken(auths, Some(other)))
  {
  }

  /** `MemoryUserDAO.getUser`: the stored user, or null. */
  function GetUser(users: UserStore, username: string): (r: Option<UserData>)
    ensures r.Some? <==> username in users
    ensures r.Some? ==> r.value == users[username]
  {
    if username in users then Some(users[username]) else None
  }

  /** `MemoryUserDAO.createUser`: refuse a username already present with "User already
      exists"; otherwise store the user under its name. */
  function CreateUser(users: UserStore, userData: UserData): (r: Result<UserStore, DataError>)
    ensures r.Err? <==> userData.username in users
    ensures r.Err? ==> r.error == DataAccessError("User already exists")
    ensures r.Ok? ==> r.value.Keys == users.Keys + {userData.username}
  {
    if userData.username in users then Err(DataAccessError("User already exists"))
    else Ok(users[userData.username := userData])
  }

  /** `MemoryUserDAO.clearUser`. */
  function ClearUser(users: UserStore): (r: UserStore)
    ensures |r| == 0
  {
    map[]
  }

  /** A created user reads back as created and leaves the other users as they were. */
  lemma CreateUserThenGet(users: UserStore, userData: UserData, other: string)
    requires userData.username !in users
    ensures CreateUser(users, userData).Ok?
    ensures GetUser(CreateUser(users, userData).value, userData.username) == Some(userData)
    ensures other != userData.username ==>
              GetUser(CreateUser(users, userData).value, other) == GetUser(users, other)
  {
  }
}
