/**
 * The server's in-memory store: registered users keyed by username,
 * issued auth tokens keyed by token, and games keyed by a game ID that a
 * counter hands out starting at 1. Two classes hold the same maps:
 * `DataAccess` (the store the services are written against) and
 * `InMemoryDataAccess`, which adds token validation, lookup of a game by
 * ID and replacement of a stored game.
 *
 * Every failing Java call throws a `DataAccessException`; here a call
 * returns an `Outcome`, and `Thrown(message)` carries the exception's message.
 */
module Store {
  import opened Wrappers
  import Game

  /** A registered user; each Java field may be `null`. */
  datatype UserData = UserData(username: Option<string>, password: Option<string>, email: Option<string>)

  /** An issued auth token and the user it was issued to. */
  datatype AuthData = AuthData(authToken: Option<string>, username: Option<string>)

  /** A stored game: its ID, the two players, its name and the game state. */
  datatype GameData = GameData(gameID: int, whiteUsername: Option<string>, blackUsername: Option<string>,
                               gameName: Option<string>, game: Game.ChessGame?)

  /** The result of a call that may throw a `DataAccessException`. */
  datatype Outcome<T> = Ok(value: T) | Thrown(message: string)

  const INVALID_USER := "Invalid user"
  const USER_NOT_FOUND := "User not found"
  const INVALID_AUTH := "Invalid auth"
  const AUTH_NOT_FOUND := "Auth not found"
  const INVALID_GAME_NAME := "Invalid game name"

  /** A user is stored under its own username. */
  ghost predicate UsersKeyed(users: map<string, UserData>)
  {
    forall k :: k in users ==> users[k].username == Some(k)
  }

  /** An auth record is stored under its own token. */
  ghost predicate AuthsKeyed(auths: map<string, AuthData>)
  {
    forall k :: k in auths ==> auths[k].authToken == Some(k)
  }

  /** A game is stored under its own ID. */
  ghost predicate GamesKeyed(games: map<int, GameData>)
  {
    forall id :: id in games ==> games[id].gameID == id
  }

  /** Every stored game ID has already been handed out by the counter. */
  ghost predicate IdsIssued(games: map<int, GameData>, nextGameID: int)
  {
    nextGameID >= 1 && forall id :: id in games ==> 1 <= id < nextGameID
  }

  /** The game `createGame` stores: no players and no game state yet. */
  function NewGame(id: int, name: string): (g: GameData)
    ensures g.gameID == id && g.gameName == Some(name)
    ensures g.whiteUsername.None? && g.blackUsername.None? && g.game == null
  {
    GameData(id, None, None, Some(name), null)
  }

  /** A set of IDs with no member is empty, so a non-empty one has a member to pick. */
  lemma EmptyWhenNoMember(ids: set<int>)
    ensures (forall id :: id !in ids) ==> ids == {}
  {
    if forall id :: id !in ids {
      assert ids == {};
    }
  }

  /**
   * The values of `games` in some order: one entry per stored game, every
   * stored game present. Both stores' `listGames` copy `games.values()`.
   */
  method ValuesOf(games: map<int, GameData>) returns (gs: seq<GameData>)
    ensures |gs| == |games|
    ensures forall g :: g in gs <==> g in games.Values
  {
    gs := [];
    var rest := games.Keys;
    while rest != {}
      invariant rest <= games.Keys
      invariant |gs| + |rest| == |games.Keys|
      invariant forall g :: g in gs ==> g in games.Values
      invariant forall id :: id in games && id !in rest ==> games[id] in gs
      decreases |rest|
    {
      EmptyWhenNoMember(rest);
      var id :| id in rest;
      gs := gs + [games[id]];
      rest := rest - {id};
    }
    assert |games| == |games.Keys|;
    assert forall id :: id in games ==> games[id] in gs;
  }

  class DataAccess {
    var users: map<string, UserData>
    var games: map<int, GameData>
    var auths: map<string, AuthData>
    var nextGameID: int

    /** Each map holds records under their own key, and game IDs were issued by the counter. */
    ghost predicate Valid()
      reads this
    {
      UsersKeyed(users) && AuthsKeyed(auths) && GamesKeyed(games) && IdsIssued(games, nextGameID)
    }

    constructor()
      ensures users == map[] && games == map[] && auths == map[] && nextGameID == 1
      ensures Valid()
    {
      users := map[];
      games := map[];
      auths := map[];
      nextGameID := 1;
    }

    /** Empties all three maps and restarts game IDs at 1. */
    method ClearDatabase()
      modifies this
      ensures users == map[] && games == map[] && auths == map[] && nextGameID == 1
      ensures Valid()
    {
      users := map[];
      games := map[];
      auths := map[];
      nextGameID := 1;
    }

    /** Stores `u` under its username, replacing any user of that name; rejects a missing user or username. */
    method CreateUser(u: Option<UserData>) returns (r: Outcome<()>)
      requires Valid()
      modifies this
      ensures r.Thrown? <==> u.None? || u.value.username.None?
      ensures r.Thrown? ==> r.message == INVALID_USER && unchanged(this)
      ensures r.Ok? ==> users == old(users)[u.value.username.value := u.value]
      ensures r.Ok? ==> GetUser(u.value.username) == Ok(u.value)
      ensures games == old(games) && auths == old(auths) && nextGameID == old(nextGameID)
      ensures Valid()
    {
      if u.None? || u.value.username.None? {
        return Thrown(INVALID_USER);
      }
      users := users[u.value.username.value := u.value];
      r := Ok(());
    }

    /** The user stored under `username`, or "User not found". */
    function GetUser(username: Option<string>): (r: Outcome<UserData>)
      reads this
      ensures r.Ok? <==> username.Some? && username.value in users
      ensures r.Ok? ==> r.value == users[username.value]
      ensures r.Thrown? ==> r.message == USER_NOT_FOUND
    {
      if username.Some? && username.value in users then Ok(users[username.value]) else Thrown(USER_NOT_FOUND)
    }

    /** Stores `a` under its token, replacing any record for that token; rejects a missing record or token. */
    method CreateAuth(a: Option<AuthData>) returns (r: Outcome<()>)
      requires Valid()
      modifies this
      ensures r.Thrown? <==> a.None? || a.value.authToken.None?
      ensures r.Thrown? ==> r.message == INVALID_AUTH && unchanged(this)
      ensures r.Ok? ==> auths == old(auths)[a.value.authToken.value := a.value]
      ensures r.Ok? ==> GetAuth(a.value.authToken) == Ok(a.value)
      ensures users == old(users) && games == old(games) && nextGameID == old(nextGameID)
      ensures Valid()
    {
      if a.None? || a.value.authToken.None? {
        return Thrown(INVALID_AUTH);
      }
      auths := auths[a.value.authToken.value := a.value];
      r := Ok(());
    }

    /** The record for `token`, or "Auth not found". */
    function GetAuth(token: Option<string>): (r: Outcome<AuthData>)
      reads this
      ensures r.Ok? <==> token.Some? && token.value in auths
      ensures r.Ok? ==> r.value == auths[token.value]
      ensures r.Thrown? ==> r.message == AUTH_NOT_FOUND
    {
      if token.Some? && token.value in auths then Ok(auths[token.value]) else Thrown(AUTH_NOT_FOUND)
    }

    /** Removes the record for `token`; a missing or unknown token is "Auth not found". */
    method DeleteAuth(token: Option<string>) returns (r: Outcome<()>)
      requires Valid()
      modifies this
      ensures r.Thrown? <==> token.None? || token.value !in old(auths)
      ensures r.Thrown? ==> r.message == AUTH_NOT_FOUND && unchanged(this)
      ensures r.Ok? ==> auths == old(auths) - {token.value} && GetAuth(token).Thrown?
      ensures users == old(users) && games == old(games) && nextGameID == old(nextGameID)
      ensures Valid()
    {
      if token.None? || token.value !in auths {
        return Thrown(AUTH_NOT_FOUND);
      }
      auths := auths - {token.value};
      r := Ok(());
    }

    /**
     * Stores a fresh game named `gameName` under the next ID and returns
     * that ID; the ID was not in use, and the counter moves past it.
     */
    method CreateGame(gameName: Option<string>) returns (r: Outcome<int>)
      requires Valid()
      modifies this
      ensures r.Thrown? <==> gameName.None?
      ensures r.Thrown? ==> r.message == INVALID_GAME_NAME && unchanged(this)
      ensures r.Ok? ==> r.value == old(nextGameID) && r.value !in old(games)
      ensures r.Ok? ==> games == old(games)[r.value := NewGame(r.value, gameName.value)]
      ensures r.Ok? ==> nextGameID == old(nextGameID) + 1
      ensures users == old(users) && auths == old(auths)
      ensures Valid()
    {
      if gameName.None? {
        return Thrown(INVALID_GAME_NAME);
      }
      var id := nextGameID;
      nextGameID := nextGameID + 1;
      games := games[id := NewGame(id, gameName.value)];
      r := Ok(id);
    }

    /** Every stored game, once each. */
    method ListGames() returns (gs: seq<GameData>)
      ensures |gs| == |games|
      ensures forall g :: g in gs <==> g in games.Values
    {
      gs := ValuesOf(games);
    }
  }

  class InMemoryDataAccess {
    var users: map<string, UserData>
    var games: map<int, GameData>
    var auths: map<string, AuthData>
    var nextGameID: int

    /**
     * Records sit under their own keys. Unlike `DataAccess`, this store
     * does not keep `IdsIssued`: `UpdateGame` may store a game under an ID
     * the counter has not reached yet.
     */
    ghost predicate Valid()
      reads this
    {
      UsersKeyed(users) && AuthsKeyed(auths) && GamesKeyed(games) && nextGameID >= 1
    }

    constructor()
      ensures users == map[] && games == map[] && auths == map[] && nextGameID == 1
      ensures Valid() && IdsIssued(games, nextGameID)
    {
      users := map[];
      games := map[];
      auths := map[];
      nextGameID := 1;
    }

    /** Empties all three maps and restarts game IDs at 1. */
    method ClearDatabase()
      modifies this
      ensures users == map[] && games == map[] && auths == map[] && nextGameID == 1
      ensures Valid() && IdsIssued(games, nextGameID)
    {
      users := map[];
      games := map[];
      auths := map[];
      nextGameID := 1;
    }

    /** Stores `u` under its username, replacing any user of that name; rejects a missing user or username. */
    method CreateUser(u: Option<UserData>) returns (r: Outcome<()>)
      requires Valid()
      modifies this
      ensures r.Thrown? <==> u.None? || u.value.username.None?
      ensures r.Thrown? ==> r.message == INVALID_USER && unchanged(this)
      ensures r.Ok? ==> users == old(users)[u.value.username.value := u.value]
      ensures r.Ok? ==> GetUser(u.value.username) == Ok(u.value)
      ensures games == old(games) && auths == old(auths) && nextGameID == old(nextGameID)
      ensures Valid()
    {
      if u.None? || u.value.username.None? {
        return Thrown(INVALID_USER);
      }
      users := users[u.value.username.value := u.value];
      r := Ok(());
    }

    /** The user stored under `username`, or "User not found". */
    function GetUser(username: Option<string>): (r: Outcome<UserData>)
      reads this
      ensures r.Ok? <==> username.Some? && username.value in users
      ensures r.Ok? ==> r.value == users[username.value]
      ensures r.Thrown? ==> r.message == USER_NOT_FOUND
    {
      if username.Some? && username.value in users then Ok(users[username.value]) else Thrown(USER_NOT_FOUND)
    }

    /** Stores `a` under its token, replacing any record for that token; rejects a missing record or token. */
    method CreateAuth(a: Option<AuthData>) returns (r: Outcome<()>)
      requires Valid()
      modifies this
      ensures r.Thrown? <==> a.None? || a.value.authToken.None?
      ensures r.Thrown? ==> r.message == INVALID_AUTH && unchanged(this)
      ensures r.Ok? ==> auths == old(auths)[a.value.authToken.value := a.value]
      ensures r.Ok? ==> IsValidAuthToken(a.value.authToken)
      ensures users == old(users) && games == old(games) && nextGameID == old(nextGameID)
      ensures Valid()
    {
      if a.None? || a.value.authToken.None? {
        return Thrown(INVALID_AUTH);
      }
      auths := auths[a.value.authToken.value := a.value];
      r := Ok(());
    }

    /** The record for `token`, or "Auth not found". */
    function GetAuth(token: Option<string>): (r: Outcome<AuthData>)
      reads this
      ensures r.Ok? <==> token.Some? && token.value in auths
      ensures r.Ok? ==> r.value == auths[token.value]
      ensures r.Thrown? ==> r.message == AUTH_NOT_FOUND
    {
      if token.Some? && token.value in auths then Ok(auths[token.value]) else Thrown(AUTH_NOT_FOUND)
    }

    /** Removes the record for `token`; a missing or unknown token is "Auth not found". */
    method DeleteAuth(token: Option<string>) returns (r: Outcome<()>)
      requires Valid()
      modifies this
      ensures r.Thrown? <==> !old(IsValidAuthToken(token))
      ensures r.Thrown? ==> r.message == AUTH_NOT_FOUND && unchanged(this)
      ensures r.Ok? ==> auths == old(auths) - {token.value} && !IsValidAuthToken(token)
      ensures users == old(users) && games == old(games) && nextGameID == old(nextGameID)
      ensures Valid()
    {
      if token.None? || token.value !in auths {
        return Thrown(AUTH_NOT_FOUND);
      }
      auths := auths - {token.value};
      r := Ok(());
    }

    /** A token is valid exactly when `GetAuth` finds a record for it. */
    function IsValidAuthToken(token: Option<string>): (valid: bool)
      reads this
      ensures valid <==> token.Some? && token.value in auths
      ensures valid <==> GetAuth(token).Ok?
    {
      token.Some? && token.value in auths
    }

    /**
     * Stores a fresh game named `gameName` under the next ID and returns
     * that ID. The ID is unused only while `IdsIssued` holds; otherwise a
     * game stored by `UpdateGame` under that ID is replaced.
     */
    method CreateGame(gameName: Option<string>) returns (r: Outcome<int>)
      requires Valid()
      modifies this
      ensures r.Thrown? <==> gameName.None?
      ensures r.Thrown? ==> r.message == INVALID_GAME_NAME && unchanged(this)
      ensures r.Ok? ==> r.value == old(nextGameID) && nextGameID == old(nextGameID) + 1
      ensures r.Ok? ==> games == old(games)[r.value := NewGame(r.value, gameName.value)]
      ensures r.Ok? ==> GetGameByID(r.value) == Some(NewGame(r.value, gameName.value))
      ensures r.Ok? && IdsIssued(old(games), old(nextGameID)) ==> r.value !in old(games)
      ensures IdsIssued(old(games), old(nextGameID)) ==> IdsIssued(games, nextGameID)
      ensures users == old(users) && auths == old(auths)
      ensures Valid()
    {
      if gameName.None? {
        return Thrown(INVALID_GAME_NAME);
      }
      var id := nextGameID;
      nextGameID := nextGameID + 1;
      games := games[id := NewGame(id, gameName.value)];
      r := Ok(id);
    }

    /** Every stored game, once each. */
    method ListGames() returns (gs: seq<GameData>)
      ensures |gs| == |games|
      ensures forall g :: g in gs <==> g in games.Values
    {
      gs := ValuesOf(games);
    }

    /** The game stored under `id`, or `None` (Java's `null`). */
    function GetGameByID(id: int): (g: Option<GameData>)
      reads this
      ensures g.Some? <==> id in games
      ensures g.Some? ==> g.value == games[id]
      ensures Valid() && g.Some? ==> g.value.gameID == id
    {
      if id in games then Some(games[id]) else None
    }

    /**
     * Stores `game` under its own ID, replacing what was there; `None` is
     * ignored. The counter does not move, so an ID past it breaks `IdsIssued`.
     */
    method UpdateGame(game: Option<GameData>)
      requires Valid()
      modifies this
      ensures game.None? ==> unchanged(this)
      ensures game.Some? ==> games == old(games)[game.value.gameID := game.value]
      ensures game.Some? ==> GetGameByID(game.value.gameID) == game
      ensures users == old(users) && auths == old(auths) && nextGameID == old(nextGameID)
      ensures IdsIssued(games, nextGameID) <==>
                IdsIssued(old(games), old(nextGameID)) && (game.None? || 1 <= game.value.gameID < nextGameID)
      ensures Valid()
    {
      if game.Some? {
        games := games[game.value.gameID := game.value];
        assert game.value.gameID in games;
        assert forall id :: id in old(games) ==> id in games;
      }
    }
  }
}
