/**
 * The server's services over the store: registering a user (written twice
 * in the repository, as `UserService` and `RegisterService`, with the same
 * steps) and creating a game for a logged-in user.
 *
 * Each service catches the store's exceptions and turns them into an error
 * message in its result. The random auth token and the text of the
 * `NullPointerException` raised by a `null` request are parameters.
 */
module Services {
  import opened Wrappers
  import opened Store

  /** A registration request; each field may be `null`. */
  datatype RegisterRequest = RegisterRequest(username: Option<string>, password: Option<string>, email: Option<string>)

  /** Either the new user and their token, or an error message. */
  datatype RegisterResult = Registered(username: string, authToken: string) | RegisterFailed(message: string)

  /** A game-creation request: the game's name and the caller's token, either possibly `null`. */
  datatype CreateGameRequest = CreateGameRequest(gameName: Option<string>, authToken: Option<string>)

  /** Either the new game's ID (no message) or an error message (no ID). */
  datatype CreateGameResult = Created(gameID: int) | CreateFailed(message: string)

  const BAD_REQUEST := "Error: bad request"
  const ALREADY_TAKEN := "Error: already taken"
  const DATABASE_FAILURE := "Error: database failure - "
  const UNEXPECTED_FAILURE := "Error: unexpected failure - "
  const UNAUTHORIZED := "Error: unauthorized"
  const ERROR_PREFIX := "Error: "

  /** Every field of the request is present. */
  predicate Complete(req: RegisterRequest)
  {
    req.username.Some? && req.password.Some? && req.email.Some?
  }

  /**
   * What registration answers, given the users stored beforehand: a
   * `null` request fails inside the `try` and is reported as an unexpected
   * failure; a missing field is a bad request; a known username is taken;
   * anything else registers the user with `token`.
   */
  function Registration(users: map<string, UserData>, request: Option<RegisterRequest>,
                        token: string, npeMessage: string): (r: RegisterResult)
    ensures r.Registered? <==> request.Some? && Complete(request.value) && request.value.username.value !in users
    ensures r.Registered? ==> r.username == request.value.username.value && r.authToken == token
    ensures r.RegisterFailed? ==>
              r.message == BAD_REQUEST || r.message == ALREADY_TAKEN || r.message == UNEXPECTED_FAILURE + npeMessage
  {
    if request.None? then RegisterFailed(UNEXPECTED_FAILURE + npeMessage)
    else if !Complete(request.value) then RegisterFailed(BAD_REQUEST)
    else if request.value.username.value in users then RegisterFailed(ALREADY_TAKEN)
    else Registered(request.value.username.value, token)
  }

  /** The user record registration stores for a complete request. */
  function NewUser(req: RegisterRequest): (u: UserData)
    requires Complete(req)
    ensures u.username == req.username && u.password == req.password && u.email == req.email
  {
    UserData(req.username, req.password, req.email)
  }

  /**
   * The registration steps shared by both services: validate, look the
   * username up, store the user, then store a token for them. The store's
   * exceptions cannot reach the catch blocks: `createUser` and `createAuth`
   * only throw on a missing username or token, and both are present here.
   */
  method RegisterUser(dataAccess: DataAccess, request: Option<RegisterRequest>, token: string, npeMessage: string)
    returns (result: RegisterResult)
    requires dataAccess.Valid()
    modifies dataAccess
    ensures result == Registration(old(dataAccess.users), request, token, npeMessage)
    ensures result.RegisterFailed? ==> unchanged(dataAccess)
    ensures result.Registered? ==>
              dataAccess.users == old(dataAccess.users)[result.username := NewUser(request.value)] &&
              dataAccess.auths == old(dataAccess.auths)[token := AuthData(Some(token), Some(result.username))]
    ensures dataAccess.games == old(dataAccess.games) && dataAccess.nextGameID == old(dataAccess.nextGameID)
    ensures dataAccess.Valid()
  {
    if request.None? {
      return RegisterFailed(UNEXPECTED_FAILURE + npeMessage);
    }
    var req := request.value;
    if req.username.None? || req.password.None? || req.email.None? {
      return RegisterFailed(BAD_REQUEST);
    }
    var existing := dataAccess.GetUser(req.username);
    if existing.Ok? {
      return RegisterFailed(ALREADY_TAKEN);
    }
    var userCreated := dataAccess.CreateUser(Some(NewUser(req)));
    match userCreated {
      case Thrown(msg) =>
        assert false;
        return RegisterFailed(DATABASE_FAILURE + msg);
      case Ok(_) =>
    }
    var authCreated := dataAccess.CreateAuth(Some(AuthData(Some(token), req.username)));
    match authCreated {
      case Thrown(msg) =>
        assert false;
        return RegisterFailed(DATABASE_FAILURE + msg);
      case Ok(_) =>
    }
    result := Registered(req.username.value, token);
  }

  class UserService {
    const dataAccess: DataAccess

    constructor(dataAccess: DataAccess)
      ensures this.dataAccess == dataAccess
    {
      this.dataAccess := dataAccess;
    }

    /** Registers a user and issues them `token`; see `Registration`. */
    method Register(request: Option<RegisterRequest>, token: string, npeMessage: string) returns (result: RegisterResult)
      requires dataAccess.Valid()
      modifies dataAccess
      ensures result == Registration(old(dataAccess.users), request, token, npeMessage)
      ensures result.RegisterFailed? ==> unchanged(dataAccess)
      ensures result.Registered? ==>
                dataAccess.users == old(dataAccess.users)[result.username := NewUser(request.value)] &&
                dataAccess.auths == old(dataAccess.auths)[token := AuthData(Some(token), Some(result.username))]
      ensures dataAccess.games == old(dataAccess.games) && dataAccess.nextGameID == old(dataAccess.nextGameID)
      ensures dataAccess.Valid()
    {
      result := RegisterUser(dataAccess, request, token, npeMessage);
    }
  }

  class RegisterService {
    const dataAccess: DataAccess

    constructor(dataAccess: DataAccess)
      ensures this.dataAccess == dataAccess
    {
      this.dataAccess := dataAccess;
    }

    /** Registers a user and issues them `token`; see `Registration`. */
    method Register(request: Option<RegisterRequest>, token: string, npeMessage: string) returns (result: RegisterResult)
      requires dataAccess.Valid()
      modifies dataAccess
      ensures result == Registration(old(dataAccess.users), request, token, npeMessage)
      ensures result.RegisterFailed? ==> unchanged(dataAccess)
      ensures result.Registered? ==>
                dataAccess.users == old(dataAccess.users)[result.username := NewUser(request.value)] &&
                dataAccess.auths == old(dataAccess.auths)[token := AuthData(Some(token), Some(result.username))]
      ensures dataAccess.games == old(dataAccess.games) && dataAccess.nextGameID == old(dataAccess.nextGameID)
      ensures dataAccess.Valid()
    {
      result := RegisterUser(dataAccess, request, token, npeMessage);
    }
  }

  /**
   * Once a username is registered, registering it again is refused,
   * whatever the password, e-mail or token.
   */
  lemma RegisterTwiceTaken(users: map<string, UserData>, first: RegisterRequest, second: RegisterRequest,
                           token1: string, token2: string, npeMessage: string)
    requires Registration(users, Some(first), token1, npeMessage).Registered?
    requires Complete(second) && second.username == first.username
    ensures Registration(users[first.username.value := NewUser(first)], Some(second), token2, npeMessage)
            == RegisterFailed(ALREADY_TAKEN)
  {
  }

  /**
   * Java's `Character.isWhitespace`: the space, line and paragraph
   * separators other than the three no-break spaces, and the controls
   * U+0009 to U+000D and U+001C to U+001F.
   */
  predicate IsJavaWhitespace(c: char)
  {
    ('\t' <= c <= '\r') || ('\U{1C}' <= c <= '\U{1F}') || c == ' ' || c == '\U{1680}'
    || ('\U{2000}' <= c <= '\U{2006}') || ('\U{2008}' <= c <= '\U{200A}')
    || c == '\U{2028}' || c == '\U{2029}' || c == '\U{205F}' || c == '\U{3000}'
  }

  /** `String.isBlank`: empty, or whitespace only. */
  predicate IsBlank(s: string)
  {
    forall i :: 0 <= i < |s| ==> IsJavaWhitespace(s[i])
  }

  /** ASCII lower-casing of one character; every other character is kept. */
  function LowerChar(c: char): (d: char)
    ensures 'A' <= c <= 'Z' ==> 'a' <= d <= 'z' && d as int - c as int == 32
    ensures !('A' <= c <= 'Z') ==> d == c
  {
    if 'A' <= c <= 'Z' then (c as int + 32) as char else c
  }

  /** Lower-cases `s` character by character. */
  function ToLower(s: string): (t: string)
    ensures |t| == |s|
    ensures forall i :: 0 <= i < |s| ==> t[i] == LowerChar(s[i])
  {
    seq(|s|, i requires 0 <= i < |s| => LowerChar(s[i]))
  }

  /** `s` has `sub` as a contiguous part, searched from the front. */
  function Contains(s: string, sub: string): bool
    decreases |s|
  {
    if |s| < |sub| then false
    else if s[..|sub|] == sub then true
    else Contains(s[1..], sub)
  }

  /** `sub` occurs in `s` starting at index `i`. */
  predicate OccursAt(s: string, sub: string, i: int)
  {
    0 <= i <= |s| - |sub| && s[i..i + |sub|] == sub
  }

  /** `Contains` finds exactly the occurrences at some index. */
  lemma {:induction false} ContainsAt(s: string, sub: string)
    decreases |s|
    ensures Contains(s, sub) <==> exists i :: OccursAt(s, sub, i)
  {
    if |s| < |sub| {
    } else if s[..|sub|] == sub {
      assert OccursAt(s, sub, 0);
    } else {
      ContainsAt(s[1..], sub);
      if Contains(s, sub) {
        var i :| OccursAt(s[1..], sub, i);
        assert s[i + 1..i + 1 + |sub|] == s[1..][i..i + |sub|];
        assert OccursAt(s, sub, i + 1);
      }
      if exists i :: OccursAt(s, sub, i) {
        var i :| OccursAt(s, sub, i);
        assert i != 0;
        assert s[1..][i - 1..i - 1 + |sub|] == s[i..i + |sub|];
        assert OccursAt(s[1..], sub, i - 1);
      }
    }
  }

  /**
   * How game creation reports a store exception: a message mentioning
   * "auth" in any case means the caller is unauthorized; any other is
   * passed on after "Error: ".
   */
  function StoreFailure(message: string): (m: string)
    ensures Contains(ToLower(message), "auth") ==> m == UNAUTHORIZED
    ensures !Contains(ToLower(message), "auth") ==> m == ERROR_PREFIX + message
  {
    if Contains(ToLower(message), "auth") then UNAUTHORIZED else ERROR_PREFIX + message
  }

  /** The store's "Auth not found" is reported as unauthorized. */
  lemma AuthNotFoundUnauthorized()
    ensures StoreFailure(AUTH_NOT_FOUND) == UNAUTHORIZED
  {
    var lowered := ToLower(AUTH_NOT_FOUND);
    assert lowered[0] == 'a' && lowered[1] == 'u' && lowered[2] == 't' && lowered[3] == 'h';
    assert lowered[..4] == "auth";
  }

  /** The name is present and not blank. */
  predicate Named(req: CreateGameRequest)
  {
    req.gameName.Some? && !IsBlank(req.gameName.value)
  }

  /**
   * What game creation answers, given the stored tokens and the counter:
   * a missing request or a missing or blank name is a bad request, an
   * unknown token is unauthorized, and anything else gets the next ID.
   */
  function GameCreation(auths: map<string, AuthData>, nextGameID: int, request: Option<CreateGameRequest>)
    : (r: CreateGameResult)
    ensures r.Created? <==>
              request.Some? && Named(request.value) &&
              request.value.authToken.Some? && request.value.authToken.value in auths
    ensures r.Created? ==> r.gameID == nextGameID
    ensures r.CreateFailed? && request.Some? && Named(request.value) ==> r.message == StoreFailure(AUTH_NOT_FOUND)
    ensures r.CreateFailed? && !(request.Some? && Named(request.value)) ==> r.message == BAD_REQUEST
  {
    if request.None? || request.value.gameName.None? || IsBlank(request.value.gameName.value) then
      CreateFailed(BAD_REQUEST)
    else if !(request.value.authToken.Some? && request.value.authToken.value in auths) then
      CreateFailed(StoreFailure(AUTH_NOT_FOUND))
    else
      Created(nextGameID)
  }

  /** Every failed game creation reports a bad request or an unauthorized caller. */
  lemma GameCreationErrors(auths: map<string, AuthData>, nextGameID: int, request: Option<CreateGameRequest>)
    ensures GameCreation(auths, nextGameID, request).CreateFailed? ==>
              GameCreation(auths, nextGameID, request).message in {BAD_REQUEST, UNAUTHORIZED}
  {
    AuthNotFoundUnauthorized();
  }

  class GameService {
    const dataAccess: DataAccess

    constructor(dataAccess: DataAccess)
      ensures this.dataAccess == dataAccess
    {
      this.dataAccess := dataAccess;
    }

    /**
     * Creates a game for the holder of a valid token. A failure changes
     * nothing; a success stores an empty game under an ID not in use.
     */
    method CreateGame(request: Option<CreateGameRequest>) returns (result: CreateGameResult)
      requires dataAccess.Valid()
      modifies dataAccess
      ensures result == GameCreation(old(dataAccess.auths), old(dataAccess.nextGameID), request)
      ensures result.CreateFailed? ==> unchanged(dataAccess)
      ensures result.Created? ==>
                result.gameID !in old(dataAccess.games) &&
                dataAccess.games == old(dataAccess.games)[result.gameID := NewGame(result.gameID, request.value.gameName.value)] &&
                dataAccess.nextGameID == old(dataAccess.nextGameID) + 1
      ensures dataAccess.users == old(dataAccess.users) && dataAccess.auths == old(dataAccess.auths)
      ensures dataAccess.Valid()
    {
      if request.None? || request.value.gameName.None? || IsBlank(request.value.gameName.value) {
        return CreateFailed(BAD_REQUEST);
      }
      var auth := dataAccess.GetAuth(request.value.authToken);
      match auth {
        case Thrown(msg) =>
          return CreateFailed(StoreFailure(msg));
        case Ok(_) =>
      }
      var created := dataAccess.CreateGame(request.value.gameName);
      match created {
        case Thrown(msg) =>
          assert false;
          return CreateFailed(StoreFailure(msg));
        case Ok(id) =>
          return Created(id);
      }
    }
  }
}
