// The wire vocabulary shared by the three session clients: the lobby and user
// records, the inbound events pushed by the game server, the outbound commands,
// and the two client-side guards that decide whether a command is sent.
module Protocol {
  import opened Wrappers

  /** A string-valued property read through `?.`: missing (`undefined`),
      explicitly `null`, or a string. JavaScript's `===`/`!==` tell all three apart. */
  datatype JsString = Undefined | Null | Str(s: string)

  /** A number-valued property read through `?.`. */
  datatype JsNumber = NoNumber | Num(n: int)

  datatype User = User(userId: string, username: string, displayName: string)

  /** The lobby snapshot the server sends. `userTurn` is read by the turn guard;
      the server may omit it or send `null`. */
  datatype Lobby = Lobby(
    lobbyId: string,
    lobbyName: string,
    maxImages: int,
    creatorId: string,
    hasPassword: bool,
    isPrivate: bool,
    playerCount: int,
    userTurn: JsString)

  datatype Phase = Selection | Guessing | Results

  datatype Status = Win | Lose

  /** The payload of `create_lobby`, as built by the lobby form. */
  datatype LobbyRequest = LobbyRequest(maxImages: int, lobbyName: string, password: Option<string>, isPrivate: bool)

  /** Inbound messages, one constructor per `type` the clients switch on, and a
      catch-all for any other `type`. */
  datatype Event =
    | Ping
    | LobbyCreated(lobby: Lobby)
    | LobbyJoined(lobby: Lobby)
    | RematchStarted(images: seq<string>)
    | GameStarted(images: seq<string>)
    | PlayerJoined(lobby: Lobby)
    | PlayerLeft(lobby: Lobby)
    | PlayerReadyChanged(lobby: Lobby)
    | EndTurn(lobby: Lobby)
    | UpdateLobby(lobby: Lobby)
    | PlayerKicked(lobby: Lobby)
    | NewLobby(publicLobbies: seq<Lobby>)
    | SelectionComplete
    | IncorrectGuess
    | CorrectGuess
    | PlayerScored
    | Kicked
    | LobbyClosed
    | StartFailed(reason: string)
    | JoinFailed(reason: string)
    | PlayerLeftInResults
    | ConnectedError(message: string)
    | Unknown(tag: string)
  {
    /** The six events whose only effect is to replace the current lobby with the payload. */
    predicate IsLobbySnapshot() {
      PlayerJoined? || PlayerLeft? || PlayerReadyChanged? || EndTurn? || UpdateLobby? || PlayerKicked?
    }

    /** `lobby_created` / `lobby_joined`: the user has entered a lobby. */
    predicate EntersLobby() {
      LobbyCreated? || LobbyJoined?
    }

    /** `kicked`, `lobby_closed`, `player_left_in_results`: the user is out of the lobby. */
    predicate LeavesLobby() {
      Kicked? || LobbyClosed? || PlayerLeftInResults?
    }
  }

  /** Outbound messages. `StartGame(false)` and `LeaveLobby(false)` are sent
      without the optional flag. */
  datatype Command =
    | Sign
    | Pong
    | CreateLobby(request: LobbyRequest)
    | JoinLobby(lobbyId: string, password: Option<string>)
    | Ready
    | StartGame(isRematch: bool)
    | SelectCharacter(character: string)
    | SelectOwnCharacter(character: string)
    | DiscardCharacter(character: string)
    | Guess(character: string)
    | EndTurnCommand
    | LeaveLobby(inResult: bool)

  /** `ws?.send(...)`: a command reaches the wire only when a socket exists. */
  function SendIf(hasSocket: bool, c: Command): (r: seq<Command>)
    ensures hasSocket ==> r == [c]
    ensures !hasSocket ==> r == []
  {
    if hasSocket then [c] else []
  }

  /** `user?.user_id` */
  function UserIdOf(user: Option<User>): JsString {
    if user.Some? then Str(user.value.userId) else Undefined
  }

  /** `currentLobby?.user_turn` */
  function UserTurnOf(lobby: Option<Lobby>): JsString {
    if lobby.Some? then lobby.value.userTurn else Undefined
  }

  /** The turn guard `user?.user_id === currentLobby?.user_turn`. It holds when
      the signed-in user is the lobby's `user_turn`, and also when there is no
      user and the lobby or its `user_turn` is missing: both sides are
      `undefined` then. */
  function TurnHeld(user: Option<User>, lobby: Option<Lobby>): (r: bool)
    ensures r <==>
      || (user.Some? && lobby.Some? && lobby.value.userTurn == Str(user.value.userId))
      || (user.None? && (lobby.None? || lobby.value.userTurn == Undefined))
  {
    UserIdOf(user) == UserTurnOf(lobby)
  }

  /** `currentLobby?.player_count` */
  function PlayerCountOf(lobby: Option<Lobby>): JsNumber {
    if lobby.Some? then Num(lobby.value.playerCount) else NoNumber
  }

  /** JavaScript `<` with a number on the right: `undefined < k` is false. */
  function JsLess(a: JsNumber, k: int): bool {
    a.Num? && a.n < k
  }

  /** The player-count guard: a start is refused exactly when
      `currentLobby?.player_count! < 2`. With no lobby the comparison is with
      `undefined`, which is false, so the start goes through. */
  function StartAllowed(lobby: Option<Lobby>): (r: bool)
    ensures r <==> lobby.None? || lobby.value.playerCount >= 2
  {
    !JsLess(PlayerCountOf(lobby), 2)
  }

  /** `hasPassword ? prompt(...) : null`, with the user's answer to the prompt
      (`null` when cancelled) as a parameter. */
  function JoinPassword(hasPassword: bool, answer: Option<string>): (r: Option<string>)
    ensures !hasPassword ==> r == None
    ensures hasPassword ==> r == answer
  {
    if hasPassword then answer else None
  }
}
