// The older single-page client (`app/page.tsx`): the same session machine as
// the context provider, with a `page`/`subPage` pair in place of router
// navigation and no board-selection slots.
module HomePage {
  import opened Wrappers
  import opened Protocol
  import GameContext

  datatype Page = AuthPage | LobbyPage | GamePage

  datatype SubPage = ListView | CreateView | Waiting

  /** The state slots of the page that events and handlers write. */
  datatype PageState = PageState(
    page: Page,
    subPage: Option<SubPage>,
    phase: Phase,
    status: Option<Status>,
    currentLobby: Option<Lobby>,
    images: seq<string>,
    lobbies: seq<Lobby>,
    connectedError: bool,
    refreshKey: int)

  /** The initial values of the `useState` hooks. */
  const Initial := PageState(AuthPage, None, Selection, None, None, [], [], false, 0)

  /** The state every leave path ends in: back to the lobby screen with no
      lobby, no sub-page and no result. */
  function LeftLobby(s: PageState): PageState {
    s.(page := LobbyPage, currentLobby := None, subPage := None, status := None)
  }

  /** The `onmessage` switch; cases that share a body share a branch. */
  function Apply(s: PageState, e: Event): PageState {
    if e.Ping? then s
    else if e.EntersLobby() then s.(currentLobby := Some(e.lobby), subPage := Some(Waiting), phase := Selection)
    else if e.RematchStarted? then
      s.(images := e.images, phase := Selection, status := None, refreshKey := s.refreshKey + 1)
    else if e.GameStarted? then s.(images := e.images, page := GamePage)
    else if e.IsLobbySnapshot() then s.(currentLobby := Some(e.lobby))
    else if e.NewLobby? then s.(lobbies := e.publicLobbies)
    else if e.SelectionComplete? then s.(phase := Guessing)
    else if e.CorrectGuess? then s.(status := Some(Win), phase := Results)
    else if e.PlayerScored? then s.(status := Some(Lose), phase := Results)
    else if e.LeavesLobby() then LeftLobby(s)
    else if e.ConnectedError? then s.(connectedError := true)
    else s
  }

  function Run(s: PageState, es: seq<Event>): PageState
    decreases |es|
  {
    if es == [] then s else Run(Apply(s, es[0]), es[1..])
  }

  /** The screen slots, column by column: only `game_started` shows the
      board, only the leave events return to the lobby screen, and only
      entering a lobby opens the waiting room. */
  lemma ScreenByEvent(s: PageState, e: Event)
    ensures Apply(s, e).page ==
      (if e.GameStarted? then GamePage else if e.LeavesLobby() then LobbyPage else s.page)
    ensures Apply(s, e).subPage ==
      (if e.EntersLobby() then Some(Waiting) else if e.LeavesLobby() then None else s.subPage)
  {
  }

  /** `kicked`, `lobby_closed` and `player_left_in_results` all end in the same state. */
  lemma LeaveEventsAgree(s: PageState, e: Event)
    requires e.LeavesLobby()
    ensures Apply(s, e) == Apply(s, Kicked) == Apply(s, LobbyClosed) == Apply(s, PlayerLeftInResults)
    ensures Apply(s, e).page == LobbyPage && Apply(s, e).currentLobby.None?
    ensures Apply(s, e).subPage.None? && Apply(s, e).status.None?
  {
  }

  /** The six lobby snapshots replace only the lobby; `new_lobby` only the list. */
  lemma SnapshotsReplaceOneSlot(s: PageState, e: Event)
    ensures e.IsLobbySnapshot() ==> Apply(s, e) == s.(currentLobby := Some(e.lobby))
    ensures e.NewLobby? ==> Apply(s, e) == s.(lobbies := e.publicLobbies)
  {
  }

  /** The waiting room is rendered only with a lobby (`subPage === "waiting"
      && currentLobby`); no event leaves the sub-page on "waiting" with the
      lobby gone. */
  predicate WaitingHasLobby(s: PageState) {
    s.subPage == Some(Waiting) ==> s.currentLobby.Some?
  }

  lemma {:induction false} RunKeepsWaitingHasLobby(s: PageState, es: seq<Event>)
    requires WaitingHasLobby(s)
    ensures WaitingHasLobby(Run(s, es))
    decreases |es|
  {
    if es != [] {
      RunKeepsWaitingHasLobby(Apply(s, es[0]), es[1..]);
    }
  }

  /** Once past the sign-in screen, no event brings it back. */
  lemma {:induction false} NeverBackToAuth(s: PageState, es: seq<Event>)
    requires s.page != AuthPage
    ensures Run(s, es).page != AuthPage
    decreases |es|
  {
    if es != [] {
      NeverBackToAuth(Apply(s, es[0]), es[1..]);
    }
  }

  /** The page and the context provider hold the same value in every slot they share. */
  predicate Agrees(s: PageState, g: GameContext.Session) {
    && s.phase == g.phase
    && s.status == g.status
    && s.currentLobby == g.currentLobby
    && s.images == g.images
    && s.lobbies == g.lobbies
    && s.connectedError == g.connectedError
    && s.refreshKey == g.refreshKey
  }

  /** One event at a time: both switches write the shared slots alike. */
  lemma ApplyAgreesWithContext(s: PageState, g: GameContext.Session, e: Event)
    requires Agrees(s, g)
    ensures Agrees(Apply(s, e), GameContext.Apply(g, e))
  {
  }

  /** On every slot the two clients share, the older page handles any run of
      events exactly as the context provider does; they differ only in how
      they show the screen and in the provider's board-selection slots. */
  lemma {:induction false} RunAgreesWithContext(s: PageState, g: GameContext.Session, es: seq<Event>)
    requires Agrees(s, g)
    ensures Agrees(Run(s, es), GameContext.Run(g, es))
    decreases |es|
  {
    if es != [] {
      ApplyAgreesWithContext(s, g, es[0]);
      RunAgreesWithContext(Apply(s, es[0]), GameContext.Apply(g, es[0]), es[1..]);
    }
  }

  /** The page's state, updated one setter at a time. */
  class App {
    var page: Page
    var subPage: Option<SubPage>
    var phase: Phase
    var status: Option<Status>
    var currentLobby: Option<Lobby>
    var images: seq<string>
    var lobbies: seq<Lobby>
    var connectedError: bool
    var refreshKey: int
    /** `ws !== null` */
    var hasSocket: bool
    /** Commands written to the socket, oldest first. */
    var sent: seq<Command>

    function Snapshot(): PageState
      reads this
    {
      PageState(page, subPage, phase, status, currentLobby, images, lobbies, connectedError, refreshKey)
    }

    constructor ()
      ensures Snapshot() == Initial
      ensures !hasSocket && sent == []
    {
      page, subPage, phase, status := AuthPage, None, Selection, None;
      currentLobby, images, lobbies := None, [], [];
      connectedError, refreshKey := false, 0;
      hasSocket, sent := false, [];
    }

    /** The effect keyed on the token: a token shows the lobby screen, and a
        socket is opened only when there is a token and no socket yet. */
    method OnToken(hasToken: bool)
      modifies this
      ensures Snapshot() == if hasToken then old(Snapshot()).(page := LobbyPage) else old(Snapshot())
      ensures hasSocket == (old(hasSocket) || hasToken)
      ensures sent == old(sent)
    {
      if hasToken {
        page := LobbyPage;
      }
      if !hasToken || hasSocket {
        return;
      }
      hasSocket := true;
    }

    /** `onopen` */
    method OnOpen()
      modifies this
      ensures sent == old(sent) + [Sign]
      ensures Snapshot() == old(Snapshot()) && hasSocket == old(hasSocket)
    {
      sent := sent + [Sign];
    }

    /** `onmessage` */
    method OnMessage(e: Event)
      modifies this
      ensures Snapshot() == Apply(old(Snapshot()), e)
      ensures sent == if e.Ping? then old(sent) + [Pong] else old(sent)
      ensures hasSocket == old(hasSocket)
    {
      if e.Ping? || e.EntersLobby() || e.RematchStarted? || e.GameStarted? || e.IsLobbySnapshot() || e.NewLobby? {
        OnLobbyMessage(e);
      } else {
        OnGameMessage(e);
      }
    }

    /** The first half of the switch: the messages that carry a lobby, images or the lobby list. */
    method OnLobbyMessage(e: Event)
      requires e.Ping? || e.EntersLobby() || e.RematchStarted? || e.GameStarted? || e.IsLobbySnapshot() || e.NewLobby?
      modifies this
      ensures Snapshot() == Apply(old(Snapshot()), e)
      ensures sent == if e.Ping? then old(sent) + [Pong] else old(sent)
      ensures hasSocket == old(hasSocket)
    {
      if e.Ping? {
        sent := sent + [Pong];
      } else if e.EntersLobby() {
        currentLobby := Some(e.lobby);
        subPage := Some(Waiting);
        phase := Selection;
      } else if e.RematchStarted? {
        StartRematch(e.images);
      } else if e.GameStarted? {
        images := e.images;
        page := GamePage;
      } else if e.IsLobbySnapshot() {
        currentLobby := Some(e.lobby);
      } else {
        lobbies := e.publicLobbies;
      }
    }

    /** The `rematch_started` case. */
    method StartRematch(imgs: seq<string>)
      modifies this
      ensures Snapshot() == old(Snapshot()).(images := imgs, phase := Selection, status := None,
                                             refreshKey := old(refreshKey) + 1)
      ensures sent == old(sent) && hasSocket == old(hasSocket)
    {
      images := imgs;
      phase := Selection;
      status := None;
      refreshKey := refreshKey + 1;
    }

    /** The second half of the switch: game progress, leaving and errors. */
    method OnGameMessage(e: Event)
      requires !(e.Ping? || e.EntersLobby() || e.RematchStarted? || e.GameStarted? || e.IsLobbySnapshot() || e.NewLobby?)
      modifies this
      ensures Snapshot() == Apply(old(Snapshot()), e)
      ensures sent == old(sent) && hasSocket == old(hasSocket)
    {
      if e.SelectionComplete? {
        phase := Guessing;
      } else if e.CorrectGuess? {
        status, phase := Some(Win), Results;
      } else if e.PlayerScored? {
        status, phase := Some(Lose), Results;
      } else if e.LeavesLobby() {
        ResetToLobby();
      } else if e.ConnectedError? {
        connectedError := true;
      }
    }

    /** The four setters shared by the leave events and the leave handlers. */
    method ResetToLobby()
      modifies this
      ensures Snapshot() == LeftLobby(old(Snapshot()))
      ensures sent == old(sent) && hasSocket == old(hasSocket)
    {
      page := LobbyPage;
      currentLobby := None;
      subPage := None;
      status := None;
    }

    /** A successful sign-in shows the lobby screen. */
    method HandleAuthSuccess()
      modifies this
      ensures Snapshot() == old(Snapshot()).(page := LobbyPage)
      ensures sent == old(sent) && hasSocket == old(hasSocket)
    {
      page := LobbyPage;
    }

    method HandleCreateLobby(request: LobbyRequest)
      modifies this
      ensures sent == old(sent) + SendIf(hasSocket, CreateLobby(request))
      ensures Snapshot() == old(Snapshot()) && hasSocket == old(hasSocket)
    {
      if hasSocket {
        sent := sent + [CreateLobby(request)];
      }
    }

    /** `answer` is what the password prompt returned; it is asked only for a
        protected lobby. */
    method HandleJoinLobby(lobbyId: string, hasPassword: bool, answer: Option<string>)
      modifies this
      ensures sent == old(sent) + SendIf(hasSocket, JoinLobby(lobbyId, JoinPassword(hasPassword, answer)))
      ensures Snapshot() == old(Snapshot()) && hasSocket == old(hasSocket)
    {
      var password := if hasPassword then answer else None;
      if hasSocket {
        sent := sent + [JoinLobby(lobbyId, password)];
      }
    }

    method HandleReadyClick()
      modifies this
      ensures sent == old(sent) + SendIf(hasSocket, Ready)
      ensures Snapshot() == old(Snapshot()) && hasSocket == old(hasSocket)
    {
      if hasSocket {
        sent := sent + [Ready];
      }
    }

    /** `start_game` is suppressed while the lobby has fewer than two players. */
    method HandleStartGame()
      modifies this
      ensures sent == old(sent) + (if StartAllowed(currentLobby) then SendIf(hasSocket, StartGame(false)) else [])
      ensures Snapshot() == old(Snapshot()) && hasSocket == old(hasSocket)
    {
      if JsLess(PlayerCountOf(currentLobby), 2) {
        return;
      }
      if hasSocket {
        sent := sent + [StartGame(false)];
      }
    }

    /** A rematch that passes the guard resets only status and phase here;
        the board is rebuilt when `rematch_started` bumps the refresh key. */
    method HandleRematch()
      modifies this
      ensures !StartAllowed(old(currentLobby)) ==> Snapshot() == old(Snapshot()) && sent == old(sent)
      ensures StartAllowed(old(currentLobby)) ==>
        Snapshot() == old(Snapshot()).(status := None, phase := Selection)
        && sent == old(sent) + SendIf(hasSocket, StartGame(true))
      ensures hasSocket == old(hasSocket)
    {
      if JsLess(PlayerCountOf(currentLobby), 2) {
        return;
      }
      if hasSocket {
        sent := sent + [StartGame(true)];
      }
      status := None;
      phase := Selection;
    }

    method HandleCharacterDiscard(character: string)
      modifies this
      ensures sent == old(sent) + SendIf(hasSocket, DiscardCharacter(character))
      ensures Snapshot() == old(Snapshot()) && hasSocket == old(hasSocket)
    {
      if hasSocket {
        sent := sent + [DiscardCharacter(character)];
      }
    }

    method HandleOwnCharacterSelect(character: string)
      modifies this
      ensures sent == old(sent) + SendIf(hasSocket, SelectOwnCharacter(character))
      ensures Snapshot() == old(Snapshot()) && hasSocket == old(hasSocket)
    {
      if hasSocket {
        sent := sent + [SelectOwnCharacter(character)];
      }
    }

    /** `guess` is sent only on the user's turn. */
    method HandleGuessCharacter(user: Option<User>, character: string)
      modifies this
      ensures sent == old(sent) + (if TurnHeld(user, currentLobby) then SendIf(hasSocket, Guess(character)) else [])
      ensures Snapshot() == old(Snapshot()) && hasSocket == old(hasSocket)
    {
      if UserIdOf(user) != UserTurnOf(currentLobby) {
        return;
      }
      if hasSocket {
        sent := sent + [Guess(character)];
      }
    }

    /** `end_turn` is sent only on the user's turn. */
    method HandleEndTurn(user: Option<User>)
      modifies this
      ensures sent == old(sent) + (if TurnHeld(user, currentLobby) then SendIf(hasSocket, EndTurnCommand) else [])
      ensures Snapshot() == old(Snapshot()) && hasSocket == old(hasSocket)
    {
      if UserIdOf(user) != UserTurnOf(currentLobby) {
        return;
      }
      if hasSocket {
        sent := sent + [EndTurnCommand];
      }
    }

    /** Leaving from the results screen tells the server so with `in_result`. */
    method HandleLeaveGameInResults()
      modifies this
      ensures sent == old(sent) + SendIf(hasSocket, LeaveLobby(true))
      ensures Snapshot() == LeftLobby(old(Snapshot()))
      ensures hasSocket == old(hasSocket)
    {
      if hasSocket {
        sent := sent + [LeaveLobby(true)];
      }
      ResetToLobby();
    }

    method HandleLeaveGame()
      modifies this
      ensures sent == old(sent) + SendIf(hasSocket, LeaveLobby(false))
      ensures Snapshot() == LeftLobby(old(Snapshot()))
      ensures hasSocket == old(hasSocket)
    {
      if hasSocket {
        sent := sent + [LeaveLobby(false)];
      }
      ResetToLobby();
    }

    method HandleRefresh()
      modifies this
      ensures Snapshot() == old(Snapshot()).(refreshKey := old(refreshKey) + 1)
      ensures sent == old(sent) && hasSocket == old(hasSocket)
    {
      refreshKey := refreshKey + 1;
    }
  }
}
