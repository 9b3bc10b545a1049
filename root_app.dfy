// The oldest client (`src/App.tsx`): a reduced session switch that knows only
// the lobby events and the start of a game, with no phase, status or guards.
module RootApp {
  import opened Wrappers
  import opened Protocol
  import HomePage

  /** The state slots of the root component that events and handlers write. */
  datatype AppState = AppState(
    page: HomePage.Page,
    subPage: Option<HomePage.SubPage>,
    lobbies: seq<Lobby>,
    currentLobby: Option<Lobby>,
    images: seq<string>)

  const Initial := AppState(HomePage.AuthPage, None, [], None, [])

  /** The types this switch has a case for; everything else reaches `default`. */
  predicate Handled(e: Event) {
    e.Ping? || e.EntersLobby() || e.GameStarted? || e.PlayerJoined? || e.PlayerLeft?
    || e.PlayerReadyChanged? || e.NewLobby?
  }

  /** The `onmessage` switch. */
  function Apply(s: AppState, e: Event): AppState {
    if e.Ping? then s
    else if e.EntersLobby() then s.(currentLobby := Some(e.lobby), subPage := Some(HomePage.Waiting))
    else if e.GameStarted? then s.(images := e.images, page := HomePage.GamePage)
    else if e.PlayerJoined? || e.PlayerLeft? || e.PlayerReadyChanged? then s.(currentLobby := Some(e.lobby))
    else if e.NewLobby? then s.(lobbies := e.publicLobbies)
    else s
  }

  function Run(s: AppState, es: seq<Event>): AppState
    decreases |es|
  {
    if es == [] then s else Run(Apply(s, es[0]), es[1..])
  }

  /** Every type without a case, `end_turn` and `update_lobby` among them,
      leaves the state as it was; so does `ping`. */
  lemma UnhandledChangesNothing(s: AppState, e: Event)
    requires !Handled(e) || e.Ping?
    ensures Apply(s, e) == s
  {
  }

  /** The switch read column by column. */
  lemma ApplyByField(s: AppState, e: Event)
    ensures var r := Apply(s, e);
      && r.page == (if e.GameStarted? then HomePage.GamePage else s.page)
      && r.subPage == (if e.EntersLobby() then Some(HomePage.Waiting) else s.subPage)
      && r.currentLobby ==
           (if e.EntersLobby() || e.PlayerJoined? || e.PlayerLeft? || e.PlayerReadyChanged?
            then Some(e.lobby) else s.currentLobby)
      && r.images == (if e.GameStarted? then e.images else s.images)
      && r.lobbies == (if e.NewLobby? then e.publicLobbies else s.lobbies)
  {
  }

  /** Nothing in this client leaves the board once a game has started. */
  lemma {:induction false} GamePageAbsorbing(s: AppState, es: seq<Event>)
    requires s.page == HomePage.GamePage
    ensures Run(s, es).page == HomePage.GamePage
    decreases |es|
  {
    if es != [] {
      GamePageAbsorbing(Apply(s, es[0]), es[1..]);
    }
  }

  /** The root component and the later page hold the same value in every
      slot the root component has. */
  predicate Agrees(a: AppState, h: HomePage.PageState) {
    && a.page == h.page
    && a.subPage == h.subPage
    && a.lobbies == h.lobbies
    && a.currentLobby == h.currentLobby
    && a.images == h.images
  }

  lemma ApplyAgreesWithHomePage(a: AppState, h: HomePage.PageState, e: Event)
    requires Agrees(a, h) && Handled(e)
    ensures Agrees(Apply(a, e), HomePage.Apply(h, e))
  {
  }

  /** On the events it handles, the oldest client already behaves as the
      later page does on every slot it has: the later versions only added cases. */
  lemma {:induction false} RunAgreesWithHomePage(a: AppState, h: HomePage.PageState, es: seq<Event>)
    requires Agrees(a, h)
    requires forall i :: 0 <= i < |es| ==> Handled(es[i])
    ensures Agrees(Run(a, es), HomePage.Run(h, es))
    decreases |es|
  {
    if es != [] {
      ApplyAgreesWithHomePage(a, h, es[0]);
      RunAgreesWithHomePage(Apply(a, es[0]), HomePage.Apply(h, es[0]), es[1..]);
    }
  }

  /** The root component's state, updated one setter at a time. */
  class App {
    var page: HomePage.Page
    var subPage: Option<HomePage.SubPage>
    var lobbies: seq<Lobby>
    var currentLobby: Option<Lobby>
    var images: seq<string>
    /** `ws !== null` */
    var hasSocket: bool
    /** How many sockets the token effect has opened. */
    var socketsOpened: nat
    /** Commands written to a socket, oldest first. */
    var sent: seq<Command>

    function Snapshot(): AppState
      reads this
    {
      AppState(page, subPage, lobbies, currentLobby, images)
    }

    constructor ()
      ensures Snapshot() == Initial
      ensures !hasSocket && socketsOpened == 0 && sent == []
    {
      page, subPage, lobbies, currentLobby, images := HomePage.AuthPage, None, [], None, [];
      hasSocket, socketsOpened, sent := false, 0, [];
    }

    /** The effect keyed on the token opens a fresh socket for every token,
        whether or not one is already open. */
    method OnToken(hasToken: bool)
      modifies this
      ensures Snapshot() == if hasToken then old(Snapshot()).(page := HomePage.LobbyPage) else old(Snapshot())
      ensures hasSocket == (old(hasSocket) || hasToken)
      ensures socketsOpened == if hasToken then old(socketsOpened) + 1 else old(socketsOpened)
      ensures sent == old(sent)
    {
      if hasToken {
        page := HomePage.LobbyPage;
      }
      if !hasToken {
        return;
      }
      socketsOpened := socketsOpened + 1;
      hasSocket := true;
    }

    /** `onopen` */
    method OnOpen()
      modifies this
      ensures sent == old(sent) + [Sign]
      ensures Snapshot() == old(Snapshot()) && hasSocket == old(hasSocket) && socketsOpened == old(socketsOpened)
    {
      sent := sent + [Sign];
    }

    /** `onmessage` */
    method OnMessage(e: Event)
      modifies this
      ensures Snapshot() == Apply(old(Snapshot()), e)
      ensures sent == if e.Ping? then old(sent) + [Pong] else old(sent)
      ensures hasSocket == old(hasSocket) && socketsOpened == old(socketsOpened)
    {
      if e.Ping? {
        sent := sent + [Pong];
      } else if e.EntersLobby() {
        currentLobby := Some(e.lobby);
        subPage := Some(HomePage.Waiting);
      } else if e.GameStarted? {
        images := e.images;
        page := HomePage.GamePage;
      } else if e.PlayerJoined? || e.PlayerLeft? || e.PlayerReadyChanged? {
        currentLobby := Some(e.lobby);
      } else if e.NewLobby? {
        lobbies := e.publicLobbies;
      }
    }

    /** A successful sign-in shows the lobby screen. */
    method HandleAuthSuccess()
      modifies this
      ensures Snapshot() == old(Snapshot()).(page := HomePage.LobbyPage)
      ensures sent == old(sent) && hasSocket == old(hasSocket) && socketsOpened == old(socketsOpened)
    {
      page := HomePage.LobbyPage;
    }

    method HandleCreateLobby(request: LobbyRequest)
      modifies this
      ensures sent == old(sent) + SendIf(hasSocket, CreateLobby(request))
      ensures Snapshot() == old(Snapshot()) && hasSocket == old(hasSocket) && socketsOpened == old(socketsOpened)
    {
      if hasSocket {
        sent := sent + [CreateLobby(request)];
      }
    }

    /** The password is `null` unless the lobby is protected, in which case it
        is the prompt's `answer`. */
    method HandleJoinLobby(lobbyId: string, hasPassword: bool, answer: Option<string>)
      modifies this
      ensures sent == old(sent) + SendIf(hasSocket, JoinLobby(lobbyId, JoinPassword(hasPassword, answer)))
      ensures !hasPassword && hasSocket ==> sent == old(sent) + [JoinLobby(lobbyId, None)]
      ensures Snapshot() == old(Snapshot()) && hasSocket == old(hasSocket) && socketsOpened == old(socketsOpened)
    {
      var password := if hasPassword then answer else None;
      if hasSocket {
        sent := sent + [JoinLobby(lobbyId, password)];
      }
    }

    method HandleReadyClick()
      modifies this
      ensures sent == old(sent) + SendIf(hasSocket, Ready)
      ensures Snapshot() == old(Snapshot()) && hasSocket == old(hasSocket) && socketsOpened == old(socketsOpened)
    {
      if hasSocket {
        sent := sent + [Ready];
      }
    }

    /** No player-count guard here: `start_game` is sent whatever the lobby. */
    method HandleStartGame()
      modifies this
      ensures sent == old(sent) + SendIf(hasSocket, StartGame(false))
      ensures Snapshot() == old(Snapshot()) && hasSocket == old(hasSocket) && socketsOpened == old(socketsOpened)
    {
      if hasSocket {
        sent := sent + [StartGame(false)];
      }
    }

    method HandleCharacterSelect(character: string)
      modifies this
      ensures sent == old(sent) + SendIf(hasSocket, SelectCharacter(character))
      ensures Snapshot() == old(Snapshot()) && hasSocket == old(hasSocket) && socketsOpened == old(socketsOpened)
    {
      if hasSocket {
        sent := sent + [SelectCharacter(character)];
      }
    }

    method HandleOwnCharacterSelect(character: string)
      modifies this
      ensures sent == old(sent) + SendIf(hasSocket, SelectOwnCharacter(character))
      ensures Snapshot() == old(Snapshot()) && hasSocket == old(hasSocket) && socketsOpened == old(socketsOpened)
    {
      if hasSocket {
        sent := sent + [SelectOwnCharacter(character)];
      }
    }
  }
}
