// The session reducer of the current client (the `GameProvider` context): how
// each server event changes the locally mirrored state, which replies it
// triggers, and the command handlers with their turn and player-count guards.
module GameContext {
  import opened Wrappers
  import opened Protocol

  /** The state slots of the provider that events and handlers write. */
  datatype Session = Session(
    phase: Phase,
    status: Option<Status>,
    currentLobby: Option<Lobby>,
    images: seq<string>,
    selectedIndexes: seq<string>,
    ownImage: Option<string>,
    connectedError: bool,
    lobbies: seq<Lobby>,
    refreshKey: int)

  /** The initial values of the `useState` hooks. */
  const Initial := Session(Selection, None, None, [], [], None, false, [], 0)

  /** The phase an event sets, if it sets one. */
  function PhaseSetBy(e: Event): Option<Phase> {
    if e.EntersLobby() || e.RematchStarted? then Some(Selection)
    else if e.SelectionComplete? then Some(Guessing)
    else if e.CorrectGuess? || e.PlayerScored? then Some(Results)
    else None
  }

  /** The status an event sets, if it sets one. */
  function StatusSetBy(e: Event): Option<Option<Status>> {
    if e.CorrectGuess? then Some(Some(Win))
    else if e.PlayerScored? then Some(Some(Lose))
    else if e.RematchStarted? || e.LeavesLobby() then Some(None)
    else None
  }

  /** The `onmessage` switch. Cases that share a body (fall-through) share a
      branch; each branch performs that body's setters. */
  function Apply(s: Session, e: Event): Session {
    if e.Ping? then s
    else if e.EntersLobby() then s.(currentLobby := Some(e.lobby), phase := Selection)
    else if e.RematchStarted? then
      s.(images := e.images, selectedIndexes := [], ownImage := None, phase := Selection,
         status := None, refreshKey := s.refreshKey + 1)
    else if e.GameStarted? then s.(images := e.images)
    else if e.IsLobbySnapshot() then s.(currentLobby := Some(e.lobby))
    else if e.NewLobby? then s.(lobbies := e.publicLobbies)
    else if e.SelectionComplete? then s.(phase := Guessing)
    else if e.CorrectGuess? then s.(status := Some(Win), phase := Results)
    else if e.PlayerScored? then s.(status := Some(Lose), phase := Results)
    else if e.LeavesLobby() then s.(currentLobby := None, status := None)
    else if e.ConnectedError? then s.(connectedError := true)
    // incorrect_guess, start_failed, join_failed: a toast only; other types: logged
    else s
  }

  /** The switch read column by column: which events write which slot, and
      to what. Every other slot keeps its value. */
  lemma ApplyByField(s: Session, e: Event)
    ensures var r := Apply(s, e);
      && r.phase == PhaseSetBy(e).GetOr(s.phase)
      && r.status == StatusSetBy(e).GetOr(s.status)
      && r.currentLobby ==
           (if e.EntersLobby() || e.IsLobbySnapshot() then Some(e.lobby)
            else if e.LeavesLobby() then None
            else s.currentLobby)
      && r.images == (if e.RematchStarted? || e.GameStarted? then e.images else s.images)
      && r.selectedIndexes == (if e.RematchStarted? then [] else s.selectedIndexes)
      && r.ownImage == (if e.RematchStarted? then None else s.ownImage)
      && r.connectedError == (s.connectedError || e.ConnectedError?)
      && r.lobbies == (if e.NewLobby? then e.publicLobbies else s.lobbies)
      && r.refreshKey == (if e.RematchStarted? then s.refreshKey + 1 else s.refreshKey)
  {
  }

  /** Where the switch navigates (`router.push`). */
  function Navigation(e: Event): Option<string> {
    if e.EntersLobby() then Some("/lobby")
    else if e.GameStarted? then Some("/game")
    else if e.LeavesLobby() then Some("/rooms")
    else None
  }

  /** Events handled in arrival order. */
  function Run(s: Session, es: seq<Event>): Session
    decreases |es|
  {
    if es == [] then s else Run(Apply(s, es[0]), es[1..])
  }

  /** Everything the message handler sends during a run of events: the only
      reply it ever writes is the `pong` to a `ping`. */
  function RepliesTo(es: seq<Event>): seq<Command>
    decreases |es|
  {
    if es == [] then [] else (if es[0].Ping? then [Pong] else []) + RepliesTo(es[1..])
  }

  function CountPings(es: seq<Event>): nat
    decreases |es|
  {
    if es == [] then 0 else (if es[0].Ping? then 1 else 0) + CountPings(es[1..])
  }

  /** The six lobby-snapshot events replace the lobby verbatim and change nothing else. */
  lemma LobbySnapshotOnlyReplacesLobby(s: Session, e: Event)
    requires e.IsLobbySnapshot()
    ensures Apply(s, e) == s.(currentLobby := Some(e.lobby))
    ensures Navigation(e) == None
  {
  }

  /** `ping`, `incorrect_guess`, `start_failed`, `join_failed` and any unknown
      type leave the state as it was. */
  lemma NotificationsChangeNothing(s: Session, e: Event)
    requires e.Ping? || e.IncorrectGuess? || e.StartFailed? || e.JoinFailed? || e.Unknown?
    ensures Apply(s, e) == s
  {
  }

  /** Handling the same event twice is handling it once, for every event
      except `rematch_started`, which bumps the refresh key each time. */
  lemma ApplyIdempotent(s: Session, e: Event)
    ensures Apply(Apply(s, e), e) == Apply(s, e) <==> !e.RematchStarted?
  {
  }

  /** After a non-empty run of lobby snapshots the lobby is the last payload,
      whatever came before, and no other slot has changed. */
  lemma {:induction false} LastLobbySnapshotWins(s: Session, es: seq<Event>)
    requires |es| > 0
    requires forall i :: 0 <= i < |es| ==> es[i].IsLobbySnapshot()
    ensures es[|es| - 1].IsLobbySnapshot() && Run(s, es) == s.(currentLobby := Some(es[|es| - 1].lobby))
    decreases |es|
  {
    if |es| > 1 {
      LastLobbySnapshotWins(Apply(s, es[0]), es[1..]);
    }
  }

  /** `connected_error` is sticky: the flag is set after a run exactly when it
      was set before or the run contains a `connected_error`. */
  lemma {:induction false} ConnectedErrorSticky(s: Session, es: seq<Event>)
    ensures Run(s, es).connectedError <==>
      s.connectedError || exists i :: 0 <= i < |es| && es[i].ConnectedError?
    decreases |es|
  {
    if es != [] {
      ConnectedErrorSticky(Apply(s, es[0]), es[1..]);
      if exists i :: 0 <= i < |es| && es[i].ConnectedError? {
        var i :| 0 <= i < |es| && es[i].ConnectedError?;
        if i > 0 { assert es[1..][i - 1].ConnectedError?; }
      }
      if exists i :: 0 <= i < |es| - 1 && es[1..][i].ConnectedError? {
        var i :| 0 <= i < |es| - 1 && es[1..][i].ConnectedError?;
        assert es[i + 1].ConnectedError?;
      }
    }
  }

  /** Each `ping` is answered by exactly one `pong`, and nothing else is ever
      sent from the message handler. */
  lemma {:induction false} OnePongPerPing(es: seq<Event>)
    ensures |RepliesTo(es)| == CountPings(es)
    ensures forall i :: 0 <= i < |RepliesTo(es)| ==> RepliesTo(es)[i] == Pong
    decreases |es|
  {
    if es != [] {
      OnePongPerPing(es[1..]);
    }
  }

  /** The client never decides a game itself: `status` is `Win` after a run
      only if it already was, or a `correct_guess` arrived. */
  lemma {:induction false} WinOnlyFromCorrectGuess(s: Session, es: seq<Event>)
    requires Run(s, es).status == Some(Win)
    ensures s.status == Some(Win) || exists i :: 0 <= i < |es| && es[i].CorrectGuess?
    decreases |es|
  {
    if es != [] {
      var s' := Apply(s, es[0]);
      WinOnlyFromCorrectGuess(s', es[1..]);
      if s'.status == Some(Win) && !es[0].CorrectGuess? {
        assert s.status == Some(Win);
      } else if !es[0].CorrectGuess? {
        var i :| 0 <= i < |es| - 1 && es[1..][i].CorrectGuess?;
        assert es[i + 1].CorrectGuess?;
      }
    }
  }

  /** Creating a lobby: the server confirms with `lobby_created`, and the
      client holds that lobby and is choosing characters. */
  lemma LobbyCreatedScenario(s: Session, l: Lobby)
    ensures Apply(s, LobbyCreated(l)).currentLobby == Some(l) && Apply(s, LobbyCreated(l)).phase == Selection
  {
  }

  /** A loss, then a rematch: the status and phase are reset and exactly the
      new images are installed. */
  lemma LoseThenRematchScenario(s: Session, imgs: seq<string>)
    requires s.phase == Guessing
    ensures Apply(s, PlayerScored).status == Some(Lose) && Apply(s, PlayerScored).phase == Results
    ensures var r := Run(s, [PlayerScored, RematchStarted(imgs)]);
      r.status == None && r.phase == Selection && r.images == imgs
      && r.selectedIndexes == [] && r.ownImage == None
  {
    var es := [PlayerScored, RematchStarted(imgs)];
    var s1 := Apply(s, PlayerScored);
    var s2 := Apply(s1, RematchStarted(imgs));
    assert es[1..] == [RematchStarted(imgs)] && es[1..][1..] == [];
    assert Run(s1, es[1..]) == Run(s2, []) == s2;
  }

  /** The provider's state, updated one setter at a time as the source does. */
  class GameProvider {
    var phase: Phase
    var status: Option<Status>
    var currentLobby: Option<Lobby>
    var images: seq<string>
    var selectedIndexes: seq<string>
    var ownImage: Option<string>
    var connectedError: bool
    var lobbies: seq<Lobby>
    var refreshKey: int
    /** `ws !== null` */
    var hasSocket: bool
    /** Commands written to the socket, oldest first. */
    var sent: seq<Command>
    /** Paths passed to `router.push`, oldest first. */
    var pushed: seq<string>

    function Snapshot(): Session
      reads this
    {
      Session(phase, status, currentLobby, images, selectedIndexes, ownImage,
              connectedError, lobbies, refreshKey)
    }

    constructor ()
      ensures Snapshot() == Initial
      ensures !hasSocket && sent == [] && pushed == []
    {
      phase, status, currentLobby := Selection, None, None;
      images, selectedIndexes, ownImage := [], [], None;
      connectedError, lobbies, refreshKey := false, [], 0;
      hasSocket, sent, pushed := false, [], [];
    }

    /** The effect keyed on the token: a socket is opened only when there is a
        token and no socket yet. */
    method OnToken(hasToken: bool)
      modifies this
      ensures hasSocket == (old(hasSocket) || hasToken)
      ensures Snapshot() == old(Snapshot()) && sent == old(sent) && pushed == old(pushed)
    {
      if !hasToken || hasSocket {
        return;
      }
      hasSocket := true;
    }

    /** `onopen`: the socket binds itself to the user with `sign`. */
    method OnOpen()
      modifies this
      ensures sent == old(sent) + [Sign]
      ensures Snapshot() == old(Snapshot()) && pushed == old(pushed) && hasSocket == old(hasSocket)
    {
      sent := sent + [Sign];
    }

    /** `onmessage` */
    method OnMessage(e: Event)
      modifies this
      ensures Snapshot() == Apply(old(Snapshot()), e)
      ensures sent == if e.Ping? then old(sent) + [Pong] else old(sent)
      ensures pushed == if Navigation(e).Some? then old(pushed) + [Navigation(e).value] else old(pushed)
      ensures hasSocket == old(hasSocket)
    {
      if e.Ping? || e.EntersLobby() || e.RematchStarted? || e.GameStarted? || e.IsLobbySnapshot() || e.NewLobby? {
        OnLobbyMessage(e);
      } else {
        OnGameMessage(e);
      }
    }

    /** The first half of the switch: the messages that carry a lobby, images or the lobby list. */
    method OnLobbyMessage(e: Event)
      requires e.Ping? || e.EntersLobby() || e.RematchStarted? || e.GameStarted? || e.IsLobbySnapshot() || e.NewLobby?
      modifies this
      ensures Snapshot() == Apply(old(Snapshot()), e)
      ensures sent == if e.Ping? then old(sent) + [Pong] else old(sent)
      ensures pushed == if Navigation(e).Some? then old(pushed) + [Navigation(e).value] else old(pushed)
      ensures hasSocket == old(hasSocket)
    {
      // cases that share a body in the switch (fall-through) share a branch here
      if e.Ping? {
        sent := sent + [Pong];
      } else if e.EntersLobby() {
        EnterLobby(e.lobby);
      } else if e.RematchStarted? {
        StartRematch(e.images);
      } else if e.GameStarted? {
        images := e.images;
        pushed := pushed + ["/game"];
      } else if e.IsLobbySnapshot() {
        currentLobby := Some(e.lobby);
      } else {
        lobbies := e.publicLobbies;
      }
    }

    /** The second half of the switch: game progress, leaving and errors. */
    method OnGameMessage(e: Event)
      requires !(e.Ping? || e.EntersLobby() || e.RematchStarted? || e.GameStarted? || e.IsLobbySnapshot() || e.NewLobby?)
      modifies this
      ensures Snapshot() == Apply(old(Snapshot()), e)
      ensures sent == old(sent)
      ensures pushed == if Navigation(e).Some? then old(pushed) + [Navigation(e).value] else old(pushed)
      ensures hasSocket == old(hasSocket)
    {
      if e.SelectionComplete? {
        phase := Guessing;
      } else if e.CorrectGuess? {
        status, phase := Some(Win), Results;
      } else if e.PlayerScored? {
        status, phase := Some(Lose), Results;
      } else if e.LeavesLobby() {
        ExitLobby();
      } else if e.ConnectedError? {
        connectedError := true;
      }
      // incorrect_guess, start_failed, join_failed: a toast only; other types: logged
    }

    /** The `lobby_created` / `lobby_joined` case. */
    method EnterLobby(l: Lobby)
      modifies this
      ensures Snapshot() == old(Snapshot()).(currentLobby := Some(l), phase := Selection)
      ensures pushed == old(pushed) + ["/lobby"]
      ensures sent == old(sent) && hasSocket == old(hasSocket)
    {
      currentLobby := Some(l);
      pushed := pushed + ["/lobby"];
      phase := Selection;
    }

    /** The `rematch_started` case. */
    method StartRematch(imgs: seq<string>)
      modifies this
      ensures Snapshot() == old(Snapshot()).(images := imgs, selectedIndexes := [], ownImage := None,
                                             phase := Selection, status := None, refreshKey := old(refreshKey) + 1)
      ensures sent == old(sent) && pushed == old(pushed) && hasSocket == old(hasSocket)
    {
      images := [];
      selectedIndexes := [];
      ownImage := None;
      images := imgs;
      phase := Selection;
      status := None;
      refreshKey := refreshKey + 1;
    }

    /** The `kicked` / `lobby_closed` / `player_left_in_results` cases. */
    method ExitLobby()
      modifies this
      ensures Snapshot() == old(Snapshot()).(currentLobby := None, status := None)
      ensures pushed == old(pushed) + ["/rooms"]
      ensures sent == old(sent) && hasSocket == old(hasSocket)
    {
      pushed := pushed + ["/rooms"];
      currentLobby := None;
      status := None;
    }

    method HandleCreateLobby(request: LobbyRequest)
      modifies this
      ensures sent == old(sent) + SendIf(hasSocket, CreateLobby(request))
      ensures Snapshot() == old(Snapshot()) && pushed == old(pushed) && hasSocket == old(hasSocket)
    {
      if hasSocket {
        sent := sent + [CreateLobby(request)];
      }
    }

    /** `answer` is what the password prompt returned; it is asked only for a
        protected lobby. */
    method HandleJoinLobby(lobbyId: string, hasPassword: bool, answer: Option<string>)
      modifies this
      ensures sent == old(sent) + SendIf(hasSocket, JoinLobby(lobbyId, JoinPassword(hasPassword, answer)))
      ensures Snapshot() == old(Snapshot()) && pushed == old(pushed) && hasSocket == old(hasSocket)
    {
      var password := if hasPassword then answer else None;
      if hasSocket {
        sent := sent + [JoinLobby(lobbyId, password)];
      }
    }

    /** A successful sign-in goes to the room list (the lobby fetch it also
        starts is not modelled). */
    method HandleAuthSuccess()
      modifies this
      ensures pushed == old(pushed) + ["/rooms"]
      ensures Snapshot() == old(Snapshot()) && sent == old(sent) && hasSocket == old(hasSocket)
    {
      pushed := pushed + ["/rooms"];
    }

    method HandleReadyClick()
      modifies this
      ensures sent == old(sent) + SendIf(hasSocket, Ready)
      ensures Snapshot() == old(Snapshot()) && pushed == old(pushed) && hasSocket == old(hasSocket)
    {
      if hasSocket {
        sent := sent + [Ready];
      }
    }

    /** `start_game` is suppressed while the lobby has fewer than two players. */
    method HandleStartGame()
      modifies this
      ensures sent == old(sent) + (if StartAllowed(old(currentLobby)) then SendIf(hasSocket, StartGame(false)) else [])
      ensures Snapshot() == old(Snapshot()) && pushed == old(pushed) && hasSocket == old(hasSocket)
    {
      if currentLobby.Some? && currentLobby.value.playerCount < 2 {
        return;
      }
      if hasSocket {
        sent := sent + [StartGame(false)];
      }
    }

    /** A rematch that passes the player-count guard also resets the board locally. */
    method HandleRematch()
      modifies this
      ensures !StartAllowed(old(currentLobby)) ==> Snapshot() == old(Snapshot()) && sent == old(sent)
      ensures StartAllowed(old(currentLobby)) ==>
        Snapshot() == old(Snapshot()).(images := [], selectedIndexes := [], ownImage := None,
                                       status := None, phase := Selection)
        && sent == old(sent) + SendIf(hasSocket, StartGame(true))
      ensures pushed == old(pushed) && hasSocket == old(hasSocket)
    {
      if currentLobby.Some? && currentLobby.value.playerCount < 2 {
        return;
      }
      images := [];
      selectedIndexes := [];
      ownImage := None;
      if hasSocket {
        sent := sent + [StartGame(true)];
      }
      status := None;
      phase := Selection;
    }

    method HandleCharacterDiscard(character: string)
      modifies this
      ensures sent == old(sent) + SendIf(hasSocket, DiscardCharacter(character))
      ensures Snapshot() == old(Snapshot()) && pushed == old(pushed) && hasSocket == old(hasSocket)
    {
      if hasSocket {
        sent := sent + [DiscardCharacter(character)];
      }
    }

    method HandleOwnCharacterSelect(character: string)
      modifies this
      ensures sent == old(sent) + SendIf(hasSocket, SelectOwnCharacter(character))
      ensures Snapshot() == old(Snapshot()) && pushed == old(pushed) && hasSocket == old(hasSocket)
    {
      if hasSocket {
        sent := sent + [SelectOwnCharacter(character)];
      }
    }

    /** `guess` is sent only on the user's turn; otherwise nothing changes. */
    method HandleGuessCharacter(user: Option<User>, character: string)
      modifies this
      ensures sent == old(sent) + (if TurnHeld(user, currentLobby) then SendIf(hasSocket, Guess(character)) else [])
      ensures Snapshot() == old(Snapshot()) && pushed == old(pushed) && hasSocket == old(hasSocket)
    {
      if UserIdOf(user) != UserTurnOf(currentLobby) {
        return;
      }
      if hasSocket {
        sent := sent + [Guess(character)];
      }
    }

    /** `end_turn` is sent only on the user's turn; the turn itself moves only
        when the server's next lobby snapshot says so. */
    method HandleEndTurn(user: Option<User>)
      modifies this
      ensures sent == old(sent) + (if TurnHeld(user, currentLobby) then SendIf(hasSocket, EndTurnCommand) else [])
      ensures Snapshot() == old(Snapshot()) && pushed == old(pushed) && hasSocket == old(hasSocket)
    {
      if UserIdOf(user) != UserTurnOf(currentLobby) {
        return;
      }
      if hasSocket {
        sent := sent + [EndTurnCommand];
      }
    }

    /** Leaving from the results screen tells the server so with `in_result`. */
    method HandleLeaveGameInResults()
      modifies this
      ensures sent == old(sent) + SendIf(hasSocket, LeaveLobby(true))
      ensures pushed == old(pushed) + ["/rooms"]
      ensures Snapshot() == old(Snapshot()).(currentLobby := None, status := None)
      ensures hasSocket == old(hasSocket)
    {
      if hasSocket {
        sent := sent + [LeaveLobby(true)];
      }
      pushed := pushed + ["/rooms"];
      currentLobby := None;
      status := None;
    }

    method HandleLeaveGame()
      modifies this
      ensures sent == old(sent) + SendIf(hasSocket, LeaveLobby(false))
      ensures pushed == old(pushed) + ["/rooms"]
      ensures Snapshot() == old(Snapshot()).(currentLobby := None, status := None)
      ensures hasSocket == old(hasSocket)
    {
      if hasSocket {
        sent := sent + [LeaveLobby(false)];
      }
      pushed := pushed + ["/rooms"];
      currentLobby := None;
      status := None;
    }

    method HandleRefresh()
      modifies this
      ensures Snapshot() == old(Snapshot()).(refreshKey := old(refreshKey) + 1)
      ensures sent == old(sent) && pushed == old(pushed) && hasSocket == old(hasSocket)
    {
      refreshKey := refreshKey + 1;
    }

    /** Local selection setters the board uses (`setOwnImage`, `setSelectedIndexes`). */
    method SetOwnImage(image: string)
      modifies this
      ensures Snapshot() == old(Snapshot()).(ownImage := Some(image))
      ensures sent == old(sent) && pushed == old(pushed) && hasSocket == old(hasSocket)
    {
      ownImage := Some(image);
    }

    method SetSelectedIndexes(indexes: seq<string>)
      modifies this
      ensures Snapshot() == old(Snapshot()).(selectedIndexes := indexes)
      ensures sent == old(sent) && pushed == old(pushed) && hasSocket == old(hasSocket)
    {
      selectedIndexes := indexes;
    }
  }
}
