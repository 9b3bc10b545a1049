# Khawawish: a verified model of the game client and its data helpers

Khawawish is an online "guess who" game. Players sign in, create or join a lobby,
each secretly picks a character, and then they take turns discarding characters
and guessing the opponent's one. The server pushes lobby snapshots and game
events over a WebSocket, and the browser clients mirror them locally. A Python
side prepares the character images: it filters the analysed images, computes
attributes per character and picks a balanced set for a game. It also stores
uploaded files in S3-compatible storage.

This project models the following parts in Dafny and proves properties of them:

- **The session reducer of the current client.** This is `GameProvider` (module
  `GameContext`). It covers how each server event changes the mirrored state,
  the one reply the client sends (`pong`), and the command handlers with their
  turn guard and player-count guard.
- **The two older clients, `app/page.tsx` and `App.tsx`** (modules `HomePage` and
  `RootApp`). Each is proved to agree with the next client on every state slot
  the two share.
- **The shared wire vocabulary and guards** (module `Protocol`).
- **The game board** (module `Board`): what a tile click does in each phase, the
  Guess/Discard switch, when the action buttons are enabled, and the zoom viewer.
- **The create-lobby form** (module `CreateLobbyForm`).
- **The `GameWebSocket` wrapper** (module `ReconnectingSocket`): exponential
  backoff reconnection and the handler registry.
- **The leaderboard page's view parameters** (module `RanksView`), including
  JavaScript's `parseInt` on the "minimum games" input.
- **The user-search page's debounced query effect** (module `UserSearch`).
- **The image-description record and its queries** (module `CharacterData`),
  **`filter_images`** (module `ImageFilter`), and **`compute_character_attributes`
  with `select_balanced_characters`** (module `CharacterSelection`).
- **The storage configuration, object keys, URLs and upload/delete outcomes**
  (module `Storage`).
- **Shared string helpers** (module `Text`): JavaScript `trim`, Python
  `rstrip`, and decimal rendering.

Where state is changed one setter at a time, the model is a class whose
methods update fields in place. Each such method is tied to a pure `Apply` or
`Step` function on a snapshot record. Properties over whole runs of events are
lemmas about those functions.

The phase and status events (`selection_complete`,
`correct_guess`, `player_scored`) take effect whatever the current phase is.
Nothing restricts them to the order selection, then guessing, then results.

## Model

| member | source | states |
|---|---|---|
| Protocol.TurnHeld | frontend/src/contexts/GameContext.tsx:301-316 | the turn guard holds iff the signed-in user is the lobby's `user_turn`, or there is no user and the lobby or its `user_turn` is missing (both sides `undefined`) |
| Protocol.StartAllowed | frontend/src/contexts/GameContext.tsx:270-277 | a start is allowed iff there is no lobby (`undefined < 2` is false) or the lobby has at least two players |
| GameContext.ApplyByField | frontend/src/contexts/GameContext.tsx:128-208 | for every event, each state slot after the switch is the value that event writes, or the old value when the event does not write that slot |
| GameContext.LobbySnapshotOnlyReplacesLobby | frontend/src/contexts/GameContext.tsx:155-162 | the six lobby-snapshot events replace `currentLobby` with the payload, change nothing else and do not navigate |
| GameContext.NotificationsChangeNothing | frontend/src/contexts/GameContext.tsx:133-135 | `ping`, `incorrect_guess`, `start_failed`, `join_failed` and unknown types leave the state unchanged |
| GameContext.ApplyIdempotent | frontend/src/contexts/GameContext.tsx:128-208 | handling an event twice equals handling it once, iff the event is not `rematch_started` (which bumps the refresh key again) |
| GameContext.LastLobbySnapshotWins | frontend/src/contexts/GameContext.tsx:155-162 | after a non-empty run of lobby snapshots, the lobby is the last payload and every other slot is unchanged |
| GameContext.ConnectedErrorSticky | frontend/src/contexts/GameContext.tsx:202-204 | after any run, `connectedError` is set iff it was set before or the run contains a `connected_error` |
| GameContext.OnePongPerPing | frontend/src/contexts/GameContext.tsx:133-135 | the message handler sends exactly one `pong` per `ping`, and nothing else |
| GameContext.WinOnlyFromCorrectGuess | frontend/src/contexts/GameContext.tsx:172-180 | status is `Win` after a run only if it already was, or a `correct_guess` arrived |
| GameContext.LobbyCreatedScenario | frontend/src/contexts/GameContext.tsx:136-141 | `lobby_created` installs exactly the lobby it carries and sets the phase to selection, from any state |
| GameContext.LoseThenRematchScenario | frontend/src/contexts/GameContext.tsx:142-150 | `player_scored` sets Lose and results; a following `rematch_started` clears status, returns to selection and installs exactly the new images with an empty selection |
| GameContext.GameProvider.constructor | frontend/src/contexts/GameContext.tsx:57-69 | the initial hook values: selection phase, no status, no lobby, no images, no selection, no socket |
| GameContext.GameProvider.OnToken | frontend/src/contexts/GameContext.tsx:110-122 | a socket is opened only when there is a token and no socket yet; the state is unchanged |
| GameContext.GameProvider.OnOpen | frontend/src/contexts/GameContext.tsx:124-126 | opening the socket sends `sign` and nothing else |
| GameContext.GameProvider.OnMessage | frontend/src/contexts/GameContext.tsx:128-208 | the new state is `Apply` of the old state and the event; a `pong` is sent iff the event is `ping`; navigation goes to `/lobby`, `/game` or `/rooms` as the event dictates |
| GameContext.GameProvider.OnLobbyMessage | frontend/src/contexts/GameContext.tsx:133-165 | the same, for the cases carrying a lobby, images or the lobby list |
| GameContext.GameProvider.OnGameMessage | frontend/src/contexts/GameContext.tsx:166-207 | the same, for the game-progress, leave and error cases; nothing is sent |
| GameContext.GameProvider.EnterLobby | frontend/src/contexts/GameContext.tsx:136-141 | installs the lobby, sets the phase to selection and navigates to `/lobby` |
| GameContext.GameProvider.StartRematch | frontend/src/contexts/GameContext.tsx:142-150 | installs the new images, clears the selection and own image, resets the phase and status, and bumps the refresh key |
| GameContext.GameProvider.ExitLobby | frontend/src/contexts/GameContext.tsx:181-201 | clears the lobby and status and navigates to `/rooms` |
| GameContext.GameProvider.HandleCreateLobby | frontend/src/contexts/GameContext.tsx:236-248 | sends `create_lobby` with the form's payload when a socket exists; no state change |
| GameContext.GameProvider.HandleJoinLobby | frontend/src/contexts/GameContext.tsx:250-259 | sends `join_lobby` with the id and the prompted password (`null` for open lobbies) |
| GameContext.GameProvider.HandleAuthSuccess | frontend/src/contexts/GameContext.tsx:261-264 | navigates to `/rooms` |
| GameContext.GameProvider.HandleReadyClick | frontend/src/contexts/GameContext.tsx:266-268 | sends `ready` |
| GameContext.GameProvider.HandleStartGame | frontend/src/contexts/GameContext.tsx:270-277 | sends `start_game` only if the player-count guard allows it |
| GameContext.GameProvider.HandleRematch | frontend/src/contexts/GameContext.tsx:279-291 | when the guard refuses, nothing changes; otherwise the board is reset locally and `start_game` with `is_rematch` is sent |
| GameContext.GameProvider.HandleCharacterDiscard | frontend/src/contexts/GameContext.tsx:293-295 | sends `discard_character` |
| GameContext.GameProvider.HandleOwnCharacterSelect | frontend/src/contexts/GameContext.tsx:297-299 | sends `select_own_character` |
| GameContext.GameProvider.HandleGuessCharacter | frontend/src/contexts/GameContext.tsx:301-307 | sends `guess` only on the user's turn; the state is unchanged |
| GameContext.GameProvider.HandleEndTurn | frontend/src/contexts/GameContext.tsx:309-316 | sends `end_turn` only on the user's turn; the turn itself moves only with the next lobby snapshot |
| GameContext.GameProvider.HandleLeaveGameInResults | frontend/src/contexts/GameContext.tsx:318-323 | sends `leave_lobby` with `in_result`, clears the lobby and status, navigates to `/rooms` |
| GameContext.GameProvider.HandleLeaveGame | frontend/src/contexts/GameContext.tsx:324-329 | sends `leave_lobby`, clears the lobby and status, navigates to `/rooms` |
| GameContext.GameProvider.HandleRefresh | frontend/src/contexts/GameContext.tsx:67 | bumps the refresh key and changes nothing else |
| GameContext.GameProvider.SetOwnImage | frontend/src/contexts/GameContext.tsx:69 | `setOwnImage` writes only the own image |
| GameContext.GameProvider.SetSelectedIndexes | frontend/src/contexts/GameContext.tsx:68 | `setSelectedIndexes` writes only the selection |
| HomePage.ScreenByEvent | frontend/src/app/page.tsx:86-162 | only `game_started` shows the board, only the leave events return to the lobby screen, and only entering a lobby opens the waiting room |
| HomePage.LeaveEventsAgree | frontend/src/app/page.tsx:132-155 | `kicked`, `lobby_closed` and `player_left_in_results` all end in the same state: lobby screen, no lobby, no sub-page, no status |
| HomePage.SnapshotsReplaceOneSlot | frontend/src/app/page.tsx:106-116 | lobby snapshots replace only the lobby, and `new_lobby` only the lobby list |
| HomePage.RunKeepsWaitingHasLobby | frontend/src/app/page.tsx:86-162 | no run of events leaves the waiting room showing without a lobby |
| HomePage.NeverBackToAuth | frontend/src/app/page.tsx:86-162 | once past the sign-in screen, no event brings it back |
| HomePage.ApplyAgreesWithContext | frontend/src/app/page.tsx:86-162 | one event at a time, this page and the context provider write every shared slot alike |
| HomePage.RunAgreesWithContext | frontend/src/app/page.tsx:86-162 | on every shared slot, this page handles any run of events exactly as the context provider does |
| HomePage.App.constructor | frontend/src/app/page.tsx:25-52 | the initial hook values: sign-in screen, no lobby, no socket |
| HomePage.App.OnToken | frontend/src/app/page.tsx:68-76 | a token shows the lobby screen; a socket is opened only with a token and none yet |
| HomePage.App.OnOpen | frontend/src/app/page.tsx:78-80 | opening the socket sends `sign` |
| HomePage.App.OnMessage | frontend/src/app/page.tsx:86-162 | the new state is this page's `Apply`; a `pong` is sent iff the event is `ping` |
| HomePage.App.OnLobbyMessage | frontend/src/app/page.tsx:87-116 | the same, for the cases carrying a lobby, images or the lobby list |
| HomePage.App.StartRematch | frontend/src/app/page.tsx:96-101 | installs the new images, resets phase and status, bumps the refresh key |
| HomePage.App.OnGameMessage | frontend/src/app/page.tsx:117-161 | the same, for the game-progress, leave and error cases; nothing is sent |
| HomePage.App.ResetToLobby | frontend/src/app/page.tsx:132-138 | back to the lobby screen with no lobby, sub-page or status |
| HomePage.App.HandleAuthSuccess | frontend/src/app/page.tsx:215-218 | shows the lobby screen |
| HomePage.App.HandleCreateLobby | frontend/src/app/page.tsx:190-202 | sends `create_lobby` when a socket exists |
| HomePage.App.HandleJoinLobby | frontend/src/app/page.tsx:204-213 | sends `join_lobby` with the prompted password (`null` for open lobbies) |
| HomePage.App.HandleReadyClick | frontend/src/app/page.tsx:220-222 | sends `ready` |
| HomePage.App.HandleStartGame | frontend/src/app/page.tsx:224-231 | sends `start_game` only if the player-count guard allows it |
| HomePage.App.HandleRematch | frontend/src/app/page.tsx:233-242 | when the guard refuses, nothing changes; otherwise status and phase are reset and a rematch start is sent |
| HomePage.App.HandleCharacterDiscard | frontend/src/app/page.tsx:244-246 | sends `discard_character` |
| HomePage.App.HandleOwnCharacterSelect | frontend/src/app/page.tsx:248-250 | sends `select_own_character` |
| HomePage.App.HandleGuessCharacter | frontend/src/app/page.tsx:252-258 | sends `guess` only on the user's turn |
| HomePage.App.HandleEndTurn | frontend/src/app/page.tsx:260-267 | sends `end_turn` only on the user's turn |
| HomePage.App.HandleLeaveGameInResults | frontend/src/app/page.tsx:269-275 | sends `leave_lobby` with `in_result` and returns to the lobby screen |
| HomePage.App.HandleLeaveGame | frontend/src/app/page.tsx:276-282 | sends `leave_lobby` and returns to the lobby screen |
| HomePage.App.HandleRefresh | frontend/src/app/page.tsx:52 | bumps the refresh key and changes nothing else |
| RootApp.UnhandledChangesNothing | frontend/src/App.tsx:41-62 | `ping` and every type without a case (`end_turn` and `update_lobby` among them) leave the state unchanged |
| RootApp.ApplyByField | frontend/src/App.tsx:41-62 | each slot after the switch is the value the event writes, or the old value |
| RootApp.GamePageAbsorbing | frontend/src/App.tsx:41-62 | once a game has started, no event leaves the board |
| RootApp.ApplyAgreesWithHomePage | frontend/src/App.tsx:41-62 | on an event it handles, this client writes every slot it has as the later page does |
| RootApp.RunAgreesWithHomePage | frontend/src/App.tsx:41-62 | on runs of handled events, this client and the later page agree on every slot this client has |
| RootApp.App.constructor | frontend/src/App.tsx:13-21 | the initial hook values: sign-in screen, no lobby, no socket |
| RootApp.App.OnToken | frontend/src/App.tsx:23-30 | every token opens a fresh socket, even when one exists, and shows the lobby screen |
| RootApp.App.OnOpen | frontend/src/App.tsx:32-34 | opening the socket sends `sign` |
| RootApp.App.OnMessage | frontend/src/App.tsx:36-63 | the new state is this client's `Apply`; a `pong` is sent iff the event is `ping` |
| RootApp.App.HandleAuthSuccess | frontend/src/App.tsx:105-108 | shows the lobby screen |
| RootApp.App.HandleCreateLobby | frontend/src/App.tsx:80-92 | sends `create_lobby` when a socket exists |
| RootApp.App.HandleJoinLobby | frontend/src/App.tsx:94-103 | sends `join_lobby`; for an open lobby the password is `null` |
| RootApp.App.HandleReadyClick | frontend/src/App.tsx:110-112 | sends `ready` |
| RootApp.App.HandleStartGame | frontend/src/App.tsx:114-116 | sends `start_game` with no player-count guard |
| RootApp.App.HandleCharacterSelect | frontend/src/App.tsx:118-120 | sends `select_character` |
| RootApp.App.HandleOwnCharacterSelect | frontend/src/App.tsx:122-124 | sends `select_own_character` |
| Board.Flip | frontend/src/app/game/page.tsx:429-435 | the mode button always changes the mode |
| Board.FlipTwice | frontend/src/app/game/page.tsx:429-435 | pressing it twice restores the mode |
| Board.IndexKey | frontend/src/app/game/page.tsx:55 | a tile's key, `index.toString()`, is never empty |
| Board.IndexKeyInjective | frontend/src/app/game/page.tsx:55-57 | different tiles never share a key |
| Board.Without | frontend/src/app/game/page.tsx:56 | the filtered list lacks the key, keeps every other member and is no longer |
| Board.Toggle | frontend/src/app/game/page.tsx:54-58 | the key is in the new selection iff it was not in the old one; every other key keeps its membership |
| Board.ToggleKeepsNoDuplicates | frontend/src/app/game/page.tsx:54-58 | a selection without duplicates stays so |
| Board.ToggleTwiceSameSet | frontend/src/app/game/page.tsx:54-58 | discarding the same tile twice restores the selection as a set |
| Board.ToggleTwiceIdentity | frontend/src/app/game/page.tsx:54-58 | when the tile was not discarded, two clicks restore the very same list |
| Board.ActionButtonsEnabled | frontend/src/app/game/page.tsx:442-455 | the Guess and End Turn buttons are enabled iff the phase is guessing and the turn guard holds |
| Board.ZoomOut | frontend/src/app/game/page.tsx:92 | the level drops by exactly 0.25 when that stays at or above 0.5, and is 0.5 otherwise; a level in range stays in range and never rises |
| Board.ZoomIn | frontend/src/app/game/page.tsx:106 | the level rises by exactly 0.25 when that stays at or below 4, and is 4 otherwise; a level in range stays in range and never falls |
| Board.WheelZoom | frontend/src/app/game/page.tsx:144-149 | scrolling down takes 0.15 off the level and anything else adds 0.15; the step is exact when it lands in [0.5, 4], and the nearer bound is taken otherwise |
| Board.ZoomStaysInRange | frontend/src/app/game/page.tsx:90-149 | any sequence of buttons and wheel steps keeps the level in [0.5, 4] |
| Board.GamePage.constructor | frontend/src/app/game/page.tsx:32-34 | Discard mode, no viewer, 100% |
| Board.GamePage.HandleClick | frontend/src/app/game/page.tsx:39-64 | results ignores clicks; selection sets and sends the own character; Alt while guessing opens the viewer at 100%; Discard mode toggles the tile's key and sends the discard; Guess mode sends the guess on the user's turn and returns to Discard |
| Board.GamePage.ToggleAction | frontend/src/app/game/page.tsx:429-435 | flips the mode only |
| Board.GamePage.HandleZoomOut | frontend/src/app/game/page.tsx:92 | applies `ZoomOut` to the level only |
| Board.GamePage.HandleZoomIn | frontend/src/app/game/page.tsx:106 | applies `ZoomIn` to the level only |
| Board.GamePage.HandleWheel | frontend/src/app/game/page.tsx:144-149 | applies `WheelZoom` to the level only |
| Board.GamePage.HandleZoomReset | frontend/src/app/game/page.tsx:117-120 | back to 100% with the viewer still open |
| Board.GamePage.CloseViewer | frontend/src/app/game/page.tsx:129-134 | closes the viewer and resets the level |
| Board.GameComponent.constructor | frontend/src/components/Game.tsx:34-36 | empty selection, no own image, Discard mode, no callbacks |
| Board.GameComponent.HandleClick | frontend/src/components/Game.tsx:38-56 | the same phase and mode cases as the board page, through the parent's callbacks and without the viewer |
| Board.GameComponent.ToggleAction | frontend/src/components/Game.tsx:232-238 | flips the mode only |
| Board.GameComponent.HandleEndTurn | frontend/src/components/Game.tsx:252 | calls the parent's end-turn callback only |
| Board.ComponentSelectionDistinct | frontend/src/components/Game.tsx:46-50 | any sequence of discard clicks keeps the selection free of duplicates |
| CreateLobbyForm.NormalizePassword | frontend/src/components/CreateLobby.tsx:23 | `null` iff the password is blank; otherwise the trimmed password, non-empty and without surrounding whitespace |
| CreateLobbyForm.Submit | frontend/src/components/CreateLobby.tsx:18-25 | the payload carries the form's values, with the password normalised |
| CreateLobbyForm.InitialSubmit | frontend/src/components/CreateLobby.tsx:13-25 | the untouched form asks for 25 images, an empty name, no password, a public lobby |
| CreateLobbyForm.SubmitStable | frontend/src/components/CreateLobby.tsx:23 | typing back the password that was sent sends the same payload |
| CreateLobbyForm.SurroundingWhitespaceIgnored | frontend/src/components/CreateLobby.tsx:23 | passwords that differ only in surrounding whitespace send the same payload |
| ReconnectingSocket.Pow2 | frontend/src/services/websocket.ts:169 | `Math.pow(2, n)` is at least 1 |
| ReconnectingSocket.BackoffSchedule | frontend/src/services/websocket.ts:167-169 | with the base delay the five waits are 1, 2, 4, 8 and 16 seconds |
| ReconnectingSocket.BackoffDoubles | frontend/src/services/websocket.ts:169 | each further attempt waits twice as long as the one before |
| ReconnectingSocket.StepValid | frontend/src/services/websocket.ts:136-186 | every event keeps the delay at its base, the attempts at most five, and a scheduled reconnect tied to a closed socket with the backoff wait |
| ReconnectingSocket.RunValid | frontend/src/services/websocket.ts:136-186 | the same over any run |
| ReconnectingSocket.AttemptsCountReconnects | frontend/src/services/websocket.ts:171-174 | between two successful opens, the attempt counter grows exactly with the sockets created |
| ReconnectingSocket.AtMostFiveReconnects | frontend/src/services/websocket.ts:167 | at most five reconnects happen between two successful opens |
| ReconnectingSocket.RunAsWrittenValid | frontend/src/services/websocket.ts:136-186 | the wrapper as written keeps the same invariant over any run |
| ReconnectingSocket.AttemptsCountReconnectsAsWritten | frontend/src/services/websocket.ts:171-174 | as written, between two opens the attempt counter grows exactly with the sockets created |
| ReconnectingSocket.AtMostFiveReconnectsAsWritten | frontend/src/services/websocket.ts:167 | the wrapper as written also makes at most five reconnects between two successful opens |
| ReconnectingSocket.OpenRestoresBudget | frontend/src/services/websocket.ts:182-186 | a successful open resets the attempts to 0 and the delay to 1000 ms |
| ReconnectingSocket.TimerAfterCloseReconnects | frontend/src/services/websocket.ts:171-174 | as written: a socket drops, `close()` is called, the timer fires, and a new socket connects although the wrapper is closing |
| ReconnectingSocket.NoReconnectAfterClose | frontend/src/services/websocket.ts:224-232 | with the timer honouring `isClosing`, no socket is created after `close()` |
| ReconnectingSocket.EventDeliveries | frontend/src/services/websocket.ts:193 | one delivery per handler, in registration order, each with the event |
| ReconnectingSocket.MessageDeliveries | frontend/src/services/websocket.ts:197 | one delivery per message handler, in order, each with the text |
| ReconnectingSocket.DispatchOnlyToRegistered | frontend/src/services/websocket.ts:191-199 | a typed handler is called only with an event of its own registered type; message handlers only with the event's `message`; without a message only the typed handlers run |
| ReconnectingSocket.GameWebSocket.constructor | frontend/src/services/websocket.ts:134-147 | one connecting socket, no attempts, base delay, empty registries |
| ReconnectingSocket.GameWebSocket.OnOpen | frontend/src/services/websocket.ts:182-186 | the lifecycle takes the `Opened` step; registries unchanged |
| ReconnectingSocket.GameWebSocket.OnClose | frontend/src/services/websocket.ts:165-176 | the lifecycle takes the `Dropped` step: a backoff reconnect is scheduled unless closing or out of attempts |
| ReconnectingSocket.GameWebSocket.OnReconnectTimer | frontend/src/services/websocket.ts:171-174 | the lifecycle takes the corrected timer step |
| ReconnectingSocket.GameWebSocket.On | frontend/src/services/websocket.ts:201-210 | the handler is appended to its type's list, created if needed; other types are untouched |
| ReconnectingSocket.GameWebSocket.OnMessage | frontend/src/services/websocket.ts:212-214 | the handler is appended to the message handlers |
| ReconnectingSocket.GameWebSocket.HandleEvent | frontend/src/services/websocket.ts:191-199 | the deliveries made are exactly `Dispatch` of the registries and the event |
| ReconnectingSocket.GameWebSocket.CallEventHandlers | frontend/src/services/websocket.ts:193 | the deliveries made are exactly `EventDeliveries` |
| ReconnectingSocket.GameWebSocket.CallMessageHandlers | frontend/src/services/websocket.ts:197 | the deliveries made are exactly `MessageDeliveries` |
| ReconnectingSocket.GameWebSocket.OnFrame | frontend/src/services/websocket.ts:154-163 | a parsed frame is dispatched; an unparseable one goes to the message handlers as raw text |
| ReconnectingSocket.GameWebSocket.Send | frontend/src/services/websocket.ts:216-222 | a message is written iff the socket is open |
| ReconnectingSocket.GameWebSocket.Close | frontend/src/services/websocket.ts:224-232 | latches `isClosing`, closes an open socket, and empties both registries |
| RanksView.Wire | frontend/src/app/ranks/page.tsx:48-53 | every sort option has a non-empty wire name |
| RanksView.WireInjective | frontend/src/app/ranks/page.tsx:48-53 | different sort options send different `sort_by` names |
| RanksView.Flip | frontend/src/app/ranks/page.tsx:199 | the order button always changes the order |
| RanksView.FlipInvolution | frontend/src/app/ranks/page.tsx:199 | pressing it twice restores the order |
| RanksView.PrevPage | frontend/src/app/ranks/page.tsx:574 | "Previous" goes back one page but never below 1 |
| RanksView.NextPage | frontend/src/app/ranks/page.tsx:590-592 | "Next" goes forward one page but never past `total_pages` |
| RanksView.PagingStaysInRange | frontend/src/app/ranks/page.tsx:574-592 | from a page in [1, total], both buttons stay in range and move by at most one |
| RanksView.DigitRun | frontend/src/app/ranks/page.tsx:275 | the length of the leading digit run: all digits, and the next character is not one |
| RanksView.ParseInt | frontend/src/app/ranks/page.tsx:275 | `NaN` iff no digit follows the leading whitespace and sign; non-negative without a minus sign |
| RanksView.ParseMinGames | frontend/src/app/ranks/page.tsx:275 | `parseInt(value) \|\| 0`: 0 on `NaN`, otherwise the parsed value |
| RanksView.ParseIntDigits | frontend/src/app/ranks/page.tsx:275 | a plain digit string parses to the number it denotes |
| RanksView.ParseIntReads | frontend/src/app/ranks/page.tsx:275 | leading whitespace, an optional `-` or `+`, digits, then text not starting with a digit: the value of the digits, negated after `-` |
| RanksView.ParseMinGamesRoundTrip | frontend/src/app/ranks/page.tsx:274-277 | the decimal text of a count parses back to that count |
| RanksView.ParseMinGamesEmpty | frontend/src/app/ranks/page.tsx:275 | a cleared input counts as no minimum |
| RanksView.RankView.constructor | frontend/src/app/ranks/page.tsx:99-110 | games won, descending, page 1 of 20, no minimum, filters hidden, and the mount load issued |
| RanksView.RankView.Reload | frontend/src/app/ranks/page.tsx:107-110 | the leaderboard is loaded again iff a parameter changed |
| RanksView.RankView.SelectSort | frontend/src/app/ranks/page.tsx:181 | sets the sort key; a load is issued iff it changed |
| RanksView.RankView.ToggleOrder | frontend/src/app/ranks/page.tsx:199 | flips the order and always reloads |
| RanksView.RankView.SetShowFilters | frontend/src/app/ranks/page.tsx:213-253 | shows or hides the panel without loading |
| RanksView.RankView.ChangeMinGames | frontend/src/app/ranks/page.tsx:274-277 | sets the parsed minimum and page 1; reloads iff a parameter changed |
| RanksView.RankView.SetMinGames | frontend/src/app/ranks/page.tsx:275-276 | a new minimum moves back to page 1 and reloads iff a parameter changed; the page size stays a select option |
| RanksView.RankView.ChangePageSize | frontend/src/app/ranks/page.tsx:289-298 | sets one of the offered sizes and page 1; reloads iff a parameter changed |
| RanksView.RankView.ResetFilters | frontend/src/app/ranks/page.tsx:306-309 | no minimum and page 1, sort and size kept; reloads iff a parameter changed |
| RanksView.RankView.PreviousPage | frontend/src/app/ranks/page.tsx:574 | moves back a page; on page 1 nothing is loaded |
| RanksView.RankView.NextPageOf | frontend/src/app/ranks/page.tsx:590-592 | moves forward a page; on the last page nothing is loaded; past the last page it moves back to it and loads |
| UserSearch.Validate | frontend/src/app/users/page.tsx:45-55 | blank iff the trimmed query is empty; too short iff not blank and under 2 UTF-16 code units untrimmed; searched otherwise |
| UserSearch.OneCharacterQuery | frontend/src/app/users/page.tsx:51 | a one-character query is too short unless the character is outside the Basic Multilingual Plane |
| UserSearch.EmojiIsSearched | frontend/src/app/users/page.tsx:51 | "😀", one character and two code units, is searched |
| UserSearch.PaddedLetterIsSearched | frontend/src/app/users/page.tsx:51 | the length test is on the untrimmed query: `" a"` is searched, `"a"` is rejected |
| UserSearch.QueryEffectAsWritten | frontend/src/app/users/page.tsx:40-80 | as written: the pending search is cancelled, and the blank and too-short branches leave `loading` as it was |
| UserSearch.SpinnerStuckAsWritten | frontend/src/app/users/page.tsx:45-58 | typing "ab" then clearing the box leaves the spinner on with nothing scheduled or in flight |
| UserSearch.QueryEffect | frontend/src/app/users/page.tsx:40-80 | corrected effect: each branch's results, error and spinner, and the spinner is on only with a search scheduled or in flight |
| UserSearch.QueryEffectOnlyFixesSpinner | frontend/src/app/users/page.tsx:45-58 | the correction agrees with the page wherever it searches, and differs only in `loading` |
| UserSearch.ChangeQuery | frontend/src/app/users/page.tsx:80 | the corrected effect (see Findings) runs only when the query changed |
| UserSearch.FireTimer | frontend/src/app/users/page.tsx:60-67 | the scheduled query is sent once with limit 30 and becomes in flight |
| UserSearch.SettleRequest | frontend/src/app/users/page.tsx:68-78 | a settled request leaves the in-flight list and turns the spinner off; success shows the results (with the "no users" message when empty), failure shows the error and no results |
| UserSearch.StepKeepsSpinnerJustified | frontend/src/app/users/page.tsx:40-80 | with the corrected effect, no event shows the spinner without a search scheduled or in flight |
| UserSearch.RunKeepsSpinnerJustified | frontend/src/app/users/page.tsx:40-80 | the same over any run of typing, timers and responses |
| UserSearch.StepKeepsRequestsWellFormed | frontend/src/app/users/page.tsx:60-67 | every request sent carries limit 30 and a query that passed validation |
| UserSearch.RunKeepsRequestsWellFormed | frontend/src/app/users/page.tsx:60-67 | the same over any run |
| UserSearch.LatestQueryWins | frontend/src/app/users/page.tsx:41-43 | a new query replaces a scheduled one: only the latest is sent when the timer fires |
| UserSearch.SearchPage.constructor | frontend/src/app/users/page.tsx:33-37 | empty query and results, no spinner, no error |
| UserSearch.SearchPage.SetQuery | frontend/src/app/users/page.tsx:40-80 | the corrected effect (see Findings): the new state is `ChangeQuery` of the old, and the spinner invariant holds |
| UserSearch.SearchPage.OnTimer | frontend/src/app/users/page.tsx:60-67 | the new state is `FireTimer` of the old |
| UserSearch.SearchPage.OnSettled | frontend/src/app/users/page.tsx:68-78 | the new state is `SettleRequest` of the old |
| CharacterData.InsertByProminence | data/data.py:73 | inserting adds exactly the one colour |
| CharacterData.InsertSorted | data/data.py:73 | inserting into a list sorted by prominence keeps it sorted |
| CharacterData.SortByProminence | data/data.py:73 | the result is sorted by descending prominence and is a permutation of the input |
| CharacterData.WithProminence | data/data.py:73 | the colours of one prominence, drawn from the list, with that prominence |
| CharacterData.WithProminenceAppend | data/data.py:73 | the colours of one prominence in a concatenation are those of each part, in order |
| CharacterData.InsertStable | data/data.py:73 | inserting into a sorted list puts the new colour after every colour of equal prominence |
| CharacterData.SortStable | data/data.py:73 | the sort is stable: for every prominence, those colours come out in their input order |
| CharacterData.PrefixLength | data/data.py:73 | how many items `xs[:limit]` keeps, with negative limits counting from the end |
| CharacterData.DominantColors | data/data.py:71-73 | `limit` colours (as a Python slice counts them), sorted by prominence, drawn from the image's colours |
| CharacterData.DominantColorsAreTop | data/data.py:71-73 | no colour left out is more prominent than one kept |
| CharacterData.DominantColorsStable | data/data.py:71-73 | on a tie the earliest colours in the input are kept: for every prominence the kept colours are a prefix of the input's |
| CharacterData.Join | data/data.py:83 | joining no parts gives "", and one part gives that part |
| CharacterData.JoinLength | data/data.py:83 | the joined text is as long as all the parts plus one space between each pair of neighbours |
| CharacterData.JoinSplit | data/data.py:83 | cutting the parts at any point cuts the joined text at one space: the front joined, a space, the back joined |
| CharacterData.JoinHead | data/data.py:83 | with two or more parts the joined text is the first part, a space, and the rest joined |
| CharacterData.JoinPartAt | data/data.py:83 | every inner part appears whole between the joined text before it and after it, with one space on each side |
| CharacterData.Contents | data/data.py:83 | the contents of the text elements, in order |
| CharacterData.TextContent | data/data.py:79-83 | "" without text elements, the single content with one |
| CharacterData.TextContentLength | data/data.py:79-83 | the text is all the contents plus one separator between each pair |
| CharacterData.TextContentSplit | data/data.py:79-83 | the text is the first `k` contents joined, a space, and the other contents joined |
| CharacterData.CharEntries | data/data.py:98-100 | every detail but the name appears under `char_<key>` with its value, and nothing else |
| CharacterData.DetailEntries | data/data.py:94-100 | `character` is present iff the details are truthy; the other keys are `char_` keys, never `char_name` |
| CharacterData.ColorEntries | data/data.py:102-107 | `dom_color1`/`dom_color2` exist iff there are at least 1/2 colours, and name the two most prominent |
| CharacterData.SceneKeyNotOverridden | data/data.py:87-107 | the four scene keys are never overwritten by detail or colour entries |
| CharacterData.KeyAttributesScene | data/data.py:87-92 | the result always holds the description's summary, scene, setting and time of day |
| CharacterData.KeyAttributesNoCharName | data/data.py:98-100 | the name detail is never copied under `char_name` |
| CharacterData.DetailKeyNotColor | data/data.py:94-107 | colour entries never overwrite a character entry |
| CharacterData.KeyAttributesCharacter | data/data.py:94-100 | the character keys are present exactly when the details are truthy, with the name (or "Unknown") and each other detail |
| CharacterData.KeyAttributesColors | data/data.py:102-107 | the colour keys name the top two colours, when there are that many |
| ImageFilter.Without | data/data.py:139-161 | the entries kept are exactly those not rejected, in order |
| ImageFilter.DropWhere | data/data.py:139-141 | one deletion pass keeps exactly `Without` of the snapshot |
| ImageFilter.Relocated | data/data.py:165 | only the path changes, to `static/images/<key>` |
| ImageFilter.RelocateAll | data/data.py:164-165 | every entry is relocated, in order |
| ImageFilter.RelocatePaths | data/data.py:164-165 | the path loop relocates every entry |
| ImageFilter.FilterSpec | data/data.py:133-175 | the filter never grows the dict |
| ImageFilter.FilterImages | data/data.py:133-175 | the seven loops compute exactly the one-pass filter |
| ImageFilter.PassesSingle | data/data.py:139-170 | on one entry, the passes keep its relocated copy iff it survives |
| ImageFilter.PassesAgreeWithSpec | data/data.py:139-170 | running the passes one after another is the one-pass filter |
| ImageFilter.FilterMembership | data/data.py:133-175 | an entry is in the result iff it is the relocated copy of a surviving input entry |
| ImageFilter.FilterSurvivors | data/data.py:138-170 | every survivor passed the five quality tests, points into the static folder where a file exists, and keeps an input key |
| ImageFilter.FilterIdempotent | data/data.py:133-175 | filtering a filtered dict changes nothing |
| ImageFilter.FilterKeepsDistinctKeys | data/data.py:133-175 | the filter keeps the keys distinct |
| CharacterSelection.CharacterName | data/data.py:184-190 | a character name, when there is one, is never empty |
| CharacterSelection.CharacterNameChoice | data/data.py:184-190 | a non-empty name detail wins; otherwise the first object's non-empty name; no name iff neither exists |
| CharacterSelection.AttrStrings | data/data.py:198-199 | exactly the `name:value` strings of the attributes |
| CharacterSelection.ObjectAttrs | data/data.py:197-199 | exactly the `name:value` strings of every object's attributes |
| CharacterSelection.Attributes | data/data.py:194-214 | the attribute set always holds the scene, setting and time-of-day entries |
| CharacterSelection.CollectObjectAttrs | data/data.py:197-199 | the nested loops compute `ObjectAttrs` |
| CharacterSelection.AddAttrStrings | data/data.py:198-199 | the inner loop adds exactly the `name:value` texts of one object's attributes to the set |
| CharacterSelection.CollectDetailAttrs | data/data.py:202-205 | the details loop computes `character_<key>:<value>` for every detail but the name |
| CharacterSelection.CollectColorAttrs | data/data.py:213-214 | the colour loop computes `color:<name>` for the top two colours |
| CharacterSelection.ComputeAttributes | data/data.py:194-214 | the collection computes `Attributes` |
| CharacterSelection.Infos | data/data.py:178-223 | one info per named image at most, each with the image's name and attribute set |
| CharacterSelection.InfosFromEntries | data/data.py:182-221 | every info comes from an input image, under its own key |
| CharacterSelection.InfosComplete | data/data.py:182-221 | every named input image has an info |
| CharacterSelection.ComputeCharacterAttributes | data/data.py:178-223 | the loop computes `Infos` |
| CharacterSelection.NoCharacterNameEntry | data/data.py:194-214 | when no object attribute is itself named `character_name…` and no detail key starts with `name:`, no attribute entry starts with `character_name:` |
| CharacterSelection.CharacterNameEntryFromObject | data/data.py:197-199 | without that condition it fails: an object attribute called `character_name` yields a `character_name:` entry |
| CharacterSelection.FirstWithName | data/data.py:245-250 | the index of the first info with the name, or none iff no info has it |
| CharacterSelection.GroupNames | data/data.py:245-254 | the group names are exactly the names present, without duplicates |
| CharacterSelection.GroupImages | data/data.py:245-250 | a group holds only keys of infos with its name, and is empty iff no info has the name |
| CharacterSelection.GroupImagesHead | data/data.py:245-250 | a group's first key is that of the first info with its name |
| CharacterSelection.Lookup | data/data.py:217-221 | finds the info under a key, or none iff no info has that key |
| CharacterSelection.InfosDistinct | data/data.py:217-221 | distinct image keys give distinct info keys |
| CharacterSelection.FirstInfoIsFirstImage | data/data.py:182-250 | the first info with a name describes the first input image with that name |
| CharacterSelection.GroupByName | data/data.py:245-250 | the grouping loop yields the names in first-seen order and each name's image keys |
| CharacterSelection.PickBest | data/data.py:321 | `max` by score picks a candidate of highest score, the first such one |
| CharacterSelection.RemoveFirst | data/data.py:324 | `list.remove` drops one occurrence of a present value and leaves the list alone otherwise |
| CharacterSelection.DistinctCounts | data/data.py:254 | a list has no duplicates iff it holds each value at most once |
| CharacterSelection.GroupNameHasImage | data/data.py:245-250 | every group name is the name of some input image |
| CharacterSelection.ImageNameIsGroupName | data/data.py:245-250 | the name of every named input image is a group name |
| CharacterSelection.Representative | data/data.py:275-276 | a group's first key looks up the first image with that name |
| CharacterSelection.TakeBest | data/data.py:294-324 | one round picks a best-scoring remaining name, appends its group's first key, and removes the name |
| CharacterSelection.GreedySelect | data/data.py:271-324 | the loop picks exactly `count` names from the shuffled list, each with its group's first key |
| CharacterSelection.PickedDistinct | data/data.py:289-324 | names picked from a list without duplicates have none |
| CharacterSelection.ImagesOf | data/data.py:328 | the descriptions of the selected keys, in order |
| CharacterSelection.SelectBalancedCharacters | data/data.py:226-328 | `[]` for a non-positive count or no images; otherwise `min(n, distinct names)` images, pairwise of different characters, each the first image of its character |
| Storage.MakeStorageConfig | models/storage.py:18-37 | an error iff the endpoint lacks `http://`/`https://`; otherwise the URLs lose their trailing slashes, and the region is "auto" when missing or empty |
| Storage.StrippedEndpointKeepsScheme | models/storage.py:29-31 | an endpoint with something besides slashes after its scheme keeps the scheme when stripped |
| Storage.ConfigRebuildStable | models/storage.py:18-37 | building again from a stored configuration gives the same configuration |
| Storage.MakeStorageConfigIdempotent | models/storage.py:18-37 | validating a configuration's own output is a no-op |
| Storage.ObjectKey | models/storage.py:80 | the key is `prefix/`, then for a unique name the UUID itself and `-`, then the filename |
| Storage.UniqueKeysDiffer | models/storage.py:80 | unique uploads with different UUIDs never share a key |
| Storage.UrlsFor | models/storage.py:83-88 | each URL is its base, `/`, and the key |
| Storage.ContentType | models/storage.py:118-121 | the guessed type, or `application/octet-stream` when there is none |
| Storage.StorageManager.constructor | models/storage.py:53-72 | the client is ready iff it could be created |
| Storage.StorageManager.UploadResult | models/storage.py:74-91 | 500 "Storage not initialized" without a client, 500 "Failed to upload file" when the transfer fails, otherwise the key and its three URLs |
| Storage.StorageManager.UploadFile | models/storage.py:74-91 | the upload returns `UploadResult` |
| Storage.StorageManager.DeleteFile | models/storage.py:123-138 | 500 without a client; the client's own error re-raised when deletion fails; success otherwise |
| Storage.StorageManager.Close | models/storage.py:143-150 | the client is dropped, so later uploads fail |
| Text.TrimStart | frontend/src/components/CreateLobby.tsx:23 | a suffix of the input; what is cut is whitespace, and the result does not start with whitespace |
| Text.TrimEnd | frontend/src/components/CreateLobby.tsx:23 | a prefix of the input; what is cut is whitespace, and the result does not end with whitespace |
| Text.Trim | frontend/src/components/CreateLobby.tsx:23 | empty iff the input is blank; otherwise neither end is whitespace |
| Text.TrimIdempotent | frontend/src/components/CreateLobby.tsx:23 | trimming twice is trimming once |
| Text.TrimPadded | frontend/src/components/CreateLobby.tsx:23 | whitespace around a string does not change its trim |
| Text.RStrip | models/storage.py:31 | a prefix of the input; every character cut is the stripped one, and the result does not end with it |
| Text.RStripIdempotent | models/storage.py:31 | stripping again changes nothing |
| Text.NatToString | frontend/src/app/game/page.tsx:55 | non-empty decimal digits, with no leading zero unless the number is 0 |
| Text.NatToStringRoundTrip | frontend/src/app/game/page.tsx:55 | the digits denote the number |
| Text.Utf16Length | frontend/src/app/users/page.tsx:51 | `.length` counts at least one and at most two code units per character |
| Text.Utf16LengthAppend | frontend/src/app/users/page.tsx:51 | the count of a concatenation is the sum of the counts |
| Text.Utf16LengthBmp | frontend/src/app/users/page.tsx:51 | within the Basic Multilingual Plane the count is the number of characters |
| Text.NatToStringInjective | frontend/src/app/game/page.tsx:55 | different numbers render differently |

## Left out

- Transport and side effects: the browser WebSocket, `fetch`/axios calls (including `fetchLobbies`), toasts, `console` output and `prompt`. Sends and navigation are recorded as outputs. Incoming events are an arbitrary input sequence. The prompt's answer is a parameter. An async fetch's completion is not modelled, so the lobby list changes only through `new_lobby`.
- `setTimeout` timing: the debounce of the user search and the reconnect waits are discrete events (`TimerFired`), not clocks.
- The route-guard and Shift-key effects of the context provider (frontend/src/contexts/GameContext.tsx:74-108). They only redirect or track a key and never touch the session slots.
- Rendering, animations and the zoom viewer's panning and dragging.
- The JSON wire format. Events arrive already parsed into the `Event` datatype. The `JSON.parse` failure in the clients is logged and leaves the state alone, which the model does not show.
- ReconnectingSocket: the room code, player id and URL of `connect()`. The `onerror` handler only logs.
- RanksView: the leaderboard response and its rendering. `total_pages` is a parameter of "Next". `parseInt`'s `0x` hexadecimal prefix is not modelled: the input is a number field.
- UserSearch: requests are never cancelled, so a stale response can overwrite newer results. The model lets any in-flight request settle in any order and states what each settlement does, but proves nothing about which query's results end on screen.
- RanksView.ParseIntDigits: the parsed value is the exact integer of the digits. `parseInt` returns an IEEE double, which rounds above 2^53 and is `Infinity` for digit runs past about 1.8e308.
- RanksView.ParseIntReads: the same exact-integer reading; the page's value rounds to a double for long digit runs.
- RanksView.ParseMinGamesRoundTrip: the round trip is exact integer arithmetic. For counts above 2^53 the page's double would not give the count back.
- Floating point. Colour prominence and zoom levels are `real`, which is exact, not IEEE doubles. The rarity and dissimilarity scores of `select_balanced_characters` are an oracle `score(selected, candidate)`.
- CharacterSelection.SelectBalancedCharacters: does not state which names are picked. The scores are an oracle, and the first pick's rarity-only score is taken to rank candidates as the loop's combined score does with nothing selected yet. `random.shuffle` is an arbitrary permutation. The proved guarantees (count, distinct characters, first image of each) hold whatever the scores and the shuffle are.
- CharacterSelection.CharacterName: its own contract states only that a name is non-empty. The full choice (name detail, then first object, else none) is stated by `CharacterSelection.CharacterNameChoice`.
- An attribute set can contain a `character_name:` entry: an object attribute named `character_name` produces one. `NoCharacterNameEntry` gives the exact condition under which there is none, and `CharacterNameEntryFromObject` the counterexample.
- ImageFilter: `images.copy()` is shallow, so rewriting `image_path` also changes the caller's descriptions. The model returns new values and does not capture that aliasing. `os.path.exists` is a parameter `onDisk`. The log lines are not modelled.
- `load_image_data` (JSON file reading and validation), the module-level `image_analysis`, and the `__main__` demo.
- Storage: the S3/boto3 calls, the thread executors, `convert_to_webp` (PIL), `_upload_fileobj` and `_sync_delete`'s I/O. Whether the client was created, whether a transfer succeeded and the error a delete raised are parameters. `uuid4()` is a parameter. `StorageConfig` is a datatype built by a function, because its fields are assigned once in `__init__` and never changed.
- Storage.StorageManager.Close: models only dropping the client. The executor shutdown is not modelled.
- main.py is not part of this model.
- Board.GamePage.HandleClick: the board page reads `isAltHeld` from `useGame()`, but the context provider declares and supplies only `isShiftHeld` (frontend/src/contexts/GameContext.tsx:28, :70, :346). In the program as it stands the flag is `undefined`, so the Alt branch of frontend/src/app/game/page.tsx:47-51 never runs. The model takes the flag as a parameter and models the branch as the page writes it.
- ReconnectingSocket.GameWebSocket.OnFrame: models only "unparseable text goes to the message handlers raw". The `catch` of frontend/src/services/websocket.ts:154-162 also catches a typed handler that throws, and a `JSON.parse` result that is a number, `null` or a string. The raw text then also goes to the message handlers, possibly after some typed deliveries already happened. The model does not capture those paths.

## Findings

| source | as written | input that shows it | evidently intended | confidence | as-written member | corrected member |
|---|---|---|---|---|---|---|
| frontend/src/services/websocket.ts:167-174, 224-232 | the reconnect timer scheduled in `onclose` does not check `isClosing` when it fires | the socket drops, `close()` is called before the backoff wait ends, then the timer fires: a new socket is created for a closed wrapper | `close()` prevents every later reconnection, as its comment says | not executed | ReconnectingSocket.TimerAfterCloseReconnects | ReconnectingSocket.NoReconnectAfterClose |
| frontend/src/app/users/page.tsx:45-58 | the blank and too-short branches clear the pending timer but never reset `loading` | type "ab", then clear the box within 300 ms: the spinner stays on with no search scheduled or in flight | a query that is not searched also turns the spinner off | not executed | UserSearch.SpinnerStuckAsWritten | UserSearch.RunKeepsSpinnerJustified |
