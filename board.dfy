// The game board: what a click on a character tile does in each phase, the
// Guess/Discard mode switch, when the action buttons are enabled, and the
// zoom viewer's level. The board page (`app/game/page.tsx`) works through the
// context provider; the older `Game` component keeps its own selection.
module Board {
  import opened Wrappers
  import opened Protocol
  import Text
  import GameContext

  /** What a click on a tile does while guessing. */
  datatype Action = DiscardAction | GuessAction

  /** The mode button: "Discard" becomes "Guess" and back. */
  function Flip(a: Action): (r: Action)
    ensures r != a
  {
    if a == DiscardAction then GuessAction else DiscardAction
  }

  lemma FlipTwice(a: Action)
    ensures Flip(Flip(a)) == a
  {
  }

  /** The key a tile's index is stored under: `index.toString()`. */
  function IndexKey(index: nat): (r: string)
    ensures r != []
  {
    Text.NatToString(index)
  }

  /** Different tiles never share a key. */
  lemma IndexKeyInjective(i: nat, j: nat)
    ensures IndexKey(i) == IndexKey(j) ==> i == j
  {
    Text.NatToStringInjective(i, j);
  }

  predicate NoDuplicates(xs: seq<string>) {
    forall i, j :: 0 <= i < j < |xs| ==> xs[i] != xs[j]
  }

  /** `prev.filter((i) => i !== x)`: the list in order without `x`. */
  function Without(xs: seq<string>, x: string): (r: seq<string>)
    ensures x !in r
    ensures forall y :: y != x ==> (y in r <==> y in xs)
    ensures |r| <= |xs|
    ensures x !in xs ==> r == xs
    decreases |xs|
  {
    if xs == [] then []
    else if xs[0] == x then Without(xs[1..], x)
    else [xs[0]] + Without(xs[1..], x)
  }

  /** The discard toggle: remove the key if it is listed, else append it. */
  function Toggle(xs: seq<string>, x: string): (r: seq<string>)
    ensures x in r <==> x !in xs
    ensures forall y :: y != x ==> (y in r <==> y in xs)
  {
    if x in xs then Without(xs, x) else xs + [x]
  }

  lemma {:induction false} WithoutKeepsNoDuplicates(xs: seq<string>, x: string)
    requires NoDuplicates(xs)
    ensures NoDuplicates(Without(xs, x))
    decreases |xs|
  {
    if xs != [] {
      var tail := xs[1..];
      assert NoDuplicates(tail) by {
        forall i, j | 0 <= i < j < |tail| ensures tail[i] != tail[j] {
          assert tail[i] == xs[i + 1] && tail[j] == xs[j + 1];
        }
      }
      WithoutKeepsNoDuplicates(tail, x);
      if xs[0] != x {
        assert xs[0] !in tail;
        var r := Without(tail, x);
        assert xs[0] !in r;
        var w := [xs[0]] + r;
        forall i, j | 0 <= i < j < |w| ensures w[i] != w[j] {
          if i == 0 {
            assert w[j] == r[j - 1];
          } else {
            assert w[i] == r[i - 1] && w[j] == r[j - 1];
          }
        }
      }
    }
  }

  /** The selection never gains a duplicate key. */
  lemma ToggleKeepsNoDuplicates(xs: seq<string>, x: string)
    requires NoDuplicates(xs)
    ensures NoDuplicates(Toggle(xs, x))
  {
    if x in xs {
      WithoutKeepsNoDuplicates(xs, x);
    }
  }

  /** As a set, discarding the same tile twice restores the selection. */
  lemma ToggleTwiceSameSet(xs: seq<string>, x: string)
    ensures (set y | y in Toggle(Toggle(xs, x), x)) == (set y | y in xs)
  {
  }

  lemma {:induction false} WithoutAppended(xs: seq<string>, x: string)
    requires x !in xs
    ensures Without(xs + [x], x) == xs
    decreases |xs|
  {
    if xs == [] {
      assert [x][1..] == [];
    } else {
      assert (xs + [x])[1..] == xs[1..] + [x];
      WithoutAppended(xs[1..], x);
    }
  }

  /** When the tile was not discarded, two clicks restore the very same list. */
  lemma ToggleTwiceIdentity(xs: seq<string>, x: string)
    requires x !in xs
    ensures Toggle(Toggle(xs, x), x) == xs
  {
    WithoutAppended(xs, x);
  }

  /** `disabled={phase !== "guessing" || user?.user_id !== currentLobby?.user_turn}`,
      negated: the mode and End Turn buttons are enabled exactly while guessing
      on the user's own turn. */
  function ActionButtonsEnabled(phase: Phase, user: Option<User>, lobby: Option<Lobby>): (r: bool)
    ensures r <==> phase == Guessing && TurnHeld(user, lobby)
    ensures r && user.Some? ==> lobby.Some? && lobby.value.userTurn == Str(user.value.userId)
  {
    !(phase != Guessing || UserIdOf(user) != UserTurnOf(lobby))
  }

  /** The zoom viewer's level stays between these bounds. */
  const MinZoom: real := 0.5
  const MaxZoom: real := 4.0

  predicate InZoomRange(z: real) {
    MinZoom <= z <= MaxZoom
  }

  function Max(a: real, b: real): real { if a >= b then a else b }

  function Min(a: real, b: real): real { if a <= b then a else b }

  /** The "−" button. */
  function ZoomOut(z: real): (r: real)
    ensures r >= MinZoom
    ensures z - 0.25 >= MinZoom ==> r == z - 0.25
    ensures z - 0.25 < MinZoom ==> r == MinZoom
    ensures InZoomRange(z) ==> InZoomRange(r) && r <= z
  {
    Max(0.5, z - 0.25)
  }

  /** The "+" button. */
  function ZoomIn(z: real): (r: real)
    ensures r <= MaxZoom
    ensures z + 0.25 <= MaxZoom ==> r == z + 0.25
    ensures z + 0.25 > MaxZoom ==> r == MaxZoom
    ensures InZoomRange(z) ==> InZoomRange(r) && r >= z
  {
    Min(4.0, z + 0.25)
  }

  /** A wheel step: scrolling down zooms out by 0.15, anything else zooms in. */
  function WheelZoom(z: real, deltaY: real): (r: real)
    ensures InZoomRange(r)
    ensures deltaY > 0.0 && InZoomRange(z - 0.15) ==> r == z - 0.15
    ensures deltaY > 0.0 && z - 0.15 < MinZoom ==> r == MinZoom
    ensures deltaY > 0.0 && z - 0.15 > MaxZoom ==> r == MaxZoom
    ensures deltaY <= 0.0 && InZoomRange(z + 0.15) ==> r == z + 0.15
    ensures deltaY <= 0.0 && z + 0.15 > MaxZoom ==> r == MaxZoom
    ensures deltaY <= 0.0 && z + 0.15 < MinZoom ==> r == MinZoom
  {
    var delta := if deltaY > 0.0 then -0.15 else 0.15;
    Max(0.5, Min(4.0, z + delta))
  }

  /** Whatever the buttons and the wheel do, starting from an opened viewer
      (level 1) the level never leaves [0.5, 4]. */
  datatype ZoomStep = Out | In | Wheel(deltaY: real) | ResetZoom

  function StepZoom(z: real, step: ZoomStep): real {
    match step
    case Out => ZoomOut(z)
    case In => ZoomIn(z)
    case Wheel(d) => WheelZoom(z, d)
    case ResetZoom => 1.0
  }

  function RunZoom(z: real, steps: seq<ZoomStep>): real
    decreases |steps|
  {
    if steps == [] then z else RunZoom(StepZoom(z, steps[0]), steps[1..])
  }

  lemma {:induction false} ZoomStaysInRange(z: real, steps: seq<ZoomStep>)
    requires InZoomRange(z)
    ensures InZoomRange(RunZoom(z, steps))
    decreases |steps|
  {
    if steps != [] {
      ZoomStaysInRange(StepZoom(z, steps[0]), steps[1..]);
    }
  }

  /** The board page's own state: the click mode and the zoom viewer. The
      phase, the images and the selection live in the context provider. */
  class GamePage {
    var action: Action
    var zoomedImage: Option<string>
    var zoomLevel: real

    constructor ()
      ensures action == DiscardAction && zoomedImage == None && zoomLevel == 1.0
    {
      action, zoomedImage, zoomLevel := DiscardAction, None, 1.0;
    }

    /** A click on tile `index` showing `image`. */
    method HandleClick(ctx: GameContext.GameProvider, user: Option<User>, isAltHeld: bool,
                       index: nat, image: string)
      modifies this, ctx
      ensures ctx.pushed == old(ctx.pushed) && ctx.hasSocket == old(ctx.hasSocket)
      // the results screen ignores clicks
      ensures old(ctx.phase) == Results ==>
        ctx.Snapshot() == old(ctx.Snapshot()) && ctx.sent == old(ctx.sent)
        && action == old(action) && zoomedImage == old(zoomedImage) && zoomLevel == old(zoomLevel)
      // while choosing, the tile becomes the user's own character
      ensures old(ctx.phase) == Selection ==>
        ctx.Snapshot() == old(ctx.Snapshot()).(ownImage := Some(image))
        && ctx.sent == old(ctx.sent) + SendIf(ctx.hasSocket, SelectOwnCharacter(image))
        && action == old(action) && zoomedImage == old(zoomedImage) && zoomLevel == old(zoomLevel)
      // while guessing with Alt held, the tile opens in the viewer at 100%
      ensures old(ctx.phase) == Guessing && isAltHeld ==>
        ctx.Snapshot() == old(ctx.Snapshot()) && ctx.sent == old(ctx.sent)
        && action == old(action) && zoomedImage == Some(image) && zoomLevel == 1.0
      // in Discard mode the tile's key is toggled and the discard is announced
      ensures old(ctx.phase) == Guessing && !isAltHeld && old(action) == DiscardAction ==>
        ctx.Snapshot() == old(ctx.Snapshot()).(selectedIndexes := Toggle(old(ctx.selectedIndexes), IndexKey(index)))
        && ctx.sent == old(ctx.sent) + SendIf(ctx.hasSocket, DiscardCharacter(image))
        && action == DiscardAction && zoomedImage == old(zoomedImage) && zoomLevel == old(zoomLevel)
      // in Guess mode the guess goes out (on the user's turn) and the mode returns to Discard
      ensures old(ctx.phase) == Guessing && !isAltHeld && old(action) == GuessAction ==>
        ctx.Snapshot() == old(ctx.Snapshot())
        && ctx.sent == old(ctx.sent) + (if TurnHeld(user, old(ctx.currentLobby)) then SendIf(ctx.hasSocket, Guess(image)) else [])
        && action == DiscardAction && zoomedImage == old(zoomedImage) && zoomLevel == old(zoomLevel)
    {
      if ctx.phase == Results {
        return;
      }
      if ctx.phase == Selection {
        ctx.SetOwnImage(image);
        ctx.HandleOwnCharacterSelect(image);
        return;
      }
      if isAltHeld {
        zoomLevel := 1.0;
        zoomedImage := Some(image);
        return;
      }
      if action == DiscardAction {
        ctx.SetSelectedIndexes(Toggle(ctx.selectedIndexes, IndexKey(index)));
        ctx.HandleCharacterDiscard(image);
      } else {
        ctx.HandleGuessCharacter(user, image);
        action := DiscardAction;
      }
    }

    /** The mode button. */
    method ToggleAction()
      modifies this
      ensures action == Flip(old(action))
      ensures zoomedImage == old(zoomedImage) && zoomLevel == old(zoomLevel)
    {
      if action == DiscardAction {
        action := GuessAction;
      } else {
        action := DiscardAction;
      }
    }

    method HandleZoomOut()
      modifies this
      ensures zoomLevel == ZoomOut(old(zoomLevel))
      ensures action == old(action) && zoomedImage == old(zoomedImage)
    {
      zoomLevel := Max(0.5, zoomLevel - 0.25);
    }

    method HandleZoomIn()
      modifies this
      ensures zoomLevel == ZoomIn(old(zoomLevel))
      ensures action == old(action) && zoomedImage == old(zoomedImage)
    {
      zoomLevel := Min(4.0, zoomLevel + 0.25);
    }

    method HandleWheel(deltaY: real)
      modifies this
      ensures zoomLevel == WheelZoom(old(zoomLevel), deltaY)
      ensures action == old(action) && zoomedImage == old(zoomedImage)
    {
      var delta := if deltaY > 0.0 then -0.15 else 0.15;
      zoomLevel := Max(0.5, Min(4.0, zoomLevel + delta));
    }

    /** "Reset" puts the level back to 100% and keeps the viewer open. */
    method HandleZoomReset()
      modifies this
      ensures zoomLevel == 1.0
      ensures action == old(action) && zoomedImage == old(zoomedImage)
    {
      zoomLevel := 1.0;
    }

    /** Closing the viewer (the backdrop or the close button). */
    method CloseViewer()
      modifies this
      ensures zoomedImage == None && zoomLevel == 1.0
      ensures action == old(action)
    {
      zoomedImage := None;
      zoomLevel := 1.0;
    }
  }

  /** The callbacks the `Game` component receives from its parent, as they are invoked. */
  datatype Callback =
    | OnOwnCharacterSelect(character: string)
    | OnDiscardCharacter(character: string)
    | OnGuessCharacter(character: string)
    | OnEndTurn

  /** The older `Game` component: the selection and the own image are its own
      state; the phase and the lobby come in as props. */
  class GameComponent {
    var selectedIndexes: seq<string>
    var ownImage: Option<string>
    var action: Action
    /** Parent callbacks invoked so far, oldest first. */
    var calls: seq<Callback>

    constructor ()
      ensures selectedIndexes == [] && ownImage == None && action == DiscardAction && calls == []
    {
      selectedIndexes, ownImage, action, calls := [], None, DiscardAction, [];
    }

    method HandleClick(phase: Phase, index: nat, image: string)
      modifies this
      ensures phase == Results ==>
        selectedIndexes == old(selectedIndexes) && ownImage == old(ownImage)
        && action == old(action) && calls == old(calls)
      ensures phase == Selection ==>
        selectedIndexes == old(selectedIndexes) && ownImage == Some(image)
        && action == old(action) && calls == old(calls) + [OnOwnCharacterSelect(image)]
      ensures phase == Guessing && old(action) == DiscardAction ==>
        selectedIndexes == Toggle(old(selectedIndexes), IndexKey(index)) && ownImage == old(ownImage)
        && action == DiscardAction && calls == old(calls) + [OnDiscardCharacter(image)]
      ensures phase == Guessing && old(action) == GuessAction ==>
        selectedIndexes == old(selectedIndexes) && ownImage == old(ownImage)
        && action == DiscardAction && calls == old(calls) + [OnGuessCharacter(image)]
    {
      if phase == Results {
        return;
      }
      if phase == Selection {
        ownImage := Some(image);
        calls := calls + [OnOwnCharacterSelect(image)];
        return;
      }
      if action == DiscardAction {
        selectedIndexes := Toggle(selectedIndexes, IndexKey(index));
        calls := calls + [OnDiscardCharacter(image)];
      } else {
        calls := calls + [OnGuessCharacter(image)];
        action := DiscardAction;
      }
    }

    method ToggleAction()
      modifies this
      ensures action == Flip(old(action))
      ensures selectedIndexes == old(selectedIndexes) && ownImage == old(ownImage) && calls == old(calls)
    {
      if action == DiscardAction {
        action := GuessAction;
      } else {
        action := DiscardAction;
      }
    }

    /** "End Turn" hands straight to the parent's callback. */
    method HandleEndTurn()
      modifies this
      ensures calls == old(calls) + [OnEndTurn]
      ensures selectedIndexes == old(selectedIndexes) && ownImage == old(ownImage) && action == old(action)
    {
      calls := calls + [OnEndTurn];
    }
  }

  /** Whatever sequence of clicks and mode switches the component sees, its
      selection never holds the same tile twice. */
  lemma {:induction false} ComponentSelectionDistinct(xs: seq<string>, keys: seq<string>)
    requires NoDuplicates(xs)
    ensures NoDuplicates(ToggleAll(xs, keys))
    decreases |keys|
  {
    if keys != [] {
      ToggleKeepsNoDuplicates(xs, keys[0]);
      ComponentSelectionDistinct(Toggle(xs, keys[0]), keys[1..]);
    }
  }

  /** The selection after a series of discard clicks with these keys. */
  function ToggleAll(xs: seq<string>, keys: seq<string>): seq<string>
    decreases |keys|
  {
    if keys == [] then xs else ToggleAll(Toggle(xs, keys[0]), keys[1..])
  }
}
