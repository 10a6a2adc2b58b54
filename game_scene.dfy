/**
 * GameScene.swift and GameSceneTouchEvents.swift: one play session of a
 * level.  The scene owns the switches and bridges (arrays, updated in place),
 * the gravity vector, the start time, and the state of Giby and of the touch
 * controller.  SpriteKit's physics, Giby's motion and the goal's hit test
 * are not modelled: Giby's position is set by `PhysicsMovedGiby` and the
 * update tick is told whether the goal contains Giby.
 */
module GameScenes {
  import opened Wrappers
  import opened Geometry
  import opened Ratings
  import opened Configs
  import opened LevelModels
  import opened NodeSelection
  import opened Directions
  import opened GameStates
  import opened GameNetwork

  /** Giby may drift at most this far between press and release for a tap to reverse gravity. */
  const TapTolerance: real := 20.0
  /** The strength of the vertical gravity. */
  const GravityStrength: real := 5.0
  /** `gibyNode.size.width`. */
  const GibyWidth: real := 35.0
  /** A drag shorter than this is not yet a walk. */
  const MinDragLength: real := 2.0 * GibyWidth / 3.0

  /** GameNodeSelectors.swift. */
  datatype GameNodeSelector = Giby | BackButton | ResetButton {

    function RawValue(): string {
      match this
      case Giby => "giby"
      case BackButton => "backButton"
      case ResetButton => "resetButton"
    }

    predicate IsUserInteractable() {
      true
    }
  }

  const GameNodeSelectorCases: seq<GameNodeSelector> := [Giby, BackButton, ResetButton]

  function GameSelectable(): seq<string> {
    SelectableNodes(GameNodeSelectorCases, (s: GameNodeSelector) => s.IsUserInteractable(), (s: GameNodeSelector) => s.RawValue())
  }

  /** All three game selectors are selectable, in declaration order. */
  lemma GameSelectableIsAll()
    ensures GameSelectable() == ["giby", "backButton", "resetButton"]
  {
    SelectableNodesAllInteractable(GameNodeSelectorCases,
      (s: GameNodeSelector) => s.IsUserInteractable(), (s: GameNodeSelector) => s.RawValue());
  }

  /** The report `didCompleteLevel(at:with:)` makes to the game. */
  datatype Completion = Completion(levelNum: int, rating: Rating)

  /** The calls the scene makes on its flow delegates. */
  datatype FlowRequest = ChangeGameState(state: GameState) | Reset

  /** `reset()`: ask the game to reload the level. */
  const ResetRequest := Reset
  /** `goBackToMenu()`: ask the game for the menu. */
  const BackToMenuRequest := ChangeGameState(Menu)

  /** `configurePhysicsWorld()`: gravity points up for a reversed start, down otherwise. */
  function InitialGravity(isStartReversed: bool): (g: Vector)
    ensures g.dx == 0.0
    ensures isStartReversed ==> g.dy == GravityStrength
    ensures !isStartReversed ==> g.dy == -GravityStrength
  {
    Vector(0.0, (if isStartReversed then 1.0 else -1.0) * GravityStrength)
  }

  /** The scene's state apart from its switches and bridges. */
  datatype Fields = Fields(
    gravity: Vector,
    startTime: Option<real>,
    isPaused: bool,
    willMove: bool,
    savedGibyPosition: Option<Point>,
    dragStripHidden: bool,
    gibyPosition: Point,
    gibyReversed: bool,
    gibyMoving: bool,
    gibyDirection: Direction)

  /** `touchesEnded` / `touchesCancelled`: the drag is over, the strip hidden, Giby stops. */
  function EndDrag(f: Fields): Fields {
    f.(willMove := false, dragStripHidden := true, gibyMoving := false)
  }

  /** `updateGibyMoving(to:)`: a short drag stops Giby; a long one walks towards the touch. */
  function AfterDrag(f: Fields, location: Point): Fields {
    if !AtLeast(Between(f.gibyPosition, location), MinDragLength) then
      f.(gibyMoving := false, dragStripHidden := true)
    else
      f.(dragStripHidden := false, gibyMoving := true,
         gibyDirection := if f.gibyPosition.x - location.x < 0.0 then Right else Left)
  }

  /** `updateReverseIfNeeded()`: a tap that moved Giby at most 20 points turns gravity round. */
  function AfterReverse(f: Fields): Fields {
    match f.savedGibyPosition
    case None => f
    case Some(saved) =>
      if !AtMost(Between(saved, f.gibyPosition), TapTolerance) then f
      else
        var g := Vector(f.gravity.dx, -f.gravity.dy);
        f.(gravity := g, gibyReversed := g.dy > 0.0)
  }

  /** Whether a tap can reverse gravity: a saved press position within TapTolerance of Giby. */
  predicate TapReverses(f: Fields) {
    f.savedGibyPosition.Some? && AtMost(Between(f.savedGibyPosition.value, f.gibyPosition), TapTolerance)
  }

  /** Giby's orientation agrees with the gravity, which has full strength on the vertical axis. */
  predicate GravityConsistent(f: Fields) {
    f.gravity.dx == 0.0 && (f.gravity.dy == GravityStrength || f.gravity.dy == -GravityStrength)
    && f.gibyReversed == (f.gravity.dy > 0.0)
  }

  /**
   * Reversal happens exactly when a tap qualifies; it negates dy, keeps dx,
   * sets `isReversed` to the new dy > 0 and touches nothing else.
   */
  lemma ReverseEffect(f: Fields)
    ensures !TapReverses(f) ==> AfterReverse(f) == f
    ensures TapReverses(f) ==> AfterReverse(f) == f.(gravity := Vector(f.gravity.dx, -f.gravity.dy), gibyReversed := -f.gravity.dy > 0.0)
  {
  }

  /** Two reversals in a row give back the gravity and Giby's orientation. */
  lemma ReverseTwice(f: Fields)
    requires GravityConsistent(f)
    ensures AfterReverse(AfterReverse(f)) == f
  {
  }

  /** Reversal, drags and touch ends keep gravity and Giby's orientation consistent. */
  lemma ControllerKeepsGravityConsistent(f: Fields, location: Point)
    requires GravityConsistent(f)
    ensures GravityConsistent(AfterReverse(f))
    ensures GravityConsistent(AfterDrag(f, location)) && GravityConsistent(EndDrag(f))
    ensures AfterDrag(f, location).gravity == f.gravity && EndDrag(f).gravity == f.gravity
  {
  }

  /** The tap test, stated with the true distance `d` Giby moved since the press. */
  lemma TapToleranceByLength(f: Fields, d: real)
    requires f.savedGibyPosition.Some? && IsLength(Between(f.savedGibyPosition.value, f.gibyPosition), d)
    ensures TapReverses(f) <==> d <= TapTolerance
  {
    LengthComparison(Between(f.savedGibyPosition.value, f.gibyPosition), d, TapTolerance);
  }

  /**
   * A drag shorter than two thirds of Giby's width stops Giby and hides the
   * strip; a longer one shows the strip and walks right iff Giby is left of
   * the touch.
   */
  lemma DragEffect(f: Fields, location: Point, d: real)
    requires IsLength(Between(f.gibyPosition, location), d)
    ensures d < MinDragLength ==> !AfterDrag(f, location).gibyMoving && AfterDrag(f, location).dragStripHidden
    ensures d >= MinDragLength ==> (AfterDrag(f, location).gibyMoving && !AfterDrag(f, location).dragStripHidden
      && (AfterDrag(f, location).gibyDirection == Right <==> f.gibyPosition.x < location.x))
    ensures AfterDrag(f, location).willMove == f.willMove && AfterDrag(f, location).gravity == f.gravity
  {
    LengthComparison(Between(f.gibyPosition, location), d, MinDragLength);
  }

  /** The initial gravity is consistent with Giby's initial orientation. */
  lemma InitialGravityConsistent(isStartReversed: bool, f: Fields)
    requires f.gravity == InitialGravity(isStartReversed) && f.gibyReversed == isStartReversed
    ensures GravityConsistent(f)
  {
  }

  class GameScene {
    const levelModel: LevelModel
    /** The scene's SwitchNode children, in the order they were added. */
    const switches: array<SwitchNode>
    /** The scene's BridgeNode children, in the order they were added. */
    const bridges: array<BridgeNode>

    /** `physicsWorld.gravity`. */
    var gravity: Vector
    var startTime: Option<real>
    var isPaused: bool
    var willMove: bool
    var savedGibyPosition: Option<Point>
    /** `dragStripNode.isHidden`. */
    var dragStripHidden: bool
    /** `gibyNode.position`, `isReversed`, `isMoving` and `direction`. */
    var gibyPosition: Point
    var gibyReversed: bool
    var gibyMoving: bool
    var gibyDirection: Direction

    function State(): Network
      reads this, switches, bridges
    {
      Network(switches[..], bridges[..])
    }

    function CurrentFields(): Fields
      reads this
    {
      Fields(gravity, startTime, isPaused, willMove, savedGibyPosition, dragStripHidden,
             gibyPosition, gibyReversed, gibyMoving, gibyDirection)
    }

    /**
     * `init(size:flowDelegate:viewModel:)` and `configureLevel()`: bridges and
     * switches from the level's configs, gravity from the start orientation,
     * Giby at the start position, then the pre-activation of active switches.
     */
    constructor (model: LevelModel)
      ensures levelModel == model && fresh(switches) && fresh(bridges)
      ensures State() == AfterActivation(Generated(model), model.switches)
      ensures CurrentFields() == Fields(InitialGravity(model.layoutStructure.isStartReversed), None, false, false, None, true,
                                        model.layoutStructure.startPosition, model.layoutStructure.isStartReversed, false, Left)
    {
      levelModel := model;
      switches := new SwitchNode[|model.switches|](i requires 0 <= i < |model.switches| => GenerateSwitchNode(model.switches[i]));
      bridges := new BridgeNode[|model.bridges|](k requires 0 <= k < |model.bridges| => GenerateBridgeNode(model.bridges[k]));
      gravity := InitialGravity(model.layoutStructure.isStartReversed);
      startTime, isPaused := None, false;
      willMove, savedGibyPosition, dragStripHidden := false, None, true;
      gibyPosition := model.layoutStructure.startPosition;
      gibyReversed := model.layoutStructure.isStartReversed;
      gibyMoving, gibyDirection := false, Left;
      new;
      assert State() == Generated(model);
      ConfigureSwitchActivation();
    }

    /** `configureSwitchActivation()`: each active config force-toggles the first switch with its key. */
    method ConfigureSwitchActivation()
      modifies switches, bridges
      ensures State() == AfterActivation(old(State()), levelModel.switches)
    {
      ghost var initial := State();
      var configs := levelModel.switches;
      for j := 0 to |configs|
        invariant State() == AfterActivation(initial, configs[..j])
      {
        assert configs[..j + 1][..j] == configs[..j];
        var c := configs[j];
        if c.isActive {
          var found := FirstWithKey(switches[..], c.key);
          if found.Some? {
            ToggleSwitch(found.value, true);
          }
        }
      }
      assert configs[..|configs|] == configs;
    }

    /** `toggleSwitch(_:force:)`, one bridge at a time. */
    method ToggleSwitch(i: nat, force: bool)
      requires i < switches.Length
      modifies switches, bridges
      ensures State() == AfterToggle(old(State()), i, force)
    {
      if !(switches[i].isEnabled || force) {
        return;
      }
      var key := switches[i].activationKey;
      switches[i] := switches[i].(isActivated := !switches[i].isActivated);
      var value := switches[i].isActivated;
      ghost var before := bridges[..];
      ghost var flipped := switches[..];
      for k := 0 to bridges.Length
        invariant switches[..] == flipped
        invariant forall m :: 0 <= m < k ==> bridges[m] == FanOut(before, key, value)[m]
        invariant forall m :: k <= m < bridges.Length ==> bridges[m] == before[m]
      {
        if bridges[k].activationKey == key {
          bridges[k] := bridges[k].(isEnabled := value);
        }
      }
      assert bridges[..] == FanOut(before, key, value);
    }

    /** `enableSwitchIfNeeded(_:)`: the switch is enabled iff it is within reach of Giby. */
    method EnableSwitchIfNeeded(i: nat)
      requires i < switches.Length
      modifies switches
      ensures switches[..] == old(switches[..])[i := SetIsEnabled(old(switches[i]), InReach(gibyPosition, old(switches[i]).position))]
    {
      var inReach := InReach(gibyPosition, switches[i].position);
      switches[i] := SetIsEnabled(switches[i], inReach);
    }

    /** `didCompleteLevel(currentTime:)`: pause, and report the level with its rating for the time taken. */
    method DidCompleteLevel(currentTime: real) returns (c: Completion)
      modifies this
      ensures c == Completion(levelModel.levelNum, levelModel.ratingOptions.GetRating(currentTime - old(startTime).GetOr(0.0)))
      ensures CurrentFields() == old(CurrentFields()).(isPaused := true)
    {
      isPaused := true;
      var timeNeeded := currentTime - startTime.GetOr(0.0);
      c := Completion(levelModel.levelNum, levelModel.ratingOptions.GetRating(timeNeeded));
    }

    /**
     * `update(_:)`: the first tick records the start time; if the goal
     * contains Giby the level is completed; then every switch's proximity
     * gate is refreshed.
     */
    method Update(currentTime: real, goalContainsGiby: bool) returns (completion: Option<Completion>)
      modifies this, switches
      ensures startTime == Some(old(startTime).GetOr(currentTime))
      ensures completion == if goalContainsGiby
        then Some(Completion(levelModel.levelNum, levelModel.ratingOptions.GetRating(currentTime - startTime.value)))
        else None
      ensures CurrentFields() == old(CurrentFields()).(startTime := startTime, isPaused := old(isPaused) || goalContainsGiby)
      ensures State() == Network(AfterProximity(old(switches[..]), gibyPosition), old(bridges[..]))
    {
      if startTime.None? {
        startTime := Some(currentTime);
      }
      completion := None;
      if goalContainsGiby {
        var c := DidCompleteLevel(currentTime);
        completion := Some(c);
      }
      RefreshSwitches();
    }

    /** `switchNodes.forEach(enableSwitchIfNeeded)`. */
    method RefreshSwitches()
      modifies switches
      ensures switches[..] == AfterProximity(old(switches[..]), gibyPosition)
    {
      ghost var before := switches[..];
      for i := 0 to switches.Length
        invariant forall m :: 0 <= m < i ==> switches[m] == AfterProximity(before, gibyPosition)[m]
        invariant forall m :: i <= m < switches.Length ==> switches[m] == before[m]
      {
        EnableSwitchIfNeeded(i);
      }
      assert switches[..] == AfterProximity(before, gibyPosition);
    }

    /** Stands for the physics engine moving Giby between ticks. */
    method PhysicsMovedGiby(p: Point)
      modifies this
      ensures CurrentFields() == old(CurrentFields()).(gibyPosition := p)
    {
      gibyPosition := p;
    }

    /** Every switch a touch's first hit list names is a switch of this scene. */
    predicate SwitchHitsInScene(touches: seq<Touch>)
      reads this
    {
      touches != [] ==>
        forall k :: 0 <= k < |touches[0].hits| && touches[0].hits[k].kind.SwitchHit?
          ==> touches[0].hits[k].kind.index < switches.Length
    }

    /**
     * `touchesBegan`: a touched switch is toggled (if in reach) and nothing
     * else happens; a touch on Giby starts a drag from Giby's position; the
     * back and reset buttons ask the game for the menu or a reload.
     */
    method TouchesBegan(touches: seq<Touch>) returns (request: Option<FlowRequest>)
      requires SwitchHitsInScene(touches)
      modifies this, switches, bridges
      ensures var node := ResolveNamedNode(touches, []);
        if node.None? then
          request.None? && State() == old(State()) && CurrentFields() == old(CurrentFields())
        else if node.value.kind.SwitchHit? then
          node.value.kind.index < switches.Length
          && request.None? && State() == AfterToggle(old(State()), node.value.kind.index, false)
          && CurrentFields() == old(CurrentFields())
        else
          State() == old(State())
          && (node.value.name == Some(Giby.RawValue()) ==>
                request.None? && CurrentFields() == old(CurrentFields()).(willMove := true, savedGibyPosition := Some(gibyPosition)))
          && (node.value.name != Some(Giby.RawValue()) ==> CurrentFields() == old(CurrentFields()))
          && (node.value.name == Some(BackButton.RawValue()) ==> request == Some(BackToMenuRequest))
          && (node.value.name == Some(ResetButton.RawValue()) ==> request == Some(ResetRequest))
          && (node.value.name !in {Some("giby"), Some("backButton"), Some("resetButton")} ==> request.None?)
    {
      var node := ResolveNamedNode(touches, []);
      if node.None? {
        return None;
      }
      if node.value.kind.SwitchHit? {
        ResolvedNodeQualifies(touches, []);
        ToggleSwitch(node.value.kind.index, false);
        return None;
      }
      request := None;
      var name := node.value.name;
      if name == Some(Giby.RawValue()) {
        willMove := true;
        savedGibyPosition := Some(gibyPosition);
      } else if name == Some(BackButton.RawValue()) {
        request := Some(BackToMenuRequest);
      } else if name == Some(ResetButton.RawValue()) {
        request := Some(ResetRequest);
      }
    }

    /** `touchesMoved`: only a drag that began on Giby moves Giby. */
    method TouchesMoved(touches: seq<Touch>)
      modifies this
      ensures CurrentFields() == if old(willMove) && touches != []
        then AfterDrag(old(CurrentFields()), touches[0].location)
        else old(CurrentFields())
    {
      if !willMove || touches == [] {
        return;
      }
      UpdateGibyMoving(touches[0].location);
    }

    /** `updateGibyMoving(to:)`. */
    method UpdateGibyMoving(location: Point)
      modifies this
      ensures CurrentFields() == AfterDrag(old(CurrentFields()), location)
    {
      var nonAbsXDistance := gibyPosition.x - location.x;
      var vector := Between(gibyPosition, location);
      if !AtLeast(vector, MinDragLength) {
        gibyMoving := false;
        dragStripHidden := true;
        return;
      }
      dragStripHidden := false;
      gibyMoving := true;
      gibyDirection := if nonAbsXDistance < 0.0 then Right else Left;
    }

    /** `touchesCancelled`. */
    method TouchesCancelled()
      modifies this
      ensures CurrentFields() == EndDrag(old(CurrentFields()))
    {
      willMove := false;
      dragStripHidden := true;
      gibyMoving := false;
    }

    /** `touchesEnded`: the drag ends; a release on Giby may reverse gravity. */
    method TouchesEnded(touches: seq<Touch>)
      modifies this
      ensures var node := ResolveNamedNode(touches, GameSelectable());
        CurrentFields() == if node.Some? && node.value.name == Some(Giby.RawValue())
          then AfterReverse(EndDrag(old(CurrentFields())))
          else EndDrag(old(CurrentFields()))
    {
      willMove := false;
      dragStripHidden := true;
      gibyMoving := false;
      var node := ResolveNamedNode(touches, GameSelectable());
      if node.None? {
        return;
      }
      if node.value.name == Some(Giby.RawValue()) {
        UpdateReverseIfNeeded();
      }
    }

    /** `updateReverseIfNeeded()`. */
    method UpdateReverseIfNeeded()
      modifies this
      ensures CurrentFields() == AfterReverse(old(CurrentFields()))
    {
      if savedGibyPosition.None? {
        return;
      }
      var moveDistance := Between(savedGibyPosition.value, gibyPosition);
      if !AtMost(moveDistance, TapTolerance) {
        return;
      }
      gravity := Vector(gravity.dx, -gravity.dy);
      gibyReversed := gravity.dy > 0.0;
    }
  }
}
