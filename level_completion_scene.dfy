/** LevelCompletionScene.swift: the stars earned and the retry / next / menu buttons. */
module LevelCompletionScenes {
  import opened Wrappers
  import opened Ratings
  import opened NodeSelection
  import opened GameStates

  datatype NodeSelector = RetryButton | NextButton | MenuButton {

    function RawValue(): string {
      match this
      case RetryButton => "retryButton"
      case NextButton => "nextButton"
      case MenuButton => "menuButton"
    }

    predicate IsUserInteractable() {
      true
    }
  }

  const AllCases: seq<NodeSelector> := [RetryButton, NextButton, MenuButton]

  function Selectable(): seq<string> {
    SelectableNodes(AllCases, (s: NodeSelector) => s.IsUserInteractable(), (s: NodeSelector) => s.RawValue())
  }

  /** `LevelCompletionScene.ViewModel`: the level just completed and its rating. */
  datatype ViewModel = ViewModel(levelNum: int, rating: Rating)

  /** From this level number on the next button is removed. */
  const LastLevel := 5

  /** The stars `configureStars(for:)` creates, by `isEnabled`: star `i + 1` is lit iff `i + 1 <= rawValue`. */
  function StarsFor(r: Rating): seq<bool> {
    seq(3, i => i + 1 <= r.RawValue())
  }

  function CountEnabled(stars: seq<bool>): nat {
    if stars == [] then 0 else (if stars[0] then 1 else 0) + CountEnabled(stars[1..])
  }

  /** Three stars, the first `rawValue` of them lit: as many lit stars as the rating has. */
  lemma {:induction false} StarsForRating(r: Rating)
    ensures |StarsFor(r)| == 3
    ensures forall i :: 0 <= i < 3 ==> (StarsFor(r)[i] <==> i + 1 <= r.RawValue())
    ensures CountEnabled(StarsFor(r)) == r.RawValue()
  {
    var s := StarsFor(r);
    var s1, s2 := s[1..], s[2..];
    assert s2[1..] == [];
    assert CountEnabled(s2) == if s[2] then 1 else 0;
    assert s1[1..] == s2;
    assert CountEnabled(s1) == (if s[1] then 1 else 0) + CountEnabled(s2);
    assert CountEnabled(s) == (if s[0] then 1 else 0) + CountEnabled(s1);
  }

  /** The `switch nodeName` of `touchesBegan`: retry and next need a view model, menu does not. */
  function Target(viewModel: Option<ViewModel>, name: string): Option<GameState> {
    if name == RetryButton.RawValue() then
      (match viewModel case None => None case Some(m) => Some(Play(m.levelNum)))
    else if name == MenuButton.RawValue() then Some(Menu)
    else if name == NextButton.RawValue() then
      (match viewModel case None => None case Some(m) => Some(Play(m.levelNum + 1)))
    else None
  }

  /** Retry replays the level, next plays the one after it, menu goes back; without a view model retry and next do nothing. */
  lemma TargetCases(viewModel: Option<ViewModel>)
    ensures Target(viewModel, "menuButton") == Some(Menu)
    ensures viewModel.None? ==> Target(viewModel, "retryButton") == None && Target(viewModel, "nextButton") == None
    ensures viewModel.Some? ==> Target(viewModel, "retryButton") == Some(Play(viewModel.value.levelNum))
    ensures viewModel.Some? ==> Target(viewModel, "nextButton") == Some(Play(viewModel.value.levelNum + 1))
  {
  }

  class LevelCompletionScene {
    var viewModel: Option<ViewModel>
    /** The level whose title `titleNode` shows, if there is a title. */
    var titleLevel: Option<int>
    /** The `stars` array, by each star's `isEnabled`. */
    var stars: seq<bool>
    /** Whether `nextButton` is still a child of the scene. */
    var hasNextButton: bool

    constructor ()
      ensures viewModel.None? && titleLevel.None? && stars == [] && hasNextButton
    {
      viewModel, titleLevel, stars, hasNextButton := None, None, [], true;
    }

    /**
     * `setViewModel(to:)`: the old title and stars are replaced, so exactly
     * three stars exist after any number of calls; the next button is gone
     * for good once a level from 5 on was shown.
     */
    method SetViewModel(vm: ViewModel)
      modifies this
      ensures viewModel == Some(vm) && titleLevel == Some(vm.levelNum)
      ensures stars == StarsFor(vm.rating) && |stars| == 3 && CountEnabled(stars) == vm.rating.RawValue()
      ensures hasNextButton == (old(hasNextButton) && vm.levelNum < LastLevel)
    {
      titleLevel := None;
      stars := [];
      titleLevel := Some(vm.levelNum);
      ConfigureStars(vm.rating);
      StarsForRating(vm.rating);
      if vm.levelNum >= LastLevel {
        hasNextButton := false;
      }
      viewModel := Some(vm);
    }

    /** `configureStars(for:)`: appends stars 1 to 3, star `index` lit iff `index <= rawValue`. */
    method ConfigureStars(rating: Rating)
      modifies this
      ensures stars == old(stars) + StarsFor(rating)
      ensures viewModel == old(viewModel) && titleLevel == old(titleLevel) && hasNextButton == old(hasNextButton)
    {
      var numOfActiveStars := rating.RawValue();
      for index := 1 to 4
        invariant stars == old(stars) + StarsFor(rating)[..index - 1]
        invariant viewModel == old(viewModel) && titleLevel == old(titleLevel) && hasNextButton == old(hasNextButton)
      {
        stars := stars + [index <= numOfActiveStars];
      }
      assert StarsFor(rating)[..3] == StarsFor(rating);
    }

    /** `touchesBegan`: the state the scene asks to change to, if any. */
    function TouchesBegan(touches: seq<Touch>): Option<GameState>
      reads this
    {
      match ResolveNamedNode(touches, Selectable())
      case None => None
      case Some(node) =>
        match node.name
        case None => None
        case Some(n) => Target(viewModel, n)
    }
  }

  lemma CompletionSelectable()
    ensures Selectable() == ["retryButton", "nextButton", "menuButton"]
  {
  }

  /**
   * A touch on the completion scene leads to the menu, or, once a view model
   * is set, to the same level or the next one; nothing else is ever asked for.
   */
  lemma CompletionTouchTargets(scene: LevelCompletionScene, touches: seq<Touch>)
    ensures var t := scene.TouchesBegan(touches);
      t.Some? ==> (t.value == Menu
        || (scene.viewModel.Some? && (t.value == Play(scene.viewModel.value.levelNum) || t.value == Play(scene.viewModel.value.levelNum + 1))))
    ensures scene.TouchesBegan(touches).Some? ==> ResolveNamedNode(touches, Selectable()).Some?
    ensures scene.viewModel.None? ==> scene.TouchesBegan(touches).None? || scene.TouchesBegan(touches) == Some(Menu)
  {
  }
}
