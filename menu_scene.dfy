/** MenuScene.swift: the title screen and where its two buttons lead. */
module MenuScenes {
  import opened Wrappers
  import opened NodeSelection
  import opened GameStates

  datatype NodeSelector = Title | StartButton | SettingsButton {

    function RawValue(): string {
      match this
      case Title => "title"
      case StartButton => "startButton"
      case SettingsButton => "settingsButton"
    }

    /** Only the two buttons react to touches. */
    predicate IsUserInteractable() {
      match this
      case StartButton => true
      case SettingsButton => true
      case _ => false
    }
  }

  const AllCases: seq<NodeSelector> := [Title, StartButton, SettingsButton]

  /** `NodeSelectors.selectableNodes` of the menu. */
  function Selectable(): seq<string> {
    SelectableNodes(AllCases, (s: NodeSelector) => s.IsUserInteractable(), (s: NodeSelector) => s.RawValue())
  }

  /** `didSelect(_:)`: the state the menu asks to change to, if any. */
  function DidSelect(name: Option<string>): Option<GameState> {
    match name
    case None => None
    case Some(n) =>
      if n == SettingsButton.RawValue() then Some(Settings)
      else if n == StartButton.RawValue() then Some(Levels)
      else None
  }

  /** `touchesBegan`: resolve the touched node among the selectable ones, then select it. */
  function TouchesBegan(touches: seq<Touch>): Option<GameState> {
    match ResolveNamedNode(touches, Selectable())
    case None => None
    case Some(node) => DidSelect(node.name)
  }

  /** Exactly the start and settings buttons are selectable, the title is not. */
  lemma MenuSelectable()
    ensures Selectable() == ["startButton", "settingsButton"]
    ensures Title.RawValue() !in Selectable()
  {
    assert AllCases[1..][1..][1..] == [];
  }

  /** The settings button leads to the settings, the start button to the level selection, anything else nowhere. */
  lemma MenuDidSelectTargets(name: Option<string>)
    ensures DidSelect(Some(SettingsButton.RawValue())) == Some(Settings)
    ensures DidSelect(Some(StartButton.RawValue())) == Some(Levels)
    ensures name != Some("settingsButton") && name != Some("startButton") ==> DidSelect(name) == None
  {
  }

  /**
   * Every touch that resolves to a node of the menu changes the state, and
   * only to the level selection or the settings; the title never does.
   */
  lemma MenuTouchesBeganTargets(touches: seq<Touch>)
    ensures TouchesBegan(touches).Some? <==> ResolveNamedNode(touches, Selectable()).Some?
    ensures TouchesBegan(touches) == None || TouchesBegan(touches) == Some(Levels) || TouchesBegan(touches) == Some(Settings)
    ensures TouchesBegan(touches).Some? ==> ResolveNamedNode(touches, Selectable()).value.name != Some(Title.RawValue())
  {
    MenuSelectable();
    if ResolveNamedNode(touches, Selectable()).Some? {
      ResolvedNodeQualifies(touches, Selectable());
    }
  }

  /** A title drawn over the start button does not swallow the touch. */
  lemma TitleOverStartButton(t: Touch)
    requires t.hits == [HitNode(Some("title"), OtherHit), HitNode(Some("startButton"), OtherHit)]
    ensures TouchesBegan([t]) == Some(Levels)
  {
    MenuSelectable();
    assert !Qualifies(t.hits[0], Selectable());
    assert Qualifies(t.hits[1], Selectable());
    assert FirstQualifying(t.hits, Selectable()) == Some(1);
  }
}
