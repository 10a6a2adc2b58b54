/** LevelSelectionScene.swift: the five level buttons and the back button. */
module LevelSelectionScenes {
  import opened Wrappers
  import opened NodeSelection
  import opened GameStates

  datatype NodeSelector = LevelOne | LevelTwo | LevelThree | LevelFour | LevelFive | BackButton | Title {

    function RawValue(): string {
      match this
      case LevelOne => "levelOne"
      case LevelTwo => "levelTwo"
      case LevelThree => "levelThree"
      case LevelFour => "levelFour"
      case LevelFive => "levelFive"
      case BackButton => "backButton"
      case Title => "title"
    }

    /** Everything but the title reacts to touches. */
    predicate IsUserInteractable() {
      match this
      case Title => false
      case _ => true
    }
  }

  const AllCases: seq<NodeSelector> := [LevelOne, LevelTwo, LevelThree, LevelFour, LevelFive, BackButton, Title]

  /** `NodeSelectors.selectableNodes` of the level selection. */
  function Selectable(): seq<string> {
    SelectableNodes(AllCases, (s: NodeSelector) => s.IsUserInteractable(), (s: NodeSelector) => s.RawValue())
  }

  /** The level a level button stands for. */
  function ButtonLevel(s: NodeSelector): Option<int> {
    match s
    case LevelOne => Some(1)
    case LevelTwo => Some(2)
    case LevelThree => Some(3)
    case LevelFour => Some(4)
    case LevelFive => Some(5)
    case _ => None
  }

  /** The `switch nodeName` of `touchesBegan`: the state the scene asks to change to, if any. */
  function Target(name: string): Option<GameState> {
    if name == BackButton.RawValue() then Some(Menu)
    else if name == LevelOne.RawValue() then Some(Play(1))
    else if name == LevelTwo.RawValue() then Some(Play(2))
    else if name == LevelThree.RawValue() then Some(Play(3))
    else if name == LevelFour.RawValue() then Some(Play(4))
    else if name == LevelFive.RawValue() then Some(Play(5))
    else None
  }

  /** `touchesBegan`: resolve among the selectable nodes, then dispatch on the name. */
  function TouchesBegan(touches: seq<Touch>): Option<GameState> {
    match ResolveNamedNode(touches, Selectable())
    case None => None
    case Some(node) =>
      match node.name
      case None => None
      case Some(n) => Target(n)
  }

  lemma LevelSelectionSelectable()
    ensures Selectable() == ["levelOne", "levelTwo", "levelThree", "levelFour", "levelFive", "backButton"]
    ensures Title.RawValue() !in Selectable()
  {
  }

  /** Level button k leads to `.play(k)`, the back button to the menu, the title nowhere. */
  lemma TargetOfSelector(s: NodeSelector)
    ensures s.Title? ==> Target(s.RawValue()) == None
    ensures s.BackButton? ==> Target(s.RawValue()) == Some(Menu)
    ensures ButtonLevel(s).Some? ==> Target(s.RawValue()) == Some(Play(ButtonLevel(s).value))
  {
  }

  /** Every selectable name leads somewhere: to the menu or to a level between 1 and 5. */
  lemma TargetOfSelectable(name: string)
    requires name in Selectable()
    ensures Target(name).Some?
    ensures Target(name).value == Menu || (Target(name).value.Play? && 1 <= Target(name).value.level <= 5)
  {
    SelectableNodesMembership(AllCases, (s: NodeSelector) => s.IsUserInteractable(), (s: NodeSelector) => s.RawValue(), name);
    var i :| 0 <= i < |AllCases| && AllCases[i].IsUserInteractable() && AllCases[i].RawValue() == name;
    TargetOfSelector(AllCases[i]);
  }

  /** Every touch that resolves leads to the menu or to a level between 1 and 5, others lead nowhere. */
  lemma TargetsAreMenuOrLevels(touches: seq<Touch>)
    ensures TouchesBegan(touches).Some? ==>
      TouchesBegan(touches).value == Menu
      || (TouchesBegan(touches).value.Play? && 1 <= TouchesBegan(touches).value.level <= 5)
    ensures TouchesBegan(touches).Some? <==> ResolveNamedNode(touches, Selectable()).Some?
  {
    var r := ResolveNamedNode(touches, Selectable());
    if r.Some? {
      LevelSelectionSelectable();
      ResolvedNodeQualifies(touches, Selectable());
      TargetOfSelectable(r.value.name.value);
    }
  }
}
