/** SettingsScene.swift: the music check box, the theme switch and the back button. */
module SettingsScenes {
  import opened Wrappers
  import opened NodeSelection
  import opened GameStates
  import opened GameThemes

  datatype NodeSelector = Title | BackButton | MusicCheckBox | MusicLabel | ChangeThemeButton {

    function RawValue(): string {
      match this
      case Title => "title"
      case BackButton => "backButton"
      case MusicCheckBox => "musicCheckBox"
      case MusicLabel => "musicLabel"
      case ChangeThemeButton => "changeThemeButton"
    }

    /** The title and the music label are decoration only. */
    predicate IsUserInteractable() {
      match this
      case BackButton => true
      case MusicCheckBox => true
      case ChangeThemeButton => true
      case _ => false
    }
  }

  const AllCases: seq<NodeSelector> := [Title, BackButton, MusicCheckBox, MusicLabel, ChangeThemeButton]

  function Selectable(): seq<string> {
    SelectableNodes(AllCases, (s: NodeSelector) => s.IsUserInteractable(), (s: NodeSelector) => s.RawValue())
  }

  /** The calls the scene makes on its flow delegate and its settings delegate. */
  datatype SettingsRequest = ChangeState(state: GameState) | ToggleMusic(isActive: bool) | ChangeTheme(theme: GameTheme)

  /** The theme the theme button asks for: the other one. */
  function OppositeTheme(t: GameTheme): (u: GameTheme)
    ensures u != t
  {
    if t == Neon then Bold else Neon
  }

  /** Switching the theme twice gives back the theme. */
  lemma OppositeThemeInvolution(t: GameTheme)
    ensures OppositeTheme(OppositeTheme(t)) == t
  {
  }

  /** The outcome of a touch on a node named `name`: the check box's new state and the request made. */
  datatype Outcome = Outcome(checkBox: bool, request: Option<SettingsRequest>)

  /** The `switch nodeName` of `touchesBegan`, given the check box state and `GameTheme.current`. */
  function Dispatch(name: string, checkBox: bool, current: GameTheme): Outcome {
    if name == BackButton.RawValue() then Outcome(checkBox, Some(ChangeState(Menu)))
    else if name == MusicCheckBox.RawValue() then Outcome(!checkBox, Some(ToggleMusic(!checkBox)))
    else if name == ChangeThemeButton.RawValue() then Outcome(checkBox, Some(ChangeTheme(OppositeTheme(current))))
    else Outcome(checkBox, None)
  }

  /** The name of the node `touchesBegan` resolves, if any. */
  function ResolvedName(touches: seq<Touch>): Option<string> {
    match ResolveNamedNode(touches, Selectable())
    case None => None
    case Some(node) => node.name
  }

  lemma SettingsSelectable()
    ensures Selectable() == ["backButton", "musicCheckBox", "changeThemeButton"]
    ensures Title.RawValue() !in Selectable() && MusicLabel.RawValue() !in Selectable()
  {
  }

  /**
   * A tap on the check box flips it and passes the new value to `toggleMusic`;
   * a second tap restores the box and asks for the opposite.
   */
  lemma CheckBoxTapTwice(checkBox: bool, current: GameTheme)
    ensures Dispatch("musicCheckBox", checkBox, current).request == Some(ToggleMusic(!checkBox))
    ensures Dispatch("musicCheckBox", Dispatch("musicCheckBox", checkBox, current).checkBox, current)
      == Outcome(checkBox, Some(ToggleMusic(checkBox)))
  {
  }

  /** Only the check box changes the check box; back leads to the menu; the theme button asks for the other theme. */
  lemma DispatchTargets(name: string, checkBox: bool, current: GameTheme)
    ensures name != "musicCheckBox" ==> Dispatch(name, checkBox, current).checkBox == checkBox
    ensures Dispatch("backButton", checkBox, current).request == Some(ChangeState(Menu))
    ensures Dispatch("changeThemeButton", checkBox, current).request == Some(ChangeTheme(OppositeTheme(current)))
    ensures name !in Selectable() ==> Dispatch(name, checkBox, current) == Outcome(checkBox, None)
  {
    SettingsSelectable();
  }

  class SettingsScene {
    /** `musicCheckBoxNode.isEnabled`. */
    var musicCheckBoxEnabled: bool

    /** The check box is created checked. */
    constructor ()
      ensures musicCheckBoxEnabled
    {
      musicCheckBoxEnabled := true;
    }

    /** `musicCheckBoxNode.setIsEnabled(_:)`, used by the game to show whether music plays. */
    method SetMusicCheckBox(isEnabled: bool)
      modifies this
      ensures musicCheckBoxEnabled == isEnabled
    {
      musicCheckBoxEnabled := isEnabled;
    }

    /** `touchesBegan`: a touch that resolves to nothing changes nothing and asks nothing. */
    method TouchesBegan(touches: seq<Touch>, current: GameTheme) returns (request: Option<SettingsRequest>)
      modifies this
      ensures ResolvedName(touches).None? ==> request.None? && musicCheckBoxEnabled == old(musicCheckBoxEnabled)
      ensures ResolvedName(touches).Some? ==>
        Outcome(musicCheckBoxEnabled, request) == Dispatch(ResolvedName(touches).value, old(musicCheckBoxEnabled), current)
    {
      var name := ResolvedName(touches);
      if name.None? {
        return None;
      }
      var outcome := Dispatch(name.value, musicCheckBoxEnabled, current);
      if name.value == MusicCheckBox.RawValue() {
        SetMusicCheckBox(outcome.checkBox);
      }
      request := outcome.request;
    }
  }
}
