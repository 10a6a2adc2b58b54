/**
 * Game.swift: `GibysTravelGame`, the owner of the game state.  It keeps the
 * last completed level, the current theme and whether the background music
 * plays, and on every change of state it builds the scene for the new state
 * and presents it.  The bundle is an input: `levels[n]` is absent when the
 * file `Shared/Levels/Level<n>.json` is missing and `None` when it does not
 * decode; `audioAvailable` says whether the music file can be played.
 * A presented scene is recorded by what it was built from.
 */
module Games {
  import opened Wrappers
  import opened Ratings
  import opened LevelModels
  import opened GameStates
  import opened GameThemes
  import opened LevelCompletionScenes
  import opened SettingsScenes
  import opened GameScenes

  /** What a presented scene was configured with by `setSceneDelegates(for:)`. */
  datatype SceneContent =
    | MenuView
    | SettingsView(musicChecked: bool)
    | LevelsView
    | CompletionView(viewModel: ViewModel)
    | PlayView(model: LevelModel)

  /** A scene together with the theme its assets were loaded with. */
  datatype SceneDescriptor = SceneDescriptor(content: SceneContent, theme: GameTheme)

  /** The scene class a content belongs to. */
  function KindOf(c: SceneContent): SceneKind {
    match c
    case MenuView => MenuScene
    case SettingsView(_) => SettingsScene
    case LevelsView => LevelSelectionScene
    case CompletionView(_) => LevelCompletionScene
    case PlayView(_) => GameScene
  }

  /** The view model `lastCompletedLevel` starts with. */
  const InitialCompletion := ViewModel(1, Empty)

  /**
   * The scene `reload(with:)` presents for `state`, or `None` when it
   * returns early because the level file is missing or does not decode.
   */
  function SceneFor(state: GameState, levels: map<int, Option<LevelModel>>, musicOn: bool,
                    last: ViewModel, theme: GameTheme): Option<SceneDescriptor>
  {
    var levelNum := GenerateLevelNum(state);
    if levelNum >= 0 then
      if levelNum in levels && levels[levelNum].Some? then
        Some(SceneDescriptor(PlayView(levels[levelNum].value), theme))
      else None
    else
      var content := match LoadScene(state)
        case MenuScene => MenuView
        case SettingsScene => SettingsView(musicOn)
        case LevelSelectionScene => LevelsView
        case LevelCompletionScene => CompletionView(last)
        case GameScene => PlayView(EmptyLevel);
      Some(SceneDescriptor(content, theme))
  }

  /** A reload presents a scene of the class `loadScene()` names, with the current theme. */
  lemma SceneForMatchesState(state: GameState, levels: map<int, Option<LevelModel>>, musicOn: bool,
                             last: ViewModel, theme: GameTheme)
    ensures var d := SceneFor(state, levels, musicOn, last, theme);
      d.Some? ==> KindOf(d.value.content) == LoadScene(state) && d.value.theme == theme
  {
  }

  /** Only a level that cannot be loaded leaves the screen unchanged. */
  lemma SceneForFailsOnlyForMissingLevels(state: GameState, levels: map<int, Option<LevelModel>>, musicOn: bool,
                                          last: ViewModel, theme: GameTheme)
    ensures SceneFor(state, levels, musicOn, last, theme).None? <==>
      state.Play? && state.level >= 0 && (state.level !in levels || levels[state.level].None?)
  {
  }

  /** A non-negative level plays the decoded model of its file. */
  lemma SceneForPlay(n: int, levels: map<int, Option<LevelModel>>, musicOn: bool, last: ViewModel, theme: GameTheme)
    requires n >= 0 && n in levels && levels[n].Some?
    ensures SceneFor(Play(n), levels, musicOn, last, theme) == Some(SceneDescriptor(PlayView(levels[n].value), theme))
  {
  }

  /** A negative level number is not looked up: the game scene is built on the empty level. */
  lemma SceneForNegativeLevel(n: int, levels: map<int, Option<LevelModel>>, musicOn: bool, last: ViewModel, theme: GameTheme)
    requires n < 0
    ensures SceneFor(Play(n), levels, musicOn, last, theme) == Some(SceneDescriptor(PlayView(EmptyLevel), theme))
  {
  }

  /** The settings check box mirrors the music, and the completion scene shows the last completed level. */
  lemma SceneForConfiguresScenes(levels: map<int, Option<LevelModel>>, musicOn: bool, last: ViewModel, theme: GameTheme)
    ensures SceneFor(Settings, levels, musicOn, last, theme) == Some(SceneDescriptor(SettingsView(musicOn), theme))
    ensures SceneFor(LevelCompletion, levels, musicOn, last, theme) == Some(SceneDescriptor(CompletionView(last), theme))
    ensures SceneFor(Menu, levels, musicOn, last, theme) == Some(SceneDescriptor(MenuView, theme))
    ensures SceneFor(Levels, levels, musicOn, last, theme) == Some(SceneDescriptor(LevelsView, theme))
  {
  }

  class GibysTravelGame {
    /** The level files of the bundle, by level number. */
    const levels: map<int, Option<LevelModel>>
    /** Whether the background music file exists and an audio player can be made for it. */
    const audioAvailable: bool

    var gameState: GameState
    var lastCompletedLevel: ViewModel
    /** `GameTheme.current`. */
    var theme: GameTheme
    /** `audioManager.isBackgroundMusicOn`. */
    var musicOn: bool
    /** The `scene` property: set by every transition, nil before the first. */
    var scene: Option<SceneDescriptor>
    /** The scene the view shows. */
    var presented: SceneDescriptor

    /** The `scene` property, once set, is what the view shows. */
    predicate Valid()
      reads this
    {
      scene.Some? ==> scene.value == presented
    }

    /** The scene a reload in the current state would present. */
    function Reloaded(): Option<SceneDescriptor>
      reads this
    {
      SceneFor(gameState, levels, musicOn, lastCompletedLevel, theme)
    }

    /**
     * `init(isDebug:enableAudio:)`: the view is created with the menu for the
     * initial state; the music starts if audio is enabled and available.
     */
    constructor (levels: map<int, Option<LevelModel>>, audioAvailable: bool, enableAudio: bool)
      ensures this.levels == levels && this.audioAvailable == audioAvailable
      ensures gameState == Menu && lastCompletedLevel == InitialCompletion && theme == InitialTheme
      ensures scene == None && presented == SceneDescriptor(MenuView, InitialTheme)
      ensures musicOn == (enableAudio && audioAvailable)
      ensures Valid()
    {
      this.levels := levels;
      this.audioAvailable := audioAvailable;
      gameState := Menu;
      lastCompletedLevel := InitialCompletion;
      theme := InitialTheme;
      musicOn := false;
      scene := None;
      presented := SceneDescriptor(MenuView, InitialTheme);
      new;
      if enableAudio {
        StartBackgroundMusic();
      }
    }

    /** `AudioManager.startBackgroundMusic()`: starts unless already on or the file cannot be played. */
    method StartBackgroundMusic()
      modifies this
      ensures musicOn == (old(musicOn) || audioAvailable)
      ensures gameState == old(gameState) && lastCompletedLevel == old(lastCompletedLevel) && theme == old(theme)
      ensures scene == old(scene) && presented == old(presented)
    {
      if musicOn {
        return;
      }
      if !audioAvailable {
        return;
      }
      musicOn := true;
    }

    /** `AudioManager.stopBackgroundMusic()`. */
    method StopBackgroundMusic()
      modifies this
      ensures !musicOn
      ensures gameState == old(gameState) && lastCompletedLevel == old(lastCompletedLevel) && theme == old(theme)
      ensures scene == old(scene) && presented == old(presented)
    {
      if !musicOn {
        return;
      }
      musicOn := false;
    }

    /** `transition(to:with:)`: the view presents the scene and remembers it. */
    method Transition(d: SceneDescriptor)
      modifies this
      ensures scene == Some(d) && presented == d
      ensures gameState == old(gameState) && lastCompletedLevel == old(lastCompletedLevel)
      ensures theme == old(theme) && musicOn == old(musicOn)
      ensures Valid()
    {
      presented := d;
      scene := Some(d);
    }

    /**
     * `reload(with:)`: a non-negative level number loads that level's file,
     * any other state builds its scene class; a level that cannot be loaded
     * leaves everything as it was.
     */
    method Reload()
      requires Valid()
      modifies this
      ensures Valid()
      ensures old(Reloaded()).Some? ==> scene == old(Reloaded()) && presented == old(Reloaded()).value
      ensures old(Reloaded()).None? ==> scene == old(scene) && presented == old(presented)
      ensures gameState == old(gameState) && lastCompletedLevel == old(lastCompletedLevel)
      ensures theme == old(theme) && musicOn == old(musicOn)
    {
      var levelNum := GenerateLevelNum(gameState);
      if levelNum >= 0 {
        if levelNum !in levels {
          return;
        }
        var decoded := levels[levelNum];
        if decoded.None? {
          return;
        }
        Transition(SceneDescriptor(PlayView(decoded.value), theme));
      } else {
        var content;
        match LoadScene(gameState) {
          case MenuScene => content := MenuView;
          case SettingsScene => content := SettingsView(musicOn);
          case LevelSelectionScene => content := LevelsView;
          case LevelCompletionScene => content := CompletionView(lastCompletedLevel);
          case GameScene => content := PlayView(EmptyLevel);
        }
        Transition(SceneDescriptor(content, theme));
      }
    }

    /** `changeGameState(to:with:)`: the state is assigned, then reloaded. */
    method ChangeGameState(state: GameState)
      requires Valid()
      modifies this
      ensures Valid()
      ensures gameState == state
      ensures var d := SceneFor(state, levels, musicOn, lastCompletedLevel, theme);
        (d.Some? ==> scene == d && presented == d.value)
        && (d.None? ==> scene == old(scene) && presented == old(presented))
      ensures lastCompletedLevel == old(lastCompletedLevel) && theme == old(theme) && musicOn == old(musicOn)
    {
      gameState := state;
      Reload();
    }

    /** `didCompleteLevel(at:with:)`: the completion scene shows the level and its rating. */
    method DidCompleteLevel(levelNum: int, rating: Rating)
      requires Valid()
      modifies this
      ensures Valid()
      ensures gameState == LevelCompletion && lastCompletedLevel == ViewModel(levelNum, rating)
      ensures presented == SceneDescriptor(CompletionView(ViewModel(levelNum, rating)), theme) && scene == Some(presented)
      ensures theme == old(theme) && musicOn == old(musicOn)
    {
      lastCompletedLevel := ViewModel(levelNum, rating);
      ChangeGameState(LevelCompletion);
    }

    /** `reset()`: the current state is built again. */
    method Reset()
      requires Valid()
      modifies this
      ensures Valid()
      ensures old(Reloaded()).Some? ==> scene == old(Reloaded()) && presented == old(Reloaded()).value
      ensures old(Reloaded()).None? ==> scene == old(scene) && presented == old(presented)
      ensures gameState == old(gameState) && lastCompletedLevel == old(lastCompletedLevel)
      ensures theme == old(theme) && musicOn == old(musicOn)
    {
      Reload();
    }

    /** `toggleMusic(to:)`. */
    method ToggleMusic(isActive: bool)
      modifies this
      ensures musicOn == if isActive then old(musicOn) || audioAvailable else false
      ensures gameState == old(gameState) && lastCompletedLevel == old(lastCompletedLevel) && theme == old(theme)
      ensures scene == old(scene) && presented == old(presented)
    {
      if isActive {
        StartBackgroundMusic();
      } else {
        StopBackgroundMusic();
      }
    }

    /** `changeTheme(to:)`: a new theme is set and the current state reloaded with it; the same theme does nothing. */
    method ChangeTheme(t: GameTheme)
      requires Valid()
      modifies this
      ensures Valid()
      ensures theme == t
      ensures old(theme) == t ==> scene == old(scene) && presented == old(presented)
      ensures old(theme) != t ==>
        var d := SceneFor(gameState, levels, musicOn, lastCompletedLevel, t);
        (d.Some? ==> scene == d && presented == d.value)
        && (d.None? ==> scene == old(scene) && presented == old(presented))
      ensures gameState == old(gameState) && lastCompletedLevel == old(lastCompletedLevel) && musicOn == old(musicOn)
    {
      if theme == t {
        return;
      }
      theme := t;
      Reload();
    }

    /** The game scene's delegate calls: a change of state (back to the menu) and a reset. */
    method HandleGameSceneRequest(r: FlowRequest)
      requires Valid()
      modifies this
      ensures Valid()
      ensures r.ChangeGameState? ==> gameState == r.state
      ensures r.ChangeGameState? ==>
        var d := SceneFor(r.state, levels, musicOn, lastCompletedLevel, theme);
        (d.Some? ==> scene == d && presented == d.value)
        && (d.None? ==> scene == old(scene) && presented == old(presented))
      ensures r.Reset? ==> gameState == old(gameState)
      ensures r.Reset? && old(Reloaded()).Some? ==> scene == old(Reloaded()) && presented == old(Reloaded()).value
      ensures r.Reset? && old(Reloaded()).None? ==> scene == old(scene) && presented == old(presented)
      ensures lastCompletedLevel == old(lastCompletedLevel) && theme == old(theme) && musicOn == old(musicOn)
    {
      match r {
        case ChangeGameState(state) => ChangeGameState(state);
        case Reset => Reset();
      }
    }

    /** The settings scene's delegate calls. */
    method HandleSettingsRequest(r: SettingsRequest)
      requires Valid()
      modifies this
      ensures Valid()
      ensures r.ChangeState? ==> gameState == r.state && theme == old(theme) && musicOn == old(musicOn)
      ensures r.ChangeState? ==>
        var d := SceneFor(r.state, levels, musicOn, lastCompletedLevel, theme);
        (d.Some? ==> scene == d && presented == d.value)
        && (d.None? ==> scene == old(scene) && presented == old(presented))
      ensures r.ToggleMusic? ==>
        (gameState == old(gameState) && theme == old(theme) && musicOn == (r.isActive && (old(musicOn) || audioAvailable)))
      ensures r.ToggleMusic? ==> scene == old(scene) && presented == old(presented)
      ensures r.ChangeTheme? ==> gameState == old(gameState) && theme == r.theme && musicOn == old(musicOn)
      ensures r.ChangeTheme? && old(theme) == r.theme ==> scene == old(scene) && presented == old(presented)
      ensures r.ChangeTheme? && old(theme) != r.theme ==>
        var d := SceneFor(gameState, levels, musicOn, lastCompletedLevel, r.theme);
        (d.Some? ==> scene == d && presented == d.value)
        && (d.None? ==> scene == old(scene) && presented == old(presented))
      ensures lastCompletedLevel == old(lastCompletedLevel)
    {
      match r {
        case ChangeState(state) => ChangeGameState(state);
        case ToggleMusic(isActive) => ToggleMusic(isActive);
        case ChangeTheme(t) => ChangeTheme(t);
      }
    }
  }
}
