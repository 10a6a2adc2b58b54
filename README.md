# Gibys Travel — a Dafny model of the game logic

Gibys Travel is a SpriteKit playground game. Giby walks through a level, reverses gravity with a tap and opens bridges by tapping switches. The aim is to reach the goal quickly enough for up to three stars. This project models the logic under the rendering:

- the star rating computed from the elapsed time (`RatingOptions.getRating`, `Rating`);
- the level session in `GameScene`:
  - the switch/bridge network (the proximity gate, the guarded toggle that fans a switch's state out to every bridge with its key, and the forced pre-activation at load);
  - the initial gravity;
  - the start time;
  - level completion;
- the touch controller in `GameSceneTouchEvents`: tap-to-reverse within 20 points, and the drag that makes Giby walk;
- the game flow:
  - `GameState` and its scene kinds;
  - the touch dispatch of the menu, level-selection, settings and level-completion scenes;
  - `GibysTravelGame`, which keeps the state, the last completed level, the theme and the music, and reloads scenes;
- the small helpers:
  - named-node resolution from a hit list;
  - `selectableNodes`;
  - theme file paths;
  - the two-point vector;
  - config-to-node copies.

Times and coordinates are `real`. A distance test `hypot(dx, dy) <= r` is stated as `dx*dx + dy*dy <= r*r`. `Geometry.LengthComparison` proves that the squared form agrees with the length form for every non-negative length. Stateful code is modelled as classes:

- `GameScene` owns its switches and bridges as arrays of node records and updates them in place.
- `LevelCompletionScene`, `SettingsScene` and `GibysTravelGame` update their fields.

Each method's postcondition ties the new state to a pure function of the old one, for example `GameNetwork.AfterToggle`, `GameNetwork.AfterActivation` or `GameScenes.AfterReverse`. The lemmas prove what the game promises about those functions.

Inputs the model takes as parameters:

- Hit-testing: each touch carries the nodes found at its location, listed front to back.
- Swift's `Set.first` of the touches is the first element of a sequence.
- The bundle's level files: a map from level number to an optional decoded `LevelModel`. An absent key means there is no file; `None` means the file does not decode.
- Whether the background music can be played.
- Whether the goal contains Giby on a tick.
- Giby's position after the physics step.

## Model

| member | source | states |
|---|---|---|
| Geometry.Between | WWDC19.playground/Sources/Globals/Extensions/CGVectorExtension.swift:4-6 | the vector leads from the first point to the second: first + v == second in both coordinates |
| Geometry.BetweenSwapped | WWDC19.playground/Sources/Globals/Extensions/CGVectorExtension.swift:4-6 | swapping the points negates both components |
| Geometry.BetweenSelf | WWDC19.playground/Sources/Globals/Extensions/CGVectorExtension.swift:4-14 | the vector from a point to itself is zero, has length 0 and is within every non-negative bound |
| Geometry.LengthSymmetric | WWDC19.playground/Sources/Globals/Extensions/CGVectorExtension.swift:12-14 | the length is the same for either argument order and is not negative |
| Geometry.SquaredLengthNonNegative | WWDC19.playground/Sources/Globals/Extensions/CGVectorExtension.swift:12-14 | dx² + dy² is never negative |
| Geometry.SquareMonotone | WWDC19.playground/Sources/Globals/Extensions/CGVectorExtension.swift:12-14 | on non-negative reals squaring keeps ≤ and < |
| Geometry.LengthComparison | WWDC19.playground/Sources/Globals/Extensions/CGVectorExtension.swift:12-14 | for the true length l of v and any bound r ≥ 0, the squared tests AtMost/AtLeast hold iff l ≤ r / l ≥ r |
| Directions.Direction.RawValue | WWDC19.playground/Sources/Globals/Direction.swift:7-10 | the raw value is 1 or -1 |
| Directions.DirectionOfRaw | WWDC19.playground/Sources/Globals/Direction.swift:7-10 | a direction exists exactly for the raw values 1 and -1 |
| Directions.DirectionRawRoundTrip | WWDC19.playground/Sources/Globals/Direction.swift:8-9 | left = 1 and right = -1 are recovered from their raw values |
| Ratings.Rating.RawValue | WWDC19.playground/Sources/Globals/Enums/Rating.swift:9-14 | every raw value lies in 0..3 |
| Ratings.RatingOfRaw | WWDC19.playground/Sources/Globals/Enums/Rating.swift:9-14 | `Rating(rawValue:)` succeeds iff 0 ≤ n ≤ 3, with a rating whose raw value is n |
| Ratings.RawValueRoundTrip | WWDC19.playground/Sources/Globals/Enums/Rating.swift:10-13 | empty = 0, single = 1, double = 2, triple = 3: each rating is recovered from its raw value |
| Ratings.RawValueInjective | WWDC19.playground/Sources/Globals/Enums/Rating.swift:10-13 | different ratings have different raw values |
| LevelModels.RatingBands | WWDC19.playground/Sources/Scenes/Game/Models/LevelModel.swift:37-47 | triple iff t ≤ triple; double iff triple < t ≤ double; single iff t exceeds triple and double but not single; empty iff t exceeds all three (so exactly one rating for every t) |
| LevelModels.RatingCountsThresholds | WWDC19.playground/Sources/Scenes/Game/Models/LevelModel.swift:37-47 | with triple ≤ double ≤ single, the stars earned are the number of thresholds the time does not exceed |
| LevelModels.RatingMonotone | WWDC19.playground/Sources/Scenes/Game/Models/LevelModel.swift:37-47 | with ordered thresholds, a longer time never earns more stars |
| LevelModels.NegativeTimeEarnsTriple | WWDC19.playground/Sources/Scenes/Game/Models/LevelModel.swift:38-39 | a negative time earns triple whenever the triple threshold is not negative |
| LevelModels.EmptyOptionsGiveNoStars | WWDC19.playground/Sources/Scenes/Game/Models/LevelModel.swift:49-51 | the all -1 thresholds give empty for every time above -1 |
| LevelModels.RatingExample | WWDC19.playground/Sources/Scenes/Game/Models/LevelModel.swift:37-47 | thresholds 30/20/10: 15 s gives double, 31 s empty, 10 s triple |
| LevelModels.EmptyLevelIsEmpty | WWDC19.playground/Sources/Scenes/Game/Models/LevelModel.swift:15-26 | `LevelModel.empty` has level -1, the empty thresholds and no switches, bridges, bodies, arrows or rainbows |
| Configs.GenerateSwitchNode | WWDC19.playground/Sources/Scenes/Game/Models/SwitchConfig.swift:20-27 | the node carries the config's key, tint, position, orientation and name, and starts neither enabled nor activated |
| Configs.GenerateSwitchNodeIgnoresIsActive | WWDC19.playground/Sources/Scenes/Game/Models/SwitchConfig.swift:20-27 | the generated node does not depend on `isActive` |
| Configs.GenerateBridgeNode | WWDC19.playground/Sources/Scenes/Game/Models/BridgeConfig.swift:14-18 | the bridge has the config's key and tint, the rect's size, its position at the rect's origin, and starts disabled |
| GameStates.LevelNumOfPlay | WWDC19.playground/Sources/Globals/Enums/GameState.swift:35-46 | `.play(n)` has level number n and the game scene kind, for every n |
| GameStates.LevelNumOfOtherStates | WWDC19.playground/Sources/Globals/Enums/GameState.swift:48-49 | menu, settings, levels and levelCompletion have level number -1 |
| GameStates.NonNegativeLevelNumIsPlay | WWDC19.playground/Sources/Globals/Enums/GameState.swift:43-51 | a non-negative level number comes only from the play state of that level |
| GameStates.LoadSceneSeparatesCases | WWDC19.playground/Sources/Globals/Enums/GameState.swift:21-38 | two states get the same scene kind iff they are the same case |
| GameStates.PlayEquality | WWDC19.playground/Sources/Globals/Enums/GameState.swift:11-16 | `.play(n) == .play(m)` iff n == m, and a play state equals no payload-free case |
| GameThemes.FilePathShape | WWDC19.playground/Sources/Globals/Enums/GameTheme.swift:49-51 | the file path is the four-letter theme prefix, then "/", then the given path |
| GameThemes.FilePathInjective | WWDC19.playground/Sources/Globals/Enums/GameTheme.swift:12-51 | a prefixed path determines both the theme and the path it was made from |
| GameThemes.ThemesGiveDifferentPaths | WWDC19.playground/Sources/Globals/Enums/GameTheme.swift:12-20 | the two themes give different file paths for the same path |
| GameThemes.GlowNeverAllowed | WWDC19.playground/Sources/Globals/Enums/GameTheme.swift:23-32 | `allowsGlow` is false for every theme |
| GameThemes.InitialThemeIsBold | WWDC19.playground/Sources/Globals/Enums/GameTheme.swift:9 | `current` starts as bold, so the first paths are "Bold/" + path |
| NodeSelection.FirstQualifying | WWDC19.playground/Sources/Globals/Extensions/SKSceneExtension.swift:17-26 | the index found is in range and qualifies, and no earlier node qualifies; none means no node qualifies |
| NodeSelection.ResolveWithoutTouches | WWDC19.playground/Sources/Globals/Extensions/SKSceneExtension.swift:13 | with no touches the result is nil |
| NodeSelection.ResolvedNodeQualifies | WWDC19.playground/Sources/Globals/Extensions/SKSceneExtension.swift:13-26 | a resolved node is named, was hit by the first touch, is in a non-empty white list, and no node hit before it qualifies |
| NodeSelection.ResolvedNoneIffNoneQualifies | WWDC19.playground/Sources/Globals/Extensions/SKSceneExtension.swift:17-26 | nothing is resolved iff no node under the first touch qualifies |
| NodeSelection.EmptyWhiteListPicksFirstNamed | WWDC19.playground/Sources/Globals/Extensions/SKSceneExtension.swift:18-22 | with an empty white list the first named node in hit order is resolved |
| NodeSelection.SelectableNodes | WWDC19.playground/Sources/Globals/Protocols/NodeSelectable.swift:10-16 | no more names than cases |
| NodeSelection.SelectableNodesMembership | WWDC19.playground/Sources/Globals/Protocols/NodeSelectable.swift:10-16 | a name is selectable iff some interactable case has it as raw value |
| NodeSelection.SelectableNodesAppend | WWDC19.playground/Sources/Globals/Protocols/NodeSelectable.swift:11-15 | the order follows `allCases`: selecting over a concatenation concatenates the selections |
| NodeSelection.SelectableNodesAllInteractable | WWDC19.playground/Sources/Globals/Protocols/NodeSelectable.swift:11-15 | when every case is interactable, the selection is every raw value in order |
| MenuScenes.MenuSelectable | WWDC19.playground/Sources/Scenes/Menu/MenuScene.swift:12-26 | exactly "startButton" and "settingsButton" are selectable; the title is not |
| MenuScenes.MenuDidSelectTargets | WWDC19.playground/Sources/Scenes/Menu/MenuScene.swift:101-116 | settings button leads to `.settings`, start button to `.levels`, no name or any other name nowhere |
| MenuScenes.MenuTouchesBeganTargets | WWDC19.playground/Sources/Scenes/Menu/MenuScene.swift:92-116 | a touch changes state iff it resolves among the selectable nodes, only to levels or settings, and never through the title |
| MenuScenes.TitleOverStartButton | WWDC19.playground/Sources/Scenes/Menu/MenuScene.swift:92-96 | a title hit in front of the start button is skipped; the touch leads to `.levels` |
| LevelSelectionScenes.LevelSelectionSelectable | WWDC19.playground/Sources/Scenes/LevelSelection/LevelSelectionScene.swift:7-25 | the five level buttons and the back button are selectable, the title is not |
| LevelSelectionScenes.TargetOfSelector | WWDC19.playground/Sources/Scenes/LevelSelection/LevelSelectionScene.swift:124-145 | level button k leads to `.play(k)`, the back button to `.menu`, the title nowhere |
| LevelSelectionScenes.TargetOfSelectable | WWDC19.playground/Sources/Scenes/LevelSelection/LevelSelectionScene.swift:124-141 | every selectable name leads to the menu or to a level in 1..5 |
| LevelSelectionScenes.TargetsAreMenuOrLevels | WWDC19.playground/Sources/Scenes/LevelSelection/LevelSelectionScene.swift:119-146 | a touch changes state iff it resolves, and then only to the menu or a level in 1..5 |
| SettingsScenes.OppositeTheme | WWDC19.playground/Sources/Scenes/Settings/SettingsScene.swift:110 | the theme asked for differs from the current one |
| SettingsScenes.OppositeThemeInvolution | WWDC19.playground/Sources/Scenes/Settings/SettingsScene.swift:110 | neon→bold→neon and bold→neon→bold |
| SettingsScenes.SettingsSelectable | WWDC19.playground/Sources/Scenes/Settings/SettingsScene.swift:7-23 | back, check box and theme button are selectable; title and music label are not |
| SettingsScenes.CheckBoxTapTwice | WWDC19.playground/Sources/Scenes/Settings/SettingsScene.swift:103-107 | a check box tap passes the negated state to `toggleMusic`; two taps restore the box |
| SettingsScenes.DispatchTargets | WWDC19.playground/Sources/Scenes/Settings/SettingsScene.swift:99-115 | back leads to `.menu`, the theme button asks for the other theme, only the check box changes the box, other names do nothing |
| SettingsScenes.SettingsScene.constructor | WWDC19.playground/Sources/Scenes/Settings/SettingsScene.swift:46-52 | the check box is created checked |
| SettingsScenes.SettingsScene.SetMusicCheckBox | WWDC19.playground/Sources/Scenes/Settings/SettingsScene.swift:105-106 | the check box takes the given state |
| SettingsScenes.SettingsScene.TouchesBegan | WWDC19.playground/Sources/Scenes/Settings/SettingsScene.swift:94-116 | the new check box and the request are those of the dispatch on the resolved name; an unresolved touch changes nothing |
| LevelCompletionScenes.StarsForRating | WWDC19.playground/Sources/Scenes/LevelCompletion/LevelCompletionScene.swift:100-108 | three stars, star i lit iff i ≤ rawValue, so the lit count equals rawValue |
| LevelCompletionScenes.TargetCases | WWDC19.playground/Sources/Scenes/LevelCompletion/LevelCompletionScene.swift:116-130 | retry leads to `.play(levelNum)`, next to `.play(levelNum + 1)`, menu to `.menu`; retry and next do nothing without a view model |
| LevelCompletionScenes.CompletionSelectable | WWDC19.playground/Sources/Scenes/LevelCompletion/LevelCompletionScene.swift:7-15 | all three buttons are selectable |
| LevelCompletionScenes.CompletionTouchTargets | WWDC19.playground/Sources/Scenes/LevelCompletion/LevelCompletionScene.swift:111-131 | a touch leads only to the menu, or to this or the next level once a view model is set |
| LevelCompletionScenes.LevelCompletionScene.constructor | WWDC19.playground/Sources/Scenes/LevelCompletion/LevelCompletionScene.swift:22-75 | no view model, no title, no stars, and the next button present |
| LevelCompletionScenes.LevelCompletionScene.SetViewModel | WWDC19.playground/Sources/Scenes/LevelCompletion/LevelCompletionScene.swift:77-89 | old stars and title are replaced: exactly three stars as the rating says, the title of the level, the model stored; the next button is gone once levelNum ≥ 5 |
| LevelCompletionScenes.LevelCompletionScene.ConfigureStars | WWDC19.playground/Sources/Scenes/LevelCompletion/LevelCompletionScene.swift:100-108 | appends stars 1..3 in order, star i lit iff i ≤ rawValue, and changes nothing else |
| GameNetwork.FanOut | WWDC19.playground/Sources/Scenes/Game/GameScene.swift:273-281 | every bridge with the key gets the value, only `isEnabled` can change, and bridges with other keys are unchanged |
| GameNetwork.AfterToggle | WWDC19.playground/Sources/Scenes/Game/GameScene.swift:268-282 | switches and bridges keep their number; what a toggle changes is stated by ToggleGuard and ToggleFansOut |
| GameNetwork.SetIsEnabled | WWDC19.playground/Sources/Scenes/Game/GameScene.swift:290-294 | the switch gets the flag and a tint at opacity 1 when enabled, 0.5 otherwise; nothing else changes |
| GameNetwork.AfterProximity | WWDC19.playground/Sources/Scenes/Game/GameScene.swift:232-236 | each switch is enabled iff it is within reach of Giby, and keeps its activation, key and position |
| GameNetwork.FirstWithKey | WWDC19.playground/Sources/Scenes/Game/GameScene.swift:206 | the index found holds the key and no earlier switch does; none means no switch has the key |
| GameNetwork.ActivationStep | WWDC19.playground/Sources/Scenes/Game/GameScene.swift:204-208 | one config step keeps the number of switches and bridges; ActivationSkips and PreActivation state its effect |
| GameNetwork.AfterActivation | WWDC19.playground/Sources/Scenes/Game/GameScene.swift:202-209 | pre-activation keeps the number of switches and bridges; PreActivation and PreActivatedBridges state its effect |
| GameNetwork.Generated | WWDC19.playground/Sources/Scenes/Game/GameScene.swift:192-198 | one bridge per bridge config and one switch per switch config |
| GameNetwork.ToggleGuard | WWDC19.playground/Sources/Scenes/Game/GameScene.swift:269 | a switch neither enabled nor forced is not toggled: nothing changes |
| GameNetwork.ToggleFansOut | WWDC19.playground/Sources/Scenes/Game/GameScene.swift:270-281 | the switch's `isActivated` flips, every bridge with its key takes the new value, all other switches and bridges stay as they were |
| GameNetwork.ToggleTwiceRestores | WWDC19.playground/Sources/Scenes/Game/GameScene.swift:279-281 | two toggles of a switch whose bridges mirror it restore the whole network |
| GameNetwork.ToggleKeepsMirroring | WWDC19.playground/Sources/Scenes/Game/GameScene.swift:268-282 | with distinct switch keys, a toggle keeps every bridge showing the state of the switch with its key |
| GameNetwork.ProximityKeepsActivation | WWDC19.playground/Sources/Scenes/Game/GameScene.swift:287-295 | the proximity pass sets `isEnabled` to in-reach and keeps activation, keys, positions and mirroring |
| GameNetwork.ProximityGate | WWDC19.playground/Sources/Scenes/Game/GameScene.swift:288-294 | a switch is in reach iff its true distance to Giby is ≤ 60, boundary included |
| GameNetwork.ActivationSkips | WWDC19.playground/Sources/Scenes/Game/GameScene.swift:205-206 | an inactive config, or one whose key no switch has, changes nothing |
| GameNetwork.PreActivation | WWDC19.playground/Sources/Scenes/Game/GameScene.swift:198-209 | after the first j configs (distinct keys), switch i is activated iff i < j and its config is active, nothing is enabled, keys are the configs' and bridges mirror their switches |
| GameNetwork.PreActivatedBridges | WWDC19.playground/Sources/Scenes/Game/GameScene.swift:192-209 | after load, a bridge is enabled iff the config of the switch with its key is active, with no proximity needed |
| GameScenes.GameSelectableIsAll | WWDC19.playground/Sources/Scenes/Game/GameNodeSelectors.swift:5-11 | "giby", "backButton" and "resetButton" are all selectable, in that order |
| GameScenes.InitialGravity | WWDC19.playground/Sources/Scenes/Game/GameScene.swift:212-214 | gravity is (0, +5) for a reversed start and (0, -5) otherwise |
| GameScenes.InitialGravityConsistent | WWDC19.playground/Sources/Scenes/Game/GameScene.swift:212-214 | the initial gravity agrees with Giby's initial orientation |
| GameScenes.ReverseEffect | WWDC19.playground/Sources/Scenes/Game/GameSceneExtension/GameSceneTouchEvents.swift:69-82 | without a saved position within 20 points nothing changes; otherwise dy is negated, dx kept, `isReversed` is the new dy > 0, and nothing else changes |
| GameScenes.ReverseTwice | WWDC19.playground/Sources/Scenes/Game/GameSceneExtension/GameSceneTouchEvents.swift:78-82 | two reversals restore gravity and Giby's orientation |
| GameScenes.ControllerKeepsGravityConsistent | WWDC19.playground/Sources/Scenes/Game/GameSceneExtension/GameSceneTouchEvents.swift:44-110 | reversal, drags and touch ends keep Giby's orientation equal to "gravity points up"; drags and ends keep gravity |
| GameScenes.TapToleranceByLength | WWDC19.playground/Sources/Scenes/Game/GameSceneExtension/GameSceneTouchEvents.swift:70-74 | a tap reverses iff Giby's true distance from the saved position is ≤ 20 |
| GameScenes.DragEffect | WWDC19.playground/Sources/Scenes/Game/GameSceneExtension/GameSceneTouchEvents.swift:89-110 | a drag shorter than 2/3 of Giby's width stops Giby and hides the strip; a longer one shows it and walks right iff giby.x < touch.x |
| GameScenes.GameScene.constructor | WWDC19.playground/Sources/Scenes/Game/GameScene.swift:139-200 | nodes generated from the configs, then pre-activated; gravity from the start orientation; Giby at the start; no start time; strip hidden |
| GameScenes.GameScene.ConfigureSwitchActivation | WWDC19.playground/Sources/Scenes/Game/GameScene.swift:202-209 | the network becomes AfterActivation of the old one over the level's configs |
| GameScenes.GameScene.ToggleSwitch | WWDC19.playground/Sources/Scenes/Game/GameScene.swift:268-282 | the network becomes AfterToggle of the old one |
| GameScenes.GameScene.EnableSwitchIfNeeded | WWDC19.playground/Sources/Scenes/Game/GameScene.swift:287-295 | only switch i changes: it is enabled iff in reach of Giby |
| GameScenes.GameScene.RefreshSwitches | WWDC19.playground/Sources/Scenes/Game/GameScene.swift:232-236 | every switch gets the proximity gate for Giby's position |
| GameScenes.GameScene.DidCompleteLevel | WWDC19.playground/Sources/Scenes/Game/GameScene.swift:255-262 | the scene is paused and reports (levelNum, getRating(currentTime - (startTime ?? 0))) |
| GameScenes.GameScene.Update | WWDC19.playground/Sources/Scenes/Game/GameScene.swift:220-237 | the start time is set on the first tick only; a goal containing Giby pauses and reports the rating for the time since the start; then the proximity pass; bridges unchanged |
| GameScenes.GameScene.PhysicsMovedGiby | WWDC19.playground/Sources/Scenes/Game/GameScene.swift:225 | Giby's position changes and nothing else |
| GameScenes.GameScene.TouchesBegan | WWDC19.playground/Sources/Scenes/Game/GameSceneExtension/GameSceneTouchEvents.swift:7-35 | a switch touch toggles that switch and nothing else; Giby sets `willMove` and saves its position; back asks for the menu, reset for a reload; other touches do nothing |
| GameScenes.GameScene.TouchesMoved | WWDC19.playground/Sources/Scenes/Game/GameSceneExtension/GameSceneTouchEvents.swift:37-42 | ignored unless `willMove` is set and there is a touch; otherwise the drag step for the first touch |
| GameScenes.GameScene.UpdateGibyMoving | WWDC19.playground/Sources/Scenes/Game/GameSceneExtension/GameSceneTouchEvents.swift:89-110 | the fields become AfterDrag of the old ones |
| GameScenes.GameScene.TouchesCancelled | WWDC19.playground/Sources/Scenes/Game/GameSceneExtension/GameSceneTouchEvents.swift:44-50 | `willMove` cleared, strip hidden, Giby stopped, nothing else |
| GameScenes.GameScene.TouchesEnded | WWDC19.playground/Sources/Scenes/Game/GameSceneExtension/GameSceneTouchEvents.swift:53-66 | the same end step, then the reversal test only if the touch resolves to Giby |
| GameScenes.GameScene.UpdateReverseIfNeeded | WWDC19.playground/Sources/Scenes/Game/GameSceneExtension/GameSceneTouchEvents.swift:69-84 | the fields become AfterReverse of the old ones |
| Games.SceneForMatchesState | WWDC19.playground/Sources/GameLogic/Game.swift:59-72 | a presented scene is of the class `loadScene()` names and uses the current theme |
| Games.SceneForFailsOnlyForMissingLevels | WWDC19.playground/Sources/GameLogic/Game.swift:60-63 | reload presents nothing iff the state is `.play(n)`, n ≥ 0, and level n is missing or does not decode |
| Games.SceneForPlay | WWDC19.playground/Sources/GameLogic/Game.swift:61-66 | `.play(n)`, n ≥ 0, presents the decoded model of level n |
| Games.SceneForNegativeLevel | WWDC19.playground/Sources/GameLogic/Game.swift:67-70 | `.play(n)` with n < 0 builds the game scene on the empty level |
| Games.SceneForConfiguresScenes | WWDC19.playground/Sources/GameLogic/Game.swift:67-84 | settings shows the music state in its check box, completion shows the last completed level, menu and levels need nothing |
| Games.GibysTravelGame.constructor | WWDC19.playground/Sources/GameLogic/Game.swift:17-54 | state menu, last completed (1, empty), theme bold, the menu on screen, no `scene` yet; music on iff enabled and playable |
| Games.GibysTravelGame.StartBackgroundMusic | WWDC19.playground/Sources/GameLogic/AudioManager.swift:15-26 | music on if it was on or can be played; nothing else changes |
| Games.GibysTravelGame.StopBackgroundMusic | WWDC19.playground/Sources/GameLogic/AudioManager.swift:29-34 | music off; nothing else changes |
| Games.GibysTravelGame.Transition | WWDC19.playground/Sources/GameLogic/Game.swift:89-95 | the view presents the scene and `scene` remembers it |
| Games.GibysTravelGame.Reload | WWDC19.playground/Sources/GameLogic/Game.swift:59-84 | the screen becomes SceneFor of the current state, or stays as it was when the level cannot be loaded; state, record, theme and music unchanged |
| Games.GibysTravelGame.ChangeGameState | WWDC19.playground/Sources/GameLogic/Game.swift:97-103 | the state is assigned even when no scene can be shown, then reloaded |
| Games.GibysTravelGame.DidCompleteLevel | WWDC19.playground/Sources/GameLogic/Game.swift:75-111 | records (levelNum, rating), moves to levelCompletion, and the completion scene shows that record |
| Games.GibysTravelGame.Reset | WWDC19.playground/Sources/GameLogic/Game.swift:113-115 | reloads without changing the state |
| Games.GibysTravelGame.ToggleMusic | WWDC19.playground/Sources/GameLogic/Game.swift:120-126 | true starts the music, false stops it, nothing else changes |
| Games.GibysTravelGame.ChangeTheme | WWDC19.playground/Sources/GameLogic/Game.swift:128-133 | the same theme changes nothing; a new theme is stored and the current state reloaded with it |
| Games.GibysTravelGame.HandleGameSceneRequest | WWDC19.playground/Sources/GameLogic/Game.swift:97-115 | the back request assigns its state and the screen becomes SceneFor of that state (or stays as it was when the level cannot be loaded); the reset keeps the state and shows the reload of the current state, or the old screen; record, theme and music unchanged |
| Games.GibysTravelGame.HandleSettingsRequest | WWDC19.playground/Sources/GameLogic/Game.swift:97-133 | back assigns the state and shows SceneFor of it (or the old screen); the check box toggles music and keeps the screen; the theme button sets the theme and, when it differs, shows the reload with the new theme (or the old screen); each leaves the other settings alone |

## Left out

- Negative elapsed times: the code compares `time <= triple` first, so a negative time earns `.triple` whenever `triple ≥ 0`. A lowest-rating default for negative times would be a different design; the model follows the code, and `LevelModels.NegativeTimeEarnsTriple` states it.
- The SpriteKit physics and Giby's motion are not modelled:
  - `updatePhysics`, `keepPace`, velocities and falling;
  - the border and node physics bodies;
  - `PhysicsBodyConfig`.
- Giby's position after the physics step is a method parameter (`PhysicsMovedGiby`), and whether `GoalNode.contains` Giby is a parameter of `Update`.
- `GameScenes.GameScene.Update`: does not skip ticks while the scene is paused and allows completion more than once. The source code has no guard of its own: the scene only sets `isPaused` on completion. The model assumes that the host does not call `update` on a paused scene, and does not prove it.
- Hit-testing (`nodes(at:)`) is not modelled. Each touch carries its hit list. `GameScene.TouchesBegan` requires that a switch hit names one of the scene's switches. The list is assumed to reflect the scene's current children: for example, a removed next button is not hit.
- The particle emitters, their alpha and the `Timer` that fades them are left out: they are deferred visual effects.
- `animatePop`, glow, the camera and the button positions are left out, and so are the drag strip's size and rotation (`angleX1`, `atan2`).
- The star and title layout and the title animation are left out. The bridge's fill opacity, dashed border and physics body follow `isEnabled` and are not tracked separately.
- `GameTheme.current` is a process-wide static variable in the source; the model makes it the `theme` field of the game object, starting at `.bold`, and every scene the game presents records that field.
- `GameTheme.backgroundColor` is rendering only. The scene textures chosen through `GameTheme.current` are recorded only as the theme a presented scene was built with.
- `ArrowConfig`, `RainbowConfig` and `PhysicsBodyConfig` are kept as plain records that the scene never reads.
- `Color(color:)` and `UIColor` conversion (floating-point `getRed`) are left out. A config's colour is a record of four reals.
- JSON decoding and `Bundle` lookup are left out. The level files are a map from level number to an optional decoded model.
- AVFoundation playback is left out. Whether the music file can be played is a constant of the game object. Starting and stopping only set `isBackgroundMusicOn`.
- The game object records a presented scene as a `SceneDescriptor`: what the scene was built from and configured with. It does not construct the scene objects themselves. So the presented settings scene is not linked to a `SettingsScene` instance, and the completion scene is not linked to a `LevelCompletionScene` instance. Their behaviour is modelled by those classes separately.
- Scene transitions (`Transition.swift`, `SKTransition`) are left out, and so are the debug flags of the view.
- The flow-delegate protocols are plain method calls: a scene's touch handler returns the request it would make, and the game handles it.
- `Contents.swift` is not part of this model.
