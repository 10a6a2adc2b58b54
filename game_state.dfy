/** GameState.swift: the screens of the game and the scene type that shows each. */
module GameStates {

  datatype GameState = Menu | Settings | Levels | LevelCompletion | Play(level: int)

  /** The scene classes `loadScene` can return. */
  datatype SceneKind = MenuScene | SettingsScene | LevelSelectionScene | LevelCompletionScene | GameScene

  /** `loadScene()`: the scene type used to show a state. */
  function LoadScene(s: GameState): SceneKind {
    match s
    case Menu => MenuScene
    case LevelCompletion => LevelCompletionScene
    case Levels => LevelSelectionScene
    case Settings => SettingsScene
    case Play(_) => GameScene
  }

  /** `generateLevelNum()`: the level of a play state, -1 for every other state. */
  function GenerateLevelNum(s: GameState): int {
    match s
    case Play(n) => n
    case _ => -1
  }

  /** Two states are of the same case, whatever their payload. */
  predicate SameCase(s: GameState, t: GameState) {
    (s.Play? && t.Play?) || (!s.Play? && s == t)
  }

  /** The level number of `.play(n)` is `n`, for every `n`. */
  lemma LevelNumOfPlay(n: int)
    ensures GenerateLevelNum(Play(n)) == n
    ensures LoadScene(Play(n)) == GameScene
  {
  }

  /** The states without a payload have level number -1. */
  lemma LevelNumOfOtherStates(s: GameState)
    requires !s.Play?
    ensures GenerateLevelNum(s) == -1
  {
  }

  /** A non-negative level number comes only from the play state of that level. */
  lemma NonNegativeLevelNumIsPlay(s: GameState)
    requires GenerateLevelNum(s) >= 0
    ensures s == Play(GenerateLevelNum(s))
  {
  }

  /** The five cases are sent to five distinct scene kinds. */
  lemma LoadSceneSeparatesCases(s: GameState, t: GameState)
    ensures LoadScene(s) == LoadScene(t) <==> SameCase(s, t)
  {
  }

  /** `.play(n) == .play(m)` exactly when `n == m`, and a play state is no other case. */
  lemma PlayEquality(n: int, m: int, s: GameState)
    requires !s.Play?
    ensures Play(n) == Play(m) <==> n == m
    ensures Play(n) != s
  {
  }
}
