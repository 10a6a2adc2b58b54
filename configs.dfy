/**
 * SwitchConfig.swift and BridgeConfig.swift: the decoded descriptions of a
 * level's switches and bridges, and the nodes `generateNode` builds from them.
 * The Swift `init`s store their arguments unchanged, which is what the
 * datatype constructors below do; the UIColor-to-components conversion of
 * `Color(color:)` is kept as an opaque record of four reals.
 */
module Configs {
  import opened Wrappers
  import opened Geometry

  datatype Color = Color(red: real, green: real, blue: real, alpha: real)

  datatype SwitchConfig = SwitchConfig(
    key: string, color: Color, position: Point, isReversed: bool, name: string, isActive: bool)

  datatype BridgeConfig = BridgeConfig(key: string, color: Color, rect: Rect)

  /** The scene-side state of a SwitchNode. */
  datatype SwitchNode = SwitchNode(
    activationKey: string, tint: Color, position: Point, isReversed: bool,
    name: Option<string>, isEnabled: bool, isActivated: bool)

  /** The scene-side state of a BridgeNode; `position` is the bridge's origin. */
  datatype BridgeNode = BridgeNode(
    activationKey: string, tint: Color, size: Size, position: Point, isEnabled: bool)

  /**
   * `SwitchConfig.generateNode`: a fresh switch carries the config's key,
   * tint, position, orientation and name; like every new SwitchNode it starts
   * neither enabled (out of reach) nor activated.
   */
  function GenerateSwitchNode(c: SwitchConfig): (n: SwitchNode)
    ensures n.activationKey == c.key && n.tint == c.color && n.position == c.position
    ensures n.isReversed == c.isReversed && n.name == Some(c.name)
    ensures !n.isEnabled && !n.isActivated
  {
    SwitchNode(c.key, c.color, c.position, c.isReversed, Some(c.name), false, false)
  }

  /** `generateNode` never reads `isActive`: pre-activation is the scene's job. */
  lemma GenerateSwitchNodeIgnoresIsActive(c: SwitchConfig, active: bool)
    ensures GenerateSwitchNode(c.(isActive := active)) == GenerateSwitchNode(c)
  {
  }

  /**
   * `BridgeConfig.generateNode`: a fresh bridge has the config's key and tint,
   * the rectangle's size, its position at the rectangle's origin, and starts
   * disabled (a fresh BridgeNode's `isEnabled` is false).
   */
  function GenerateBridgeNode(c: BridgeConfig): (b: BridgeNode)
    ensures b.activationKey == c.key && b.tint == c.color
    ensures b.size == c.rect.size && b.position == c.rect.origin
    ensures !b.isEnabled
  {
    BridgeNode(c.key, c.color, c.rect.size, c.rect.origin, false)
  }
}
