/**
 * The switch-bridge activation network of GameScene.swift as values: the
 * scene's switches and bridges in child order, and what toggling, the
 * proximity check and the load-time pre-activation do to them.  The class
 * GameScenes.GameScene updates its arrays exactly as these functions say.
 */
module GameNetwork {
  import opened Wrappers
  import opened Geometry
  import opened Configs
  import opened LevelModels

  /** Giby's distance up to which a switch can be tapped, boundary included. */
  const SwitchReach: real := 60.0

  datatype Network = Network(switches: seq<SwitchNode>, bridges: seq<BridgeNode>)

  /** Every bridge with key `key` gets `isEnabled := value`; the others are untouched. */
  function FanOut(bridges: seq<BridgeNode>, key: string, value: bool): (r: seq<BridgeNode>)
    ensures |r| == |bridges|
    ensures forall k :: 0 <= k < |bridges| && bridges[k].activationKey == key ==> r[k].isEnabled == value
    ensures forall k :: 0 <= k < |bridges| ==> r[k].(isEnabled := bridges[k].isEnabled) == bridges[k]
    ensures forall k :: 0 <= k < |bridges| && bridges[k].activationKey != key ==> r[k] == bridges[k]
  {
    seq(|bridges|, k requires 0 <= k < |bridges| =>
      if bridges[k].activationKey == key then bridges[k].(isEnabled := value) else bridges[k])
  }

  /**
   * `toggleSwitch(_:force:)`: unless the switch is enabled or the toggle is
   * forced nothing happens; otherwise the switch flips and every bridge with
   * its key takes the switch's new state.
   */
  function AfterToggle(n: Network, i: nat, force: bool): (r: Network)
    requires i < |n.switches|
    ensures |r.switches| == |n.switches| && |r.bridges| == |n.bridges|
  {
    if !(n.switches[i].isEnabled || force) then n
    else
      var s := n.switches[i].(isActivated := !n.switches[i].isActivated);
      Network(n.switches[i := s], FanOut(n.bridges, s.activationKey, s.isActivated))
  }

  /** A switch is in reach when its distance to Giby is at most SwitchReach. */
  predicate InReach(giby: Point, p: Point) {
    AtMost(Between(giby, p), SwitchReach)
  }

  /** `SwitchNode.setIsEnabled(_:)`: the flag, and a tint at full or half opacity. */
  function SetIsEnabled(s: SwitchNode, enabled: bool): (r: SwitchNode)
    ensures r.isEnabled == enabled
    ensures r.tint.alpha == (if enabled then 1.0 else 0.5)
    ensures r.tint.(alpha := s.tint.alpha) == s.tint
    ensures r.(tint := s.tint, isEnabled := s.isEnabled) == s
  {
    s.(isEnabled := enabled, tint := s.tint.(alpha := if enabled then 1.0 else 0.5))
  }

  /** `enableSwitchIfNeeded(_:)` applied to every switch. */
  function AfterProximity(switches: seq<SwitchNode>, giby: Point): (r: seq<SwitchNode>)
    ensures |r| == |switches|
    ensures forall i :: 0 <= i < |switches| ==> (r[i].isEnabled <==> InReach(giby, switches[i].position))
    ensures forall i :: 0 <= i < |switches| ==>
      r[i].isActivated == switches[i].isActivated && r[i].activationKey == switches[i].activationKey
      && r[i].position == switches[i].position
  {
    seq(|switches|, i requires 0 <= i < |switches| =>
      SetIsEnabled(switches[i], InReach(giby, switches[i].position)))
  }

  /** The index of the first switch with key `key` (`first(where:)`). */
  function FirstWithKey(switches: seq<SwitchNode>, key: string): (r: Option<nat>)
    ensures r.Some? ==> r.value < |switches| && switches[r.value].activationKey == key
    ensures r.Some? ==> forall j :: 0 <= j < r.value ==> switches[j].activationKey != key
    ensures r.None? ==> forall j :: 0 <= j < |switches| ==> switches[j].activationKey != key
  {
    if switches == [] then None
    else if switches[0].activationKey == key then Some(0)
    else
      match FirstWithKey(switches[1..], key)
      case None => None
      case Some(k) => Some(k + 1)
  }

  /** One step of `configureSwitchActivation`: an active config force-toggles the first switch with its key. */
  function ActivationStep(n: Network, c: SwitchConfig): (r: Network)
    ensures |r.switches| == |n.switches| && |r.bridges| == |n.bridges|
  {
    if !c.isActive then n
    else
      match FirstWithKey(n.switches, c.key)
      case None => n
      case Some(i) => AfterToggle(n, i, true)
  }

  /** `configureSwitchActivation`: the configs are applied in order. */
  function AfterActivation(n: Network, configs: seq<SwitchConfig>): (r: Network)
    ensures |r.switches| == |n.switches| && |r.bridges| == |n.bridges|
    decreases |configs|
  {
    if configs == [] then n
    else ActivationStep(AfterActivation(n, configs[..|configs| - 1]), configs[|configs| - 1])
  }

  /** The switches and bridges `configureLevel` adds, before pre-activation. */
  function Generated(m: LevelModel): (n: Network)
    ensures |n.switches| == |m.switches| && |n.bridges| == |m.bridges|
  {
    Network(
      seq(|m.switches|, i requires 0 <= i < |m.switches| => GenerateSwitchNode(m.switches[i])),
      seq(|m.bridges|, k requires 0 <= k < |m.bridges| => GenerateBridgeNode(m.bridges[k])))
  }

  /** No two switches share a key, the case the level design assumes. */
  predicate DistinctKeys(switches: seq<SwitchNode>) {
    forall i, j :: 0 <= i < j < |switches| ==> switches[i].activationKey != switches[j].activationKey
  }

  predicate DistinctConfigKeys(configs: seq<SwitchConfig>) {
    forall i, j :: 0 <= i < j < |configs| ==> configs[i].key != configs[j].key
  }

  /** Every bridge shows the state of each switch that shares its key. */
  predicate Mirrors(n: Network) {
    forall i, k :: 0 <= i < |n.switches| && 0 <= k < |n.bridges|
      && n.bridges[k].activationKey == n.switches[i].activationKey
      ==> n.bridges[k].isEnabled == n.switches[i].isActivated
  }

  /** A switch that is neither enabled nor forced cannot be toggled. */
  lemma ToggleGuard(n: Network, i: nat, force: bool)
    requires i < |n.switches| && !n.switches[i].isEnabled && !force
    ensures AfterToggle(n, i, force) == n
  {
  }

  /**
   * A toggle flips the switch's `isActivated` once, sets every bridge with its
   * key to the new value, and leaves every other switch and bridge as it was.
   */
  lemma ToggleFansOut(n: Network, i: nat, force: bool)
    requires i < |n.switches| && (n.switches[i].isEnabled || force)
    ensures var r := AfterToggle(n, i, force);
      |r.switches| == |n.switches| && |r.bridges| == |n.bridges|
      && r.switches[i] == n.switches[i].(isActivated := !n.switches[i].isActivated)
      && (forall j :: 0 <= j < |n.switches| && j != i ==> r.switches[j] == n.switches[j])
      && (forall k :: 0 <= k < |n.bridges| && n.bridges[k].activationKey == n.switches[i].activationKey
            ==> r.bridges[k] == n.bridges[k].(isEnabled := r.switches[i].isActivated))
      && (forall k :: 0 <= k < |n.bridges| && n.bridges[k].activationKey != n.switches[i].activationKey
            ==> r.bridges[k] == n.bridges[k])
  {
  }

  /** Two toggles of a switch whose bridges mirror it restore the whole network. */
  lemma ToggleTwiceRestores(n: Network, i: nat, force: bool)
    requires i < |n.switches|
    requires forall k :: (0 <= k < |n.bridges| && n.bridges[k].activationKey == n.switches[i].activationKey
                          ==> n.bridges[k].isEnabled == n.switches[i].isActivated)
    ensures AfterToggle(AfterToggle(n, i, force), i, force) == n
  {
    if n.switches[i].isEnabled || force {
      var once := AfterToggle(n, i, force);
      var twice := AfterToggle(once, i, force);
      ToggleFansOut(n, i, force);
      ToggleFansOut(once, i, force);
      assert twice.switches == n.switches;
      assert twice.bridges == n.bridges;
    }
  }

  /** With distinct keys, a toggle keeps every bridge mirroring its switch. */
  lemma ToggleKeepsMirroring(n: Network, i: nat, force: bool)
    requires i < |n.switches| && DistinctKeys(n.switches) && Mirrors(n)
    ensures Mirrors(AfterToggle(n, i, force))
    ensures DistinctKeys(AfterToggle(n, i, force).switches)
  {
    if n.switches[i].isEnabled || force {
      ToggleFansOut(n, i, force);
    }
  }

  /** The proximity check changes only `isEnabled`, so it keeps keys, activation and mirroring. */
  lemma ProximityKeepsActivation(n: Network, giby: Point)
    requires Mirrors(n)
    ensures Mirrors(Network(AfterProximity(n.switches, giby), n.bridges))
    ensures forall i :: 0 <= i < |n.switches| ==>
      var s := AfterProximity(n.switches, giby)[i];
      s.isEnabled == InReach(giby, n.switches[i].position) && s.isActivated == n.switches[i].isActivated
      && s.activationKey == n.switches[i].activationKey && s.position == n.switches[i].position
  {
  }

  /** A switch is enabled iff it lies within 60 points of Giby, for the true distance `d`. */
  lemma ProximityGate(giby: Point, p: Point, d: real)
    requires IsLength(Between(giby, p), d)
    ensures InReach(giby, p) <==> d <= SwitchReach
  {
    LengthComparison(Between(giby, p), d, SwitchReach);
  }

  /** A config whose key no switch has, or that is not active, is skipped. */
  lemma ActivationSkips(n: Network, c: SwitchConfig)
    requires !c.isActive || forall j :: 0 <= j < |n.switches| ==> n.switches[j].activationKey != c.key
    ensures ActivationStep(n, c) == n
  {
  }

  /**
   * Pre-activation at load, for levels whose switch keys are distinct: each
   * switch ends activated iff its config is active — with no proximity
   * needed — and every bridge mirrors the switch with its key.
   */
  lemma {:induction false} PreActivation(m: LevelModel, j: nat)
    requires DistinctConfigKeys(m.switches) && j <= |m.switches|
    ensures var n := AfterActivation(Generated(m), m.switches[..j]);
      |n.switches| == |m.switches| && |n.bridges| == |m.bridges|
      && (forall i :: 0 <= i < |m.switches| ==> n.switches[i].activationKey == m.switches[i].key)
      && (forall k :: 0 <= k < |m.bridges| ==> n.bridges[k].activationKey == m.bridges[k].key)
      && (forall i :: 0 <= i < |m.switches| ==> !n.switches[i].isEnabled)
      && (forall i :: 0 <= i < |m.switches| ==> n.switches[i].isActivated == (i < j && m.switches[i].isActive))
      && Mirrors(n)
  {
    var cs := m.switches;
    if j == 0 {
      assert cs[..0] == [];
    } else {
      PreActivation(m, j - 1);
      assert cs[..j][..j - 1] == cs[..j - 1];
      var prev := AfterActivation(Generated(m), cs[..j - 1]);
      var c := cs[j - 1];
      assert AfterActivation(Generated(m), cs[..j]) == ActivationStep(prev, c);
      if c.isActive {
        assert DistinctKeys(prev.switches);
        var r := FirstWithKey(prev.switches, c.key);
        assert prev.switches[j - 1].activationKey == c.key;
        assert r == Some(j - 1);
        ToggleKeepsMirroring(prev, j - 1, true);
        ToggleFansOut(prev, j - 1, true);
      }
    }
  }

  /** After load with distinct keys, a bridge is enabled iff the config of the switch with its key is active. */
  lemma PreActivatedBridges(m: LevelModel, i: nat, k: nat)
    requires DistinctConfigKeys(m.switches) && i < |m.switches| && k < |m.bridges|
    requires m.bridges[k].key == m.switches[i].key
    ensures AfterActivation(Generated(m), m.switches).bridges[k].isEnabled == m.switches[i].isActive
  {
    PreActivation(m, |m.switches|);
    assert m.switches[..|m.switches|] == m.switches;
    var n := AfterActivation(Generated(m), m.switches);
    assert n.bridges[k].activationKey == n.switches[i].activationKey;
  }
}
