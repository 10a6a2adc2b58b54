/**
 * SKSceneExtension.swift and NodeSelectable.swift: picking the named node a
 * touch landed on, and the list of names a scene lets the user select.
 *
 * SpriteKit hit-testing (`nodes(at:)`) is not modelled: each touch carries
 * the nodes found at its location, front to back, as given by the host.
 */
module NodeSelection {
  import opened Wrappers
  import opened Geometry

  /** What kind of node was hit: a level switch (by its index in the scene) or anything else. */
  datatype NodeKind = SwitchHit(index: nat) | OtherHit

  datatype HitNode = HitNode(name: Option<string>, kind: NodeKind)

  /** A touch: its location and the nodes at that location, in hit order. */
  datatype Touch = Touch(location: Point, hits: seq<HitNode>)

  /** The predicate `first(where:)` applies: named, and in the white list unless it is empty. */
  predicate Qualifies(n: HitNode, whiteList: seq<string>) {
    n.name.Some? && (whiteList == [] || n.name.value in whiteList)
  }

  /** The position of the first qualifying node in `hits`. */
  function FirstQualifying(hits: seq<HitNode>, whiteList: seq<string>): (r: Option<nat>)
    ensures r.Some? ==> r.value < |hits| && Qualifies(hits[r.value], whiteList)
    ensures r.Some? ==> forall j :: 0 <= j < r.value ==> !Qualifies(hits[j], whiteList)
    ensures r.None? ==> forall j :: 0 <= j < |hits| ==> !Qualifies(hits[j], whiteList)
  {
    if hits == [] then None
    else if Qualifies(hits[0], whiteList) then Some(0)
    else
      match FirstQualifying(hits[1..], whiteList)
      case None => None
      case Some(k) => Some(k + 1)
  }

  /**
   * `resolveNamedNode(for:with:)`: nil without a touch; otherwise the first
   * qualifying node under the first touch (Swift's `Set.first` is modelled
   * as the first element of the sequence).
   */
  function ResolveNamedNode(touches: seq<Touch>, whiteList: seq<string>): (r: Option<HitNode>)
  {
    if touches == [] then None
    else
      match FirstQualifying(touches[0].hits, whiteList)
      case None => None
      case Some(k) => Some(touches[0].hits[k])
  }

  /** Without touches nothing is resolved. */
  lemma ResolveWithoutTouches(whiteList: seq<string>)
    ensures ResolveNamedNode([], whiteList) == None
  {
  }

  /**
   * A resolved node is named, its name is allowed by a non-empty white list,
   * it was hit by the first touch, and no node hit before it qualifies.
   */
  lemma ResolvedNodeQualifies(touches: seq<Touch>, whiteList: seq<string>)
    requires ResolveNamedNode(touches, whiteList).Some?
    ensures touches != []
    ensures ResolveNamedNode(touches, whiteList).value.name.Some?
    ensures whiteList != [] ==> ResolveNamedNode(touches, whiteList).value.name.value in whiteList
    ensures exists k :: (0 <= k < |touches[0].hits| && touches[0].hits[k] == ResolveNamedNode(touches, whiteList).value
                          && forall j :: 0 <= j < k ==> !Qualifies(touches[0].hits[j], whiteList))
  {
    var k := FirstQualifying(touches[0].hits, whiteList).value;
    assert touches[0].hits[k] == ResolveNamedNode(touches, whiteList).value;
  }

  /** Nothing is resolved exactly when no node under the first touch qualifies. */
  lemma ResolvedNoneIffNoneQualifies(touches: seq<Touch>, whiteList: seq<string>)
    requires touches != []
    ensures ResolveNamedNode(touches, whiteList).None?
      <==> forall j :: 0 <= j < |touches[0].hits| ==> !Qualifies(touches[0].hits[j], whiteList)
  {
    if ResolveNamedNode(touches, whiteList).Some? {
      var k := FirstQualifying(touches[0].hits, whiteList).value;
      assert Qualifies(touches[0].hits[k], whiteList);
    }
  }

  /** With an empty white list the first named node in hit order is resolved. */
  lemma EmptyWhiteListPicksFirstNamed(touches: seq<Touch>, k: nat)
    requires touches != [] && k < |touches[0].hits| && touches[0].hits[k].name.Some?
    requires forall j :: 0 <= j < k ==> touches[0].hits[j].name.None?
    ensures ResolveNamedNode(touches, []) == Some(touches[0].hits[k])
  {
  }

  /**
   * NodeSelectable.selectableNodes: the raw values of the interactable
   * cases, in `allCases` order.
   */
  function SelectableNodes<T>(cases: seq<T>, interactable: T -> bool, rawValue: T -> string): (r: seq<string>)
    ensures |r| <= |cases|
  {
    if cases == [] then []
    else
      (if interactable(cases[0]) then [rawValue(cases[0])] else [])
        + SelectableNodes(cases[1..], interactable, rawValue)
  }

  /** A name is selectable exactly when some interactable case has it as raw value. */
  lemma {:induction false} SelectableNodesMembership<T>(
    cases: seq<T>, interactable: T -> bool, rawValue: T -> string, name: string)
    ensures name in SelectableNodes(cases, interactable, rawValue)
      <==> exists i :: 0 <= i < |cases| && interactable(cases[i]) && rawValue(cases[i]) == name
  {
    if cases != [] {
      SelectableNodesMembership(cases[1..], interactable, rawValue, name);
      var head := if interactable(cases[0]) then [rawValue(cases[0])] else [];
      assert SelectableNodes(cases, interactable, rawValue) == head + SelectableNodes(cases[1..], interactable, rawValue);
      if exists i :: 0 <= i < |cases| && interactable(cases[i]) && rawValue(cases[i]) == name {
        var i :| 0 <= i < |cases| && interactable(cases[i]) && rawValue(cases[i]) == name;
        if i > 0 {
          assert cases[1..][i - 1] == cases[i];
        }
      }
      if name in SelectableNodes(cases[1..], interactable, rawValue) {
        var i :| 0 <= i < |cases[1..]| && interactable(cases[1..][i]) && rawValue(cases[1..][i]) == name;
        assert cases[i + 1] == cases[1..][i];
      }
    }
  }

  /** The order follows `allCases`: selecting over a concatenation concatenates the selections. */
  lemma {:induction false} SelectableNodesAppend<T>(
    a: seq<T>, b: seq<T>, interactable: T -> bool, rawValue: T -> string)
    ensures SelectableNodes(a + b, interactable, rawValue)
      == SelectableNodes(a, interactable, rawValue) + SelectableNodes(b, interactable, rawValue)
  {
    if a != [] {
      assert (a + b)[0] == a[0];
      assert (a + b)[1..] == a[1..] + b;
      SelectableNodesAppend(a[1..], b, interactable, rawValue);
    } else {
      assert a + b == b;
    }
  }

  /** When every case is interactable, every raw value is selectable, in order. */
  lemma {:induction false} SelectableNodesAllInteractable<T>(
    cases: seq<T>, interactable: T -> bool, rawValue: T -> string)
    requires forall i :: 0 <= i < |cases| ==> interactable(cases[i])
    ensures |SelectableNodes(cases, interactable, rawValue)| == |cases|
    ensures forall i :: 0 <= i < |cases| ==> SelectableNodes(cases, interactable, rawValue)[i] == rawValue(cases[i])
  {
    if cases != [] {
      assert forall i :: 0 <= i < |cases[1..]| ==> interactable(cases[1..][i]) by {
        forall i | 0 <= i < |cases[1..]| ensures interactable(cases[1..][i]) {
          assert cases[1..][i] == cases[i + 1];
        }
      }
      SelectableNodesAllInteractable(cases[1..], interactable, rawValue);
    }
  }
}
