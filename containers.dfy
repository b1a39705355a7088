/**
 * The state a new user-interface container sets up: its semantic type, its
 * link to a parent container, its title, its (empty) list of child
 * containers, its depth among containers of its own type and its style.
 * Containers live in an arena and refer to each other by index.
 */
module Containers {
  import opened Wrappers

  /** The semantic type of a container. */
  datatype ContainerType = Base | Section | Location | Task

  /** The enum value behind each type. */
  function TypeValue(t: ContainerType): (n: nat)
    ensures n <= 3
    ensures n == 0 <==> t == Base
  {
    match t
    case Base => 0
    case Section => 1
    case Location => 2
    case Task => 3
  }

  /** No two types share an enum value. */
  lemma TypeValuesDistinct(a: ContainerType, b: ContainerType)
    ensures TypeValue(a) == TypeValue(b) <==> a == b
  {
  }

  /** A style descriptor, opaque to this model. */
  type Style = string

  /** The class-level attributes a container class defines or inherits. */
  datatype ContainerClass = ContainerClass(
    containerType: ContainerType,
    baseColor: string,
    depthStyles: map<nat, Style>)

  /** The attributes of the base container class, which subclasses redefine. */
  const BaseClass: ContainerClass := ContainerClass(Base, "#000000", map[])

  lemma BaseClassDefaults()
    ensures BaseClass.containerType == Base && TypeValue(BaseClass.containerType) == 0
    ensures BaseClass.baseColor == "#000000" && BaseClass.depthStyles == map[]
  {
  }

  /** What a container is built inside: another container (by index) or some other widget. */
  datatype ParentWidget = ContainerWidget(id: nat) | OtherWidget

  /** Every container's parent was created before it, so the parent chains end. */
  predicate ParentsPrecede(parents: seq<Option<nat>>) {
    forall i :: 0 <= i < |parents| && parents[i].Some? ==> parents[i].value < i
  }

  /** The arena shape the depth functions read. */
  predicate WellFormed(kinds: seq<ContainerType>, parents: seq<Option<nat>>) {
    |kinds| == |parents| && ParentsPrecede(parents)
  }

  /** The number of containers of type `kind` on the chain that starts at `from`. */
  function SameTypeAbove(kinds: seq<ContainerType>, parents: seq<Option<nat>>,
                         kind: ContainerType, from: Option<nat>): (r: nat)
    requires WellFormed(kinds, parents)
    requires from.Some? ==> from.value < |parents|
    ensures r <= if from.Some? then from.value + 1 else 0
    decreases if from.Some? then from.value + 1 else 0
  {
    match from
    case None => 0
    case Some(a) => (if kinds[a] == kind then 1 else 0) + SameTypeAbove(kinds, parents, kind, parents[a])
  }

  /** The nesting depth of container `i` among ancestors of its own type. */
  function RelativeDepth(kinds: seq<ContainerType>, parents: seq<Option<nat>>, i: nat): (r: nat)
    requires WellFormed(kinds, parents) && i < |kinds|
    ensures r <= i
  {
    SameTypeAbove(kinds, parents, kinds[i], parents[i])
  }

  /** The ancestors of container `i`, nearest first. */
  function Ancestors(parents: seq<Option<nat>>, i: nat): (r: seq<nat>)
    requires ParentsPrecede(parents) && i < |parents|
    ensures forall n :: 0 <= n < |r| ==> r[n] < i
    decreases i
  {
    match parents[i]
    case None => []
    case Some(a) => [a] + Ancestors(parents, a)
  }

  /** The types along a chain of containers. */
  function TypesOf(kinds: seq<ContainerType>, chain: seq<nat>): (r: seq<ContainerType>)
    requires forall n :: 0 <= n < |chain| ==> chain[n] < |kinds|
    ensures |r| == |chain|
    ensures forall n :: 0 <= n < |chain| ==> r[n] == kinds[chain[n]]
  {
    seq(|chain|, n requires 0 <= n < |chain| => kinds[chain[n]])
  }

  /** The depth is the number of ancestors of the same type. */
  lemma {:induction false} DepthCountsSameTypeAncestors(kinds: seq<ContainerType>, parents: seq<Option<nat>>, i: nat)
    requires WellFormed(kinds, parents) && i < |kinds|
    ensures RelativeDepth(kinds, parents, i) == multiset(TypesOf(kinds, Ancestors(parents, i)))[kinds[i]]
  {
    ChainCount(kinds, parents, kinds[i], i);
  }

  /** Counting along the chain above `i` equals counting in the materialised ancestor list. */
  lemma {:induction false} ChainCount(kinds: seq<ContainerType>, parents: seq<Option<nat>>,
                                      kind: ContainerType, i: nat)
    requires WellFormed(kinds, parents) && i < |kinds|
    decreases i
    ensures SameTypeAbove(kinds, parents, kind, parents[i]) ==
            multiset(TypesOf(kinds, Ancestors(parents, i)))[kind]
  {
    match parents[i]
    case None =>
    case Some(a) =>
      ChainCount(kinds, parents, kind, a);
      assert TypesOf(kinds, Ancestors(parents, i)) ==
             [kinds[a]] + TypesOf(kinds, Ancestors(parents, a));
  }

  /** A container without a container parent has depth 0. */
  lemma DepthWithoutContainerParent(kinds: seq<ContainerType>, parents: seq<Option<nat>>, i: nat)
    requires WellFormed(kinds, parents) && i < |kinds| && parents[i] == None
    ensures RelativeDepth(kinds, parents, i) == 0
  {
  }

  /** Under a parent of the same type the depth is one more than the parent's. */
  lemma DepthUnderSameType(kinds: seq<ContainerType>, parents: seq<Option<nat>>, i: nat)
    requires WellFormed(kinds, parents) && i < |kinds|
    requires parents[i].Some? && kinds[parents[i].value] == kinds[i]
    ensures RelativeDepth(kinds, parents, i) == RelativeDepth(kinds, parents, parents[i].value) + 1
  {
  }

  /** The depth is 0 exactly when no ancestor has the container's type. */
  lemma {:induction false} DepthZeroIffNoSameTypeAncestor(kinds: seq<ContainerType>, parents: seq<Option<nat>>, i: nat)
    requires WellFormed(kinds, parents) && i < |kinds|
    ensures RelativeDepth(kinds, parents, i) == 0 <==>
      forall n :: 0 <= n < |Ancestors(parents, i)| ==> kinds[Ancestors(parents, i)[n]] != kinds[i]
  {
    DepthCountsSameTypeAncestors(kinds, parents, i);
    var types := TypesOf(kinds, Ancestors(parents, i));
    if exists n :: 0 <= n < |types| && types[n] == kinds[i] {
      var n :| 0 <= n < |types| && types[n] == kinds[i];
      assert kinds[i] in multiset(types);
    } else {
      assert kinds[i] !in types;
    }
  }

  /** The relative depth never exceeds the absolute depth. */
  lemma DepthAtMostAbsolute(kinds: seq<ContainerType>, parents: seq<Option<nat>>, i: nat)
    requires WellFormed(kinds, parents) && i < |kinds|
    ensures RelativeDepth(kinds, parents, i) <= |Ancestors(parents, i)|
  {
    DepthCountsSameTypeAncestors(kinds, parents, i);
    var types := TypesOf(kinds, Ancestors(parents, i));
    assert |multiset(types)| == |types|;
  }

  /** Adding containers leaves the depth of every existing container unchanged. */
  lemma {:induction false} DepthStableUnderAppend(kinds: seq<ContainerType>, parents: seq<Option<nat>>,
                                                  k: ContainerType, p: Option<nat>,
                                                  kind: ContainerType, from: Option<nat>)
    requires WellFormed(kinds, parents)
    requires p.Some? ==> p.value < |parents|
    requires from.Some? ==> from.value < |parents|
    decreases if from.Some? then from.value + 1 else 0
    ensures WellFormed(kinds + [k], parents + [p])
    ensures SameTypeAbove(kinds + [k], parents + [p], kind, from) == SameTypeAbove(kinds, parents, kind, from)
  {
    match from
    case None =>
    case Some(a) =>
      assert (parents + [p])[a] == parents[a];
      DepthStableUnderAppend(kinds, parents, k, p, kind, parents[a]);
  }

  /** Sections hold nested tasks: only the inner task has depth 1. */
  lemma NestedTasksExample()
    ensures WellFormed([Section, Task, Task], [None, Some(0), Some(1)])
    ensures RelativeDepth([Section, Task, Task], [None, Some(0), Some(1)], 0) == 0
    ensures RelativeDepth([Section, Task, Task], [None, Some(0), Some(1)], 1) == 0
    ensures RelativeDepth([Section, Task, Task], [None, Some(0), Some(1)], 2) == 1
  {
  }

  /**
   * The arena of containers. Entry `i` of each sequence is a field of
   * container `i`; `parents` holds the parent container links.
   */
  class Hierarchy {
    var kinds: seq<ContainerType>
    var parents: seq<Option<nat>>
    var titles: seq<string>
    var children: seq<seq<nat>>
    var depths: seq<nat>
    var styles: seq<Style>

    ghost predicate Valid()
      reads this
    {
      && WellFormed(kinds, parents)
      && |titles| == |children| == |depths| == |styles| == |kinds|
      && forall i :: 0 <= i < |depths| ==> depths[i] == RelativeDepth(kinds, parents, i)
    }

    constructor ()
      ensures Valid()
      ensures kinds == [] && parents == [] && titles == [] && children == [] && depths == [] && styles == []
    {
      kinds, parents, titles, children, depths, styles := [], [], [], [], [], [];
    }

    /**
     * Construct a container of class `cls` inside `parent`. The parent link is
     * set only for a container parent; the child list starts empty; the depth
     * is computed once, then the style is resolved from the class and depth.
     */
    method AddContainer(cls: ContainerClass, parent: ParentWidget,
                        resolveStyle: (ContainerClass, nat) -> Style,
                        nameonly title: string := "") returns (id: nat)
      requires Valid()
      requires parent.ContainerWidget? ==> parent.id < |kinds|
      modifies this
      ensures Valid()
      ensures id == old(|kinds|)
      ensures kinds == old(kinds) + [cls.containerType]
      ensures parents == old(parents) + [if parent.ContainerWidget? then Some(parent.id) else None]
      ensures titles == old(titles) + [title]
      ensures children == old(children) + [[]]
      ensures depths == old(depths) + [RelativeDepth(kinds, parents, id)]
      ensures styles == old(styles) + [resolveStyle(cls, depths[id])]
    {
      id := |kinds|;
      var parentContainer := if parent.ContainerWidget? then Some(parent.id) else None;
      forall i | 0 <= i < |depths|
        ensures SameTypeAbove(kinds + [cls.containerType], parents + [parentContainer], kinds[i], parents[i]) ==
                SameTypeAbove(kinds, parents, kinds[i], parents[i])
      {
        DepthStableUnderAppend(kinds, parents, cls.containerType, parentContainer, kinds[i], parents[i]);
      }
      kinds := kinds + [cls.containerType];
      parents := parents + [parentContainer];
      titles := titles + [title];
      children := children + [[]];
      var depth := RelativeDepth(kinds, parents, id);
      depths := depths + [depth];
      styles := styles + [resolveStyle(cls, depth)];
    }
  }
}
