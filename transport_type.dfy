/**
 * A transport type: a node in a parent-linked hierarchy of vehicle
 * categories (ground, railway under ground, ...). Its id, name, speed limit
 * and parent are fixed by the constructor; only its list of delivery types
 * grows afterwards.
 */
module TransportTypes {
  import opened PhpRuntime
  import opened DeliveryTypes

  class TransportType {
    const id: int
    const name: string
    /** The node's own limit; `None` is PHP's default `null`. */
    const speedLimit: Option<int>
    /** `getParentTransportType()`: the parent, fixed at construction. */
    const parent: TransportType?
    /** Distance to the root; it decreases along the parent chain. */
    ghost const depth: nat
    /** The node's own delivery types, in the order they were added. */
    var deliveryTypes: seq<DeliveryType>

    /**
     * The parent chain is finite: the parent had to exist before its
     * child was built, so depths strictly decrease toward the root.
     */
    ghost predicate Valid()
      decreases depth
    {
      parent != null ==> parent.depth < depth && parent.Valid()
    }

    constructor (id: int, name: string, speedLimit: Option<int> := None, parent: TransportType? := null)
      requires parent != null ==> parent.Valid()
      ensures Valid()
      ensures this.id == id && this.name == name
      ensures this.speedLimit == speedLimit && this.parent == parent
      ensures deliveryTypes == []
    {
      this.id := id;
      this.name := name;
      this.speedLimit := speedLimit;
      this.parent := parent;
      this.depth := if parent == null then 0 else parent.depth + 1;
      this.deliveryTypes := [];
    }

    /** The node and its ancestors, from this node up to the root. */
    ghost function Lineage(): (chain: seq<TransportType>)
      requires Valid()
      decreases depth
      ensures |chain| >= 1 && chain[0] == this
      ensures chain[|chain| - 1].parent == null
      ensures forall i :: 0 <= i < |chain| ==> chain[i].Valid()
      ensures forall i :: 0 <= i < |chain| - 1 ==> chain[i].parent == chain[i + 1]
    {
      if parent == null then [this] else [this] + parent.Lineage()
    }

    /** The root of the hierarchy this node belongs to. */
    ghost function Root(): (root: TransportType)
      requires Valid()
      decreases depth
      ensures root.parent == null
    {
      if parent == null then this else parent.Root()
    }

    /** Every object whose delivery types an inherited lookup may read. */
    ghost function Ancestry(): (nodes: set<TransportType>)
      requires Valid()
      decreases depth
      ensures this in nodes
    {
      if parent == null then {this} else {this} + parent.Ancestry()
    }

    /**
     * `getSpeedLimit`: the own limit when it is truthy; otherwise the
     * parent's effective limit; at the root the own value, null or 0 included.
     */
    function GetSpeedLimit(): (limit: Option<int>)
      requires Valid()
      decreases depth
      ensures Truthy(speedLimit) ==> limit == speedLimit
      ensures Truthy(limit) || limit == Root().speedLimit
    {
      if !Truthy(speedLimit) && parent != null then parent.GetSpeedLimit() else speedLimit
    }

    /**
     * The effective limit comes from the first node of the lineage whose own
     * limit is truthy, or from the root when there is none.
     */
    lemma {:induction false} SpeedLimitSource() returns (k: nat)
      requires Valid()
      decreases depth
      ensures k < |Lineage()|
      ensures forall j :: 0 <= j < k ==> !Truthy(Lineage()[j].speedLimit)
      ensures Truthy(Lineage()[k].speedLimit) || k == |Lineage()| - 1
      ensures GetSpeedLimit() == Lineage()[k].speedLimit
    {
      if Truthy(speedLimit) || parent == null {
        k := 0;
      } else {
        var above := parent.SpeedLimitSource();
        assert Lineage() == [this] + parent.Lineage();
        k := above + 1;
      }
    }

    /** `addDeliveryType`: appends at the end, duplicates included. */
    method AddDeliveryType(deliveryType: DeliveryType)
      modifies this
      ensures deliveryTypes == old(deliveryTypes) + [deliveryType]
    {
      deliveryTypes := deliveryTypes + [deliveryType];
    }

    /**
     * `getDeliveryTypes` as written: the own list whenever it is non-empty,
     * with nothing merged from ancestors. An empty own list never yields a
     * list: with a parent, the method returns the parent's speed limit (an
     * int or null) from a method declared `: array`; at a root it returns
     * the never-initialised property, null. Both end in a TypeError.
     */
    function GetDeliveryTypes(): (r: Outcome<seq<DeliveryType>>)
      reads this
      requires Valid()
      ensures r.Returned? <==> |deliveryTypes| > 0
      ensures r.Returned? ==> r.value == deliveryTypes
      ensures r.Thrown? && parent != null ==> r.fault == DeliveryTypesNotAnArray(parent.GetSpeedLimit())
    {
      if |deliveryTypes| == 0 && parent != null then
        Thrown(DeliveryTypesNotAnArray(parent.GetSpeedLimit()))
      else if |deliveryTypes| == 0 then
        Thrown(DeliveryTypesNotAnArray(None))
      else
        Returned(deliveryTypes)
    }

    /**
     * The lookup the fallback branch evidently intends: the own list when it
     * is non-empty, otherwise the parent's inherited list, and an empty
     * list at a root without delivery types.
     */
    function InheritedDeliveryTypes(): (types: seq<DeliveryType>)
      requires Valid()
      reads Ancestry()
      decreases depth
      ensures |deliveryTypes| > 0 ==> types == deliveryTypes
      ensures types == [] ==> forall t :: t in Ancestry() ==> t.deliveryTypes == []
    {
      if |deliveryTypes| == 0 && parent != null then parent.InheritedDeliveryTypes() else deliveryTypes
    }

    /**
     * The inherited list is the own list of the first node of the lineage
     * that has delivery types, or the root's empty list when none has.
     */
    lemma {:induction false} InheritedTypesSource() returns (k: nat)
      requires Valid()
      decreases depth
      ensures k < |Lineage()|
      ensures forall j :: 0 <= j < k ==> Lineage()[j].deliveryTypes == []
      ensures Lineage()[k].deliveryTypes != [] || k == |Lineage()| - 1
      ensures InheritedDeliveryTypes() == Lineage()[k].deliveryTypes
    {
      if deliveryTypes != [] || parent == null {
        k := 0;
      } else {
        var above := parent.InheritedTypesSource();
        assert Lineage() == [this] + parent.Lineage();
        k := above + 1;
      }
    }

    /** Wherever the code as written returns a list, it is the intended one. */
    lemma AsWrittenAgreesWhenItReturns()
      requires Valid()
      ensures GetDeliveryTypes().Returned? ==> GetDeliveryTypes().value == InheritedDeliveryTypes()
    {
    }

    /**
     * The defect: a child without delivery types under a parent that has
     * some throws, where the intended lookup yields the parent's list.
     */
    lemma FallbackThrowsInsteadOfInheriting()
      requires Valid() && parent != null
      requires deliveryTypes == [] && parent.deliveryTypes != []
      ensures GetDeliveryTypes() == Thrown(DeliveryTypesNotAnArray(parent.GetSpeedLimit()))
      ensures InheritedDeliveryTypes() == parent.deliveryTypes
    {
    }
  }
}
