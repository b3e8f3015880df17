/** The in-memory property table that `addProperty` writes to: an object
    mapping property ids to property records, seeded from a fixture file. */
module PropertyStore {
  import opened Js

  /** A property record. `addProperty` sets its `id`; the fields the caller
      supplied are kept as they are. The `id` is held apart from the other
      fields, so `fields` never has an `"id"` key that setting the id would
      have to overwrite. */
  class Property {
    var id: JsValue
    var fields: map<string, JsValue>

    constructor (fields: map<string, JsValue>)
      requires "id" !in fields
      ensures this.id == Undefined && this.fields == fields
    {
      id := Undefined;
      this.fields := fields;
    }
  }

  /** The keys are exactly 1, 2, ..., n for a table of n entries. This is an
      assumption about the table `addProperty` is given, not something the
      model establishes for the file it is loaded from: `addProperty` keeps it,
      and relies on it to never replace a stored property. */
  ghost predicate ContiguousKeys<T>(m: map<int, T>) {
    forall k :: k in m <==> 1 <= k <= |m|
  }

  /** On a table keyed 1..n, the id n + 1 is free, and storing under it keeps
      the keys contiguous. */
  lemma NextIdFresh<T>(m: map<int, T>, v: T)
    requires ContiguousKeys(m)
    ensures |m| + 1 !in m
    ensures |m[|m| + 1 := v]| == |m| + 1
    ensures ContiguousKeys(m[|m| + 1 := v])
  {
    var m' := m[|m| + 1 := v];
    assert m'.Keys == m.Keys + {|m| + 1};
    forall k ensures k in m' <==> 1 <= k <= |m'| {
      assert k in m' <==> k in m || k == |m| + 1;
    }
  }

  /** Once a key is missing below n, the id n + 1 is already taken: the new
      property replaces an old one and the table does not grow. */
  lemma IdTakenAfterGap()
    ensures var m := map[2 := 0];
      |m| + 1 in m && |m[|m| + 1 := 1]| == |m|
  {
    var m := map[2 := 0];
    assert |m| == 1;
    assert m[2 := 1] == map[2 := 1];
  }

  class PropertyTable {
    var properties: map<int, Property>

    ghost predicate Valid()
      reads this
    {
      ContiguousKeys(properties)
    }

    /** The table as loaded at start-up, with whatever keys it has. */
    constructor (initial: map<int, Property>)
      ensures properties == initial
    {
      properties := initial;
    }

    /** `addProperty`: the property gets the id one past the number of stored
        properties, is stored under that id, and is handed back itself. On a
        table keyed 1..n no stored property is replaced. */
    method AddProperty(property: Property) returns (r: Property)
      modifies this, property
      ensures r == property
      ensures property.id == Num(old(|properties|) + 1)
      ensures property.fields == old(property.fields)
      ensures properties == old(properties)[old(|properties|) + 1 := property]
      ensures old(Valid()) ==> Valid() && old(|properties|) + 1 !in old(properties)
                               && |properties| == old(|properties|) + 1
    {
      var propertyId := |properties| + 1;
      property.id := Num(propertyId);
      if Valid() {
        NextIdFresh(properties, property);
      }
      properties := properties[propertyId := property];
      r := property;
    }
  }
}
