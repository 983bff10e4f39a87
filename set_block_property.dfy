/**
 * `SetBlockPropertyCommand`: assigns one property of a block, remembering
 * the value it replaced. An undefined value is an absent key, so assigning
 * `undefined` and deleting the key are the same change here.
 */
module SetBlockProperty {
  import opened Wrappers
  import opened Values
  import opened Types
  import opened Pages

  /** The fields `apply` fills in: the held block object and `originalValue`. */
  datatype PropertyState = PropertyState(block: Option<Block>, originalValue: Option<Value>)

  /** `properties[key] = v`, where an undefined `v` leaves the key absent. */
  function Assigned(props: Properties, key: string, v: Option<Value>): (r: Properties)
    ensures v.Some? ==> key in r && r[key] == v.value
    ensures v.None? ==> key !in r
    ensures forall k :: k != key ==> (k in r <==> k in props) && (k in r ==> r[k] == props[k])
  {
    if v.Some? then props[key := v.value] else props - {key}
  }

  /** The value a key holds, `undefined` when absent. */
  function Lookup(props: Properties, key: string): Option<Value>
  {
    if key in props then Some(props[key]) else None
  }

  /** `apply()`: the old value is read, then the new one assigned. */
  function PropertyApplied(p: PageData, id: string, key: string, value: Option<Value>, s: PropertyState)
    : (PageData, PropertyState, Result<Event, Error>)
  {
    if id !in p.blocks then (p, s.(block := None), Err(BlockNotFound(id)))
    else
      var b := p.blocks[id];
      var original := Lookup(b.properties, key);
      var b' := b.(properties := Assigned(b.properties, key, value));
      (p.(blocks := p.blocks[id := b']), PropertyState(Some(b'), original),
       Ok(PropertySet(id, key, value, original)))
  }

  /** `revert()`: the old value is assigned back through the held object (deleted when undefined). */
  function PropertyReverted(p: PageData, id: string, key: string, value: Option<Value>, s: PropertyState)
    : (PageData, PropertyState, Option<Event>)
  {
    if s.block.None? then (p, s, None)
    else
      var b := Live(p, id, s.block.value);
      var b' := b.(properties := Assigned(b.properties, key, s.originalValue));
      (WriteBack(p, id, b'), s.(block := Some(b')), Some(PropertySet(id, key, s.originalValue, value)))
  }

  /** A missing block fails and leaves the page as it was. */
  lemma PropertyMissing(p: PageData, id: string, key: string, value: Option<Value>, s: PropertyState)
    requires id !in p.blocks
    ensures var a := PropertyApplied(p, id, key, value, s);
      a.0 == p && a.2 == Err(BlockNotFound(id)) && PropertyReverted(a.0, id, key, value, a.1).0 == p
  {
  }

  /**
   * After `apply` the key holds the new value and every other key, every
   * other field and every other record is unchanged; the event carries
   * the new and the old value.
   */
  lemma PropertySetEffect(p: PageData, id: string, key: string, value: Option<Value>, s: PropertyState)
    requires id in p.blocks
    ensures var a := PropertyApplied(p, id, key, value, s);
      var before := p.blocks[id];
      var after := a.0.blocks[id];
      && Lookup(after.properties, key) == value
      && (forall k :: k != key ==> Lookup(after.properties, k) == Lookup(before.properties, k))
      && after == before.(properties := after.properties)
      && a.0.blocks == p.blocks[id := after]
      && a.0.regions == p.regions
      && a.2 == Ok(PropertySet(id, key, value, Lookup(before.properties, key)))
  {
  }

  /**
   * `apply` then `revert` gives back the page exactly, and the revert
   * event swaps the apply event's value and old value.
   */
  lemma PropertyRoundTrip(p: PageData, id: string, key: string, value: Option<Value>, s: PropertyState)
    requires id in p.blocks
    ensures var a := PropertyApplied(p, id, key, value, s);
      var r := PropertyReverted(a.0, id, key, value, a.1);
      && r.0 == p
      && a.2.Ok? && r.2 == Some(PropertySet(id, key, a.2.value.oldValue, a.2.value.value))
  {
    var a := PropertyApplied(p, id, key, value, s);
    var before := p.blocks[id].properties;
    var back := Assigned(Assigned(before, key, value), key, Lookup(before, key));
    assert back == before;
    assert a.0.blocks[id := p.blocks[id]] == p.blocks;
  }

  class SetBlockPropertyCommand {
    const page: Page
    const blockId: string
    const propertyKey: string
    const propertyValue: Option<Value>
    var block: Option<Block>
    var originalValue: Option<Value>

    function State(): PropertyState
      reads this
    {
      PropertyState(block, originalValue)
    }

    constructor(page: Page, blockId: string, propertyKey: string, propertyValue: Option<Value>)
      ensures this.page == page && this.blockId == blockId
      ensures this.propertyKey == propertyKey && this.propertyValue == propertyValue
      ensures State() == PropertyState(None, None)
    {
      this.page := page;
      this.blockId := blockId;
      this.propertyKey := propertyKey;
      this.propertyValue := propertyValue;
      block := None;
      originalValue := None;
    }

    method Apply() returns (r: Result<Event, Error>)
      modifies this, page
      ensures (page.Data(), State(), r) ==
              PropertyApplied(old(page.Data()), blockId, propertyKey, propertyValue, old(State()))
      ensures page.nextObject == old(page.nextObject)
    {
      if blockId !in page.blocks {
        block := None;
        return Err(BlockNotFound(blockId));
      }
      var b := page.blocks[blockId];
      originalValue := Lookup(b.properties, propertyKey);
      if propertyValue.Some? {
        b := b.(properties := b.properties[propertyKey := propertyValue.value]);
      } else {
        b := b.(properties := b.properties - {propertyKey});
      }
      page.blocks := page.blocks[blockId := b];
      block := Some(b);
      r := Ok(PropertySet(blockId, propertyKey, propertyValue, originalValue));
    }

    method Revert() returns (e: Option<Event>)
      modifies this, page
      ensures (page.Data(), State(), e) ==
              PropertyReverted(old(page.Data()), blockId, propertyKey, propertyValue, old(State()))
      ensures page.nextObject == old(page.nextObject)
    {
      if block.None? {
        return None;
      }
      var b := Live(page.Data(), blockId, block.value);
      if originalValue.Some? {
        b := b.(properties := b.properties[propertyKey := originalValue.value]);
      } else {
        b := b.(properties := b.properties - {propertyKey});
      }
      if blockId in page.blocks && page.blocks[blockId].objectId == b.objectId {
        page.blocks := page.blocks[blockId := b];
      }
      block := Some(b);
      e := Some(PropertySet(blockId, propertyKey, originalValue, propertyValue));
    }
  }
}
