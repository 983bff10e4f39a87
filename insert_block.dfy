/**
 * `InsertBlockCommand`: creates an empty block of a given type with the
 * schema's default properties, and places it in a parent's children list
 * or in a region. `revert` deletes the record and splices the id out of
 * the container at the recorded index.
 */
module InsertBlock {
  import opened Wrappers
  import opened Values
  import opened Types
  import opened Lists
  import opened Pages
  import opened Defaults
  import Ids

  /** The state `apply` leaves: the page, the recorded block and index, and the outcome. */
  datatype Applied = Applied(page: PageData, inserted: Option<Block>, actualIndex: Option<nat>,
                             result: Result<Event, Error>)

  /** The record `apply` creates, before it is attached to a parent. */
  function NewBlock(blockType: string, id: string, props: Properties, objectId: nat): Block
  {
    Block(blockType, id, props, None, None, None, [], None, None, None, None, objectId)
  }

  /**
   * Writing record `nb` under `blockId` and attaching it: to the given
   * parent by the placement rule (a missing parent fails and leaves the
   * record behind), or to region `regionName || regions[0].name`, pushed
   * when absent. `prevIndex` is the index an earlier run recorded; the
   * event's region is read even when a parent was given.
   */
  function Attached(p: PageData, blockId: string, nb: Block, parentId: Option<string>,
                    regionName: Option<string>, index: Option<int>, prevIndex: Option<nat>): Applied
  {
    var m := p.blocks[blockId := nb];
    if Given(parentId) then
      if parentId.value !in m then
        Applied(PageData(m, p.regions), Some(nb), prevIndex, Err(ParentNotFound(parentId.value)))
      else
        var placed := IntoParent(m, blockId, parentId.value, index);
        var ins := placed.0[blockId];
        match DefaultRegion(p.regions, regionName)
        case Err(e) => Applied(PageData(placed.0, p.regions), Some(ins), Some(placed.1), Err(e))
        case Ok(rn) =>
          Applied(PageData(placed.0, p.regions), Some(ins), Some(placed.1),
                  Ok(BlockInserted(blockId, ins, parentId, Some(placed.1), Some(rn))))
    else
      match DefaultRegion(p.regions, regionName)
      case Err(e) => Applied(PageData(m, p.regions), Some(nb), prevIndex, Err(e))
      case Ok(rn) =>
        // The first region is unchanged by the push, so the event's region is `rn`.
        var placed := IntoRegion(p.regions, rn, blockId, index);
        Applied(PageData(m, placed.0), Some(nb), Some(placed.1),
                Ok(BlockInserted(blockId, nb, parentId, Some(placed.1), Some(rn))))
  }

  /**
   * `apply()` on page `p`, where `obj` is the identity the new object gets:
   * an empty record of the given type and properties, attached as above.
   */
  function InsertApplied(p: PageData, obj: nat, blockType: string, blockId: string,
                         props: Properties, parentId: Option<string>,
                         regionName: Option<string>, index: Option<int>,
                         prevIndex: Option<nat>): Applied
  {
    Attached(p, blockId, NewBlock(blockType, blockId, props, obj), parentId, regionName, index, prevIndex)
  }

  /**
   * `revert()`: nothing when `apply` never ran; otherwise the record is
   * deleted and the id spliced out of the container at the recorded index.
   */
  function InsertReverted(p: PageData, blockId: string, parentId: Option<string>,
                          regionName: Option<string>, inserted: Option<Block>,
                          actualIndex: Option<nat>): (PageData, Result<Option<Event>, Error>)
  {
    if inserted.None? then (p, Ok(None))
    else
      var m := p.blocks - {blockId};
      var ev := BlockRemoved(blockId, inserted.value, parentId);
      if Given(parentId) then
        if parentId.value in m && actualIndex.Some? then
          (PageData(WithChildren(m, parentId.value,
                                 SpliceRemove(m[parentId.value].children, actualIndex.value)),
                    p.regions), Ok(Some(ev)))
        else (PageData(m, p.regions), Ok(Some(ev)))
      else
        match DefaultRegion(p.regions, regionName)
        case Err(e) => (PageData(m, p.regions), Err(e))
        case Ok(rn) =>
          match FindRegion(p.regions, rn)
          case Some(i) =>
            if actualIndex.Some? then
              (PageData(m, WithRegionBlocks(p.regions, i,
                                            SpliceRemove(p.regions[i].blocks, actualIndex.value))),
               Ok(Some(ev)))
            else (PageData(m, p.regions), Ok(Some(ev)))
          case None => (PageData(m, p.regions), Ok(Some(ev)))
  }

  /**
   * The outcome of `apply` on a fresh id (neither a key nor the requested
   * parent): it fails exactly when a given
   * parent is missing (which leaves the new record behind) or when there
   * is no region to name; otherwise the new record has the given type,
   * id and properties, no children, and the parent's id as `parentId`.
   */
  lemma InsertOutcome(p: PageData, obj: nat, blockType: string, blockId: string,
                      props: Properties, parentId: Option<string>,
                      regionName: Option<string>, index: Option<int>, prevIndex: Option<nat>)
    requires blockId !in p.blocks && !(Given(parentId) && parentId.value == blockId)
    ensures var a := InsertApplied(p, obj, blockType, blockId, props, parentId, regionName, index, prevIndex);
      && a.page.blocks.Keys == p.blocks.Keys + {blockId}
      && (a.result.Err? <==>
            (Given(parentId) && parentId.value !in p.blocks) || (!Given(regionName) && p.regions == []))
      && (Given(parentId) && parentId.value !in p.blocks ==>
            a.result == Err(ParentNotFound(parentId.value)) && a.page.regions == p.regions)
      && (a.result.Ok? ==>
            && a.inserted == Some(a.page.blocks[blockId])
            && a.page.blocks[blockId] ==
                 NewBlock(blockType, blockId, props, obj).(parentId :=
                   if Given(parentId) then Some(p.blocks[parentId.value].id) else None)
            && a.result.value == BlockInserted(blockId, a.page.blocks[blockId], parentId,
                                               a.actualIndex, a.result.value.regionName))
  {
  }

  /**
   * Inserting under an existing parent: the id lands in the parent's
   * children at the given index when it is in `[0, len]` and at the end
   * otherwise, `actualIndex` is that position, the rest of the list keeps
   * its order, and no other record or region changes.
   */
  lemma InsertIntoParent(p: PageData, obj: nat, blockType: string, blockId: string,
                         props: Properties, parentId: Option<string>,
                         regionName: Option<string>, index: Option<int>, prevIndex: Option<nat>)
    requires blockId !in p.blocks && Given(parentId) && parentId.value in p.blocks
    ensures var a := InsertApplied(p, obj, blockType, blockId, props, parentId, regionName, index, prevIndex);
      var before := p.blocks[parentId.value].children;
      var after := a.page.blocks[parentId.value].children;
      && a.page.regions == p.regions
      && a.actualIndex.Some? && a.actualIndex.value < |after| == |before| + 1
      && after[a.actualIndex.value] == blockId
      && after[..a.actualIndex.value] + after[a.actualIndex.value + 1..] == before
      && (index.Some? && 0 <= index.value <= |before| ==> a.actualIndex == Some(index.value))
      && (!(index.Some? && 0 <= index.value <= |before|) ==> a.actualIndex == Some(|before|))
      && (forall k :: k in p.blocks && k != parentId.value ==> a.page.blocks[k] == p.blocks[k])
      && a.page.blocks[parentId.value] == p.blocks[parentId.value].(children := after)
  {
  }

  /**
   * Inserting at the top level: the target is `regionName || regions[0].name`,
   * pushed as an empty region when no region has that name; the id lands
   * there by the same index-or-append rule and no block record other than
   * the new one changes.
   */
  lemma InsertIntoRegion(p: PageData, obj: nat, blockType: string, blockId: string,
                         props: Properties, regionName: Option<string>, index: Option<int>,
                         prevIndex: Option<nat>, rn: string)
    requires blockId !in p.blocks && DefaultRegion(p.regions, regionName) == Ok(rn)
    ensures var a := InsertApplied(p, obj, blockType, blockId, props, None, regionName, index, prevIndex);
      var before := if FindRegion(p.regions, rn).Some? then p.regions[FindRegion(p.regions, rn).value].blocks else [];
      var i := if FindRegion(p.regions, rn).Some? then FindRegion(p.regions, rn).value else |p.regions|;
      && |a.page.regions| == |p.regions| + (if FindRegion(p.regions, rn).Some? then 0 else 1)
      && i < |a.page.regions| && a.page.regions[i].name == rn
      && (forall j :: 0 <= j < |a.page.regions| && j != i ==> a.page.regions[j] == p.regions[j])
      && a.actualIndex.Some? && a.actualIndex.value < |a.page.regions[i].blocks| == |before| + 1
      && a.page.regions[i].blocks[a.actualIndex.value] == blockId
      && a.page.regions[i].blocks[..a.actualIndex.value] + a.page.regions[i].blocks[a.actualIndex.value + 1..] == before
      && (index.Some? && 0 <= index.value <= |before| ==> a.actualIndex == Some(index.value))
      && (!(index.Some? && 0 <= index.value <= |before|) ==> a.actualIndex == Some(|before|))
      && a.page.blocks == p.blocks[blockId := NewBlock(blockType, blockId, props, obj)]
  {
  }

  /** Attaching writes the new id first, so a record already under that id plays no part. */
  lemma AttachedOverwrites(p: PageData, blockId: string, nb: Block, parentId: Option<string>,
                           regionName: Option<string>, index: Option<int>, prevIndex: Option<nat>)
    ensures Attached(p, blockId, nb, parentId, regionName, index, prevIndex) ==
            Attached(p.(blocks := p.blocks - {blockId}), blockId, nb, parentId, regionName, index, prevIndex)
  {
    assert p.blocks[blockId := nb] == (p.blocks - {blockId})[blockId := nb];
  }

  /**
   * What attaching changes in the block map: one new key, the record
   * written there (with the parent's id as `parentId` when a parent is
   * found), and, of the other records, only the parent's children list.
   */
  lemma AttachedFrame(p: PageData, blockId: string, nb: Block, parentId: Option<string>,
                      regionName: Option<string>, index: Option<int>, prevIndex: Option<nat>)
    requires !(Given(parentId) && parentId.value == blockId)
    ensures var a := Attached(p, blockId, nb, parentId, regionName, index, prevIndex);
      && a.page.blocks.Keys == p.blocks.Keys + {blockId}
      && (forall k :: k in p.blocks && k != blockId && !(Given(parentId) && parentId.value == k) ==>
            a.page.blocks[k] == p.blocks[k])
      && (Given(parentId) && parentId.value in p.blocks ==>
            a.page.blocks[parentId.value] == p.blocks[parentId.value].(children := a.page.blocks[parentId.value].children))
      && a.page.blocks[blockId] ==
           nb.(parentId := if Given(parentId) && parentId.value in p.blocks then Some(p.blocks[parentId.value].id)
                           else nb.parentId)
  {
  }

  /**
   * `apply` then `revert` restores the block map exactly, and the region
   * list too, except for a region that `apply` had to create, which stays
   * behind empty.
   */
  lemma InsertRoundTrip(p: PageData, obj: nat, blockType: string, blockId: string,
                        props: Properties, parentId: Option<string>,
                        regionName: Option<string>, index: Option<int>, prevIndex: Option<nat>)
    requires blockId !in p.blocks
    requires InsertApplied(p, obj, blockType, blockId, props, parentId, regionName, index, prevIndex).result.Ok?
    ensures var a := InsertApplied(p, obj, blockType, blockId, props, parentId, regionName, index, prevIndex);
      var r := InsertReverted(a.page, blockId, parentId, regionName, a.inserted, a.actualIndex);
      && r.1 == Ok(Some(BlockRemoved(blockId, a.inserted.value, parentId)))
      && r.0.blocks == p.blocks
      && (r.0.regions == p.regions ||
          (!Given(parentId) && DefaultRegion(p.regions, regionName).Ok? &&
           FindRegion(p.regions, DefaultRegion(p.regions, regionName).value).None? &&
           r.0.regions == p.regions + [Region(DefaultRegion(p.regions, regionName).value, [])]))
  {
    AttachedRoundTrip(p, blockId, NewBlock(blockType, blockId, props, obj), parentId, regionName, index, prevIndex);
  }

  /** The round trip for any record attached under a fresh id. */
  lemma AttachedRoundTrip(p: PageData, blockId: string, nb: Block, parentId: Option<string>,
                          regionName: Option<string>, index: Option<int>, prevIndex: Option<nat>)
    requires blockId !in p.blocks
    requires Attached(p, blockId, nb, parentId, regionName, index, prevIndex).result.Ok?
    ensures var a := Attached(p, blockId, nb, parentId, regionName, index, prevIndex);
      var r := InsertReverted(a.page, blockId, parentId, regionName, a.inserted, a.actualIndex);
      && r.1 == Ok(Some(BlockRemoved(blockId, a.inserted.value, parentId)))
      && r.0.blocks == p.blocks
      && (r.0.regions == p.regions ||
          (!Given(parentId) && DefaultRegion(p.regions, regionName).Ok? &&
           FindRegion(p.regions, DefaultRegion(p.regions, regionName).value).None? &&
           r.0.regions == p.regions + [Region(DefaultRegion(p.regions, regionName).value, [])]))
  {
    if Given(parentId) && parentId.value == blockId {
      SelfParentRoundTrip(p, blockId, nb, parentId, regionName, index, prevIndex);
    } else if Given(parentId) {
      ParentCaseRoundTrip(p, blockId, nb, parentId, regionName, index, prevIndex);
    } else {
      RegionCaseRoundTrip(p, blockId, nb, parentId, regionName, index, prevIndex);
    }
  }

  /** The new record named as its own parent: deleting it takes the splice target with it. */
  lemma SelfParentRoundTrip(p: PageData, blockId: string, nb: Block, parentId: Option<string>,
                          regionName: Option<string>, index: Option<int>, prevIndex: Option<nat>)
    requires blockId !in p.blocks
    requires Attached(p, blockId, nb, parentId, regionName, index, prevIndex).result.Ok?
    requires Given(parentId) && parentId.value == blockId
    ensures var a := Attached(p, blockId, nb, parentId, regionName, index, prevIndex);
      var r := InsertReverted(a.page, blockId, parentId, regionName, a.inserted, a.actualIndex);
      && r.1 == Ok(Some(BlockRemoved(blockId, a.inserted.value, parentId)))
      && r.0 == p
  {
    var a := Attached(p, blockId, nb, parentId, regionName, index, prevIndex);
    assert a.page.blocks - {blockId} == p.blocks;
  }

  /** `AttachedRoundTrip` under a parent other than the new record. */
  lemma ParentCaseRoundTrip(p: PageData, blockId: string, nb: Block, parentId: Option<string>,
                          regionName: Option<string>, index: Option<int>, prevIndex: Option<nat>)
    requires blockId !in p.blocks
    requires Attached(p, blockId, nb, parentId, regionName, index, prevIndex).result.Ok?
    requires Given(parentId) && parentId.value != blockId
    ensures var a := Attached(p, blockId, nb, parentId, regionName, index, prevIndex);
      var r := InsertReverted(a.page, blockId, parentId, regionName, a.inserted, a.actualIndex);
      && r.1 == Ok(Some(BlockRemoved(blockId, a.inserted.value, parentId)))
      && r.0 == p
  {
    ParentRoundTrip(p, blockId, nb, parentId.value, regionName, index, prevIndex);
  }

  /** `AttachedRoundTrip` at the top level. */
  lemma RegionCaseRoundTrip(p: PageData, blockId: string, nb: Block, parentId: Option<string>,
                          regionName: Option<string>, index: Option<int>, prevIndex: Option<nat>)
    requires blockId !in p.blocks
    requires Attached(p, blockId, nb, parentId, regionName, index, prevIndex).result.Ok?
    requires !Given(parentId)
    ensures var a := Attached(p, blockId, nb, parentId, regionName, index, prevIndex);
      var r := InsertReverted(a.page, blockId, parentId, regionName, a.inserted, a.actualIndex);
      && r.1 == Ok(Some(BlockRemoved(blockId, a.inserted.value, parentId)))
      && r.0.blocks == p.blocks
      && (r.0.regions == p.regions ||
          (!Given(parentId) && DefaultRegion(p.regions, regionName).Ok? &&
           FindRegion(p.regions, DefaultRegion(p.regions, regionName).value).None? &&
           r.0.regions == p.regions + [Region(DefaultRegion(p.regions, regionName).value, [])]))
  {
    RegionRoundTrip(p, blockId, nb, parentId, regionName, index, prevIndex);
  }

  /** The parent case of the round trip: the parent's children list is restored. */
  lemma ParentRoundTrip(p: PageData, blockId: string, nb: Block, q: string,
                        regionName: Option<string>, index: Option<int>, prevIndex: Option<nat>)
    requires blockId !in p.blocks && q != "" && q in p.blocks
    ensures var a := Attached(p, blockId, nb, Some(q), regionName, index, prevIndex);
      var r := InsertReverted(a.page, blockId, Some(q), regionName, a.inserted, a.actualIndex);
      r.0 == p
  {
    var m := p.blocks[blockId := nb];
    var placed := IntoParent(m, blockId, q, index);
    RemoveUndoesPlace(p.blocks[q].children, index, blockId);
    assert (placed.0 - {blockId})[q] == p.blocks[q].(children := Place(p.blocks[q].children, index, blockId).0);
    assert WithChildren(placed.0 - {blockId}, q, p.blocks[q].children) == p.blocks;
  }

  /** The region case of the round trip: the target region's list is restored. */
  lemma RegionRoundTrip(p: PageData, blockId: string, nb: Block, parentId: Option<string>,
                        regionName: Option<string>, index: Option<int>, prevIndex: Option<nat>)
    requires blockId !in p.blocks && DefaultRegion(p.regions, regionName).Ok? && !Given(parentId)
    ensures var a := Attached(p, blockId, nb, parentId, regionName, index, prevIndex);
      var r := InsertReverted(a.page, blockId, parentId, regionName, a.inserted, a.actualIndex);
      var rn := DefaultRegion(p.regions, regionName).value;
      && a.inserted == Some(nb)
      && r.1 == Ok(Some(BlockRemoved(blockId, nb, parentId)))
      && r.0.blocks == p.blocks
      && r.0.regions == EnsureRegion(p.regions, rn).0
  {
    var rn := DefaultRegion(p.regions, regionName).value;
    var target := EnsureRegion(p.regions, rn);
    var placed := IntoRegion(p.regions, rn, blockId, index);
    RemoveUndoesPlace(target.0[target.1].blocks, index, blockId);
    FindRegionByNames(placed.0, target.0, rn);
    assert DefaultRegion(placed.0, regionName) == Ok(rn);
    RegionRestored(target.0, target.1, placed.0, Place(target.0[target.1].blocks, index, blockId).0);
    DeleteNew(p.blocks, blockId, nb);
    RevertedFromRegion(PageData(p.blocks[blockId := nb], placed.0), blockId, parentId, regionName, nb, placed.1,
                       rn, target.1, target.0, p.blocks);
  }

  /** Writing a region's old id list back gives back the region list. */
  lemma RegionRestored(R: seq<Region>, k: nat, placed: seq<Region>, x: seq<string>)
    requires k < |R| && placed == WithRegionBlocks(R, k, x)
    ensures WithRegionBlocks(placed, k, R[k].blocks) == R
  {
  }

  /** Deleting a key that was just added gives back the map. */
  lemma DeleteNew(m: map<string, Block>, id: string, b: Block)
    requires id !in m
    ensures m[id := b] - {id} == m
  {
  }

  /** `revert` in the region case, on a page whose region `k`, named `rn`, lists the id at `i`. */
  lemma RevertedFromRegion(P: PageData, blockId: string, parentId: Option<string>, regionName: Option<string>,
                           nb: Block, i: nat, rn: string, k: nat, R: seq<Region>, m: map<string, Block>)
    requires !Given(parentId) && DefaultRegion(P.regions, regionName) == Ok(rn)
    requires FindRegion(P.regions, rn) == Some(k)
    requires WithRegionBlocks(P.regions, k, SpliceRemove(P.regions[k].blocks, i)) == R
    requires P.blocks - {blockId} == m
    ensures InsertReverted(P, blockId, parentId, regionName, Some(nb), Some(i)) ==
            (PageData(m, R), Ok(Some(BlockRemoved(blockId, nb, parentId))))
  {
  }


  class InsertBlockCommand {
    const page: Page
    const blockType: string
    const parentId: Option<string>
    const regionName: Option<string>
    const index: Option<int>
    const blockId: string
    const properties: Properties
    var insertedBlock: Option<Block>
    var actualIndex: Option<nat>

    /** Draws the block's id and computes its properties from the schema's defaults. */
    constructor(page: Page, ids: Ids.IdGenerator, blockType: string, parentId: Option<string>,
                regionName: Option<string>, index: Option<int>, schema: Option<BlockSchema>)
      modifies ids
      ensures this.page == page && this.blockType == blockType && this.parentId == parentId
      ensures this.regionName == regionName && this.index == index
      ensures blockId == Ids.IdFor(old(ids.next)) && ids.next == old(ids.next) + 1
      ensures properties == SchemaDefaults(schema)
      ensures insertedBlock.None? && actualIndex.None?
    {
      var id := ids.Generate();
      var props := BuildProperties(schema);
      this.page := page;
      this.blockType := blockType;
      this.parentId := parentId;
      this.regionName := regionName;
      this.index := index;
      this.blockId := id;
      this.properties := props;
      insertedBlock := None;
      actualIndex := None;
    }

    method Apply() returns (r: Result<Event, Error>)
      modifies this, page
      ensures var a := InsertApplied(old(page.Data()), old(page.nextObject), blockType, blockId,
                                     properties, parentId, regionName, index, old(actualIndex));
        page.Data() == a.page && insertedBlock == a.inserted && actualIndex == a.actualIndex &&
        r == a.result
      ensures page.nextObject == old(page.nextObject) + 1
    {
      var block := NewBlock(blockType, blockId, properties, page.nextObject);
      page.nextObject := page.nextObject + 1;
      insertedBlock, actualIndex, r := AttachRecord(page, blockId, block, parentId, regionName, index, actualIndex);
    }

    method Revert() returns (r: Result<Option<Event>, Error>)
      modifies page
      ensures (page.Data(), r) ==
              InsertReverted(old(page.Data()), blockId, parentId, regionName, insertedBlock, actualIndex)
      ensures page.nextObject == old(page.nextObject)
    {
      if insertedBlock.None? {
        return Ok(None);
      }
      page.blocks := page.blocks - {blockId};
      if Given(parentId) {
        if parentId.value in page.blocks && actualIndex.Some? {
          var children := page.blocks[parentId.value].children;
          page.blocks := WithChildren(page.blocks, parentId.value, SpliceRemove(children, actualIndex.value));
        }
      } else {
        var targetRegionName;
        if Given(regionName) {
          targetRegionName := regionName.value;
        } else if page.regions == [] {
          return Err(NoRegions);
        } else {
          targetRegionName := page.regions[0].name;
        }
        var i := FindRegion(page.regions, targetRegionName);
        if i.Some? && actualIndex.Some? {
          page.regions := WithRegionBlocks(page.regions, i.value,
                                           SpliceRemove(page.regions[i.value].blocks, actualIndex.value));
        }
      }
      r := Ok(Some(BlockRemoved(blockId, insertedBlock.value, parentId)));
    }
  }

  /**
   * The attaching half of `apply`, shared by the insert commands: writes
   * the record, then places it in the parent or the region.
   */
  method AttachRecord(page: Page, blockId: string, nb: Block, parentId: Option<string>,
                      regionName: Option<string>, index: Option<int>, prevIndex: Option<nat>)
    returns (inserted: Option<Block>, actualIndex: Option<nat>, r: Result<Event, Error>)
    modifies page
    ensures Applied(page.Data(), inserted, actualIndex, r) ==
            Attached(old(page.Data()), blockId, nb, parentId, regionName, index, prevIndex)
    ensures page.nextObject == old(page.nextObject)
  {
    inserted := Some(nb);
    actualIndex := prevIndex;
    page.blocks := page.blocks[blockId := nb];

    if Given(parentId) {
      if parentId.value !in page.blocks {
        return inserted, actualIndex, Err(ParentNotFound(parentId.value));
      }
      var at := page.AttachToParent(blockId, parentId.value, index);
      actualIndex := Some(at);
      inserted := Some(page.blocks[blockId]);
    } else {
      var targetRegionName;
      if Given(regionName) {
        targetRegionName := regionName.value;
      } else if page.regions == [] {
        return inserted, actualIndex, Err(NoRegions);
      } else {
        targetRegionName := page.regions[0].name;
      }
      var at := page.AttachToRegion(blockId, targetRegionName, index);
      actualIndex := Some(at);
    }

    if !Given(regionName) && page.regions == [] {
      return inserted, actualIndex, Err(NoRegions);
    }
    var eventRegion := if Given(regionName) then regionName.value else page.regions[0].name;
    r := Ok(BlockInserted(blockId, inserted.value, parentId, actualIndex, Some(eventRegion)));
  }
}
