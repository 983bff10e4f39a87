/**
 * `RemoveBlockCommand`: takes a block out of its container and deletes its
 * record (its descendants' records stay). It remembers the record, the
 * container and the index, and `revert` puts the record back and splices
 * the id in again at that index.
 */
module RemoveBlock {
  import opened Wrappers
  import opened Types
  import opened Lists
  import opened Pages

  /** The fields the command fills in: `removedBlock`, `originalIndex`, `originalParentId`, `regionName`. */
  datatype RemoveState = RemoveState(removedBlock: Option<Block>, originalIndex: Option<int>,
                                     originalParentId: Option<string>, regionName: Option<string>)

  /**
   * `apply()`. The container is searched through the block's `parentId`, or
   * among the regions when it has none; when no container is found the
   * recorded index and region are left as an earlier run set them. The
   * recorded block is the record as it stands after the splice.
   */
  function RemoveApplied(p: PageData, id: string, s: RemoveState)
    : (PageData, RemoveState, Result<Event, Error>)
  {
    if id !in p.blocks then (p, s.(removedBlock := None), Err(BlockNotFound(id)))
    else
      var opid := p.blocks[id].parentId;
      var cut := Cut(p, id, opid);
      var removed := cut.0.blocks[id];
      (PageData(cut.0.blocks - {id}, cut.0.regions),
       RemoveState(Some(removed), if cut.1.Some? then cut.1 else s.originalIndex, opid,
                   if cut.2.Some? then cut.2 else s.regionName),
       Ok(BlockRemoved(id, removed, opid)))
  }

  /**
   * `revert()`: nothing unless a block was removed and an index recorded;
   * otherwise the record is put back and the id spliced into the recorded
   * parent, or into the recorded region when that name is non-empty.
   */
  function RemoveReverted(p: PageData, id: string, s: RemoveState): (PageData, Option<Event>)
  {
    if s.removedBlock.None? || s.originalIndex.None? then (p, None)
    else
      var back := Reinsert(p.(blocks := p.blocks[id := s.removedBlock.value]), id,
                           s.originalParentId, s.regionName, s.originalIndex.value);
      (back, Some(BlockInserted(id, back.blocks[id], s.originalParentId, s.originalIndex, s.regionName)))
  }

  /** A missing id fails, changes nothing on the page and forgets the recorded block. */
  lemma RemoveMissing(p: PageData, id: string, s: RemoveState)
    requires id !in p.blocks
    ensures var a := RemoveApplied(p, id, s);
      a.0 == p && a.2 == Err(BlockNotFound(id)) && a.1.removedBlock.None? &&
      RemoveReverted(a.0, id, a.1) == (p, None)
  {
  }

  /** What `apply` leaves when it finds the block: the record deleted, the id in no container. */
  ghost predicate Removed(p: PageData, id: string, a: (PageData, RemoveState, Result<Event, Error>))
    requires id in p.blocks
  {
    var parent := p.blocks[id].parentId;
    && a.1.removedBlock.Some? && a.2 == Ok(BlockRemoved(id, a.1.removedBlock.value, parent))
    && a.0.blocks.Keys == p.blocks.Keys - {id}
    && (forall k :: k in a.0.blocks && Some(k) != parent ==> a.0.blocks[k] == p.blocks[k])
    && (forall k :: k in a.0.blocks ==> id !in a.0.blocks[k].children)
    && (forall i :: 0 <= i < |a.0.regions| ==> id !in a.0.regions[i].blocks)
    && |a.0.regions| == |p.regions|
    && a.1.originalParentId == parent && a.1.originalIndex.Some? && a.1.originalIndex.value >= 0
  }

  /**
   * On a well-formed page, `apply` deletes exactly the block's record,
   * leaves every other record but its parent's untouched (so descendants
   * stay), and afterwards the id occurs in no container.
   */
  lemma RemoveEffect(p: PageData, id: string, s: RemoveState)
    requires WellFormed(p) && id in p.blocks
    ensures Removed(p, id, RemoveApplied(p, id, s))
  {
    CutClears(p, id);
  }

  /**
   * On a well-formed page whose regions are all named, `apply` then
   * `revert` gives back the very same page: the same record, at its
   * original index, in its original container.
   */
  lemma RemoveRoundTrip(p: PageData, id: string, s: RemoveState)
    requires WellFormed(p) && NamedRegions(p) && id in p.blocks
    ensures var a := RemoveApplied(p, id, s);
      var r := RemoveReverted(a.0, id, a.1);
      r.0 == p && r.1 == Some(BlockInserted(id, p.blocks[id], p.blocks[id].parentId,
                                            a.1.originalIndex, a.1.regionName))
  {
    var parent := p.blocks[id].parentId;
    var c := Cut(p, id, parent);
    CutClears(p, id);
    ReinsertUndoesCut(p, id, if c.2.Some? then c.2 else s.regionName, []);
    assert c.0.regions + [] == c.0.regions && p.regions + [] == p.regions;
    RoundTripFromCut(p, id, s);
  }

  /** The round trip once the cut is known to be undone by the splice back. */
  lemma RoundTripFromCut(p: PageData, id: string, s: RemoveState)
    requires id in p.blocks
    requires var parent := p.blocks[id].parentId;
      var c := Cut(p, id, parent);
      && c.1.Some?
      && Reinsert(c.0, id, parent, if c.2.Some? then c.2 else s.regionName, c.1.value) == p
    ensures var a := RemoveApplied(p, id, s);
      var r := RemoveReverted(a.0, id, a.1);
      r.0 == p && r.1 == Some(BlockInserted(id, p.blocks[id], p.blocks[id].parentId,
                                            a.1.originalIndex, a.1.regionName))
  {
    var parent := p.blocks[id].parentId;
    var c := Cut(p, id, parent);
    var name := if c.2.Some? then c.2 else s.regionName;
    var a := RemoveApplied(p, id, s);
    assert a.0 == PageData(c.0.blocks - {id}, c.0.regions);
    assert a.1 == RemoveState(Some(c.0.blocks[id]), c.1, parent, name);
    var q := a.0.(blocks := a.0.blocks[id := a.1.removedBlock.value]);
    RestoreKey(c.0.blocks, id);
    assert q == c.0;
    var back := Reinsert(q, id, a.1.originalParentId, a.1.regionName, a.1.originalIndex.value);
    assert back == p;
    assert RemoveReverted(a.0, id, a.1) ==
      (back, Some(BlockInserted(id, back.blocks[id], a.1.originalParentId, a.1.originalIndex, a.1.regionName)));
  }

  /**
   * A parentless block that no region lists is deleted by `apply`, and
   * since no index was ever recorded, `revert` does not bring it back.
   */
  lemma OrphanIsLost(p: PageData, id: string)
    requires id in p.blocks && !Given(p.blocks[id].parentId) && RegionWith(p.regions, id).None?
    ensures var a := RemoveApplied(p, id, RemoveState(None, None, None, None));
      var r := RemoveReverted(a.0, id, a.1);
      a.2.Ok? && id !in r.0.blocks && r.1.None?
  {
  }

  class RemoveBlockCommand {
    const page: Page
    const blockId: string
    var removedBlock: Option<Block>
    var originalIndex: Option<int>
    var originalParentId: Option<string>
    var regionName: Option<string>

    function State(): RemoveState
      reads this
    {
      RemoveState(removedBlock, originalIndex, originalParentId, regionName)
    }

    constructor(page: Page, blockId: string)
      ensures this.page == page && this.blockId == blockId
      ensures State() == RemoveState(None, None, None, None)
    {
      this.page := page;
      this.blockId := blockId;
      removedBlock := None;
      originalIndex := None;
      originalParentId := None;
      regionName := None;
    }

    method Apply() returns (r: Result<Event, Error>)
      modifies this, page
      ensures (page.Data(), State(), r) == RemoveApplied(old(page.Data()), blockId, old(State()))
      ensures page.nextObject == old(page.nextObject)
    {
      if blockId !in page.blocks {
        removedBlock := None;
        return Err(BlockNotFound(blockId));
      }
      originalParentId := page.blocks[blockId].parentId;
      var i, name := page.CutOut(blockId, originalParentId);
      if i.Some? {
        originalIndex := i;
      }
      if name.Some? {
        regionName := name;
      }
      removedBlock := Some(page.blocks[blockId]);
      page.blocks := page.blocks - {blockId};
      r := Ok(BlockRemoved(blockId, removedBlock.value, originalParentId));
    }

    method Revert() returns (e: Option<Event>)
      modifies page
      ensures (page.Data(), e) == RemoveReverted(old(page.Data()), blockId, State())
      ensures page.nextObject == old(page.nextObject)
    {
      if removedBlock.None? || originalIndex.None? {
        return None;
      }
      page.blocks := page.blocks[blockId := removedBlock.value];
      page.SpliceBack(blockId, originalParentId, regionName, originalIndex.value);
      e := Some(BlockInserted(blockId, page.blocks[blockId], originalParentId, originalIndex, regionName));
    }
  }
}
