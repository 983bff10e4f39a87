/**
 * `MoveBlockCommand`: takes a block out of its container and places it
 * under a target parent, or at top level in a target region, by the same
 * "index if in range, otherwise append" rule as insert. It records the
 * container and index it took the block from, and `revert` takes the block
 * out of wherever it now is and splices it back there.
 */
module MoveBlock {
  import opened Wrappers
  import opened Types
  import opened Lists
  import opened Pages

  /** The fields `apply` fills in: `blockToMove`, `originalParentId`, `originalIndex`, `originalRegionName`. */
  datatype MoveState = MoveState(block: Option<Block>, originalParentId: Option<string>,
                                 originalIndex: Option<int>, originalRegionName: Option<string>)

  /** `targetRegionName || regions[0].name || 'main'`; reading the first of no regions throws. */
  function TargetRegion(regions: seq<Region>, targetRegionName: Option<string>): (r: Result<string, Error>)
    ensures r.Ok? ==> r.value != ""
    ensures r.Err? <==> !Given(targetRegionName) && regions == []
    ensures Given(targetRegionName) ==> r == Ok(targetRegionName.value)
  {
    if Given(targetRegionName) then Ok(targetRegionName.value)
    else if regions == [] then Err(NoRegions)
    else if regions[0].name != "" then Ok(regions[0].name)
    else Ok("main")
  }

  /**
   * `apply()`. A missing block or a missing target parent fails before
   * anything changes. Otherwise the block is cut from its container (see
   * `Cut`); under a target parent its `parentId` becomes that parent and it
   * is placed among the parent's children; at top level its `parentId` is
   * cleared and it is placed in the target region, pushed when absent.
   * With no region name and no regions the source throws after the cut.
   */
  function MoveApplied(p: PageData, id: string, targetParentId: Option<string>, targetIndex: Option<int>,
                       targetRegionName: Option<string>, s: MoveState)
    : (PageData, MoveState, Result<Event, Error>)
  {
    if id !in p.blocks then (p, s.(block := None), Err(BlockNotFound(id)))
    else if Given(targetParentId) && targetParentId.value !in p.blocks then
      (p, s.(block := Some(p.blocks[id])), Err(TargetParentNotFound(targetParentId.value)))
    else
      var parent := p.blocks[id].parentId;
      var cut := Cut(p, id, parent);
      var index := if cut.1.Some? then cut.1 else s.originalIndex;
      var regionName := if cut.2.Some? then cut.2 else s.originalRegionName;
      var event := BlockMoved(id, targetParentId, targetIndex, targetRegionName,
                              OrElse(parent, None), OrElse(regionName, None), index);
      if Given(targetParentId) then
        var m := cut.0.blocks[id := cut.0.blocks[id].(parentId := targetParentId)];
        var placed := IntoChildren(m, targetParentId.value, id, targetIndex);
        (PageData(placed.0, cut.0.regions), MoveState(Some(placed.0[id]), parent, index, regionName), Ok(event))
      else
        var m := cut.0.blocks[id := cut.0.blocks[id].(parentId := None)];
        var s' := MoveState(Some(m[id]), parent, index, regionName);
        match TargetRegion(cut.0.regions, targetRegionName)
        case Err(e) => (PageData(m, cut.0.regions), s', Err(e))
        case Ok(rn) => (PageData(m, IntoRegion(cut.0.regions, rn, id, targetIndex).0), s', Ok(event))
  }

  /**
   * `revert()`: nothing unless a block was held and an index recorded.
   * Otherwise the block is cut from the container its current `parentId`
   * names, its `parentId` is set back, and it is spliced in at the recorded
   * index in the recorded parent, or the recorded region when there was
   * none. All of this goes through the object `apply` held.
   */
  function MoveReverted(p: PageData, id: string, targetParentId: Option<string>, targetIndex: Option<int>,
                        targetRegionName: Option<string>, s: MoveState)
    : (PageData, MoveState, Option<Event>)
  {
    if s.block.None? || s.originalIndex.None? then (p, s, None)
    else
      var cut := Cut(p, id, Live(p, id, s.block.value).parentId);
      var b := Live(cut.0, id, s.block.value).(parentId := s.originalParentId);
      var back := Reinsert(WriteBack(cut.0, id, b), id, s.originalParentId, s.originalRegionName,
                           s.originalIndex.value);
      (back, s.(block := Some(b)),
       Some(BlockMoved(id, s.originalParentId, s.originalIndex, s.originalRegionName,
                       OrElse(targetParentId, None), OrElse(targetRegionName, None),
                       Some(if targetIndex.Some? then targetIndex.value else 0))))
  }

  /** A missing block, or a missing target parent, fails and leaves the page as it was. */
  lemma MoveRejected(p: PageData, id: string, targetParentId: Option<string>, targetIndex: Option<int>,
                     targetRegionName: Option<string>, s: MoveState)
    requires id !in p.blocks || (Given(targetParentId) && targetParentId.value !in p.blocks)
    ensures var a := MoveApplied(p, id, targetParentId, targetIndex, targetRegionName, s);
      && a.0 == p
      && a.2 == (if id !in p.blocks then Err(BlockNotFound(id)) else Err(TargetParentNotFound(targetParentId.value)))
  {
  }

  /**
   * On a well-formed page with named regions, a move that passes its checks
   * succeeds and is undone by `revert`: every record comes back as it was,
   * and so do the regions, except that a target region `apply` had to
   * create stays behind, empty.
   */
  lemma MoveRoundTrip(p: PageData, id: string, targetParentId: Option<string>, targetIndex: Option<int>,
                      targetRegionName: Option<string>, s: MoveState)
    requires WellFormed(p) && NamedRegions(p) && id in p.blocks
    requires Given(targetParentId) ==> targetParentId.value in p.blocks
    requires !Given(targetParentId) ==> TargetRegion(p.regions, targetRegionName).Ok?
    ensures var a := MoveApplied(p, id, targetParentId, targetIndex, targetRegionName, s);
      var r := MoveReverted(a.0, id, targetParentId, targetIndex, targetRegionName, a.1);
      && a.2.Ok?
      && r.0.blocks == p.blocks
      && r.0.regions == (if Given(targetParentId) then p.regions
                         else EnsureRegion(p.regions, TargetRegion(p.regions, targetRegionName).value).0)
  {
    if Given(targetParentId) {
      MoveToParentRoundTrip(p, id, targetParentId, targetIndex, targetRegionName, s);
    } else {
      MoveToRegionRoundTrip(p, id, targetParentId, targetIndex, targetRegionName, s);
    }
  }

  /** The round trip of a move under a target parent. */
  lemma MoveToParentRoundTrip(p: PageData, id: string, targetParentId: Option<string>, targetIndex: Option<int>,
                              targetRegionName: Option<string>, s: MoveState)
    requires WellFormed(p) && NamedRegions(p) && id in p.blocks
    requires Given(targetParentId) && targetParentId.value in p.blocks
    ensures var a := MoveApplied(p, id, targetParentId, targetIndex, targetRegionName, s);
      a.2.Ok? && MoveReverted(a.0, id, targetParentId, targetIndex, targetRegionName, a.1).0 == p
  {
    var c := Cut(p, id, p.blocks[id].parentId);
    CutClears(p, id);
    ReinsertUndoesCut(p, id, if c.2.Some? then c.2 else s.originalRegionName, []);
    assert c.0.regions + [] == c.0.regions && p.regions + [] == p.regions;
    ToParentFromCut(p, id, targetParentId, targetIndex, targetRegionName, s);
  }

  /** The round trip of a move to top level. */
  lemma MoveToRegionRoundTrip(p: PageData, id: string, targetParentId: Option<string>, targetIndex: Option<int>,
                              targetRegionName: Option<string>, s: MoveState)
    requires WellFormed(p) && NamedRegions(p) && id in p.blocks
    requires !Given(targetParentId) && TargetRegion(p.regions, targetRegionName).Ok?
    ensures var a := MoveApplied(p, id, targetParentId, targetIndex, targetRegionName, s);
      && a.2.Ok?
      && MoveReverted(a.0, id, targetParentId, targetIndex, targetRegionName, a.1).0
         == PageData(p.blocks, EnsureRegion(p.regions, TargetRegion(p.regions, targetRegionName).value).0)
  {
    var c := Cut(p, id, p.blocks[id].parentId);
    CutClears(p, id);
    var rn := TargetRegion(p.regions, targetRegionName).value;
    assert TargetRegion(c.0.regions, targetRegionName) == Ok(rn);
    FindRegionByNames(c.0.regions, p.regions, rn);
    var extra := if FindRegion(p.regions, rn).Some? then [] else [Region(rn, [])];
    ReinsertUndoesCut(p, id, if c.2.Some? then c.2 else s.originalRegionName, extra);
    ToRegionFromCut(p, id, targetParentId, targetIndex, targetRegionName, s, extra);
  }

  /** The round trip under a target parent, once the cut is known to be undone by the splice back. */
  lemma ToParentFromCut(p: PageData, id: string, targetParentId: Option<string>, targetIndex: Option<int>,
                        targetRegionName: Option<string>, s: MoveState)
    requires id in p.blocks && Given(targetParentId) && targetParentId.value in p.blocks
    requires var c := Cut(p, id, p.blocks[id].parentId);
      && c.1.Some?
      && id !in c.0.blocks[targetParentId.value].children
      && Reinsert(c.0, id, p.blocks[id].parentId, if c.2.Some? then c.2 else s.originalRegionName, c.1.value) == p
    ensures var a := MoveApplied(p, id, targetParentId, targetIndex, targetRegionName, s);
      a.2.Ok? && MoveReverted(a.0, id, targetParentId, targetIndex, targetRegionName, a.1).0 == p
  {
    var parent := p.blocks[id].parentId;
    var c := Cut(p, id, parent);
    var name := if c.2.Some? then c.2 else s.originalRegionName;
    var m := c.0.blocks[id := c.0.blocks[id].(parentId := targetParentId)];
    var placed := IntoChildren(m, targetParentId.value, id, targetIndex);
    AppliedToParent(p, id, targetParentId, targetIndex, targetRegionName, s);
    UnplaceFromParent(c.0, id, parent, targetParentId, targetIndex, targetRegionName, MoveState(Some(placed.0[id]), parent, c.1, name));
  }

  /** What `apply` leaves under a target parent, spelled out. */
  lemma AppliedToParent(p: PageData, id: string, targetParentId: Option<string>, targetIndex: Option<int>,
                        targetRegionName: Option<string>, s: MoveState)
    requires id in p.blocks && Given(targetParentId) && targetParentId.value in p.blocks
    ensures var c := Cut(p, id, p.blocks[id].parentId);
      var m := c.0.blocks[id := c.0.blocks[id].(parentId := targetParentId)];
      var placed := IntoChildren(m, targetParentId.value, id, targetIndex);
      var a := MoveApplied(p, id, targetParentId, targetIndex, targetRegionName, s);
      && a.2.Ok?
      && a.0 == PageData(placed.0, c.0.regions)
      && a.1 == MoveState(Some(placed.0[id]), p.blocks[id].parentId, if c.1.Some? then c.1 else s.originalIndex,
                          if c.2.Some? then c.2 else s.originalRegionName)
  {
  }

  /**
   * `revert` after a move under a parent: the placement is cut again and
   * the record's `parentId` set back, which leaves the page `q` the first
   * cut had left, before the splice back.
   */
  lemma UnplaceFromParent(q: PageData, id: string, parent: Option<string>, targetParentId: Option<string>,
                          targetIndex: Option<int>, targetRegionName: Option<string>, s: MoveState)
    requires id in q.blocks && Given(targetParentId) && targetParentId.value in q.blocks
    requires q.blocks[id].parentId == parent && id !in q.blocks[targetParentId.value].children
    requires var m := q.blocks[id := q.blocks[id].(parentId := targetParentId)];
      var placed := IntoChildren(m, targetParentId.value, id, targetIndex);
      s.block == Some(placed.0[id]) && s.originalParentId == parent && s.originalIndex.Some?
    ensures var m := q.blocks[id := q.blocks[id].(parentId := targetParentId)];
      var placed := IntoChildren(m, targetParentId.value, id, targetIndex);
      MoveReverted(PageData(placed.0, q.regions), id, targetParentId, targetIndex, targetRegionName, s).0
        == Reinsert(q, id, parent, s.originalRegionName, s.originalIndex.value)
  {
    var m := q.blocks[id := q.blocks[id].(parentId := targetParentId)];
    var placed := IntoChildren(m, targetParentId.value, id, targetIndex);
    var held := placed.0[id];
    var a0 := PageData(placed.0, q.regions);
    assert Live(a0, id, held) == held && held.parentId == targetParentId;
    CutUndoesIntoChildren(PageData(m, q.regions), targetParentId.value, id, targetIndex);
    var cut := Cut(a0, id, targetParentId);
    assert cut.0 == PageData(m, q.regions);
    assert Live(cut.0, id, held) == m[id];
    RestoreRecord(q.blocks, id, m[id]);
    assert WriteBack(cut.0, id, m[id].(parentId := parent)) == q;
  }

  /**
   * The round trip to a top-level position, once the cut is known to be
   * undone by the splice back; `extra` is the region `apply` may push.
   */
  lemma ToRegionFromCut(p: PageData, id: string, targetParentId: Option<string>, targetIndex: Option<int>,
                        targetRegionName: Option<string>, s: MoveState, extra: seq<Region>)
    requires id in p.blocks && !Given(targetParentId)
    requires var c := Cut(p, id, p.blocks[id].parentId);
      && c.1.Some?
      && TargetRegion(c.0.regions, targetRegionName).Ok?
      && (forall i :: 0 <= i < |c.0.regions| ==> id !in c.0.regions[i].blocks)
      && EnsureRegion(c.0.regions, TargetRegion(c.0.regions, targetRegionName).value).0 == c.0.regions + extra
      && Reinsert(PageData(c.0.blocks, c.0.regions + extra), id, p.blocks[id].parentId,
                  if c.2.Some? then c.2 else s.originalRegionName, c.1.value)
         == PageData(p.blocks, p.regions + extra)
    ensures var a := MoveApplied(p, id, targetParentId, targetIndex, targetRegionName, s);
      a.2.Ok? && MoveReverted(a.0, id, targetParentId, targetIndex, targetRegionName, a.1).0
                 == PageData(p.blocks, p.regions + extra)
  {
    var parent := p.blocks[id].parentId;
    var c := Cut(p, id, parent);
    var name := if c.2.Some? then c.2 else s.originalRegionName;
    var rn := TargetRegion(c.0.regions, targetRegionName).value;
    var m := c.0.blocks[id := c.0.blocks[id].(parentId := None)];
    AppliedToRegion(p, id, targetParentId, targetIndex, targetRegionName, s);
    UnplaceFromRegion(c.0, id, parent, rn, targetParentId, targetIndex, targetRegionName,
                      MoveState(Some(m[id]), parent, c.1, name), extra);
  }

  /** What `apply` leaves at top level, spelled out. */
  lemma AppliedToRegion(p: PageData, id: string, targetParentId: Option<string>, targetIndex: Option<int>,
                        targetRegionName: Option<string>, s: MoveState)
    requires id in p.blocks && !Given(targetParentId)
    requires TargetRegion(Cut(p, id, p.blocks[id].parentId).0.regions, targetRegionName).Ok?
    ensures var c := Cut(p, id, p.blocks[id].parentId);
      var rn := TargetRegion(c.0.regions, targetRegionName).value;
      var m := c.0.blocks[id := c.0.blocks[id].(parentId := None)];
      var a := MoveApplied(p, id, targetParentId, targetIndex, targetRegionName, s);
      && a.2.Ok?
      && a.0 == PageData(m, IntoRegion(c.0.regions, rn, id, targetIndex).0)
      && a.1 == MoveState(Some(m[id]), p.blocks[id].parentId, if c.1.Some? then c.1 else s.originalIndex,
                          if c.2.Some? then c.2 else s.originalRegionName)
  {
  }

  /**
   * `revert` after a move to top level: the placement is cut again and the
   * record's `parentId` set back, which leaves the page `q` the first cut
   * had left, plus the region `apply` may have pushed.
   */
  lemma UnplaceFromRegion(q: PageData, id: string, parent: Option<string>, rn: string,
                          targetParentId: Option<string>, targetIndex: Option<int>,
                          targetRegionName: Option<string>, s: MoveState, extra: seq<Region>)
    requires id in q.blocks && !Given(targetParentId) && q.blocks[id].parentId == parent
    requires forall i :: 0 <= i < |q.regions| ==> id !in q.regions[i].blocks
    requires EnsureRegion(q.regions, rn).0 == q.regions + extra
    requires var m := q.blocks[id := q.blocks[id].(parentId := None)];
      s.block == Some(m[id]) && s.originalParentId == parent && s.originalIndex.Some?
    ensures var m := q.blocks[id := q.blocks[id].(parentId := None)];
      MoveReverted(PageData(m, IntoRegion(q.regions, rn, id, targetIndex).0), id,
                   targetParentId, targetIndex, targetRegionName, s).0
        == Reinsert(PageData(q.blocks, q.regions + extra), id, parent, s.originalRegionName, s.originalIndex.value)
  {
    var m := q.blocks[id := q.blocks[id].(parentId := None)];
    var held := m[id];
    var a0 := PageData(m, IntoRegion(q.regions, rn, id, targetIndex).0);
    assert Live(a0, id, held) == held && held.parentId == None;
    CutUndoesIntoRegion(PageData(m, q.regions), rn, id, targetIndex);
    var cut := Cut(a0, id, None);
    assert cut.0 == PageData(m, q.regions + extra);
    assert Live(cut.0, id, held) == m[id];
    RestoreRecord(q.blocks, id, m[id]);
    assert WriteBack(cut.0, id, m[id].(parentId := parent)) == PageData(q.blocks, q.regions + extra);
  }

  /**
   * Where a successful move leaves the block: its record is the same but
   * for `parentId` and (when it is its own target) `children`; under a
   * target parent it is listed by that parent only, at top level by the
   * region named `rn` only.
   */
  ghost predicate Moved(p: PageData, id: string, targetParentId: Option<string>, rn: string, a: PageData)
  {
    && a.blocks.Keys == p.blocks.Keys
    && id in p.blocks
    && a.blocks[id] == p.blocks[id].(parentId := a.blocks[id].parentId, children := a.blocks[id].children)
    && (Given(targetParentId) ==>
          && a.blocks[id].parentId == targetParentId
          && (forall k :: k in a.blocks ==> (id in a.blocks[k].children <==> k == targetParentId.value))
          && (forall i :: 0 <= i < |a.regions| ==> id !in a.regions[i].blocks))
    && (!Given(targetParentId) ==>
          && a.blocks[id].parentId.None?
          && (forall k :: k in a.blocks ==> id !in a.blocks[k].children)
          && (forall i :: 0 <= i < |a.regions| ==> (id in a.regions[i].blocks <==> a.regions[i].name == rn)))
  }

  /**
   * On a well-formed page, a move that passes its checks succeeds and
   * leaves the block in its target container and in no other one.
   */
  lemma MoveEffect(p: PageData, id: string, targetParentId: Option<string>, targetIndex: Option<int>,
                   targetRegionName: Option<string>, s: MoveState)
    requires WellFormed(p) && id in p.blocks
    requires Given(targetParentId) ==> targetParentId.value in p.blocks
    requires !Given(targetParentId) ==> TargetRegion(p.regions, targetRegionName).Ok?
    ensures var a := MoveApplied(p, id, targetParentId, targetIndex, targetRegionName, s);
      var rn := TargetRegion(p.regions, targetRegionName);
      a.2.Ok? && Moved(p, id, targetParentId, if rn.Ok? then rn.value else "", a.0)
  {
    var c := Cut(p, id, p.blocks[id].parentId);
    CutClears(p, id);
    if Given(targetParentId) {
      AppliedToParent(p, id, targetParentId, targetIndex, targetRegionName, s);
      MovedToParent(p, c.0, id, targetParentId, targetIndex);
    } else {
      var rn := TargetRegion(p.regions, targetRegionName).value;
      assert TargetRegion(c.0.regions, targetRegionName) == Ok(rn);
      AppliedToRegion(p, id, targetParentId, targetIndex, targetRegionName, s);
      MovedToRegion(p, c.0, id, targetParentId, rn, targetIndex);
    }
  }

  /** The parent case of `MoveEffect`, from the state the cut leaves. */
  lemma MovedToParent(p: PageData, q: PageData, id: string, targetParentId: Option<string>, targetIndex: Option<int>)
    requires id in p.blocks && q.blocks.Keys == p.blocks.Keys && Given(targetParentId) && targetParentId.value in q.blocks
    requires q.blocks[id] == p.blocks[id].(children := q.blocks[id].children)
    requires forall k :: k in q.blocks ==> id !in q.blocks[k].children
    requires forall i :: 0 <= i < |q.regions| ==> id !in q.regions[i].blocks
    ensures var m := q.blocks[id := q.blocks[id].(parentId := targetParentId)];
      Moved(p, id, targetParentId, "", PageData(IntoChildren(m, targetParentId.value, id, targetIndex).0, q.regions))
  {
  }

  /** The top-level case of `MoveEffect`, from the state the cut leaves. */
  lemma MovedToRegion(p: PageData, q: PageData, id: string, targetParentId: Option<string>, rn: string,
                      targetIndex: Option<int>)
    requires id in p.blocks && q.blocks.Keys == p.blocks.Keys && !Given(targetParentId)
    requires q.blocks[id] == p.blocks[id].(children := q.blocks[id].children)
    requires forall k :: k in q.blocks ==> id !in q.blocks[k].children
    requires forall i :: 0 <= i < |q.regions| ==> id !in q.regions[i].blocks
    requires forall i, j :: 0 <= i < j < |q.regions| ==> q.regions[i].name != q.regions[j].name
    ensures var m := q.blocks[id := q.blocks[id].(parentId := None)];
      Moved(p, id, targetParentId, rn, PageData(m, IntoRegion(q.regions, rn, id, targetIndex).0))
  {
    var (regions, k) := EnsureRegion(q.regions, rn);
    var placed := IntoRegion(q.regions, rn, id, targetIndex).0;
    assert |placed| == |regions|;
    forall i | 0 <= i < |placed|
      ensures id in placed[i].blocks <==> placed[i].name == rn
    {
      if i != k {
        assert placed[i] == regions[i];
        if i < |q.regions| {
          assert regions[i] == q.regions[i];
        }
      }
    }
  }

  class MoveBlockCommand {
    const page: Page
    const blockId: string
    const targetParentId: Option<string>
    const targetIndex: Option<int>
    const targetRegionName: Option<string>
    var block: Option<Block>
    var originalParentId: Option<string>
    var originalIndex: Option<int>
    var originalRegionName: Option<string>

    function State(): MoveState
      reads this
    {
      MoveState(block, originalParentId, originalIndex, originalRegionName)
    }

    constructor(page: Page, blockId: string, targetParentId: Option<string>, targetIndex: Option<int>,
                targetRegionName: Option<string>)
      ensures this.page == page && this.blockId == blockId && this.targetParentId == targetParentId
      ensures this.targetIndex == targetIndex && this.targetRegionName == targetRegionName
      ensures State() == MoveState(None, None, None, None)
    {
      this.page := page;
      this.blockId := blockId;
      this.targetParentId := targetParentId;
      this.targetIndex := targetIndex;
      this.targetRegionName := targetRegionName;
      block := None;
      originalParentId := None;
      originalIndex := None;
      originalRegionName := None;
    }

    method Apply() returns (r: Result<Event, Error>)
      modifies this, page
      ensures (page.Data(), State(), r) ==
              MoveApplied(old(page.Data()), blockId, targetParentId, targetIndex, targetRegionName, old(State()))
      ensures page.nextObject == old(page.nextObject)
    {
      if blockId !in page.blocks {
        block := None;
        return Err(BlockNotFound(blockId));
      }
      block := Some(page.blocks[blockId]);
      if Given(targetParentId) && targetParentId.value !in page.blocks {
        return Err(TargetParentNotFound(targetParentId.value));
      }
      originalParentId := page.blocks[blockId].parentId;
      var i, name := page.CutOut(blockId, originalParentId);
      if i.Some? {
        originalIndex := i;
      }
      if name.Some? {
        originalRegionName := name;
      }
      var event := BlockMoved(blockId, targetParentId, targetIndex, targetRegionName,
                              OrElse(originalParentId, None), OrElse(originalRegionName, None), originalIndex);
      if Given(targetParentId) {
        page.blocks := page.blocks[blockId := page.blocks[blockId].(parentId := targetParentId)];
        var _ := page.PlaceChild(targetParentId.value, blockId, targetIndex);
        block := Some(page.blocks[blockId]);
        return Ok(event);
      }
      page.blocks := page.blocks[blockId := page.blocks[blockId].(parentId := None)];
      block := Some(page.blocks[blockId]);
      var rn := TargetRegion(page.regions, targetRegionName);
      if rn.Err? {
        return Err(rn.error);
      }
      var _ := page.AttachToRegion(blockId, rn.value, targetIndex);
      r := Ok(event);
    }

    method Revert() returns (e: Option<Event>)
      modifies this, page
      ensures (page.Data(), State(), e) ==
              MoveReverted(old(page.Data()), blockId, targetParentId, targetIndex, targetRegionName, old(State()))
      ensures page.nextObject == old(page.nextObject)
    {
      if block.None? || originalIndex.None? {
        return None;
      }
      var current := Live(page.Data(), blockId, block.value);
      var _, _ := page.CutOut(blockId, current.parentId);
      var b := Live(page.Data(), blockId, block.value).(parentId := originalParentId);
      if blockId in page.blocks && page.blocks[blockId].objectId == b.objectId {
        page.blocks := page.blocks[blockId := b];
      }
      block := Some(b);
      page.SpliceBack(blockId, originalParentId, originalRegionName, originalIndex.value);
      e := Some(BlockMoved(blockId, originalParentId, originalIndex, originalRegionName,
                           OrElse(targetParentId, None), OrElse(targetRegionName, None),
                           Some(if targetIndex.Some? then targetIndex.value else 0)));
    }
  }
}
