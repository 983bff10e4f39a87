/**
 * The document every command edits: a flat map from id to block record and
 * an ordered list of regions. The `Page` class is the one mutable object
 * the engine and all its commands share; `PageData` is its value, on which
 * the commands' specifications are written.
 */
module Pages {
  import opened Wrappers
  import opened Values
  import opened Types
  import opened Lists

  datatype PageData = PageData(blocks: map<string, Block>, regions: seq<Region>)

  /** What the engine emits after each change; payloads are snapshots of the records. */
  datatype Event =
    | BlockInserted(blockId: string, block: Block, parentId: Option<string>,
                    index: Option<int>, regionName: Option<string>)
    | BlockRemoved(blockId: string, block: Block, parentId: Option<string>)
    | BlockToggled(blockId: string, disabled: bool, oldDisabled: Option<bool>)
    | PropertySet(blockId: string, key: string, value: Option<Value>, oldValue: Option<Value>)
    | BlockMoved(blockId: string, targetParentId: Option<string>, targetIndex: Option<int>,
                 targetRegionName: Option<string>, sourceParentId: Option<string>,
                 sourceRegionName: Option<string>, sourceIndex: Option<int>)
    | BlockUpdated(blockId: string, block: Block, property: string,
                   newName: Option<string>, oldName: Option<string>)
    | BlockDuplicated(originalBlockId: string, newBlockId: string, newBlock: Block,
                      parentId: Option<string>, insertIndex: int, regionId: Option<string>)

  /** `regions.find(r => r.name === name)`, as the position of the first such region. */
  function FindRegion(regions: seq<Region>, name: string): (r: Option<nat>)
    ensures r.Some? ==> r.value < |regions| && regions[r.value].name == name
    ensures r.Some? ==> forall i :: 0 <= i < r.value ==> regions[i].name != name
    ensures r.None? <==> forall i :: 0 <= i < |regions| ==> regions[i].name != name
  {
    if regions == [] then None
    else if regions[0].name == name then Some(0)
    else
      match FindRegion(regions[1..], name)
      case None => None
      case Some(k) => Some(k + 1)
  }

  /** `regions.find(r => r.blocks.includes(id))`, as the position of the first such region. */
  function RegionWith(regions: seq<Region>, id: string): (r: Option<nat>)
    ensures r.Some? ==> r.value < |regions| && id in regions[r.value].blocks
    ensures r.Some? ==> forall i :: 0 <= i < r.value ==> id !in regions[i].blocks
    ensures r.None? <==> forall i :: 0 <= i < |regions| ==> id !in regions[i].blocks
  {
    if regions == [] then None
    else if id in regions[0].blocks then Some(0)
    else
      match RegionWith(regions[1..], id)
      case None => None
      case Some(k) => Some(k + 1)
  }

  /** `regionName || regions[0].name`; reading the first of no regions throws. */
  function DefaultRegion(regions: seq<Region>, regionName: Option<string>): Result<string, Error>
  {
    if Given(regionName) then Ok(regionName.value)
    else if regions == [] then Err(NoRegions)
    else Ok(regions[0].name)
  }

  /** The region named `name`, pushed as a new empty region when there is none. */
  function EnsureRegion(regions: seq<Region>, name: string): (r: (seq<Region>, nat))
    ensures r.1 < |r.0| && r.0[r.1].name == name && FindRegion(r.0, name) == Some(r.1)
    ensures FindRegion(regions, name).Some? ==> r.0 == regions
    ensures FindRegion(regions, name).None? ==> r.0 == regions + [Region(name, [])]
  {
    match FindRegion(regions, name)
    case Some(i) => (regions, i)
    case None => (regions + [Region(name, [])], |regions|)
  }

  /** The region list with the id list of region `i` replaced. */
  function WithRegionBlocks(regions: seq<Region>, i: nat, bs: seq<string>): seq<Region>
    requires i < |regions|
  {
    regions[i := regions[i].(blocks := bs)]
  }

  /** Lookup by name sees only names, not the regions' contents. */
  lemma {:induction false} FindRegionByNames(a: seq<Region>, b: seq<Region>, name: string)
    requires |a| == |b| && forall i :: 0 <= i < |a| ==> a[i].name == b[i].name
    ensures FindRegion(a, name) == FindRegion(b, name)
  {
    if a != [] && a[0].name != name {
      FindRegionByNames(a[1..], b[1..], name);
    }
  }

  /** With distinct names, a region is found again by its own name. */
  lemma DistinctNamesFind(regions: seq<Region>, k: nat)
    requires k < |regions|
    requires forall i, j :: 0 <= i < j < |regions| ==> regions[i].name != regions[j].name
    ensures FindRegion(regions, regions[k].name) == Some(k)
  {
  }

  /** The block map with the children list of `id` replaced. */
  function WithChildren(blocks: map<string, Block>, id: string, kids: seq<string>): map<string, Block>
    requires id in blocks
  {
    blocks[id := blocks[id].(children := kids)]
  }

  /**
   * Attaching record `id` to parent `q`: its `parentId` becomes the parent's
   * id, then the id is placed in the parent's children (re-read, since the
   * parent may be the record itself). The second component is the position.
   */
  function IntoParent(m: map<string, Block>, id: string, q: string, index: Option<int>)
    : (map<string, Block>, nat)
    requires id in m && q in m
  {
    var m := m[id := m[id].(parentId := Some(m[q].id))];
    var placed := Place(m[q].children, index, id);
    (WithChildren(m, q, placed.0), placed.1)
  }

  /** Placing `id` in the region named `rn`, pushed first when there is none. */
  function IntoRegion(regions: seq<Region>, rn: string, id: string, index: Option<int>)
    : (seq<Region>, nat)
  {
    var target := EnsureRegion(regions, rn);
    var placed := Place(target.0[target.1].blocks, index, id);
    (WithRegionBlocks(target.0, target.1, placed.0), placed.1)
  }

  /** Placing `id` among the children of `q` by the placement rule; the second component is the position. */
  function IntoChildren(m: map<string, Block>, q: string, id: string, index: Option<int>)
    : (map<string, Block>, nat)
    requires q in m
  {
    var placed := Place(m[q].children, index, id);
    (WithChildren(m, q, placed.0), placed.1)
  }

  /**
   * Taking `id` out of its container, as remove and move do: through
   * `parent` when it is given (its children are searched with `indexOf`,
   * and nothing is cut when the id is absent), otherwise in the first
   * region listing it. The other two components are the index found and,
   * for a region, its name; `None` where the source assigns nothing.
   */
  function Cut(p: PageData, id: string, parent: Option<string>): (r: (PageData, Option<int>, Option<string>))
    ensures r.0.blocks.Keys == p.blocks.Keys && |r.0.regions| == |p.regions|
    ensures forall k :: k in p.blocks ==> r.0.blocks[k] == p.blocks[k].(children := r.0.blocks[k].children)
    ensures forall k :: k in p.blocks && Some(k) != parent ==> r.0.blocks[k] == p.blocks[k]
    ensures forall i :: 0 <= i < |p.regions| ==> r.0.regions[i].name == p.regions[i].name
    ensures Given(parent) ==> r.0.regions == p.regions && r.2.None?
    ensures !Given(parent) ==> r.0.blocks == p.blocks
  {
    if Given(parent) then
      if parent.value in p.blocks then
        var children := p.blocks[parent.value].children;
        var i := IndexOf(children, id);
        (if i != -1 then p.(blocks := WithChildren(p.blocks, parent.value, SpliceRemove(children, i))) else p,
         Some(i), None)
      else (p, None, None)
    else
      match RegionWith(p.regions, id)
      case Some(k) =>
        var i := IndexOf(p.regions[k].blocks, id);
        (p.(regions := WithRegionBlocks(p.regions, k, SpliceRemove(p.regions[k].blocks, i))),
         Some(i), Some(p.regions[k].name))
      case None => (p, None, None)
  }

  /**
   * Splicing `id` back in at `idx`: into `parent` when it is given and
   * still there, else into the region named `regionName` when that name is
   * given and found.
   */
  function Reinsert(p: PageData, id: string, parent: Option<string>, regionName: Option<string>, idx: int)
    : (r: PageData)
    ensures r.blocks.Keys == p.blocks.Keys && |r.regions| == |p.regions|
  {
    if Given(parent) then
      if parent.value in p.blocks then
        p.(blocks := WithChildren(p.blocks, parent.value, SpliceInsert(p.blocks[parent.value].children, idx, id)))
      else p
    else if Given(regionName) then
      match FindRegion(p.regions, regionName.value)
      case Some(k) => p.(regions := WithRegionBlocks(p.regions, k, SpliceInsert(p.regions[k].blocks, idx, id)))
      case None => p
    else p
  }

  /** Putting a deleted key back with its old value gives back the map. */
  lemma RestoreKey(m: map<string, Block>, id: string)
    requires id in m
    ensures (m - {id})[id := m[id]] == m
  {
  }

  /** Overwriting a record and then writing its old value back gives back the map. */
  lemma RestoreRecord(m: map<string, Block>, id: string, b: Block)
    requires id in m
    ensures m[id := b][id := m[id]] == m
  {
  }

  /** Lookup by name is not disturbed by regions appended later. */
  lemma {:induction false} FindRegionPrefix(a: seq<Region>, e: seq<Region>, name: string)
    requires FindRegion(a, name).Some?
    ensures FindRegion(a + e, name) == FindRegion(a, name)
  {
    if a[0].name != name {
      assert (a + e)[1..] == a[1..] + e;
      FindRegionPrefix(a[1..], e, name);
    }
  }

  /**
   * A block object a command holds on to, as it stands now: the page's
   * record while the page still holds that very object, the command's own
   * copy once the page has replaced or dropped it.
   */
  function Live(p: PageData, id: string, held: Block): (b: Block)
    ensures b.objectId == held.objectId
  {
    if id in p.blocks && p.blocks[id].objectId == held.objectId then p.blocks[id] else held
  }

  /** A write through a held object: seen on the page only while the page holds that object. */
  function WriteBack(p: PageData, id: string, b: Block): (r: PageData)
    ensures r.regions == p.regions && r.blocks.Keys == p.blocks.Keys
    ensures forall k :: k in p.blocks && k != id ==> r.blocks[k] == p.blocks[k]
  {
    if id in p.blocks && p.blocks[id].objectId == b.objectId then p.(blocks := p.blocks[id := b]) else p
  }

  /**
   * The shape every page the engine builds keeps: each record is keyed by
   * its id; each block sits in exactly one container, once, and that
   * container agrees with its `parentId` (a parent's children list, or a
   * region when it has no parent); region names are distinct.
   */
  ghost predicate WellFormed(p: PageData)
  {
    && "" !in p.blocks
    && (forall k :: k in p.blocks ==> p.blocks[k].id == k)
    && (forall i, j :: 0 <= i < j < |p.regions| ==> p.regions[i].name != p.regions[j].name)
    && (forall i :: 0 <= i < |p.regions| ==> NoDuplicates(p.regions[i].blocks))
    && (forall k :: k in p.blocks ==> NoDuplicates(p.blocks[k].children))
    && (forall i, x :: 0 <= i < |p.regions| && x in p.regions[i].blocks ==>
          x in p.blocks && p.blocks[x].parentId.None?)
    && (forall i, j, x :: 0 <= i < j < |p.regions| && x in p.regions[i].blocks ==>
          x !in p.regions[j].blocks)
    && (forall q, x :: q in p.blocks && x in p.blocks[q].children ==>
          x in p.blocks && p.blocks[x].parentId == Some(q))
    && (forall k {:trigger p.blocks[k].parentId} :: k in p.blocks && p.blocks[k].parentId.Some? ==>
          p.blocks[k].parentId.value in p.blocks &&
          k in p.blocks[p.blocks[k].parentId.value].children)
    && (forall k :: k in p.blocks && p.blocks[k].parentId.None? ==>
          exists i :: 0 <= i < |p.regions| && k in p.regions[i].blocks)
  }

  /**
   * `rank` numbers the records so that every listed child that exists
   * ranks strictly below its parent, and every rank is below the number
   * of records: the longest chain of children from any record is shorter
   * than the page.
   */
  ghost predicate RankedBy(blocks: map<string, Block>, rank: map<string, nat>)
  {
    && blocks.Keys <= rank.Keys
    && (forall k :: k in blocks ==> rank[k] < |blocks|)
    && (forall q, x :: q in blocks && x in blocks[q].children && x in blocks ==> rank[x] < rank[q])
  }

  /** The children lists form no cycle: some ranking exists. */
  ghost predicate Acyclic(blocks: map<string, Block>)
  {
    exists rank :: RankedBy(blocks, rank)
  }

  /** A page without records, such as the default page, has no cycle. */
  lemma EmptyAcyclic(blocks: map<string, Block>)
    requires blocks == map[]
    ensures Acyclic(blocks)
  {
    assert RankedBy(blocks, map[]);
  }

  /** A record that lists itself as a child is a cycle: no ranking exists. */
  lemma SelfChildCyclic(blocks: map<string, Block>, id: string)
    requires id in blocks && id in blocks[id].children
    ensures !Acyclic(blocks)
  {
  }

  /** Region names a revert can find again: the source skips a falsy name. */
  ghost predicate NamedRegions(p: PageData)
  {
    forall i :: 0 <= i < |p.regions| ==> p.regions[i].name != ""
  }

  /**
   * On a well-formed page, cutting a block out of the container its
   * `parentId` names finds it, at a non-negative index, and leaves its id
   * in no children list and no region.
   */
  lemma CutClears(p: PageData, id: string)
    requires WellFormed(p) && id in p.blocks
    ensures var c := Cut(p, id, p.blocks[id].parentId);
      && c.1.Some? && c.1.value >= 0
      && (!Given(p.blocks[id].parentId) ==> c.2.Some?)
      && (forall k :: k in c.0.blocks ==> id !in c.0.blocks[k].children)
      && (forall i :: 0 <= i < |c.0.regions| ==> id !in c.0.regions[i].blocks)
  {
    if p.blocks[id].parentId.Some? {
      CutFromParent(p, id);
    } else {
      var k :| 0 <= k < |p.regions| && id in p.regions[k].blocks;
      CutFromRegion(p, id);
    }
  }

  /** The parent case of `CutClears`, from the facts it needs. */
  lemma CutFromParent(p: PageData, id: string)
    requires id in p.blocks && Given(p.blocks[id].parentId)
    requires var q := p.blocks[id].parentId.value;
      q in p.blocks && id in p.blocks[q].children && NoDuplicates(p.blocks[q].children)
    requires forall j :: 0 <= j < |p.regions| && id in p.regions[j].blocks ==> p.blocks[id].parentId.None?
    requires forall k :: k in p.blocks && id in p.blocks[k].children ==> p.blocks[id].parentId == Some(k)
    ensures var c := Cut(p, id, p.blocks[id].parentId);
      && c.1.Some? && c.1.value >= 0
      && (forall k :: k in c.0.blocks ==> id !in c.0.blocks[k].children)
      && (forall i :: 0 <= i < |c.0.regions| ==> id !in c.0.regions[i].blocks)
  {
    var q := p.blocks[id].parentId.value;
    RemoveOnlyOccurrence(p.blocks[q].children, IndexOf(p.blocks[q].children, id));
  }

  /** The region case of `CutClears`, from the facts it needs. */
  lemma CutFromRegion(p: PageData, id: string)
    requires id in p.blocks && p.blocks[id].parentId.None? && RegionWith(p.regions, id).Some?
    requires NoDuplicates(p.regions[RegionWith(p.regions, id).value].blocks)
    requires forall i, j :: 0 <= i < j < |p.regions| && id in p.regions[i].blocks ==> id !in p.regions[j].blocks
    requires forall k :: k in p.blocks && id in p.blocks[k].children ==> p.blocks[id].parentId == Some(k)
    ensures var c := Cut(p, id, None);
      && c.1.Some? && c.1.value >= 0 && c.2.Some?
      && (forall k :: k in c.0.blocks ==> id !in c.0.blocks[k].children)
      && (forall i :: 0 <= i < |c.0.regions| ==> id !in c.0.regions[i].blocks)
  {
    var k := RegionWith(p.regions, id).value;
    RemoveOnlyOccurrence(p.regions[k].blocks, IndexOf(p.regions[k].blocks, id));
  }

  /**
   * Splicing a block back in at the index its cut found restores the page,
   * also when regions were appended in between; `name` is the region name
   * the command recorded, which is the cut's own when there is no parent.
   */
  lemma ReinsertUndoesCut(p: PageData, id: string, name: Option<string>, extra: seq<Region>)
    requires WellFormed(p) && NamedRegions(p) && id in p.blocks
    requires var parent := p.blocks[id].parentId;
      !Given(parent) ==> name == Cut(p, id, parent).2
    ensures var parent := p.blocks[id].parentId;
      var c := Cut(p, id, parent);
      && c.1.Some?
      && Reinsert(PageData(c.0.blocks, c.0.regions + extra), id, parent, name, c.1.value)
         == PageData(p.blocks, p.regions + extra)
  {
    if p.blocks[id].parentId.Some? {
      ReinsertIntoParent(p, id, name, extra);
    } else {
      var k := RegionWith(p.regions, id).value;
      DistinctNamesFind(p.regions, k);
      ReinsertIntoRegion(p, id, extra);
    }
  }

  /** The parent case of `ReinsertUndoesCut`. */
  lemma ReinsertIntoParent(p: PageData, id: string, name: Option<string>, extra: seq<Region>)
    requires id in p.blocks && Given(p.blocks[id].parentId)
    requires p.blocks[id].parentId.value in p.blocks
    requires id in p.blocks[p.blocks[id].parentId.value].children
    ensures var c := Cut(p, id, p.blocks[id].parentId);
      && c.1.Some?
      && Reinsert(PageData(c.0.blocks, c.0.regions + extra), id, p.blocks[id].parentId, name, c.1.value)
         == PageData(p.blocks, p.regions + extra)
  {
    var q := p.blocks[id].parentId.value;
    var children := p.blocks[q].children;
    var i := IndexOf(children, id);
    var m := WithChildren(p.blocks, q, SpliceRemove(children, i));
    assert Cut(p, id, p.blocks[id].parentId) == (p.(blocks := m), Some(i), None);
    ChildrenRestored(p.blocks, q, id);
  }

  /** Putting the id back at the index it was cut from restores the parent's children. */
  lemma ChildrenRestored(blocks: map<string, Block>, q: string, id: string)
    requires q in blocks && id in blocks[q].children
    ensures var i := IndexOf(blocks[q].children, id);
      var m := WithChildren(blocks, q, SpliceRemove(blocks[q].children, i));
      WithChildren(m, q, SpliceInsert(m[q].children, i, id)) == blocks
  {
    var children := blocks[q].children;
    var i := IndexOf(children, id);
    InsertUndoesRemove(children, i);
    RestoreRecord(blocks, q, blocks[q].(children := SpliceRemove(children, i)));
  }

  /** The region case of `ReinsertUndoesCut`: the region is found again by its name. */
  lemma ReinsertIntoRegion(p: PageData, id: string, extra: seq<Region>)
    requires id in p.blocks && !Given(p.blocks[id].parentId) && RegionWith(p.regions, id).Some?
    requires var k := RegionWith(p.regions, id).value;
      p.regions[k].name != "" && FindRegion(p.regions, p.regions[k].name) == Some(k)
    ensures var c := Cut(p, id, p.blocks[id].parentId);
      && c.1.Some?
      && Reinsert(PageData(c.0.blocks, c.0.regions + extra), id, p.blocks[id].parentId, c.2, c.1.value)
         == PageData(p.blocks, p.regions + extra)
  {
    var k := RegionWith(p.regions, id).value;
    RegionSpliceBack(p.regions, k, id, extra);
  }

  /** Splicing an id back into the region it was cut from, found by name among regions appended to. */
  lemma RegionSpliceBack(regions: seq<Region>, k: nat, id: string, extra: seq<Region>)
    requires k < |regions| && id in regions[k].blocks
    requires FindRegion(regions, regions[k].name) == Some(k)
    ensures var i := IndexOf(regions[k].blocks, id);
      var cut := WithRegionBlocks(regions, k, SpliceRemove(regions[k].blocks, i));
      && FindRegion(cut + extra, regions[k].name) == Some(k)
      && WithRegionBlocks(cut + extra, k, SpliceInsert(cut[k].blocks, i, id)) == regions + extra
  {
    var bs := regions[k].blocks;
    var cut := WithRegionBlocks(regions, k, SpliceRemove(bs, IndexOf(bs, id)));
    RegionCutFound(regions, k, cut, extra);
    RegionCutRestored(regions, k, id, extra);
  }

  /** A region whose contents changed is still found by its name, before anything appended. */
  lemma RegionCutFound(regions: seq<Region>, k: nat, cut: seq<Region>, extra: seq<Region>)
    requires k < |regions| && FindRegion(regions, regions[k].name) == Some(k)
    requires |cut| == |regions| && forall j :: 0 <= j < |cut| ==> cut[j].name == regions[j].name
    ensures FindRegion(cut + extra, regions[k].name) == Some(k)
  {
    FindRegionByNames(cut, regions, regions[k].name);
    FindRegionPrefix(cut, extra, regions[k].name);
  }

  /** Putting the id back at the index it was cut from restores the regions. */
  lemma RegionCutRestored(regions: seq<Region>, k: nat, id: string, extra: seq<Region>)
    requires k < |regions| && id in regions[k].blocks
    ensures var i := IndexOf(regions[k].blocks, id);
      var cut := WithRegionBlocks(regions, k, SpliceRemove(regions[k].blocks, i));
      WithRegionBlocks(cut + extra, k, SpliceInsert(cut[k].blocks, i, id)) == regions + extra
  {
    var bs := regions[k].blocks;
    var i := IndexOf(bs, id);
    InsertUndoesRemove(bs, i);
    var cut := WithRegionBlocks(regions, k, SpliceRemove(bs, i));
    assert SpliceInsert(cut[k].blocks, i, id) == bs;
    UpdateInPrefix(cut, extra, k, regions[k]);
    assert cut[k := regions[k]] == regions;
  }

  /** Replacing an element of the first part of a concatenation. */
  lemma UpdateInPrefix(a: seq<Region>, b: seq<Region>, k: nat, r: Region)
    requires k < |a|
    ensures (a + b)[k := r] == a[k := r] + b
  {
  }

  /** Cutting a block just placed among a parent's children takes exactly that placement back. */
  lemma CutUndoesIntoChildren(p: PageData, q: string, id: string, index: Option<int>)
    requires q in p.blocks && q != "" && id !in p.blocks[q].children
    ensures var placed := IntoChildren(p.blocks, q, id, index);
      Cut(PageData(placed.0, p.regions), id, Some(q)) == (p, Some(placed.1 as int), None)
  {
    var children := p.blocks[q].children;
    var (t, at) := Place(children, index, id);
    assert t[..at] == children[..at];
    IndexOfUnique(t, id, at);
    RemoveUndoesPlace(children, index, id);
    assert WithChildren(WithChildren(p.blocks, q, t), q, SpliceRemove(t, at)) == p.blocks;
  }

  /**
   * Cutting a top-level block just placed in a region takes exactly that
   * placement back, leaving the region pushed for it, if any.
   */
  lemma CutUndoesIntoRegion(p: PageData, rn: string, id: string, index: Option<int>)
    requires forall i :: 0 <= i < |p.regions| ==> id !in p.regions[i].blocks
    ensures var placed := IntoRegion(p.regions, rn, id, index);
      Cut(PageData(p.blocks, placed.0), id, None)
        == (PageData(p.blocks, EnsureRegion(p.regions, rn).0), Some(placed.1 as int), Some(rn))
  {
    var (regions, k) := EnsureRegion(p.regions, rn);
    assert forall i :: 0 <= i < |regions| ==> id !in regions[i].blocks;
    var bs := regions[k].blocks;
    var (t, at) := Place(bs, index, id);
    var placed := WithRegionBlocks(regions, k, t);
    var w := RegionWith(placed, id);
    assert id in placed[k].blocks;
    assert w == Some(k);
    assert t[..at] == bs[..at];
    IndexOfUnique(t, id, at);
    RemoveUndoesPlace(bs, index, id);
    assert WithRegionBlocks(placed, k, SpliceRemove(t, at)) == regions;
  }

  /**
   * The shared mutable page. `nextObject` is not part of the source: it
   * hands out the identities of the block objects the commands create.
   */
  class Page {
    var blocks: map<string, Block>
    var regions: seq<Region>
    var nextObject: nat

    function Data(): PageData
      reads this
    {
      PageData(blocks, regions)
    }

    constructor(data: PageData, nextObject: nat)
      ensures Data() == data && this.nextObject == nextObject
    {
      blocks := data.blocks;
      regions := data.regions;
      this.nextObject := nextObject;
    }

    /** Takes `id` out of its container (see `Cut`), returning the index and region name found. */
    method CutOut(id: string, parent: Option<string>) returns (index: Option<int>, name: Option<string>)
      modifies this
      ensures (Data(), index, name) == Cut(old(Data()), id, parent)
      ensures nextObject == old(nextObject)
    {
      index, name := None, None;
      if Given(parent) {
        var q := parent.value;
        if q in blocks {
          var i := IndexOf(blocks[q].children, id);
          index := Some(i);
          if i != -1 {
            blocks := WithChildren(blocks, q, SpliceRemove(blocks[q].children, i));
          }
        }
      } else {
        var k := RegionWith(regions, id);
        if k.Some? {
          var i := IndexOf(regions[k.value].blocks, id);
          index, name := Some(i), Some(regions[k.value].name);
          regions := WithRegionBlocks(regions, k.value, SpliceRemove(regions[k.value].blocks, i));
        }
      }
    }

    /** Splices `id` back in at `idx` (see `Reinsert`). */
    method SpliceBack(id: string, parent: Option<string>, regionName: Option<string>, idx: int)
      modifies this
      ensures Data() == Reinsert(old(Data()), id, parent, regionName, idx)
      ensures nextObject == old(nextObject)
    {
      if Given(parent) {
        var q := parent.value;
        if q in blocks {
          blocks := WithChildren(blocks, q, SpliceInsert(blocks[q].children, idx, id));
        }
      } else if Given(regionName) {
        var k := FindRegion(regions, regionName.value);
        if k.Some? {
          regions := WithRegionBlocks(regions, k.value, SpliceInsert(regions[k.value].blocks, idx, id));
        }
      }
    }

    /** Places `id` among the children of `q` (see `IntoChildren`). */
    method PlaceChild(q: string, id: string, index: Option<int>) returns (at: nat)
      requires q in blocks
      modifies this
      ensures (blocks, at) == IntoChildren(old(blocks), q, id, index)
      ensures regions == old(regions) && nextObject == old(nextObject)
    {
      var children := blocks[q].children;
      if index.Some? && 0 <= index.value <= |children| {
        children := SpliceInsert(children, index.value, id);
        at := index.value;
      } else {
        children := children + [id];
        at := |children| - 1;
      }
      blocks := WithChildren(blocks, q, children);
    }

    /** The "index if in range, otherwise push" placement into a parent's children. */
    method AttachToParent(id: string, q: string, index: Option<int>) returns (at: nat)
      requires id in blocks && q in blocks
      modifies this
      ensures (blocks, at) == IntoParent(old(blocks), id, q, index)
      ensures regions == old(regions) && nextObject == old(nextObject)
    {
      blocks := blocks[id := blocks[id].(parentId := Some(blocks[q].id))];
      var children := blocks[q].children;
      if index.Some? && 0 <= index.value <= |children| {
        children := SpliceInsert(children, index.value, id);
        at := index.value;
      } else {
        children := children + [id];
        at := |children| - 1;
      }
      blocks := WithChildren(blocks, q, children);
    }

    /** The same placement into the region named `rn`, pushed first when absent. */
    method AttachToRegion(id: string, rn: string, index: Option<int>) returns (at: nat)
      modifies this
      ensures (regions, at) == IntoRegion(old(regions), rn, id, index)
      ensures blocks == old(blocks) && nextObject == old(nextObject)
    {
      var i := FindRegion(regions, rn);
      if i.None? {
        regions := regions + [Region(rn, [])];
        i := Some(|regions| - 1);
      }
      var bs := regions[i.value].blocks;
      if index.Some? && 0 <= index.value <= |bs| {
        bs := SpliceInsert(bs, index.value, id);
        at := index.value;
      } else {
        bs := bs + [id];
        at := |bs| - 1;
      }
      regions := WithRegionBlocks(regions, i.value, bs);
    }
  }
}
