/**
 * `DuplicateBlockCommand`: copies a block and everything below it under
 * newly drawn ids, and places the copy right after the original in the
 * original's container. `revert` deletes the copy's records, following the
 * copy's children lists, and takes its id out of the container again.
 *
 * Both traversals recurse along children lists, which nothing stops from
 * forming a cycle; the source then recurses until the stack overflows. A
 * path of more records than the page holds must repeat one, so the model
 * bounds the depth by the size of the block map and reports `Diverges`
 * when that bound is reached.
 */
module DuplicateBlock {
  import opened Wrappers
  import opened Types
  import opened Lists
  import opened Pages
  import Ids
  import InsertFromPreset

  /** What the copying threads through: the block map, the id counter and the next object identity. */
  datatype Copying = Copying(blocks: map<string, Block>, nextId: nat, nextObject: nat)

  /**
   * `cloneBlockWithNewIds(b, newId, newParent)`: a new object with the
   * fields of `b`, the given id and parent and, as children, the copies of
   * those of `b`'s children that are on the page, each under an id drawn
   * just before it is copied; the copy is written last. `fuel` is the
   * remaining depth.
   */
  function CloneTree(st: Copying, b: Block, newId: string, newParent: Option<string>, fuel: nat)
    : (Copying, Result<Block, Error>)
    decreases fuel, 0
  {
    if fuel == 0 then (st, Err(Diverges))
    else
      var obj := st.nextObject;
      var kids := CloneChildren(st.(nextObject := obj + 1), b.children, newId, fuel - 1);
      if kids.1.Err? then (kids.0, Err(kids.1.error))
      else
        var c := b.(id := newId, parentId := newParent, children := kids.1.value, objectId := obj);
        (kids.0.(blocks := kids.0.blocks[newId := c]), Ok(c))
  }

  /** The loop over the original's children: absent ones are skipped, the others copied below `pid`. */
  function CloneChildren(st: Copying, ids: seq<string>, pid: string, fuel: nat)
    : (Copying, Result<seq<string>, Error>)
    decreases fuel, 1, |ids|
  {
    if ids == [] then (st, Ok([]))
    else if ids[0] !in st.blocks then CloneChildren(st, ids[1..], pid, fuel)
    else
      var childId := Ids.IdFor(st.nextId);
      var one := CloneTree(st.(nextId := st.nextId + 1), st.blocks[ids[0]], childId, Some(pid), fuel);
      if one.1.Err? then (one.0, Err(one.1.error))
      else Prefixed([childId], CloneChildren(one.0, ids[1..], pid, fuel))
  }

  /** A copying run's outcome with `kids` put in front of the ids it returns. */
  function Prefixed(kids: seq<string>, c: (Copying, Result<seq<string>, Error>)): (Copying, Result<seq<string>, Error>)
  {
    (c.0, if c.1.Err? then c.1 else Ok(kids + c.1.value))
  }

  /** Prefixing nothing changes nothing. */
  lemma PrefixedEmpty(c: (Copying, Result<seq<string>, Error>))
    ensures Prefixed([], c) == c
  {
    if c.1.Ok? {
      assert [] + c.1.value == c.1.value;
    }
  }

  /** Two prefixes in turn are one prefix. */
  lemma PrefixedJoin(a: seq<string>, b: seq<string>, c: (Copying, Result<seq<string>, Error>))
    ensures Prefixed(a, Prefixed(b, c)) == Prefixed(a + b, c)
  {
    if c.1.Ok? {
      assert a + (b + c.1.value) == (a + b) + c.1.value;
    }
  }

  /**
   * `removeBlockAndChildren(id)`: the children of the record as it is on
   * entry are removed first, then the record itself; an id that is not a
   * key is skipped. The flag is false when the depth bound was reached.
   */
  function RemoveTree(m: map<string, Block>, id: string, fuel: nat): (map<string, Block>, bool)
    decreases fuel, 0
  {
    if id !in m then (m, true)
    else if fuel == 0 then (m, false)
    else
      var r := RemoveAll(m, m[id].children, fuel - 1);
      if !r.1 then r else (r.0 - {id}, true)
  }

  /** The loop over a record's children in `removeBlockAndChildren`. */
  function RemoveAll(m: map<string, Block>, ids: seq<string>, fuel: nat): (map<string, Block>, bool)
    decreases fuel, 1, |ids|
  {
    if ids == [] then (m, true)
    else
      var r := RemoveTree(m, ids[0], fuel);
      if !r.1 then r else RemoveAll(r.0, ids[1..], fuel)
  }

  /**
   * The fields the command fills in: `duplicatedBlockId`,
   * `duplicatedBlock`, `parentId`, `insertIndex` and `regionId`, each
   * undefined until `apply` first sets it.
   */
  datatype DupState = DupState(duplicatedBlockId: Option<string>, duplicatedBlock: Option<Block>,
                               parentId: Option<string>, insertIndex: Option<int>, regionId: Option<string>)

  /** An index `splice` receives: an undefined start counts as 0. */
  function At(i: Option<int>): int
  {
    if i.Some? then i.value else 0
  }

  /**
   * `determineInsertLocation()`: the record is read again. Under a parent,
   * the position after the original in the parent's children (the end
   * when it is not listed, 0 when the parent is gone); otherwise the
   * position after it in the first region listing it, or else the end of
   * the first region, whose name (or `main` for an empty one) is recorded.
   * `regionId` is left as it was in the parent case. The error carries the
   * state as it stands when the source throws.
   */
  function Located(p: PageData, blockId: string, s: DupState): (DupState, Option<Error>)
  {
    if blockId !in p.blocks then (s, Some(BlockNotFound(blockId)))
    else
      var o := p.blocks[blockId];
      if Given(o.parentId) then
        var q := o.parentId.value;
        var idx :=
          if q in p.blocks then
            (var i := IndexOf(p.blocks[q].children, blockId);
             if i != -1 then i + 1 else |p.blocks[q].children|)
          else 0;
        (s.(parentId := Some(q), insertIndex := Some(idx)), None)
      else
        match RegionWith(p.regions, blockId)
        case Some(i) =>
          (s.(parentId := None, regionId := Some(p.regions[i].name),
              insertIndex := Some(IndexOf(p.regions[i].blocks, blockId) + 1)), None)
        case None =>
          if p.regions == [] then (s.(parentId := None), Some(NoRegions))
          else
            (s.(parentId := None, regionId := Some(if p.regions[0].name != "" then p.regions[0].name else "main"),
                insertIndex := Some(|p.regions[0].blocks|)), None)
  }

  /**
   * `insertDuplicatedBlock()`: the id is spliced into the recorded parent's
   * children (a parent that is gone is an error), or into the region whose
   * name is the recorded one, pushed as a new empty region when there is
   * none.
   */
  function Placed(p: PageData, dupId: string, s: DupState): Result<PageData, Error>
  {
    if Given(s.parentId) then
      var q := s.parentId.value;
      if q !in p.blocks then Err(ParentNotFound(q))
      else Ok(p.(blocks := WithChildren(p.blocks, q, SpliceInsert(p.blocks[q].children, At(s.insertIndex), dupId))))
    else
      var found := if s.regionId.Some? then FindRegion(p.regions, s.regionId.value) else None;
      var regions := if found.Some? then p.regions
                     else p.regions + [Region(if Given(s.regionId) then s.regionId.value else "main", [])];
      var i := if found.Some? then found.value else |p.regions|;
      Ok(p.(regions := WithRegionBlocks(regions, i, SpliceInsert(regions[i].blocks, At(s.insertIndex), dupId))))
  }

  /** Everything `apply` changes: the page, the id counter, the object counter and the command's fields. */
  datatype Outcome = Outcome(page: PageData, nextId: nat, nextObject: nat, state: DupState,
                             result: Result<Event, Error>)

  /** The depth bound of a traversal over the block map `m`. */
  function Depth(m: map<string, Block>): nat
  {
    |m|
  }

  /**
   * `apply()`: the copy's id is drawn and recorded, the block is copied,
   * the location determined and the copy's id placed there. Records
   * written before a later step fails stay on the page.
   */
  function DuplicateApplied(p: PageData, nextId: nat, nextObject: nat, blockId: string, s: DupState): Outcome
  {
    if blockId !in p.blocks then Outcome(p, nextId, nextObject, s, Err(BlockNotFound(blockId)))
    else
      var dupId := Ids.IdFor(nextId);
      var s1 := s.(duplicatedBlockId := Some(dupId));
      var orig := p.blocks[blockId];
      var c := CloneTree(Copying(p.blocks, nextId + 1, nextObject), orig, dupId, orig.parentId, Depth(p.blocks));
      var p1 := p.(blocks := c.0.blocks);
      if c.1.Err? then Outcome(p1, c.0.nextId, c.0.nextObject, s1, Err(c.1.error))
      else
        var s2 := s1.(duplicatedBlock := Some(c.1.value));
        var loc := Located(p1, blockId, s2);
        if loc.1.Some? then Outcome(p1, c.0.nextId, c.0.nextObject, loc.0, Err(loc.1.value))
        else
          match Placed(p1, dupId, loc.0)
          case Err(e) => Outcome(p1, c.0.nextId, c.0.nextObject, loc.0, Err(e))
          case Ok(p2) =>
            Outcome(p2, c.0.nextId, c.0.nextObject, loc.0,
                    Ok(BlockDuplicated(blockId, dupId, c.1.value, loc.0.parentId, At(loc.0.insertIndex),
                                       if Given(loc.0.regionId) then loc.0.regionId else None)))
  }

  /**
   * `revert()`: nothing before a copy was made; otherwise the copy's
   * records are deleted, then its id is spliced out of the recorded
   * parent's children, or out of the region with the recorded name, when
   * it is listed there.
   */
  function DuplicateReverted(p: PageData, s: DupState): (PageData, Result<(), Error>)
  {
    if s.duplicatedBlock.None? || !Given(s.duplicatedBlockId) then (p, Ok(()))
    else
      var d := s.duplicatedBlockId.value;
      var rm := RemoveTree(p.blocks, d, Depth(p.blocks));
      if !rm.1 then (p.(blocks := rm.0), Err(Diverges))
      else
        var m := rm.0;
        if Given(s.parentId) then
          var q := s.parentId.value;
          if q in m && IndexOf(m[q].children, d) != -1 then
            (PageData(WithChildren(m, q, SpliceRemove(m[q].children, IndexOf(m[q].children, d))), p.regions), Ok(()))
          else (PageData(m, p.regions), Ok(()))
        else
          var found := if s.regionId.Some? then FindRegion(p.regions, s.regionId.value) else None;
          if found.Some? && IndexOf(p.regions[found.value].blocks, d) != -1 then
            var i := found.value;
            (PageData(m, WithRegionBlocks(p.regions, i, SpliceRemove(p.regions[i].blocks,
                                                                     IndexOf(p.regions[i].blocks, d)))), Ok(()))
          else (PageData(m, p.regions), Ok(()))
  }

  /** The keys a run added. */
  function NewKeys(st: Copying, r: Copying): set<string>
  {
    r.blocks.Keys - st.blocks.Keys
  }

  /**
   * What a copying run keeps: the counters only grow, every record that
   * was there is still there unchanged, the generator's remaining ids are
   * unused, and no id the generator had handed out before the run is
   * among the keys it added.
   */
  ghost predicate Grew(st: Copying, r: Copying)
  {
    && st.nextId <= r.nextId && st.nextObject <= r.nextObject
    && st.blocks.Keys <= r.blocks.Keys
    && (forall k :: k in st.blocks ==> r.blocks[k] == st.blocks[k])
    && InsertFromPreset.FreshFrom(r.blocks, r.nextId)
    && (forall k: nat :: k < st.nextId && Ids.IdFor(k) !in st.blocks ==> Ids.IdFor(k) !in r.blocks)
    && |NewKeys(st, r)| == r.nextId - st.nextId
  }

  /** Two runs in turn are one run. */
  lemma GrewTrans(a: Copying, b: Copying, c: Copying)
    requires Grew(a, b) && Grew(b, c)
    ensures Grew(a, c)
  {
    CardJoin(a.blocks.Keys, b.blocks.Keys, c.blocks.Keys);
  }

  /** The keys added over two runs are those the first added and those the second added. */
  lemma CardJoin(a: set<string>, b: set<string>, c: set<string>)
    requires a <= b <= c
    ensures |c - a| == |b - a| + |c - b|
  {
    assert c - a == (b - a) + (c - b);
    assert (b - a) * (c - b) == {};
  }

  /**
   * Copying a block under the generator's next id, on a map holding none
   * of the ids not yet drawn, adds records only under drawn ids, the copy's
   * own among them.
   */
  lemma {:induction false} CloneTreeGrows(st0: Copying, b: Block, parent: Option<string>, fuel: nat)
    requires InsertFromPreset.FreshFrom(st0.blocks, st0.nextId)
    requires CloneTree(st0.(nextId := st0.nextId + 1), b, Ids.IdFor(st0.nextId), parent, fuel).1.Ok?
    ensures var r := CloneTree(st0.(nextId := st0.nextId + 1), b, Ids.IdFor(st0.nextId), parent, fuel);
      && Grew(st0, r.0)
      && Ids.IdFor(st0.nextId) in r.0.blocks && r.0.blocks[Ids.IdFor(st0.nextId)] == r.1.value
      && st0.nextId < r.0.nextId
    decreases fuel, 0
  {
    var newId := Ids.IdFor(st0.nextId);
    var st1 := st0.(nextId := st0.nextId + 1, nextObject := st0.nextObject + 1);
    var kids := CloneChildren(st1, b.children, newId, fuel - 1);
    CloneChildrenGrows(st1, b.children, newId, fuel - 1);
    var r := CloneTree(st0.(nextId := st0.nextId + 1), b, newId, parent, fuel);
    GrewByRoot(st0, st1, kids.0, r.1.value, r.0);
  }

  /** The step of `CloneTreeGrows`: the root's record written after its children's run. */
  lemma GrewByRoot(st0: Copying, st1: Copying, k: Copying, c: Block, r: Copying)
    requires InsertFromPreset.FreshFrom(st0.blocks, st0.nextId)
    requires st1 == st0.(nextId := st0.nextId + 1, nextObject := st0.nextObject + 1)
    requires Grew(st1, k)
    requires r == k.(blocks := k.blocks[Ids.IdFor(st0.nextId) := c])
    ensures Grew(st0, r) && st0.nextId < r.nextId
  {
    RootStep(st0.blocks, st0.nextId, k.blocks, k.nextId, c, r.blocks);
  }

  /** `GrewByRoot` on the maps and counters alone. */
  lemma RootStep(b0: map<string, Block>, n: nat, kb: map<string, Block>, next: nat, c: Block,
                 rb: map<string, Block>)
    requires InsertFromPreset.FreshFrom(b0, n) && n + 1 <= next
    requires b0.Keys <= kb.Keys && forall x :: x in b0 ==> kb[x] == b0[x]
    requires InsertFromPreset.FreshFrom(kb, next)
    requires forall j: nat :: j < n + 1 && Ids.IdFor(j) !in b0 ==> Ids.IdFor(j) !in kb
    requires |kb.Keys - b0.Keys| == next - (n + 1)
    requires rb == kb[Ids.IdFor(n) := c]
    ensures b0.Keys <= rb.Keys && forall x :: x in b0 ==> rb[x] == b0[x]
    ensures InsertFromPreset.FreshFrom(rb, next)
    ensures forall j: nat :: j < n && Ids.IdFor(j) !in b0 ==> Ids.IdFor(j) !in rb
    ensures |rb.Keys - b0.Keys| == next - n
  {
    NewIdUnused(b0, n, kb);
    RootRecords(b0, n, kb, next, c, rb);
    RootIds(b0, n, kb, next, c, rb);
  }

  /** The records and the count of new keys after the root is written. */
  lemma RootRecords(b0: map<string, Block>, n: nat, kb: map<string, Block>, next: nat, c: Block,
                    rb: map<string, Block>)
    requires Ids.IdFor(n) !in b0 && Ids.IdFor(n) !in kb && n + 1 <= next
    requires b0.Keys <= kb.Keys && forall x :: x in b0 ==> kb[x] == b0[x]
    requires |kb.Keys - b0.Keys| == next - (n + 1)
    requires rb == kb[Ids.IdFor(n) := c]
    ensures b0.Keys <= rb.Keys && forall x :: x in b0 ==> rb[x] == b0[x]
    ensures |rb.Keys - b0.Keys| == next - n
  {
    assert rb.Keys == kb.Keys + {Ids.IdFor(n)};
    RootKeepsOld(b0, kb, Ids.IdFor(n), c);
    OneMoreKey(b0.Keys, kb.Keys, rb.Keys, Ids.IdFor(n));
  }

  /** The ids after the root is written: those from `next` on unused, none drawn before `n` added. */
  lemma RootIds(b0: map<string, Block>, n: nat, kb: map<string, Block>, next: nat, c: Block,
                rb: map<string, Block>)
    requires n + 1 <= next && InsertFromPreset.FreshFrom(kb, next)
    requires forall j: nat :: j < n + 1 && Ids.IdFor(j) !in b0 ==> Ids.IdFor(j) !in kb
    requires rb == kb[Ids.IdFor(n) := c]
    ensures InsertFromPreset.FreshFrom(rb, next)
    ensures forall j: nat :: j < n && Ids.IdFor(j) !in b0 ==> Ids.IdFor(j) !in rb
  {
    assert rb.Keys == kb.Keys + {Ids.IdFor(n)};
    RootIdsFresh(n, kb, next, rb);
    RootIdsOld(n, b0, kb, rb);
  }

  /** The id drawn at `n` is neither on the page nor among the keys a run added before the root. */
  lemma NewIdUnused(b0: map<string, Block>, n: nat, kb: map<string, Block>)
    requires InsertFromPreset.FreshFrom(b0, n)
    requires forall j: nat :: j < n + 1 && Ids.IdFor(j) !in b0 ==> Ids.IdFor(j) !in kb
    ensures Ids.IdFor(n) !in b0 && Ids.IdFor(n) !in kb
  {
    assert Ids.IdFor(n) !in b0;
  }

  /** Writing a key that was never a key of `b0` leaves the records of `b0` as they were. */
  lemma RootKeepsOld(b0: map<string, Block>, kb: map<string, Block>, newId: string, c: Block)
    requires newId !in b0
    requires b0.Keys <= kb.Keys && forall x :: x in b0 ==> kb[x] == b0[x]
    ensures b0.Keys <= kb[newId := c].Keys && forall x :: x in b0 ==> kb[newId := c][x] == b0[x]
  {
  }

  /** One key more than a run's keys is one new key more. */
  lemma OneMoreKey(b0: set<string>, kb: set<string>, rb: set<string>, x: string)
    requires x !in kb && x !in b0 && rb == kb + {x}
    ensures |rb - b0| == |kb - b0| + 1
  {
    KeysPlusOne(b0, kb, rb, x);
  }

  /** The new keys after writing one more key are the earlier new keys and that key. */
  lemma KeysPlusOne(b0: set<string>, kb: set<string>, rb: set<string>, x: string)
    requires x !in b0 && rb == kb + {x}
    ensures rb - b0 == (kb - b0) + {x}
  {
  }

  /** Writing the id drawn at `n` keeps the ids from `next` on unused. */
  lemma RootIdsFresh(n: nat, kb: map<string, Block>, next: nat, rb: map<string, Block>)
    requires n < next && InsertFromPreset.FreshFrom(kb, next)
    requires rb.Keys == kb.Keys + {Ids.IdFor(n)}
    ensures InsertFromPreset.FreshFrom(rb, next)
  {
    forall j: nat | next <= j
      ensures Ids.IdFor(j) !in rb
    {
      Ids.IdForInjective(j, n);
    }
  }

  /** Writing the id drawn at `n` adds no id drawn before `n`. */
  lemma RootIdsOld(n: nat, b0: map<string, Block>, kb: map<string, Block>, rb: map<string, Block>)
    requires forall j: nat :: j < n + 1 && Ids.IdFor(j) !in b0 ==> Ids.IdFor(j) !in kb
    requires rb.Keys == kb.Keys + {Ids.IdFor(n)}
    ensures forall j: nat :: j < n && Ids.IdFor(j) !in b0 ==> Ids.IdFor(j) !in rb
  {
    forall j: nat | j < n && Ids.IdFor(j) !in b0
      ensures Ids.IdFor(j) !in rb
    {
      Ids.IdForInjective(j, n);
    }
  }

  /** The loop over the children adds records only under the ids it draws. */
  lemma {:induction false} CloneChildrenGrows(st: Copying, ids: seq<string>, pid: string, fuel: nat)
    requires InsertFromPreset.FreshFrom(st.blocks, st.nextId)
    requires CloneChildren(st, ids, pid, fuel).1.Ok?
    ensures Grew(st, CloneChildren(st, ids, pid, fuel).0)
    decreases fuel, 1, |ids|
  {
    if ids == [] {
      assert NewKeys(st, st) == {};
    } else if ids[0] !in st.blocks {
      CloneChildrenGrows(st, ids[1..], pid, fuel);
    } else {
      var childId := Ids.IdFor(st.nextId);
      var one := CloneTree(st.(nextId := st.nextId + 1), st.blocks[ids[0]], childId, Some(pid), fuel);
      CloneTreeGrows(st, st.blocks[ids[0]], Some(pid), fuel);
      CloneChildrenGrows(one.0, ids[1..], pid, fuel);
      GrewTrans(st, one.0, CloneChildren(one.0, ids[1..], pid, fuel).0);
    }
  }

  /** Every children list of `m` names only keys of `m`. */
  ghost predicate Closed(m: map<string, Block>)
  {
    forall q, x :: q in m && x in m[q].children ==> x in m
  }

  /** `c` is a copy of `b` under id `id` and parent `parent`, as a new object. */
  ghost predicate CopyOf(c: Block, b: Block, id: string, parent: Option<string>)
  {
    c == b.(id := id, parentId := parent, children := c.children, objectId := c.objectId)
  }

  /**
   * The ids `kids` copy the original children `ids` (records of `m0`)
   * below `pid`, in order, each copy's record in `blocks` under an id
   * from `drawn`, with its own children copying the original's, to depth
   * `fuel`. Ids that are not records of `m0` are skipped.
   */
  ghost predicate Copies(m0: map<string, Block>, blocks: map<string, Block>, ids: seq<string>, kids: seq<string>,
                         pid: string, drawn: set<string>, fuel: nat)
    decreases fuel, |ids|
  {
    if ids == [] then kids == []
    else if ids[0] !in m0 then Copies(m0, blocks, ids[1..], kids, pid, drawn, fuel)
    else
      && fuel > 0 && |kids| > 0 && kids[0] in drawn && kids[0] in blocks
      && CopyOf(blocks[kids[0]], m0[ids[0]], kids[0], Some(pid))
      && Copies(m0, blocks, m0[ids[0]].children, blocks[kids[0]].children, kids[0], drawn, fuel - 1)
      && Copies(m0, blocks, ids[1..], kids[1..], pid, drawn, fuel)
  }

  /** `Copies` looks only at the records under `drawn`, and a larger `drawn` does no harm. */
  lemma {:induction false} CopiesFrame(m0: map<string, Block>, b1: map<string, Block>, b2: map<string, Block>,
                                       ids: seq<string>, kids: seq<string>, pid: string,
                                       f1: set<string>, f2: set<string>, fuel: nat)
    requires Copies(m0, b1, ids, kids, pid, f1, fuel) && f1 <= f2
    requires forall k :: k in f1 && k in b1 ==> k in b2 && b2[k] == b1[k]
    ensures Copies(m0, b2, ids, kids, pid, f2, fuel)
    decreases fuel, |ids|
  {
    if ids != [] {
      if ids[0] !in m0 {
        CopiesFrame(m0, b1, b2, ids[1..], kids, pid, f1, f2, fuel);
      } else {
        CopiesFrame(m0, b1, b2, m0[ids[0]].children, b1[kids[0]].children, kids[0], f1, f2, fuel - 1);
        CopiesFrame(m0, b1, b2, ids[1..], kids[1..], pid, f1, f2, fuel);
      }
    }
  }

  /**
   * Copying a record of a closed map `m0` that the run's map still holds
   * unchanged gives a copy under the drawn id whose children copy the
   * original's, all under ids the run added.
   */
  lemma {:induction false} CloneTreeCopies(m0: map<string, Block>, st0: Copying, b: Block, parent: Option<string>,
                                           fuel: nat)
    requires Closed(m0) && (forall x :: x in b.children ==> x in m0)
    requires m0.Keys <= st0.blocks.Keys && forall k :: k in m0 ==> st0.blocks[k] == m0[k]
    requires InsertFromPreset.FreshFrom(st0.blocks, st0.nextId)
    requires CloneTree(st0.(nextId := st0.nextId + 1), b, Ids.IdFor(st0.nextId), parent, fuel).1.Ok?
    ensures var r := CloneTree(st0.(nextId := st0.nextId + 1), b, Ids.IdFor(st0.nextId), parent, fuel);
      && fuel > 0
      && CopyOf(r.1.value, b, Ids.IdFor(st0.nextId), parent)
      && Copies(m0, r.0.blocks, b.children, r.1.value.children, Ids.IdFor(st0.nextId), NewKeys(st0, r.0), fuel - 1)
    decreases fuel, 0
  {
    var newId := Ids.IdFor(st0.nextId);
    var st1 := st0.(nextId := st0.nextId + 1, nextObject := st0.nextObject + 1);
    var kids := CloneChildren(st1, b.children, newId, fuel - 1);
    var r := CloneTree(st0.(nextId := st0.nextId + 1), b, newId, parent, fuel);
    CloneTreeShape(st0, b, parent, fuel);
    CloneTreeKeys(st0, b, parent, fuel);
    CloneChildrenCopies(m0, st1, b.children, newId, fuel - 1);
    WriteKeepsOthers(kids.0.blocks, newId, r.1.value, r.0.blocks);
    CopiesFrame(m0, kids.0.blocks, r.0.blocks, b.children, kids.1.value, newId, NewKeys(st1, kids.0),
                NewKeys(st0, r.0), fuel - 1);
  }

  /** Writing a key the map does not have keeps every record it has. */
  lemma WriteKeepsOthers(kb: map<string, Block>, x: string, c: Block, rb: map<string, Block>)
    requires x !in kb && rb == kb[x := c]
    ensures forall k :: k in kb ==> k in rb && rb[k] == kb[k]
  {
  }

  /** The loop over the children of a record of a closed map copies them in order. */
  lemma {:induction false} CloneChildrenCopies(m0: map<string, Block>, st: Copying, ids: seq<string>, pid: string,
                                               fuel: nat)
    requires Closed(m0) && (forall x :: x in ids ==> x in m0)
    requires m0.Keys <= st.blocks.Keys && forall k :: k in m0 ==> st.blocks[k] == m0[k]
    requires InsertFromPreset.FreshFrom(st.blocks, st.nextId)
    requires CloneChildren(st, ids, pid, fuel).1.Ok?
    ensures var r := CloneChildren(st, ids, pid, fuel);
      Copies(m0, r.0.blocks, ids, r.1.value, pid, NewKeys(st, r.0), fuel)
    decreases fuel, 1, |ids|
  {
    if ids != [] {
      var childId := Ids.IdFor(st.nextId);
      var one := CloneTree(st.(nextId := st.nextId + 1), st.blocks[ids[0]], childId, Some(pid), fuel);
      CloneTreeGrows(st, m0[ids[0]], Some(pid), fuel);
      CloneTreeCopies(m0, st, m0[ids[0]], Some(pid), fuel);
      var rest := CloneChildren(one.0, ids[1..], pid, fuel);
      CloneChildrenGrows(one.0, ids[1..], pid, fuel);
      CloneChildrenCopies(m0, one.0, ids[1..], pid, fuel);
      ConsCopies(m0, st, one.0, rest.0, ids, childId, one.1.value, rest.1.value, pid, fuel);
    }
  }

  /** The step of `CloneChildrenCopies`: the first child's copy in front of the others'. */
  lemma ConsCopies(m0: map<string, Block>, st: Copying, mid: Copying, end: Copying, ids: seq<string>,
                   childId: string, c: Block, restKids: seq<string>, pid: string, fuel: nat)
    requires ids != [] && ids[0] in m0
    requires st.blocks.Keys <= mid.blocks.Keys
    requires Grew(mid, end)
    requires childId !in st.blocks && childId in mid.blocks && mid.blocks[childId] == c
    requires fuel > 0 && CopyOf(c, m0[ids[0]], childId, Some(pid))
    requires Copies(m0, mid.blocks, m0[ids[0]].children, c.children, childId, NewKeys(st, mid), fuel - 1)
    requires Copies(m0, end.blocks, ids[1..], restKids, pid, NewKeys(mid, end), fuel)
    ensures Copies(m0, end.blocks, ids, [childId] + restKids, pid, NewKeys(st, end), fuel)
  {
    CopiesFrame(m0, mid.blocks, end.blocks, m0[ids[0]].children, c.children, childId, NewKeys(st, mid),
                NewKeys(st, end), fuel - 1);
    CopiesFrame(m0, end.blocks, end.blocks, ids[1..], restKids, pid, NewKeys(mid, end), NewKeys(st, end), fuel);
    assert ([childId] + restKids)[1..] == restKids;
  }

  /** The number of records in the subtree of `b` in `m0`, to depth `fuel`. */
  function Nodes(m0: map<string, Block>, b: Block, fuel: nat): nat
    decreases fuel, 0
  {
    if fuel == 0 then 0 else 1 + NodesAll(m0, b.children, fuel - 1)
  }

  /** The number of records in the subtrees of the listed ids that `m0` holds. */
  function NodesAll(m0: map<string, Block>, ids: seq<string>, fuel: nat): nat
    decreases fuel, 1, |ids|
  {
    if ids == [] then 0
    else if ids[0] !in m0 then NodesAll(m0, ids[1..], fuel)
    else Nodes(m0, m0[ids[0]], fuel) + NodesAll(m0, ids[1..], fuel)
  }

  /** A completed copy draws one id per record of the original subtree. */
  lemma {:induction false} CloneTreeCount(m0: map<string, Block>, st0: Copying, b: Block, parent: Option<string>,
                                          fuel: nat)
    requires Closed(m0) && (forall x :: x in b.children ==> x in m0)
    requires m0.Keys <= st0.blocks.Keys && forall k :: k in m0 ==> st0.blocks[k] == m0[k]
    requires InsertFromPreset.FreshFrom(st0.blocks, st0.nextId)
    requires CloneTree(st0.(nextId := st0.nextId + 1), b, Ids.IdFor(st0.nextId), parent, fuel).1.Ok?
    ensures CloneTree(st0.(nextId := st0.nextId + 1), b, Ids.IdFor(st0.nextId), parent, fuel).0.nextId - st0.nextId
            == Nodes(m0, b, fuel)
    decreases fuel, 0
  {
    var st1 := st0.(nextId := st0.nextId + 1, nextObject := st0.nextObject + 1);
    CloneChildrenCount(m0, st1, b.children, Ids.IdFor(st0.nextId), fuel - 1);
  }

  /** The loop over the children draws one id per record below them. */
  lemma {:induction false} CloneChildrenCount(m0: map<string, Block>, st: Copying, ids: seq<string>, pid: string,
                                              fuel: nat)
    requires Closed(m0) && (forall x :: x in ids ==> x in m0)
    requires m0.Keys <= st.blocks.Keys && forall k :: k in m0 ==> st.blocks[k] == m0[k]
    requires InsertFromPreset.FreshFrom(st.blocks, st.nextId)
    requires CloneChildren(st, ids, pid, fuel).1.Ok?
    ensures CloneChildren(st, ids, pid, fuel).0.nextId - st.nextId == NodesAll(m0, ids, fuel)
    decreases fuel, 1, |ids|
  {
    if ids != [] {
      var one := CloneTree(st.(nextId := st.nextId + 1), st.blocks[ids[0]], Ids.IdFor(st.nextId), Some(pid), fuel);
      CloneTreeGrows(st, m0[ids[0]], Some(pid), fuel);
      CloneTreeCount(m0, st, m0[ids[0]], Some(pid), fuel);
      CloneChildrenCount(m0, one.0, ids[1..], pid, fuel);
    }
  }

  /**
   * Deleting a completed copy: on a map `M` that holds every record the
   * copy added, with the same children lists, `removeBlockAndChildren`
   * from the copy's id, with at least the depth the copy was made with,
   * deletes exactly those records and completes.
   */
  lemma {:induction false} CloneTreeRemoved(st0: Copying, b: Block, parent: Option<string>, fuel: nat,
                                            M: map<string, Block>, f: nat)
    requires InsertFromPreset.FreshFrom(st0.blocks, st0.nextId)
    requires CloneTree(st0.(nextId := st0.nextId + 1), b, Ids.IdFor(st0.nextId), parent, fuel).1.Ok?
    requires var r := CloneTree(st0.(nextId := st0.nextId + 1), b, Ids.IdFor(st0.nextId), parent, fuel);
      forall x :: x in NewKeys(st0, r.0) ==> x in M && M[x].children == r.0.blocks[x].children
    requires fuel <= f
    ensures var r := CloneTree(st0.(nextId := st0.nextId + 1), b, Ids.IdFor(st0.nextId), parent, fuel);
      RemoveTree(M, Ids.IdFor(st0.nextId), f) == (M - NewKeys(st0, r.0), true)
    decreases fuel, 0
  {
    var newId := Ids.IdFor(st0.nextId);
    var st1 := st0.(nextId := st0.nextId + 1, nextObject := st0.nextObject + 1);
    var kids := CloneChildren(st1, b.children, newId, fuel - 1);
    var r := CloneTree(st0.(nextId := st0.nextId + 1), b, newId, parent, fuel);
    CloneTreeShape(st0, b, parent, fuel);
    CloneTreeKeys(st0, b, parent, fuel);
    AgreeBelowRoot(M, kids.0.blocks, r.0.blocks, NewKeys(st1, kids.0), newId, r.1.value);
    assert f >= 1;
    CloneChildrenRemoved(st1, b.children, newId, fuel - 1, M, f - 1);
    assert newId in NewKeys(st0, r.0);
    assert M[newId].children == kids.1.value;
    RootRemoved(M, newId, kids.1.value, NewKeys(st1, kids.0), f);
  }

  /** A completed copy is its children's run with the root's record written last. */
  lemma CloneTreeShape(st0: Copying, b: Block, parent: Option<string>, fuel: nat)
    requires CloneTree(st0.(nextId := st0.nextId + 1), b, Ids.IdFor(st0.nextId), parent, fuel).1.Ok?
    ensures var st1 := st0.(nextId := st0.nextId + 1, nextObject := st0.nextObject + 1);
      var r := CloneTree(st0.(nextId := st0.nextId + 1), b, Ids.IdFor(st0.nextId), parent, fuel);
      var kids := CloneChildren(st1, b.children, Ids.IdFor(st0.nextId), fuel - 1);
      && fuel > 0 && kids.1.Ok?
      && r.0.blocks == kids.0.blocks[Ids.IdFor(st0.nextId) := r.1.value]
      && r.1.value.children == kids.1.value
  {
  }

  /** The keys a completed copy adds: its children's runs' and its own, which they do not use. */
  lemma CloneTreeKeys(st0: Copying, b: Block, parent: Option<string>, fuel: nat)
    requires InsertFromPreset.FreshFrom(st0.blocks, st0.nextId)
    requires CloneTree(st0.(nextId := st0.nextId + 1), b, Ids.IdFor(st0.nextId), parent, fuel).1.Ok?
    ensures var st1 := st0.(nextId := st0.nextId + 1, nextObject := st0.nextObject + 1);
      var r := CloneTree(st0.(nextId := st0.nextId + 1), b, Ids.IdFor(st0.nextId), parent, fuel);
      var kids := CloneChildren(st1, b.children, Ids.IdFor(st0.nextId), fuel - 1);
      && InsertFromPreset.FreshFrom(st1.blocks, st1.nextId)
      && Ids.IdFor(st0.nextId) !in kids.0.blocks
      && NewKeys(st0, r.0) == NewKeys(st1, kids.0) + {Ids.IdFor(st0.nextId)}
  {
    var st1 := st0.(nextId := st0.nextId + 1, nextObject := st0.nextObject + 1);
    var r := CloneTree(st0.(nextId := st0.nextId + 1), b, Ids.IdFor(st0.nextId), parent, fuel);
    var kids := CloneChildren(st1, b.children, Ids.IdFor(st0.nextId), fuel - 1);
    CloneTreeShape(st0, b, parent, fuel);
    CloneChildrenGrows(st1, b.children, Ids.IdFor(st0.nextId), fuel - 1);
    assert Ids.IdFor(st0.nextId) !in kids.0.blocks;
    KeysPlusOne(st0.blocks.Keys, kids.0.blocks.Keys, r.0.blocks.Keys, Ids.IdFor(st0.nextId));
  }

  /** A completed run over a non-empty list: the first subtree's run, then the rest's. */
  lemma CloneChildrenSplit(st: Copying, ids: seq<string>, pid: string, fuel: nat)
    requires InsertFromPreset.FreshFrom(st.blocks, st.nextId)
    requires ids != [] && ids[0] in st.blocks
    requires CloneChildren(st, ids, pid, fuel).1.Ok?
    ensures var one := CloneTree(st.(nextId := st.nextId + 1), st.blocks[ids[0]], Ids.IdFor(st.nextId), Some(pid), fuel);
      var rest := CloneChildren(one.0, ids[1..], pid, fuel);
      var r := CloneChildren(st, ids, pid, fuel);
      && one.1.Ok? && rest.1.Ok? && InsertFromPreset.FreshFrom(one.0.blocks, one.0.nextId)
      && r.0 == rest.0 && r.1.value == [Ids.IdFor(st.nextId)] + rest.1.value
      && NewKeys(st, one.0) <= one.0.blocks.Keys && NewKeys(one.0, rest.0) * one.0.blocks.Keys == {}
      && NewKeys(st, one.0) + NewKeys(one.0, rest.0) <= rest.0.blocks.Keys
      && (forall x :: x in one.0.blocks ==> x in rest.0.blocks && rest.0.blocks[x] == one.0.blocks[x])
      && NewKeys(st, rest.0) == NewKeys(st, one.0) + NewKeys(one.0, rest.0)
  {
    var one := CloneTree(st.(nextId := st.nextId + 1), st.blocks[ids[0]], Ids.IdFor(st.nextId), Some(pid), fuel);
    CloneTreeGrows(st, st.blocks[ids[0]], Some(pid), fuel);
    CloneChildrenGrows(one.0, ids[1..], pid, fuel);
  }

  /** The step of `CloneTreeRemoved`: the root goes after its children's subtrees. */
  lemma RootRemoved(M: map<string, Block>, root: string, kids: seq<string>, N: set<string>, f: nat)
    requires root in M && M[root].children == kids && f > 0
    requires RemoveAll(M, kids, f - 1) == (M - N, true)
    ensures RemoveTree(M, root, f) == (M - (N + {root}), true)
  {
    assert (M - N) - {root} == M - (N + {root});
  }

  /** Deleting the copies of a children list, one subtree after the other. */
  lemma {:induction false} CloneChildrenRemoved(st: Copying, ids: seq<string>, pid: string, fuel: nat,
                                                M: map<string, Block>, f: nat)
    requires InsertFromPreset.FreshFrom(st.blocks, st.nextId)
    requires CloneChildren(st, ids, pid, fuel).1.Ok?
    requires var r := CloneChildren(st, ids, pid, fuel);
      forall x :: x in NewKeys(st, r.0) ==> x in M && M[x].children == r.0.blocks[x].children
    requires fuel <= f
    ensures var r := CloneChildren(st, ids, pid, fuel);
      RemoveAll(M, r.1.value, f) == (M - NewKeys(st, r.0), true)
    decreases fuel, 1, |ids|
  {
    if ids == [] {
      assert M - NewKeys(st, st) == M;
    } else if ids[0] !in st.blocks {
      CloneChildrenRemoved(st, ids[1..], pid, fuel, M, f);
    } else {
      var childId := Ids.IdFor(st.nextId);
      var one := CloneTree(st.(nextId := st.nextId + 1), st.blocks[ids[0]], childId, Some(pid), fuel);
      var rest := CloneChildren(one.0, ids[1..], pid, fuel);
      CloneChildrenSplit(st, ids, pid, fuel);
      var N1 := NewKeys(st, one.0);
      var N2 := NewKeys(one.0, rest.0);
      AgreeOnFirst(M, one.0.blocks, rest.0.blocks, N1, N2);
      CloneTreeRemoved(st, st.blocks[ids[0]], Some(pid), fuel, M, f);
      AgreeOnRest(M, one.0.blocks, rest.0.blocks, N1, N2);
      CloneChildrenRemoved(one.0, ids[1..], pid, fuel, M - N1, f);
      var kids := [childId] + rest.1.value;
      assert kids[0] == childId && kids[1..] == rest.1.value;
      assert (M - N1) - N2 == M - NewKeys(st, rest.0);
    }
  }

  /** The records below the copy's root are those of its children's run. */
  lemma AgreeBelowRoot(M: map<string, Block>, kb: map<string, Block>, rb: map<string, Block>, N: set<string>,
                       root: string, c: Block)
    requires root !in kb && rb == kb[root := c] && N <= kb.Keys
    requires forall x :: x in N + {root} ==> x in M && M[x].children == rb[x].children
    ensures forall x :: x in N ==> x in M && M[x].children == kb[x].children
  {
  }

  /** What `M` holds for a whole run it holds for the run's first part. */
  lemma AgreeOnFirst(M: map<string, Block>, ob: map<string, Block>, rb: map<string, Block>,
                     N1: set<string>, N2: set<string>)
    requires N1 <= ob.Keys && N1 + N2 <= rb.Keys && forall x :: x in ob ==> x in rb && rb[x] == ob[x]
    requires forall x :: x in N1 + N2 ==> x in M && M[x].children == rb[x].children
    ensures forall x :: x in N1 ==> x in M && M[x].children == ob[x].children
  {
  }

  /** ... and, once the first part's records are deleted, for the rest. */
  lemma AgreeOnRest(M: map<string, Block>, ob: map<string, Block>, rb: map<string, Block>,
                    N1: set<string>, N2: set<string>)
    requires N1 <= ob.Keys && N2 * ob.Keys == {} && N1 + N2 <= rb.Keys
    requires forall x :: x in N1 + N2 ==> x in M && M[x].children == rb[x].children
    ensures forall x :: x in N2 ==> x in M - N1 && (M - N1)[x].children == rb[x].children
  {
    forall x | x in N2
      ensures x in M - N1 && (M - N1)[x].children == rb[x].children
    {
      assert x !in N2 * ob.Keys;
      assert x in N1 + N2 && x !in N1;
    }
  }

  /** A copy stops short only by reaching the depth bound. */
  lemma {:induction false} CloneTreeFails(st: Copying, b: Block, newId: string, parent: Option<string>, fuel: nat)
    ensures CloneTree(st, b, newId, parent, fuel).1.Err? ==> CloneTree(st, b, newId, parent, fuel).1.error == Diverges
    decreases fuel, 0
  {
    if fuel > 0 {
      CloneChildrenFails(st.(nextObject := st.nextObject + 1), b.children, newId, fuel - 1);
    }
  }

  /** The loop over the children stops short only by reaching the depth bound. */
  lemma {:induction false} CloneChildrenFails(st: Copying, ids: seq<string>, pid: string, fuel: nat)
    ensures CloneChildren(st, ids, pid, fuel).1.Err? ==> CloneChildren(st, ids, pid, fuel).1.error == Diverges
    decreases fuel, 1, |ids|
  {
    if ids != [] {
      if ids[0] !in st.blocks {
        CloneChildrenFails(st, ids[1..], pid, fuel);
      } else {
        var one := CloneTree(st.(nextId := st.nextId + 1), st.blocks[ids[0]], Ids.IdFor(st.nextId), Some(pid), fuel);
        CloneTreeFails(st.(nextId := st.nextId + 1), st.blocks[ids[0]], Ids.IdFor(st.nextId), Some(pid), fuel);
        if one.1.Ok? {
          CloneChildrenFails(one.0, ids[1..], pid, fuel);
        }
      }
    }
  }

  /** The copy `apply` makes of block `blockId`. */
  function Copy(p: PageData, nextId: nat, nextObject: nat, blockId: string): (Copying, Result<Block, Error>)
    requires blockId in p.blocks
  {
    CloneTree(Copying(p.blocks, nextId + 1, nextObject), p.blocks[blockId], Ids.IdFor(nextId),
              p.blocks[blockId].parentId, Depth(p.blocks))
  }

  /**
   * With a ranking of the original records, a copy whose depth is above
   * the ranks of the block's children completes: no child id leads back
   * into the subtree being copied.
   */
  lemma {:induction false} CloneTreeCompletes(m0: map<string, Block>, rank: map<string, nat>, st: Copying, b: Block,
                                              newId: string, parent: Option<string>, fuel: nat)
    requires RankedBy(m0, rank) && Closed(m0)
    requires m0.Keys <= st.blocks.Keys && forall k :: k in m0 ==> st.blocks[k] == m0[k]
    requires InsertFromPreset.FreshFrom(st.blocks, st.nextId)
    requires fuel > 0 && forall x :: x in b.children ==> x in m0 && rank[x] < fuel - 1
    ensures CloneTree(st, b, newId, parent, fuel).1.Ok?
    decreases fuel, 0
  {
    CloneChildrenCompletes(m0, rank, st.(nextObject := st.nextObject + 1), b.children, newId, fuel - 1);
  }

  /** The list case of `CloneTreeCompletes`, for children all ranked below `fuel`. */
  lemma {:induction false} CloneChildrenCompletes(m0: map<string, Block>, rank: map<string, nat>, st: Copying,
                                                  ids: seq<string>, pid: string, fuel: nat)
    requires RankedBy(m0, rank) && Closed(m0)
    requires m0.Keys <= st.blocks.Keys && forall k :: k in m0 ==> st.blocks[k] == m0[k]
    requires InsertFromPreset.FreshFrom(st.blocks, st.nextId)
    requires forall x :: x in ids ==> x in m0 && rank[x] < fuel
    ensures CloneChildren(st, ids, pid, fuel).1.Ok?
    decreases fuel, 1, |ids|
  {
    if ids != [] {
      var x := ids[0];
      var st1 := st.(nextId := st.nextId + 1);
      assert st.blocks[x] == m0[x];
      CloneTreeCompletes(m0, rank, st1, m0[x], Ids.IdFor(st.nextId), Some(pid), fuel);
      var one := CloneTree(st1, m0[x], Ids.IdFor(st.nextId), Some(pid), fuel);
      CloneTreeGrows(st, m0[x], Some(pid), fuel);
      CloneChildrenCompletes(m0, rank, one.0, ids[1..], pid, fuel);
    }
  }

  /**
   * Duplicating a block of a page without cycles whose children lists name
   * only its records, with the generator's ids unused, completes.
   */
  lemma CopyCompletes(p: PageData, nextId: nat, nextObject: nat, blockId: string)
    requires Acyclic(p.blocks) && Closed(p.blocks) && blockId in p.blocks
    requires InsertFromPreset.FreshFrom(p.blocks, nextId)
    ensures Copy(p, nextId, nextObject, blockId).1.Ok?
  {
    var rank :| RankedBy(p.blocks, rank);
    var st := Copying(p.blocks, nextId + 1, nextObject);
    CloneTreeCompletes(p.blocks, rank, st, p.blocks[blockId], Ids.IdFor(nextId), p.blocks[blockId].parentId,
                       Depth(p.blocks));
  }

  /** A well-formed page's children lists name only its records. */
  lemma WellFormedClosed(p: PageData)
    requires WellFormed(p)
    ensures Closed(p.blocks)
  {
    forall q, x | q in p.blocks && x in p.blocks[q].children
      ensures x in p.blocks
    {
      assert x in p.blocks && p.blocks[x].parentId == Some(q);
    }
  }

  /**
   * What locating the copy needs of the original: a parent it names is a
   * record listing it, and a block without a parent is listed by a region.
   */
  ghost predicate Placeable(p: PageData, blockId: string)
  {
    && blockId in p.blocks
    && (p.blocks[blockId].parentId.Some? ==>
          var q := p.blocks[blockId].parentId.value;
          q != "" && q in p.blocks && blockId in p.blocks[q].children)
    && (p.blocks[blockId].parentId.None? ==> RegionWith(p.regions, blockId).Some?)
  }

  /** Every block of a well-formed page can be located. */
  lemma WellFormedPlaceable(p: PageData, blockId: string)
    requires WellFormed(p) && blockId in p.blocks
    ensures Placeable(p, blockId)
  {
    if p.blocks[blockId].parentId.None? {
      var i :| 0 <= i < |p.regions| && blockId in p.regions[i].blocks;
    }
  }

  /**
   * A completed copy of a record of a map whose children lists name only
   * its records, with the remaining ids unused, keeps every record, adds
   * one record per record of the original subtree under ids it draws, the
   * copy's root among them, and each added record copies its original
   * under the copy of the original's parent.
   */
  lemma CopyRecords(p: PageData, nextId: nat, nextObject: nat, blockId: string)
    requires Closed(p.blocks) && blockId in p.blocks && InsertFromPreset.FreshFrom(p.blocks, nextId)
    requires Copy(p, nextId, nextObject, blockId).1.Ok?
    ensures var c := Copy(p, nextId, nextObject, blockId);
      var d := Ids.IdFor(nextId);
      var orig := p.blocks[blockId];
      var N := c.0.blocks.Keys - p.blocks.Keys;
      && d in N && c.0.blocks.Keys == p.blocks.Keys + N
      && (forall k :: k in p.blocks ==> c.0.blocks[k] == p.blocks[k])
      && c.0.blocks[d] == c.1.value && CopyOf(c.1.value, orig, d, orig.parentId)
      && Copies(p.blocks, c.0.blocks, orig.children, c.1.value.children, d, N, Depth(p.blocks) - 1)
      && |N| == Nodes(p.blocks, orig, Depth(p.blocks)) == c.0.nextId - nextId
      && InsertFromPreset.FreshFrom(c.0.blocks, c.0.nextId)
  {
    var st0 := Copying(p.blocks, nextId, nextObject);
    var orig := p.blocks[blockId];
    assert st0.(nextId := st0.nextId + 1) == Copying(p.blocks, nextId + 1, nextObject);
    CloneTreeGrows(st0, orig, orig.parentId, Depth(p.blocks));
    CloneTreeCopies(p.blocks, st0, orig, orig.parentId, Depth(p.blocks));
    CloneTreeCount(p.blocks, st0, orig, orig.parentId, Depth(p.blocks));
  }

  /**
   * Where `determineInsertLocation` puts the copy of a block that can be
   * located (records added since do not matter): right after the original
   * in its parent's children, or right after it in the first region
   * listing it.
   */
  lemma LocatedOnPage(p: PageData, B: map<string, Block>, blockId: string, s: DupState)
    requires Placeable(p, blockId)
    requires p.blocks.Keys <= B.Keys && forall k :: k in p.blocks ==> B[k] == p.blocks[k]
    ensures var loc := Located(PageData(B, p.regions), blockId, s);
      var orig := p.blocks[blockId];
      && loc.1.None?
      && (orig.parentId.Some? ==>
            var q := orig.parentId.value;
            loc.0 == s.(parentId := Some(q), insertIndex := Some(IndexOf(p.blocks[q].children, blockId) + 1)))
      && (orig.parentId.None? ==>
            var r := RegionWith(p.regions, blockId).value;
            loc.0 == s.(parentId := None, regionId := Some(p.regions[r].name),
                        insertIndex := Some(IndexOf(p.regions[r].blocks, blockId) + 1)))
  {
  }

  /** A map whose keys include another's has at least as many entries. */
  lemma SizeGrows(a: map<string, Block>, b: map<string, Block>)
    requires a.Keys <= b.Keys
    ensures |a| <= |b|
  {
    assert |a| == |a.Keys| && |b| == |b.Keys|;
    assert b.Keys == a.Keys + (b.Keys - a.Keys);
  }

  /**
   * `apply` on a block it finds, once the copy completes and the copy's id
   * can be placed: the placed page, the counters the copy left, and the
   * event naming the location.
   */
  lemma AppliedWhenPlaced(p: PageData, nextId: nat, nextObject: nat, blockId: string, s: DupState)
    requires blockId in p.blocks && Copy(p, nextId, nextObject, blockId).1.Ok?
    requires var c := Copy(p, nextId, nextObject, blockId);
      var d := Ids.IdFor(nextId);
      var loc := Located(PageData(c.0.blocks, p.regions), blockId,
                         s.(duplicatedBlockId := Some(d), duplicatedBlock := Some(c.1.value)));
      loc.1.None? && Placed(PageData(c.0.blocks, p.regions), d, loc.0).Ok?
    ensures var c := Copy(p, nextId, nextObject, blockId);
      var d := Ids.IdFor(nextId);
      var p1 := PageData(c.0.blocks, p.regions);
      var loc := Located(p1, blockId, s.(duplicatedBlockId := Some(d), duplicatedBlock := Some(c.1.value)));
      DuplicateApplied(p, nextId, nextObject, blockId, s) ==
        Outcome(Placed(p1, d, loc.0).value, c.0.nextId, c.0.nextObject, loc.0,
                Ok(BlockDuplicated(blockId, d, c.1.value, loc.0.parentId, At(loc.0.insertIndex),
                                   if Given(loc.0.regionId) then loc.0.regionId else None)))
  {
    assert p.(blocks := Copy(p, nextId, nextObject, blockId).0.blocks) ==
           PageData(Copy(p, nextId, nextObject, blockId).0.blocks, p.regions);
  }

  /** Under a parent, the copy's id goes right after the original in the parent's children. */
  lemma PlacedUnderParent(p: PageData, B: map<string, Block>, blockId: string, d: string, s: DupState)
    requires Placeable(p, blockId) && p.blocks[blockId].parentId.Some?
    requires p.blocks.Keys <= B.Keys && forall k :: k in p.blocks ==> B[k] == p.blocks[k]
    ensures var q := p.blocks[blockId].parentId.value;
      var i := IndexOf(p.blocks[q].children, blockId) + 1;
      var loc := Located(PageData(B, p.regions), blockId, s);
      && loc.1.None? && loc.0 == s.(parentId := Some(q), insertIndex := Some(i))
      && Placed(PageData(B, p.regions), d, loc.0) ==
           Ok(PageData(WithChildren(B, q, SpliceInsert(p.blocks[q].children, i, d)), p.regions))
  {
    LocatedOnPage(p, B, blockId, s);
  }

  /** At the top level, the copy's id goes right after the original in the region listing it. */
  lemma PlacedInRegion(p: PageData, B: map<string, Block>, blockId: string, d: string, s: DupState)
    requires Placeable(p, blockId) && p.blocks[blockId].parentId.None?
    requires var r := RegionWith(p.regions, blockId).value; FindRegion(p.regions, p.regions[r].name) == Some(r)
    requires p.blocks.Keys <= B.Keys && forall k :: k in p.blocks ==> B[k] == p.blocks[k]
    ensures var r := RegionWith(p.regions, blockId).value;
      var i := IndexOf(p.regions[r].blocks, blockId) + 1;
      var loc := Located(PageData(B, p.regions), blockId, s);
      && loc.1.None? && loc.0 == s.(parentId := None, regionId := Some(p.regions[r].name), insertIndex := Some(i))
      && Placed(PageData(B, p.regions), d, loc.0) ==
           Ok(PageData(B, WithRegionBlocks(p.regions, r, SpliceInsert(p.regions[r].blocks, i, d))))
  {
    LocatedOnPage(p, B, blockId, s);
  }

  /**
   * On a well-formed page whose ids not yet drawn are unused, an `apply`
   * whose copy completes succeeds and records the copy's id and the copy.
   * It keeps every record but the parent's. It adds one record per record
   * of the original's subtree, under ids it draws, so the counter moves
   * past the copy's id: the copy of the original under that id, with the
   * original's fields and parent, and below it copies of the original's
   * descendants.
   */
  lemma DuplicateCopies(p: PageData, nextId: nat, nextObject: nat, blockId: string, s: DupState)
    requires WellFormed(p) && blockId in p.blocks && InsertFromPreset.FreshFrom(p.blocks, nextId)
    requires Copy(p, nextId, nextObject, blockId).1.Ok?
    ensures var o := DuplicateApplied(p, nextId, nextObject, blockId, s);
      var d := Ids.IdFor(nextId);
      var orig := p.blocks[blockId];
      var N := o.page.blocks.Keys - p.blocks.Keys;
      && o.result.Ok? && o.state.duplicatedBlockId == Some(d)
      && d in N && o.page.blocks.Keys == p.blocks.Keys + N
      && |N| == Nodes(p.blocks, orig, Depth(p.blocks)) == o.nextId - nextId
      && (forall k :: k in p.blocks && Some(k) != orig.parentId ==> o.page.blocks[k] == p.blocks[k])
      && o.state.duplicatedBlock == Some(o.page.blocks[d]) && CopyOf(o.page.blocks[d], orig, d, orig.parentId)
      && Copies(p.blocks, o.page.blocks, orig.children, o.page.blocks[d].children, d, N, Depth(p.blocks) - 1)
      && InsertFromPreset.FreshFrom(o.page.blocks, o.nextId)
  {
    WellFormedClosed(p);
    WellFormedPlaceable(p, blockId);
    CopyRecords(p, nextId, nextObject, blockId);
    var c := Copy(p, nextId, nextObject, blockId);
    var d := Ids.IdFor(nextId);
    var s2 := s.(duplicatedBlockId := Some(d), duplicatedBlock := Some(c.1.value));
    if p.blocks[blockId].parentId.Some? {
      var q := p.blocks[blockId].parentId.value;
      PlacedUnderParent(p, c.0.blocks, blockId, d, s2);
      AppliedWhenPlaced(p, nextId, nextObject, blockId, s);
      var M := DuplicateApplied(p, nextId, nextObject, blockId, s).page.blocks;
      var N := c.0.blocks.Keys - p.blocks.Keys;
      ParentTouched(p.blocks, c.0.blocks, q, M[q], M);
      CopiesAfterTouch(p.blocks, c.0.blocks, M, p.blocks[blockId].children, c.1.value.children, d, N,
                       Depth(p.blocks) - 1);
      FreshSameKeys(c.0.blocks, M, c.0.nextId);
    } else {
      DistinctNamesFind(p.regions, RegionWith(p.regions, blockId).value);
      PlacedInRegion(p, c.0.blocks, blockId, d, s2);
      AppliedWhenPlaced(p, nextId, nextObject, blockId, s);
    }
  }

  /** Rewriting the parent's record keeps the keys and every other record. */
  lemma ParentTouched(P: map<string, Block>, B: map<string, Block>, q: string, x: Block, M: map<string, Block>)
    requires q in P && P.Keys <= B.Keys && (forall k :: k in P ==> B[k] == P[k])
    requires M == B[q := x]
    ensures M.Keys == B.Keys
    ensures forall k :: k in P && k != q ==> M[k] == P[k]
    ensures forall k :: k in B && k !in P ==> M[k] == B[k]
  {
  }

  /** Rewriting a record that is not one of the copies leaves the copies as they were. */
  lemma CopiesAfterTouch(m0: map<string, Block>, B: map<string, Block>, M: map<string, Block>,
                         ids: seq<string>, kids: seq<string>, pid: string, N: set<string>, fuel: nat)
    requires Copies(m0, B, ids, kids, pid, N, fuel)
    requires forall k :: k in B && k in N ==> k in M && M[k] == B[k]
    ensures Copies(m0, M, ids, kids, pid, N, fuel)
  {
    CopiesFrame(m0, B, M, ids, kids, pid, N, N, fuel);
  }

  /** Freshness depends on the keys alone. */
  lemma FreshSameKeys(B: map<string, Block>, M: map<string, Block>, n: nat)
    requires InsertFromPreset.FreshFrom(B, n) && M.Keys == B.Keys
    ensures InsertFromPreset.FreshFrom(M, n)
  {
    forall k: nat | n <= k ensures Ids.IdFor(k) !in M {
      assert Ids.IdFor(k) !in B;
    }
  }

  /** What placing the copy needs of a completed copy: the old records kept, the root's record added. */
  lemma CopyKeeps(p: PageData, nextId: nat, nextObject: nat, blockId: string)
    requires Closed(p.blocks) && blockId in p.blocks && InsertFromPreset.FreshFrom(p.blocks, nextId)
    requires Copy(p, nextId, nextObject, blockId).1.Ok?
    ensures var c := Copy(p, nextId, nextObject, blockId);
      && p.blocks.Keys <= c.0.blocks.Keys && (forall k :: k in p.blocks ==> c.0.blocks[k] == p.blocks[k])
      && Ids.IdFor(nextId) in c.0.blocks && c.0.blocks[Ids.IdFor(nextId)] == c.1.value
  {
    CopyRecords(p, nextId, nextObject, blockId);
  }

  /**
   * On a well-formed page without cycles, with the generator's ids unused,
   * `apply` on a block it finds succeeds and adds exactly the subtree's
   * worth of records under fresh ids, the copy's root among them.
   */
  lemma DuplicateSucceeds(p: PageData, nextId: nat, nextObject: nat, blockId: string, s: DupState)
    requires WellFormed(p) && Acyclic(p.blocks) && blockId in p.blocks
    requires InsertFromPreset.FreshFrom(p.blocks, nextId)
    ensures var o := DuplicateApplied(p, nextId, nextObject, blockId, s);
      var N := o.page.blocks.Keys - p.blocks.Keys;
      && o.result.Ok? && o.state.duplicatedBlockId == Some(Ids.IdFor(nextId))
      && Ids.IdFor(nextId) in N && |N| == Nodes(p.blocks, p.blocks[blockId], Depth(p.blocks))
  {
    WellFormedClosed(p);
    CopyCompletes(p, nextId, nextObject, blockId);
    DuplicateCopies(p, nextId, nextObject, blockId, s);
  }

  /**
   * On the same pages, the copy's id is placed right after the original:
   * in the parent's children when the original has a parent, otherwise in
   * the first region listing it. The event names that parent and index;
   * under a parent, its region is the one recorded by an earlier run.
   */
  lemma DuplicatePlacement(p: PageData, nextId: nat, nextObject: nat, blockId: string, s: DupState)
    requires WellFormed(p) && blockId in p.blocks && InsertFromPreset.FreshFrom(p.blocks, nextId)
    requires Copy(p, nextId, nextObject, blockId).1.Ok?
    ensures var o := DuplicateApplied(p, nextId, nextObject, blockId, s);
      var d := Ids.IdFor(nextId);
      var orig := p.blocks[blockId];
      && (orig.parentId.Some? ==>
            var q := orig.parentId.value;
            var i := IndexOf(p.blocks[q].children, blockId) + 1;
            && q in o.page.blocks && d in o.page.blocks
            && o.page.regions == p.regions
            && o.page.blocks[q] == p.blocks[q].(children := SpliceInsert(p.blocks[q].children, i, d))
            && o.state.parentId == Some(q) && o.state.insertIndex == Some(i)
            && o.result == Ok(BlockDuplicated(blockId, d, o.page.blocks[d], Some(q), i,
                                              if Given(s.regionId) then s.regionId else None)))
      && (orig.parentId.None? ==>
            var r := RegionWith(p.regions, blockId).value;
            var i := IndexOf(p.regions[r].blocks, blockId) + 1;
            var name := p.regions[r].name;
            && d in o.page.blocks
            && o.page.regions == WithRegionBlocks(p.regions, r, SpliceInsert(p.regions[r].blocks, i, d))
            && o.state.parentId == None && o.state.insertIndex == Some(i) && o.state.regionId == Some(name)
            && o.result == Ok(BlockDuplicated(blockId, d, o.page.blocks[d], None, i,
                                              if name != "" then Some(name) else None)))
  {
    if p.blocks[blockId].parentId.Some? {
      PlacementUnderParent(p, nextId, nextObject, blockId, s);
    } else {
      PlacementInRegion(p, nextId, nextObject, blockId, s);
    }
  }

  /** The parent case of `DuplicatePlacement`. */
  lemma PlacementUnderParent(p: PageData, nextId: nat, nextObject: nat, blockId: string, s: DupState)
    requires WellFormed(p) && blockId in p.blocks && InsertFromPreset.FreshFrom(p.blocks, nextId)
    requires Copy(p, nextId, nextObject, blockId).1.Ok? && p.blocks[blockId].parentId.Some?
    ensures var o := DuplicateApplied(p, nextId, nextObject, blockId, s);
      var d := Ids.IdFor(nextId);
      var q := p.blocks[blockId].parentId.value;
      var i := IndexOf(p.blocks[q].children, blockId) + 1;
      && q in o.page.blocks && d in o.page.blocks
      && o.page.regions == p.regions
      && o.page.blocks[q] == p.blocks[q].(children := SpliceInsert(p.blocks[q].children, i, d))
      && o.state.parentId == Some(q) && o.state.insertIndex == Some(i)
      && o.result == Ok(BlockDuplicated(blockId, d, o.page.blocks[d], Some(q), i,
                                        if Given(s.regionId) then s.regionId else None))
  {
    WellFormedClosed(p);
    WellFormedPlaceable(p, blockId);
    CopyKeeps(p, nextId, nextObject, blockId);
    var c := Copy(p, nextId, nextObject, blockId);
    var d := Ids.IdFor(nextId);
    PlacedUnderParent(p, c.0.blocks, blockId, d, s.(duplicatedBlockId := Some(d), duplicatedBlock := Some(c.1.value)));
    AppliedWhenPlaced(p, nextId, nextObject, blockId, s);
  }

  /** The region case of `DuplicatePlacement`. */
  lemma PlacementInRegion(p: PageData, nextId: nat, nextObject: nat, blockId: string, s: DupState)
    requires WellFormed(p) && blockId in p.blocks && InsertFromPreset.FreshFrom(p.blocks, nextId)
    requires Copy(p, nextId, nextObject, blockId).1.Ok? && p.blocks[blockId].parentId.None?
    ensures var o := DuplicateApplied(p, nextId, nextObject, blockId, s);
      var d := Ids.IdFor(nextId);
      var r := RegionWith(p.regions, blockId).value;
      var i := IndexOf(p.regions[r].blocks, blockId) + 1;
      var name := p.regions[r].name;
      && d in o.page.blocks
      && o.page.regions == WithRegionBlocks(p.regions, r, SpliceInsert(p.regions[r].blocks, i, d))
      && o.state.parentId == None && o.state.insertIndex == Some(i) && o.state.regionId == Some(name)
      && o.result == Ok(BlockDuplicated(blockId, d, o.page.blocks[d], None, i,
                                        if name != "" then Some(name) else None))
  {
    WellFormedClosed(p);
    WellFormedPlaceable(p, blockId);
    CopyKeeps(p, nextId, nextObject, blockId);
    var c := Copy(p, nextId, nextObject, blockId);
    var d := Ids.IdFor(nextId);
    DistinctNamesFind(p.regions, RegionWith(p.regions, blockId).value);
    PlacedInRegion(p, c.0.blocks, blockId, d, s.(duplicatedBlockId := Some(d), duplicatedBlock := Some(c.1.value)));
    AppliedWhenPlaced(p, nextId, nextObject, blockId, s);
  }

  /**
   * `removeBlockAndChildren` from the copy's id, on a map holding the
   * copy's records as the copy left them, deletes exactly those records.
   */
  lemma CopyRemoved(p: PageData, nextId: nat, nextObject: nat, blockId: string, M: map<string, Block>)
    requires Closed(p.blocks) && blockId in p.blocks && InsertFromPreset.FreshFrom(p.blocks, nextId)
    requires Copy(p, nextId, nextObject, blockId).1.Ok?
    requires var c := Copy(p, nextId, nextObject, blockId);
      M.Keys == c.0.blocks.Keys && forall x :: x in c.0.blocks && x !in p.blocks ==> M[x] == c.0.blocks[x]
    ensures var c := Copy(p, nextId, nextObject, blockId);
      RemoveTree(M, Ids.IdFor(nextId), Depth(M)) == (M - (c.0.blocks.Keys - p.blocks.Keys), true)
  {
    var st0 := Copying(p.blocks, nextId, nextObject);
    var orig := p.blocks[blockId];
    assert st0.(nextId := st0.nextId + 1) == Copying(p.blocks, nextId + 1, nextObject);
    CopyKeeps(p, nextId, nextObject, blockId);
    SizeGrows(p.blocks, M);
    CloneTreeRemoved(st0, orig, orig.parentId, Depth(p.blocks), M, Depth(M));
  }

  /** Splicing the copy's id out of the parent's children, once its records are gone, restores the map. */
  lemma ParentRestored(P: map<string, Block>, B: map<string, Block>, q: string, d: string, i: nat,
                       M: map<string, Block>, m: map<string, Block>)
    requires q in P && P.Keys <= B.Keys && (forall k :: k in P ==> B[k] == P[k])
    requires d !in P[q].children && i <= |P[q].children|
    requires M == B[q := P[q].(children := SpliceInsert(P[q].children, i, d))]
    requires m == M - (B.Keys - P.Keys)
    ensures q in m && IndexOf(m[q].children, d) == i
    ensures WithChildren(m, q, SpliceRemove(m[q].children, i)) == P
  {
    var ch := P[q].children;
    var x := SpliceInsert(ch, i, d);
    assert x[i] == d && x[..i] == ch[..i];
    IndexOfUnique(x, d, i);
    RemoveUndoesInsert(ch, i, d);
    var back := WithChildren(m, q, SpliceRemove(m[q].children, i));
    assert back.Keys == P.Keys;
    assert forall k :: k in P ==> back[k] == P[k];
  }

  /** Splicing the copy's id out of its region restores the region list. */
  lemma RegionRestored(R: seq<Region>, r: nat, d: string, i: nat, R2: seq<Region>)
    requires r < |R| && d !in R[r].blocks && i <= |R[r].blocks|
    requires R2 == WithRegionBlocks(R, r, SpliceInsert(R[r].blocks, i, d))
    ensures IndexOf(R2[r].blocks, d) == i
    ensures WithRegionBlocks(R2, r, SpliceRemove(R2[r].blocks, i)) == R
  {
    var x := SpliceInsert(R[r].blocks, i, d);
    assert x[i] == d && x[..i] == R[r].blocks[..i];
    IndexOfUnique(x, d, i);
    RemoveUndoesInsert(R[r].blocks, i, d);
  }

  /**
   * On a well-formed page whose ids not yet drawn are unused, `apply`
   * whose copy completes, then `revert`, gives back the very same page.
   */
  lemma DuplicateRoundTrip(p: PageData, nextId: nat, nextObject: nat, blockId: string, s: DupState)
    requires WellFormed(p) && blockId in p.blocks && InsertFromPreset.FreshFrom(p.blocks, nextId)
    requires Copy(p, nextId, nextObject, blockId).1.Ok?
    ensures var o := DuplicateApplied(p, nextId, nextObject, blockId, s);
      o.result.Ok? && DuplicateReverted(o.page, o.state) == (p, Ok(()))
  {
    WellFormedClosed(p);
    WellFormedPlaceable(p, blockId);
    DrawnUnlisted(p, nextId);
    if p.blocks[blockId].parentId.Some? {
      var q := p.blocks[blockId].parentId.value;
      RoundTripUnderParent(p, nextId, nextObject, blockId, s);
    } else {
      DistinctNamesFind(p.regions, RegionWith(p.regions, blockId).value);
      RoundTripInRegion(p, nextId, nextObject, blockId, s);
    }
  }

  /** `revert` after a copy placed under parent `q` at `i`, once its records delete cleanly. */
  lemma RevertedUnderParent(P: PageData, st: DupState, p: PageData, d: string, q: string, i: nat, N: set<string>)
    requires st.duplicatedBlock.Some? && st.duplicatedBlockId == Some(d) && d != ""
    requires st.parentId == Some(q) && q != ""
    requires RemoveTree(P.blocks, d, Depth(P.blocks)) == (P.blocks - N, true)
    requires q in P.blocks - N && IndexOf((P.blocks - N)[q].children, d) == i
    requires WithChildren(P.blocks - N, q, SpliceRemove((P.blocks - N)[q].children, i)) == p.blocks
    requires P.regions == p.regions
    ensures DuplicateReverted(P, st) == (p, Ok(()))
  {
  }

  /** `revert` after a copy placed in region `r` at `i`, once its records delete cleanly. */
  lemma RevertedInRegion(P: PageData, st: DupState, p: PageData, d: string, r: nat, i: nat, N: set<string>)
    requires st.duplicatedBlock.Some? && st.duplicatedBlockId == Some(d) && d != ""
    requires st.parentId.None? && r < |P.regions| && st.regionId == Some(P.regions[r].name)
    requires FindRegion(P.regions, P.regions[r].name) == Some(r)
    requires RemoveTree(P.blocks, d, Depth(P.blocks)) == (P.blocks - N, true) && P.blocks - N == p.blocks
    requires IndexOf(P.regions[r].blocks, d) == i
    requires WithRegionBlocks(P.regions, r, SpliceRemove(P.regions[r].blocks, i)) == p.regions
    ensures DuplicateReverted(P, st) == (p, Ok(()))
  {
  }

  /** The copy's id is on no list of the page it is drawn for. */
  lemma DrawnUnlisted(p: PageData, nextId: nat)
    requires WellFormed(p) && InsertFromPreset.FreshFrom(p.blocks, nextId)
    ensures Ids.IdFor(nextId) !in p.blocks
    ensures forall q :: q in p.blocks ==> Ids.IdFor(nextId) !in p.blocks[q].children
    ensures forall r :: 0 <= r < |p.regions| ==> Ids.IdFor(nextId) !in p.regions[r].blocks
  {
    WellFormedClosed(p);
    ListedInRegions(p);
  }

  /** A well-formed page's regions list only its records. */
  lemma ListedInRegions(p: PageData)
    requires WellFormed(p)
    ensures forall r, x :: 0 <= r < |p.regions| && x in p.regions[r].blocks ==> x in p.blocks
  {
    forall r, x | 0 <= r < |p.regions| && x in p.regions[r].blocks
      ensures x in p.blocks
    {
      assert x in p.blocks && p.blocks[x].parentId.None?;
    }
  }

  /** Deleting the keys a map gained gives back the map it grew from. */
  lemma DropAdded(P: map<string, Block>, B: map<string, Block>)
    requires P.Keys <= B.Keys && forall k :: k in P ==> B[k] == P[k]
    ensures B - (B.Keys - P.Keys) == P
  {
  }

  /** The parent case of `DuplicateRoundTrip`. */
  lemma RoundTripUnderParent(p: PageData, nextId: nat, nextObject: nat, blockId: string, s: DupState)
    requires Closed(p.blocks) && Placeable(p, blockId) && InsertFromPreset.FreshFrom(p.blocks, nextId)
    requires Copy(p, nextId, nextObject, blockId).1.Ok? && p.blocks[blockId].parentId.Some?
    requires Ids.IdFor(nextId) !in p.blocks[p.blocks[blockId].parentId.value].children
    ensures var o := DuplicateApplied(p, nextId, nextObject, blockId, s);
      o.result.Ok? && DuplicateReverted(o.page, o.state) == (p, Ok(()))
  {
    CopyKeeps(p, nextId, nextObject, blockId);
    var c := Copy(p, nextId, nextObject, blockId);
    var d := Ids.IdFor(nextId);
    var q := p.blocks[blockId].parentId.value;
    var i := IndexOf(p.blocks[q].children, blockId) + 1;
    var x := SpliceInsert(p.blocks[q].children, i, d);
    var s2 := s.(duplicatedBlockId := Some(d), duplicatedBlock := Some(c.1.value));
    PlacedUnderParent(p, c.0.blocks, blockId, d, s2);
    AppliedWhenPlaced(p, nextId, nextObject, blockId, s);
    var M := WithChildren(c.0.blocks, q, x);
    var N := c.0.blocks.Keys - p.blocks.Keys;
    ParentTouched(p.blocks, c.0.blocks, q, M[q], M);
    CopyRemoved(p, nextId, nextObject, blockId, M);
    ParentRestored(p.blocks, c.0.blocks, q, d, i, M, M - N);
    RevertedUnderParent(PageData(M, p.regions), s2.(parentId := Some(q), insertIndex := Some(i)), p, d, q, i, N);
  }

  /** The region case of `DuplicateRoundTrip`. */
  lemma RoundTripInRegion(p: PageData, nextId: nat, nextObject: nat, blockId: string, s: DupState)
    requires Closed(p.blocks) && Placeable(p, blockId) && InsertFromPreset.FreshFrom(p.blocks, nextId)
    requires Copy(p, nextId, nextObject, blockId).1.Ok? && p.blocks[blockId].parentId.None?
    requires var r := RegionWith(p.regions, blockId).value;
      FindRegion(p.regions, p.regions[r].name) == Some(r) && Ids.IdFor(nextId) !in p.regions[r].blocks
    ensures var o := DuplicateApplied(p, nextId, nextObject, blockId, s);
      o.result.Ok? && DuplicateReverted(o.page, o.state) == (p, Ok(()))
  {
    var c := Copy(p, nextId, nextObject, blockId);
    var d := Ids.IdFor(nextId);
    var r := RegionWith(p.regions, blockId).value;
    var i := IndexOf(p.regions[r].blocks, blockId) + 1;
    RegionOutcome(p, nextId, nextObject, blockId, s);
    CopyKeeps(p, nextId, nextObject, blockId);
    CopyRemoved(p, nextId, nextObject, blockId, c.0.blocks);
    var o := DuplicateApplied(p, nextId, nextObject, blockId, s);
    RegionCaseUndone(p, c.0.blocks, o.page.regions, o.state, d, r, i);
  }

  /** The page and fields `apply` leaves in the region case. */
  lemma RegionOutcome(p: PageData, nextId: nat, nextObject: nat, blockId: string, s: DupState)
    requires Closed(p.blocks) && Placeable(p, blockId) && InsertFromPreset.FreshFrom(p.blocks, nextId)
    requires Copy(p, nextId, nextObject, blockId).1.Ok? && p.blocks[blockId].parentId.None?
    requires var r := RegionWith(p.regions, blockId).value; FindRegion(p.regions, p.regions[r].name) == Some(r)
    ensures var o := DuplicateApplied(p, nextId, nextObject, blockId, s);
      var d := Ids.IdFor(nextId);
      var r := RegionWith(p.regions, blockId).value;
      var i := IndexOf(p.regions[r].blocks, blockId) + 1;
      && o.result.Ok?
      && o.page == PageData(Copy(p, nextId, nextObject, blockId).0.blocks,
                            WithRegionBlocks(p.regions, r, SpliceInsert(p.regions[r].blocks, i, d)))
      && o.state.duplicatedBlock.Some? && o.state.duplicatedBlockId == Some(d)
      && o.state.parentId.None? && o.state.regionId == Some(p.regions[r].name)
  {
    CopyKeeps(p, nextId, nextObject, blockId);
    var c := Copy(p, nextId, nextObject, blockId);
    var d := Ids.IdFor(nextId);
    PlacedInRegion(p, c.0.blocks, blockId, d, s.(duplicatedBlockId := Some(d), duplicatedBlock := Some(c.1.value)));
    AppliedWhenPlaced(p, nextId, nextObject, blockId, s);
  }

  /** The region case once the copy's records are known to delete cleanly. */
  lemma RegionCaseUndone(p: PageData, B: map<string, Block>, R: seq<Region>, st: DupState, d: string, r: nat, i: nat)
    requires p.blocks.Keys <= B.Keys && (forall k :: k in p.blocks ==> B[k] == p.blocks[k])
    requires RemoveTree(B, d, Depth(B)) == (B - (B.Keys - p.blocks.Keys), true)
    requires r < |p.regions| && FindRegion(p.regions, p.regions[r].name) == Some(r)
    requires d !in p.regions[r].blocks && i <= |p.regions[r].blocks| && d != ""
    requires R == WithRegionBlocks(p.regions, r, SpliceInsert(p.regions[r].blocks, i, d))
    requires st.duplicatedBlock.Some? && st.duplicatedBlockId == Some(d)
    requires st.parentId.None? && st.regionId == Some(p.regions[r].name)
    ensures DuplicateReverted(PageData(B, R), st) == (p, Ok(()))
  {
    DropAdded(p.blocks, B);
    FindRegionByNames(R, p.regions, p.regions[r].name);
    RegionRestored(p.regions, r, d, i, R);
    RevertedInRegion(PageData(B, R), st, p, d, r, i, B.Keys - p.blocks.Keys);
  }

  /**
   * A missing block fails: nothing is drawn, copied or recorded, and
   * `revert` on a command that never copied changes nothing.
   */
  lemma DuplicateMissing(p: PageData, nextId: nat, nextObject: nat, blockId: string)
    requires blockId !in p.blocks
    ensures var s := DupState(None, None, None, None, None);
      var o := DuplicateApplied(p, nextId, nextObject, blockId, s);
      && o == Outcome(p, nextId, nextObject, s, Err(BlockNotFound(blockId)))
      && DuplicateReverted(o.page, o.state) == (p, Ok(()))
  {
  }

  /**
   * `apply`, `revert`, `apply` again: the second run draws its ids after
   * the first run's, so the block it places carries a different id than
   * the one an earlier event announced.
   */
  lemma RedoDrawsNewId(p: PageData, nextId: nat, nextObject: nat, blockId: string, s: DupState)
    requires WellFormed(p) && blockId in p.blocks && InsertFromPreset.FreshFrom(p.blocks, nextId)
    requires Copy(p, nextId, nextObject, blockId).1.Ok?
    ensures var o := DuplicateApplied(p, nextId, nextObject, blockId, s);
      var back := DuplicateReverted(o.page, o.state).0;
      var o2 := DuplicateApplied(back, o.nextId, o.nextObject, blockId, o.state);
      && back == p && nextId < o.nextId
      && o.state.duplicatedBlockId == Some(Ids.IdFor(nextId))
      && o2.state.duplicatedBlockId == Some(Ids.IdFor(o.nextId))
      && o2.state.duplicatedBlockId != o.state.duplicatedBlockId
  {
    DuplicateRoundTrip(p, nextId, nextObject, blockId, s);
    DuplicateCopies(p, nextId, nextObject, blockId, s);
    var o := DuplicateApplied(p, nextId, nextObject, blockId, s);
    Ids.IdForInjective(o.nextId, nextId);
    RedrawnId(p, o.nextId, o.nextObject, blockId, o.state);
  }

  /** Whatever happens after, `apply` on a block it finds records the id it drew first. */
  lemma RedrawnId(p: PageData, nextId: nat, nextObject: nat, blockId: string, s: DupState)
    requires blockId in p.blocks
    ensures DuplicateApplied(p, nextId, nextObject, blockId, s).state.duplicatedBlockId == Some(Ids.IdFor(nextId))
  {
  }

  class DuplicateBlockCommand {
    const page: Page
    const ids: Ids.IdGenerator
    const blockId: string
    var duplicatedBlockId: Option<string>
    var duplicatedBlock: Option<Block>
    var parentId: Option<string>
    var insertIndex: Option<int>
    var regionId: Option<string>

    function State(): DupState
      reads this
    {
      DupState(duplicatedBlockId, duplicatedBlock, parentId, insertIndex, regionId)
    }

    function Current(): Copying
      reads page, ids
    {
      Copying(page.blocks, ids.next, page.nextObject)
    }

    constructor(page: Page, ids: Ids.IdGenerator, blockId: string)
      ensures this.page == page && this.ids == ids && this.blockId == blockId
      ensures State() == DupState(None, None, None, None, None)
    {
      this.page := page;
      this.ids := ids;
      this.blockId := blockId;
      duplicatedBlockId := None;
      duplicatedBlock := None;
      parentId := None;
      insertIndex := None;
      regionId := None;
    }

    method Apply() returns (r: Result<Event, Error>)
      requires page != ids as object
      modifies this, page, ids
      ensures var o := DuplicateApplied(old(page.Data()), old(ids.next), old(page.nextObject), blockId, old(State()));
        page.Data() == o.page && ids.next == o.nextId && page.nextObject == o.nextObject &&
        State() == o.state && r == o.result
    {
      if blockId !in page.blocks {
        return Err(BlockNotFound(blockId));
      }
      var dupId := ids.Generate();
      duplicatedBlockId := Some(dupId);
      var orig := page.blocks[blockId];
      var c := CloneBlock(orig, dupId, orig.parentId, Depth(page.blocks));
      if c.Err? {
        return Err(c.error);
      }
      duplicatedBlock := Some(c.value);
      var failure := DetermineInsertLocation();
      if failure.Some? {
        return Err(failure.value);
      }
      failure := InsertDuplicatedBlock(dupId);
      if failure.Some? {
        return Err(failure.value);
      }
      r := Ok(BlockDuplicated(blockId, dupId, c.value, parentId, At(insertIndex),
                              if Given(regionId) then regionId else None));
    }

    /** `cloneBlockWithNewIds`, with the remaining depth. */
    method CloneBlock(b: Block, newId: string, newParent: Option<string>, fuel: nat) returns (r: Result<Block, Error>)
      requires page != ids as object
      modifies page, ids
      decreases fuel
      ensures (Current(), r) == CloneTree(old(Current()), b, newId, newParent, fuel)
      ensures page.regions == old(page.regions)
    {
      if fuel == 0 {
        return Err(Diverges);
      }
      var obj := page.nextObject;
      page.nextObject := obj + 1;
      ghost var start := Current();
      var kids: seq<string> := [];
      assert b.children[0..] == b.children;
      PrefixedEmpty(CloneChildren(start, b.children, newId, fuel - 1));
      for i := 0 to |b.children|
        invariant CloneChildren(start, b.children, newId, fuel - 1) ==
                  Prefixed(kids, CloneChildren(Current(), b.children[i..], newId, fuel - 1))
        invariant page.regions == old(page.regions)
      {
        assert b.children[i..][0] == b.children[i] && b.children[i..][1..] == b.children[i + 1..];
        var childId := b.children[i];
        ghost var cur := Current();
        if childId in page.blocks {
          var newChildId := ids.Generate();
          var child := CloneBlock(page.blocks[childId], newChildId, Some(newId), fuel - 1);
          if child.Err? {
            assert CloneChildren(cur, b.children[i..], newId, fuel - 1) == (Current(), Err(child.error));
            return Err(child.error);
          }
          PrefixedJoin(kids, [newChildId], CloneChildren(Current(), b.children[i + 1..], newId, fuel - 1));
          kids := kids + [newChildId];
        }
      }
      assert b.children[|b.children|..] == [] && kids + [] == kids;
      assert CloneChildren(start, b.children, newId, fuel - 1) == (Current(), Ok(kids));
      var c := b.(id := newId, parentId := newParent, children := kids, objectId := obj);
      page.blocks := page.blocks[newId := c];
      r := Ok(c);
    }

    /** `determineInsertLocation`, returning the error it throws, if any. */
    method DetermineInsertLocation() returns (failure: Option<Error>)
      modifies this
      ensures (State(), failure) == Located(page.Data(), blockId, old(State()))
    {
      if blockId !in page.blocks {
        return Some(BlockNotFound(blockId));
      }
      var o := page.blocks[blockId];
      if Given(o.parentId) {
        var q := o.parentId.value;
        parentId := Some(q);
        if q in page.blocks {
          var i := IndexOf(page.blocks[q].children, blockId);
          insertIndex := Some(if i != -1 then i + 1 else |page.blocks[q].children|);
        } else {
          insertIndex := Some(0);
        }
        return None;
      }
      parentId := None;
      var found := RegionWith(page.regions, blockId);
      if found.Some? {
        var region := page.regions[found.value];
        regionId := Some(region.name);
        insertIndex := Some(IndexOf(region.blocks, blockId) + 1);
        return None;
      }
      if page.regions == [] {
        return Some(NoRegions);
      }
      regionId := Some(if page.regions[0].name != "" then page.regions[0].name else "main");
      insertIndex := Some(|page.regions[0].blocks|);
      failure := None;
    }

    /** `insertDuplicatedBlock`. */
    method InsertDuplicatedBlock(dupId: string) returns (failure: Option<Error>)
      modifies page
      ensures var placed := Placed(old(page.Data()), dupId, State());
        (placed.Err? ==> failure == Some(placed.error) && page.Data() == old(page.Data())) &&
        (placed.Ok? ==> failure.None? && page.Data() == placed.value)
      ensures page.nextObject == old(page.nextObject)
    {
      if Given(parentId) {
        var q := parentId.value;
        if q !in page.blocks {
          return Some(ParentNotFound(q));
        }
        page.blocks := WithChildren(page.blocks, q, SpliceInsert(page.blocks[q].children, At(insertIndex), dupId));
      } else {
        var found := if regionId.Some? then FindRegion(page.regions, regionId.value) else None;
        var i: nat;
        if found.Some? {
          i := found.value;
        } else {
          page.regions := page.regions + [Region(if Given(regionId) then regionId.value else "main", [])];
          i := |page.regions| - 1;
        }
        page.regions := WithRegionBlocks(page.regions, i, SpliceInsert(page.regions[i].blocks, At(insertIndex), dupId));
      }
      failure := None;
    }

    method Revert() returns (r: Result<(), Error>)
      modifies page
      ensures (page.Data(), r) == DuplicateReverted(old(page.Data()), State())
      ensures page.nextObject == old(page.nextObject)
    {
      if duplicatedBlock.None? || !Given(duplicatedBlockId) {
        return Ok(());
      }
      var d := duplicatedBlockId.value;
      var done := RemoveBlockAndChildren(d, Depth(page.blocks));
      if !done {
        return Err(Diverges);
      }
      if Given(parentId) {
        var q := parentId.value;
        if q in page.blocks {
          var index := IndexOf(page.blocks[q].children, d);
          if index != -1 {
            page.blocks := WithChildren(page.blocks, q, SpliceRemove(page.blocks[q].children, index));
          }
        }
      } else {
        var found := if regionId.Some? then FindRegion(page.regions, regionId.value) else None;
        if found.Some? {
          var index := IndexOf(page.regions[found.value].blocks, d);
          if index != -1 {
            page.regions := WithRegionBlocks(page.regions, found.value,
                                             SpliceRemove(page.regions[found.value].blocks, index));
          }
        }
      }
      r := Ok(());
    }

    /** `removeBlockAndChildren`, with the remaining depth; false when the bound was reached. */
    method RemoveBlockAndChildren(id: string, fuel: nat) returns (done: bool)
      modifies page
      decreases fuel
      ensures (page.blocks, done) == RemoveTree(old(page.blocks), id, fuel)
      ensures page.regions == old(page.regions) && page.nextObject == old(page.nextObject)
    {
      if id !in page.blocks {
        return true;
      }
      if fuel == 0 {
        return false;
      }
      var kids := page.blocks[id].children;
      ghost var start := page.blocks;
      assert kids[0..] == kids;
      for i := 0 to |kids|
        invariant RemoveAll(start, kids, fuel - 1) == RemoveAll(page.blocks, kids[i..], fuel - 1)
        invariant page.regions == old(page.regions) && page.nextObject == old(page.nextObject)
      {
        assert kids[i..][0] == kids[i] && kids[i..][1..] == kids[i + 1..];
        done := RemoveBlockAndChildren(kids[i], fuel - 1);
        if !done {
          return false;
        }
      }
      assert kids[|kids|..] == [];
      page.blocks := page.blocks - {id};
      done := true;
    }
  }

  /**
   * The constructor records the page, the generator and the id only; a
   * missing block is reported by `apply`.
   */
  method NewDuplicateBlock(page: Page, ids: Ids.IdGenerator, blockId: string) returns (cmd: DuplicateBlockCommand)
    ensures fresh(cmd) && cmd.page == page && cmd.ids == ids && cmd.blockId == blockId
    ensures cmd.State() == DupState(None, None, None, None, None)
  {
    cmd := new DuplicateBlockCommand(page, ids, blockId);
  }
}
