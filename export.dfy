/**
 * `exportBlockAsNestedStructure`: the engine's recursive export of a block
 * and its descendants as a nested structure, the form that presets and
 * paste consume. The recursion carries the remaining depth; a page whose
 * children lists form a cycle makes the source recurse without end, which
 * is `Err(Diverges)` here once the depth runs out.
 */
module Export {
  import opened Wrappers
  import opened Types
  import Registry
  import InsertFromPreset
  import DuplicateBlock
  import Pages

  /** The structure for record `b` with the given children: every field but `ghost` and `parentId` is copied. */
  function Structure(b: Block, kids: seq<BlockStructure>): BlockStructure
  {
    BlockStructure(b.blockType, Some(b.id), b.semanticId, b.name, Some(b.properties),
                   b.isStatic, b.disabled, b.repeated, None, kids)
  }

  /** The export of the record under `id`: an unknown id throws, and so does any unknown child id. */
  function Exported(m: map<string, Block>, id: string, fuel: nat): Result<BlockStructure, Error>
    decreases fuel, 0
  {
    if id !in m then Err(BlockNotFound(id))
    else if fuel == 0 then Err(Diverges)
    else
      match ExportedAll(m, m[id].children, fuel - 1)
      case Err(e) => Err(e)
      case Ok(kids) => Ok(Structure(m[id], kids))
  }

  /** `children.map(...)`: the exports of the listed ids in order, the first failure failing all. */
  function ExportedAll(m: map<string, Block>, ids: seq<string>, fuel: nat): Result<seq<BlockStructure>, Error>
    decreases fuel, 1, |ids|
  {
    if ids == [] then Ok([])
    else
      match Exported(m, ids[0], fuel)
      case Err(e) => Err(e)
      case Ok(s) =>
        match ExportedAll(m, ids[1..], fuel)
        case Err(e) => Err(e)
        case Ok(rest) => Ok([s] + rest)
  }

  /**
   * The export with the depth bound the engine uses, the number of
   * records: an unknown id throws, a success exports the record under `id`
   * with one entry per listed child, and on a page without cycles whose
   * children lists name only its records every record exports.
   */
  function ExportBlock(m: map<string, Block>, id: string): (r: Result<BlockStructure, Error>)
    ensures id !in m ==> r == Err(BlockNotFound(id))
    ensures r.Ok? ==> id in m && r.value.id == Some(m[id].id) && r.value.blockType == m[id].blockType &&
                      |r.value.children| == |m[id].children|
    ensures Pages.Acyclic(m) && DuplicateBlock.Closed(m) && id in m ==> r.Ok?
  {
    ExportOutcome(m, id, |m|);
    ExportBlockCompletes(m, id);
    Exported(m, id, |m|)
  }

  /**
   * An unknown id throws `Block not found`; a successful export copies the
   * record's type, id, semantic id, name, flags and properties, leaves
   * `ghost` out, and has one exported child per listed child, in order.
   */
  lemma ExportOutcome(m: map<string, Block>, id: string, fuel: nat)
    ensures id !in m ==> Exported(m, id, fuel) == Err(BlockNotFound(id))
    ensures Exported(m, id, fuel).Ok? ==>
      var s := Exported(m, id, fuel).value;
      var b := m[id];
      && id in m && fuel > 0
      && s.blockType == b.blockType && s.id == Some(b.id) && s.semanticId == b.semanticId
      && s.name == b.name && s.properties == Some(b.properties)
      && s.isStatic == b.isStatic && s.disabled == b.disabled && s.repeated == b.repeated
      && s.isGhost.None?
      && |s.children| == |b.children|
      && forall i :: 0 <= i < |b.children| ==> Exported(m, b.children[i], fuel - 1) == Ok(s.children[i])
  {
    if Exported(m, id, fuel).Ok? {
      ExportedAllEach(m, m[id].children, fuel - 1);
    }
  }

  /**
   * With a ranking of the records, a depth above the rank of `id` is
   * enough: the export does not run out of depth, and when every listed
   * child exists it succeeds.
   */
  lemma {:induction false} ExportCompletes(m: map<string, Block>, rank: map<string, nat>, id: string, fuel: nat)
    requires Pages.RankedBy(m, rank) && (id in m ==> rank[id] < fuel)
    ensures Exported(m, id, fuel) != Err(Diverges)
    ensures id in m && DuplicateBlock.Closed(m) ==> Exported(m, id, fuel).Ok?
    decreases fuel, 0
  {
    if id in m {
      ExportAllCompletes(m, rank, m[id].children, fuel - 1);
    }
  }

  /** The list case of `ExportCompletes`, for ids all ranked below `fuel`. */
  lemma {:induction false} ExportAllCompletes(m: map<string, Block>, rank: map<string, nat>, ids: seq<string>,
                                              fuel: nat)
    requires Pages.RankedBy(m, rank) && forall x :: x in ids && x in m ==> rank[x] < fuel
    ensures ExportedAll(m, ids, fuel) != Err(Diverges)
    ensures (forall x :: x in ids ==> x in m) && DuplicateBlock.Closed(m) ==> ExportedAll(m, ids, fuel).Ok?
    decreases fuel, 1, |ids|
  {
    if ids != [] {
      ExportCompletes(m, rank, ids[0], fuel);
      ExportAllCompletes(m, rank, ids[1..], fuel);
    }
  }

  /**
   * `exportBlockAsNestedStructure` on a page without cycles: it never
   * diverges, and on a page whose children lists name only its records it
   * succeeds for every record.
   */
  lemma ExportBlockCompletes(m: map<string, Block>, id: string)
    ensures Pages.Acyclic(m) ==> Exported(m, id, |m|) != Err(Diverges)
    ensures Pages.Acyclic(m) && id in m && DuplicateBlock.Closed(m) ==> Exported(m, id, |m|).Ok?
  {
    if Pages.Acyclic(m) {
      var rank :| Pages.RankedBy(m, rank);
      ExportCompletes(m, rank, id, |m|);
    }
  }

  /** A successful list export has one entry per id, each that id's own export. */
  lemma {:induction false} ExportedAllEach(m: map<string, Block>, ids: seq<string>, fuel: nat)
    ensures ExportedAll(m, ids, fuel).Ok? ==>
      var ss := ExportedAll(m, ids, fuel).value;
      |ss| == |ids| && forall i :: 0 <= i < |ids| ==> Exported(m, ids[i], fuel) == Ok(ss[i])
    decreases |ids|
  {
    if ids != [] && ExportedAll(m, ids, fuel).Ok? {
      ExportedAllEach(m, ids[1..], fuel);
      var ss := ExportedAll(m, ids, fuel).value;
      forall i | 0 <= i < |ids|
        ensures Exported(m, ids[i], fuel) == Ok(ss[i])
      {
        if i > 0 {
          assert ids[i] == ids[1..][i - 1];
        }
      }
    }
  }

  /** Two maps with the same records up to `parentId`, `ghost` and object identity. */
  ghost predicate SameContent(m1: map<string, Block>, m2: map<string, Block>)
  {
    && m1.Keys == m2.Keys
    && forall k :: k in m1 ==>
         m2[k].(parentId := m1[k].parentId, isGhost := m1[k].isGhost, objectId := m1[k].objectId) == m1[k]
  }

  /**
   * The export reads neither `parentId` nor `ghost`: pages that differ only
   * in those fields (and in which objects hold the records) export alike.
   */
  lemma {:induction false} ExportIgnoresLinks(m1: map<string, Block>, m2: map<string, Block>, id: string, fuel: nat)
    requires SameContent(m1, m2)
    ensures Exported(m1, id, fuel) == Exported(m2, id, fuel)
    decreases fuel, 0
  {
    if id in m1 && fuel > 0 {
      assert m1[id].children == m2[id].children;
      ExportAllIgnoresLinks(m1, m2, m1[id].children, fuel - 1);
      assert Structure(m1[id], []).(children := []) == Structure(m2[id], []).(children := []);
    }
  }

  /** The list case of `ExportIgnoresLinks`. */
  lemma {:induction false} ExportAllIgnoresLinks(m1: map<string, Block>, m2: map<string, Block>, ids: seq<string>,
                                                 fuel: nat)
    requires SameContent(m1, m2)
    ensures ExportedAll(m1, ids, fuel) == ExportedAll(m2, ids, fuel)
    decreases fuel, 1, |ids|
  {
    if ids != [] {
      ExportIgnoresLinks(m1, m2, ids[0], fuel);
      ExportAllIgnoresLinks(m1, m2, ids[1..], fuel);
    }
  }

  /**
   * A successful export has exactly as many nodes as the subtree has
   * records, the number of records a duplicate of the block copies.
   */
  lemma {:induction false} ExportSize(m: map<string, Block>, id: string, fuel: nat)
    requires Exported(m, id, fuel).Ok?
    ensures InsertFromPreset.Size(Exported(m, id, fuel).value) == DuplicateBlock.Nodes(m, m[id], fuel)
    decreases fuel, 0
  {
    ExportAllSize(m, m[id].children, fuel - 1);
  }

  /** The list case of `ExportSize`. */
  lemma {:induction false} ExportAllSize(m: map<string, Block>, ids: seq<string>, fuel: nat)
    requires ExportedAll(m, ids, fuel).Ok?
    ensures InsertFromPreset.SizeAll(ExportedAll(m, ids, fuel).value) == DuplicateBlock.NodesAll(m, ids, fuel)
    decreases fuel, 1, |ids|
  {
    if ids != [] {
      var s := Exported(m, ids[0], fuel).value;
      var rest := ExportedAll(m, ids[1..], fuel).value;
      ExportSize(m, ids[0], fuel);
      ExportAllSize(m, ids[1..], fuel);
      assert ([s] + rest)[0] == s && ([s] + rest)[1..] == rest;
    }
  }

  /** Every type in a structure, nested ones included, is registered. */
  ghost predicate AllRegistered(tab: Registry.Table, s: BlockStructure)
    decreases InsertFromPreset.Size(s), 0
  {
    Registry.Get(tab, s.blockType).Some? && AllRegisteredList(tab, s.children)
  }

  ghost predicate AllRegisteredList(tab: Registry.Table, ss: seq<BlockStructure>)
    decreases InsertFromPreset.SizeAll(ss), 1
  {
    ss != [] ==> AllRegistered(tab, ss[0]) && AllRegisteredList(tab, ss[1..])
  }

  /** When every type is registered, no child is skipped: one record per node. */
  lemma {:induction false} RegisteredCount(tab: Registry.Table, s: BlockStructure)
    requires AllRegistered(tab, s)
    ensures InsertFromPreset.Count(tab, s) == InsertFromPreset.Size(s)
    decreases InsertFromPreset.Size(s), 0
  {
    RegisteredCountAll(tab, s.children);
  }

  /** The list case of `RegisteredCount`. */
  lemma {:induction false} RegisteredCountAll(tab: Registry.Table, ss: seq<BlockStructure>)
    requires AllRegisteredList(tab, ss)
    ensures InsertFromPreset.CountAll(tab, ss) == InsertFromPreset.SizeAll(ss)
    decreases InsertFromPreset.SizeAll(ss), 1
  {
    if ss != [] {
      RegisteredCount(tab, ss[0]);
      RegisteredCountAll(tab, ss[1..]);
    }
  }

  /**
   * Copy and paste: pasting the export of a block whose subtree types are
   * all registered creates one record for the root and one per exported
   * child, as many as the block's subtree has records.
   */
  lemma ExportPasteCount(tab: Registry.Table, m: map<string, Block>, id: string)
    requires ExportBlock(m, id).Ok? && AllRegistered(tab, ExportBlock(m, id).value)
    ensures var s := ExportBlock(m, id).value;
      1 + InsertFromPreset.CountAll(tab, s.children) == DuplicateBlock.Nodes(m, m[id], |m|)
  {
    var s := ExportBlock(m, id).value;
    ExportSize(m, id, |m|);
    RegisteredCountAll(tab, s.children);
  }
}
