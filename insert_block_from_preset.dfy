/**
 * `InsertBlockFromPresetCommand`: inserts a block together with a tree of
 * children described either by one of the schema's presets or by a nested
 * block structure (a paste). Every created record gets a freshly drawn
 * id; a child whose type is not registered is skipped with its whole
 * subtree. `revert` deletes every id the command ever created and splices
 * the root out of its container.
 */
module InsertFromPreset {
  import opened Wrappers
  import opened Values
  import opened Types
  import opened Lists
  import opened Pages
  import opened Defaults
  import Registry
  import Ids
  import InsertBlock

  /** The number of structures in a tree, for termination. */
  function Size(s: BlockStructure): nat
  {
    1 + SizeAll(s.children)
  }

  function SizeAll(ss: seq<BlockStructure>): nat
  {
    if ss == [] then 0 else 1 + SizeAll(ss[0].children) + SizeAll(ss[1..])
  }

  /** The ids of a list, as a set. */
  function Members(s: seq<string>): set<string>
  {
    set x | x in s
  }

  /** `name || schema?.meta?.name || type`. */
  function NameOf(name: Option<string>, schema: Option<BlockSchema>, blockType: string): Option<string>
  {
    OrElse(name, OrElse(if schema.Some? then schema.value.metaName else None, Some(blockType)))
  }

  /**
   * The record built from a structure, before its children are created:
   * the flags are copied, the name and the semantic id fall back as above
   * and `structure.semanticId || structure.id`, and the id is the new one.
   */
  function FromStructure(blockType: string, s: BlockStructure, schema: Option<BlockSchema>, id: string,
                         props: Properties, parentId: Option<string>, obj: nat): Block
  {
    Block(blockType, id, props, s.disabled, s.isStatic, parentId, [], NameOf(s.name, schema, blockType),
          OrElse(s.semanticId, s.id), s.repeated, s.isGhost, obj)
  }
  /**
   * The fields of a block made from a structure: the flags copied, the
   * name falling back to the schema's display name and then to the type,
   * the semantic id falling back to the structure's own id.
   */
  lemma FromStructureFields(blockType: string, s: BlockStructure, schema: Option<BlockSchema>, id: string,
                            props: Properties, parentId: Option<string>, obj: nat)
    ensures var b := FromStructure(blockType, s, schema, id, props, parentId, obj);
      && b.id == id && b.blockType == blockType && b.properties == props && b.parentId == parentId
      && b.children == [] && b.objectId == obj
      && b.isStatic == s.isStatic && b.disabled == s.disabled && b.repeated == s.repeated && b.isGhost == s.isGhost
      && (Given(s.name) ==> b.name == s.name)
      && (!Given(s.name) && schema.Some? && Given(schema.value.metaName) ==> b.name == schema.value.metaName)
      && (!Given(s.name) && !(schema.Some? && Given(schema.value.metaName)) ==> b.name == Some(blockType))
      && b.semanticId == (if Given(s.semanticId) then s.semanticId else s.id)
  {
  }


  /** `schema?.presets?.[i]`. */
  function PresetAt(schema: Option<BlockSchema>, i: int): Option<Preset>
  {
    if schema.Some? && schema.value.presets.Some? && 0 <= i < |schema.value.presets.value|
    then Some(schema.value.presets.value[i]) else None
  }

  /**
   * What `createChildrenFromPreset` threads through: the block map, the
   * id generator's counter, the next object identity and `createdBlockIds`.
   */
  datatype Build = Build(blocks: map<string, Block>, nextId: nat, nextObject: nat, created: seq<string>)

  /**
   * One iteration of `createChildrenFromPreset`: an id is drawn even for a
   * skipped structure; a registered one becomes a record under parent
   * `pid`, its own children are created below it, and its id is returned.
   */
  function CreateOne(tab: Registry.Table, st: Build, s: BlockStructure, pid: string): (r: (Build, Option<string>))
    ensures st.blocks.Keys <= r.0.blocks.Keys
    decreases Size(s), 0
  {
    var childId := Ids.IdFor(st.nextId);
    match Registry.Get(tab, s.blockType)
    case None => (st.(nextId := st.nextId + 1), None)
    case Some(schema) =>
      var child := FromStructure(s.blockType, s, Some(schema), childId,
                                 PresetProperties(Some(schema), s.properties), Some(pid), st.nextObject);
      var st1 := Build(st.blocks[childId := child], st.nextId + 1, st.nextObject + 1, st.created + [childId]);
      var made := Created(tab, st1, s.children, childId);
      (made.0.(blocks := made.0.blocks[childId := made.0.blocks[childId].(children := made.1)]), Some(childId))
  }

  /** `createChildrenFromPreset(structures, pid)`: the new state and the ids of the created children, in order. */
  function Created(tab: Registry.Table, st: Build, ss: seq<BlockStructure>, pid: string): (r: (Build, seq<string>))
    ensures st.blocks.Keys <= r.0.blocks.Keys
    decreases SizeAll(ss), 1
  {
    if ss == [] then (st, [])
    else
      var one := CreateOne(tab, st, ss[0], pid);
      var rest := Created(tab, one.0, ss[1..], pid);
      (rest.0, (if one.1.Some? then [one.1.value] else []) + rest.1)
  }

  /**
   * The constructor's checks and the properties it computes: one of the two
   * sources must be given, the type must be registered, and a preset index
   * must name a preset; the properties are the schema defaults overwritten
   * by the chosen properties.
   */
  function Prepared(tab: Registry.Table, blockType: string, presetIndex: Option<int>,
                    presetData: Option<BlockStructure>): (r: Result<Properties, Error>)
    ensures presetIndex.None? && presetData.None? ==> r == Err(PresetMissing)
    ensures (presetIndex.Some? || presetData.Some?) && Registry.Get(tab, blockType).None? ==>
              r == Err(NotRegistered(blockType))
    ensures presetData.None? && presetIndex.Some? && Registry.Get(tab, blockType).Some? &&
            PresetAt(Registry.Get(tab, blockType), presetIndex.value).None? ==>
              r == Err(PresetNotFound(presetIndex.value))
    ensures r.Ok? <==> Registry.Get(tab, blockType).Some? &&
                       (presetData.Some? ||
                        (presetIndex.Some? && PresetAt(Registry.Get(tab, blockType), presetIndex.value).Some?))
    ensures r.Ok? ==>
              r.value == PresetProperties(Registry.Get(tab, blockType),
                           if presetData.Some? then presetData.value.properties
                           else PresetAt(Registry.Get(tab, blockType), presetIndex.value).value.properties)
  {
    if presetIndex.None? && presetData.None? then Err(PresetMissing)
    else
      match Registry.Get(tab, blockType)
      case None => Err(NotRegistered(blockType))
      case Some(schema) =>
        if presetData.Some? then Ok(PresetProperties(Some(schema), presetData.value.properties))
        else
          match PresetAt(Some(schema), presetIndex.value)
          case None => Err(PresetNotFound(presetIndex.value))
          case Some(preset) => Ok(PresetProperties(Some(schema), preset.properties))
  }

  /** The fields `apply` fills in: `insertedBlock`, `actualIndex`, `createdBlockIds`. */
  datatype PresetState = PresetState(inserted: Option<Block>, actualIndex: Option<nat>, created: seq<string>)

  /** Everything `apply` changes: the page, the id counter, the object counter and the command's fields. */
  datatype Outcome = Outcome(page: PageData, nextId: nat, nextObject: nat, state: PresetState,
                             result: Result<Event, Error>)

  /**
   * The root record `apply` builds, with the structures its children come
   * from, or nothing when the preset is no longer in the registry. The
   * schema is looked up again at this point.
   */
  function Root(tab: Registry.Table, blockType: string, blockId: string, props: Properties,
                presetIndex: Option<int>, presetData: Option<BlockStructure>, obj: nat)
    : Option<(Block, seq<BlockStructure>)>
    requires presetData.Some? || presetIndex.Some?
  {
    var schema := Registry.Get(tab, blockType);
    if presetData.Some? then
      Some((FromStructure(blockType, presetData.value, schema, blockId, props, None, obj), presetData.value.children))
    else
      match PresetAt(schema, presetIndex.value)
      case None => None
      case Some(preset) =>
        Some((Block(blockType, blockId, props, None, None, None, [], preset.name, None, None, None, obj),
              preset.children))
  }


  /**
   * `apply()`: the root record is written and recorded as created, its
   * children are created below it (an empty list creates nothing), and the
   * root is attached as the insert command attaches its record. The
   * generator's ids are all distinct, so the root's key still holds the
   * root when its children are set. The construction guarantees that one
   * of the two sources is given, which is what makes the source's
   * `Failed to create block` check unreachable.
   */
  function PresetApplied(tab: Registry.Table, p: PageData, nextId: nat, nextObject: nat,
                         blockType: string, blockId: string, props: Properties,
                         presetIndex: Option<int>, presetData: Option<BlockStructure>,
                         parentId: Option<string>, regionName: Option<string>, index: Option<int>,
                         s: PresetState): Outcome
    requires presetData.Some? || presetIndex.Some?
  {
    match Root(tab, blockType, blockId, props, presetIndex, presetData, nextObject)
    case None => Outcome(p, nextId, nextObject, s, Err(PresetNotFound(presetIndex.value)))
    case Some(rs) =>
      var made := Created(tab, Build(p.blocks[blockId := rs.0], nextId, nextObject + 1, s.created + [blockId]),
                          rs.1, blockId);
      var a := InsertBlock.Attached(PageData(made.0.blocks, p.regions), blockId, rs.0.(children := made.1),
                                    parentId, regionName, index, s.actualIndex);
      Outcome(a.page, made.0.nextId, made.0.nextObject, PresetState(a.inserted, a.actualIndex, made.0.created),
              a.result)
  }

  /**
   * `revert()`: nothing when `apply` never placed a root; otherwise every
   * id in `createdBlockIds` is deleted and the root's id spliced out of its
   * container as the insert command does.
   */
  function PresetReverted(p: PageData, blockId: string, parentId: Option<string>,
                          regionName: Option<string>, s: PresetState)
    : (PageData, Result<Option<Event>, Error>)
  {
    if s.inserted.None? then (p, Ok(None))
    else
      InsertBlock.InsertReverted(PageData(p.blocks - Members(s.created), p.regions), blockId, parentId,
                                 regionName, s.inserted, s.actualIndex)
  }

  /** A structure's size bounds each of its elements. */
  lemma {:induction false} SizeBound(ss: seq<BlockStructure>, i: nat)
    requires i < |ss|
    ensures Size(ss[i]) <= SizeAll(ss)
    ensures SizeAll(ss[i].children) < SizeAll(ss)
    decreases i
  {
    if i > 0 {
      SizeBound(ss[1..], i - 1);
      assert ss[1..][i - 1] == ss[i];
    }
  }

  /** The records a structure produces: one per registered node, an unregistered node taking its subtree with it. */
  function Count(tab: Registry.Table, s: BlockStructure): nat
    decreases Size(s), 0
  {
    if Registry.Get(tab, s.blockType).None? then 0 else 1 + CountAll(tab, s.children)
  }

  function CountAll(tab: Registry.Table, ss: seq<BlockStructure>): nat
    decreases SizeAll(ss), 1
  {
    if ss == [] then 0 else Count(tab, ss[0]) + CountAll(tab, ss[1..])
  }

  /** No id the generator will still hand out, from draw `n` on, is a key of `blocks`. */
  ghost predicate FreshFrom(blocks: map<string, Block>, n: nat)
  {
    forall k: nat :: n <= k ==> Ids.IdFor(k) !in blocks
  }

  /**
   * From `st` to `r`, `n` records were created: `n` new distinct ids,
   * none of them a key before, were appended to `created` and became the
   * only new keys, every earlier record is untouched, `n` object
   * identities were used, and the generator's later ids are still unused.
   */
  ghost predicate Grown(st: Build, r: Build, n: nat)
  {
    && st.nextId <= r.nextId && FreshFrom(r.blocks, r.nextId)
    && |r.created| == |st.created| + n && r.created[..|st.created|] == st.created
    && r.nextObject == st.nextObject + n
    && NoDuplicates(r.created[|st.created|..])
    && (forall x :: x in r.created[|st.created|..] ==> x !in st.blocks)
    && r.blocks.Keys == st.blocks.Keys + Members(r.created[|st.created|..])
    && (forall k :: k in st.blocks ==> r.blocks[k] == st.blocks[k])
  }

  /** Two stretches of growth make one. */
  lemma GrownTrans(a: Build, b: Build, c: Build, n: nat, m: nat)
    requires Grown(a, b, n) && Grown(b, c, m)
    ensures Grown(a, c, n + m)
  {
    var x := b.created[|a.created|..];
    var y := c.created[|b.created|..];
    Appended(a.created, b.created, c.created);
    NoDuplicatesJoin(x, y, b.blocks.Keys);
    KeysJoin(a.blocks, b.blocks, c.blocks, x, y);
  }

  /** The key and record facts of two stretches combine. */
  lemma KeysJoin(a: map<string, Block>, b: map<string, Block>, c: map<string, Block>, x: seq<string>, y: seq<string>)
    requires b.Keys == a.Keys + Members(x) && c.Keys == b.Keys + Members(y)
    requires (forall k :: k in a ==> b[k] == a[k]) && (forall k :: k in b ==> c[k] == b[k])
    requires (forall e :: e in x ==> e !in a) && (forall e :: e in y ==> e !in b)
    ensures c.Keys == a.Keys + Members(x + y)
    ensures forall k :: k in a ==> c[k] == a[k]
    ensures forall e :: e in x + y ==> e !in a
  {
    assert Members(x + y) == Members(x) + Members(y);
  }

  /** Extending a list twice extends it once, by the two pieces in order. */
  lemma Appended(a: seq<string>, b: seq<string>, c: seq<string>)
    requires |a| <= |b| <= |c| && b[..|a|] == a && c[..|b|] == b
    ensures c[..|a|] == a && c[|a|..] == b[|a|..] + c[|b|..]
  {
    assert c[..|a|] == c[..|b|][..|a|];
  }

  /** Two duplicate-free lists, the second avoiding a set that holds the first, join without duplicates. */
  lemma NoDuplicatesJoin(x: seq<string>, y: seq<string>, keys: set<string>)
    requires NoDuplicates(x) && NoDuplicates(y) && Members(x) <= keys
    requires forall e :: e in y ==> e !in keys
    ensures NoDuplicates(x + y)
  {
    forall i, j | 0 <= i < j < |x + y|
      ensures (x + y)[i] != (x + y)[j]
    {
      if i < |x| && j >= |x| {
        assert (x + y)[i] in Members(x);
        assert (x + y)[j] == y[j - |x|];
      }
    }
  }

  /** Rewriting a record created in the stretch keeps the growth facts. */
  lemma GrownRewrite(st: Build, r: Build, n: nat, x: string, b: Block)
    requires Grown(st, r, n) && x in r.blocks && x !in st.blocks
    ensures Grown(st, r.(blocks := r.blocks[x := b]), n)
  {
  }

  /** Writing the record for the generator's next id is growth by one. */
  lemma GrownOne(st: Build, child: Block)
    requires FreshFrom(st.blocks, st.nextId)
    ensures var id := Ids.IdFor(st.nextId);
      Grown(st, Build(st.blocks[id := child], st.nextId + 1, st.nextObject + 1, st.created + [id]), 1)
  {
    var id := Ids.IdFor(st.nextId);
    var r := Build(st.blocks[id := child], st.nextId + 1, st.nextObject + 1, st.created + [id]);
    forall k: nat | st.nextId + 1 <= k
      ensures Ids.IdFor(k) !in r.blocks
    {
      Ids.IdForInjective(k, st.nextId);
    }
    assert r.created[|st.created|..] == [id];
    assert r.created[..|st.created|] == st.created;
  }

  /** One iteration of `createChildrenFromPreset` creates `Count` records. */
  lemma {:induction false} CreateOneGrows(tab: Registry.Table, st: Build, s: BlockStructure, pid: string)
    requires FreshFrom(st.blocks, st.nextId)
    ensures Grown(st, CreateOne(tab, st, s, pid).0, Count(tab, s))
    decreases Size(s), 1
  {
    if Registry.Get(tab, s.blockType).None? {
      assert st.created[|st.created|..] == [];
      assert st.created[..|st.created|] == st.created;
    } else {
      RegisteredChildGrows(tab, st, s, pid);
    }
  }

  /** The registered case: the child's record, then its subtree. */
  lemma {:induction false} RegisteredChildGrows(tab: Registry.Table, st: Build, s: BlockStructure, pid: string)
    requires FreshFrom(st.blocks, st.nextId) && Registry.Get(tab, s.blockType).Some?
    ensures Grown(st, CreateOne(tab, st, s, pid).0, Count(tab, s))
    decreases Size(s), 0
  {
    var childId := Ids.IdFor(st.nextId);
    var schema := Registry.Get(tab, s.blockType).value;
    var child := FromStructure(s.blockType, s, Some(schema), childId,
                               PresetProperties(Some(schema), s.properties), Some(pid), st.nextObject);
    var st1 := Build(st.blocks[childId := child], st.nextId + 1, st.nextObject + 1, st.created + [childId]);
    var made := Created(tab, st1, s.children, childId);
    GrownOne(st, child);
    CreatedGrows(tab, st1, s.children, childId);
    ChildGrows(st, child, made.0, made.1, CountAll(tab, s.children), CreateOne(tab, st, s, pid).0, Count(tab, s));
  }

  /** The step of `CreateOneGrows`: the child's record, its subtree, and its children list set last. */
  lemma ChildGrows(st: Build, child: Block, made: Build, kids: seq<string>, n: nat, r: Build, count: nat)
    requires FreshFrom(st.blocks, st.nextId)
    requires var id := Ids.IdFor(st.nextId);
      Grown(Build(st.blocks[id := child], st.nextId + 1, st.nextObject + 1, st.created + [id]), made, n)
    requires var id := Ids.IdFor(st.nextId);
      id in made.blocks && r == made.(blocks := made.blocks[id := made.blocks[id].(children := kids)])
    requires count == 1 + n
    ensures Grown(st, r, count)
  {
    var id := Ids.IdFor(st.nextId);
    var st1 := Build(st.blocks[id := child], st.nextId + 1, st.nextObject + 1, st.created + [id]);
    GrownOne(st, child);
    GrownTrans(st, st1, made, 1, n);
    GrownRewrite(st, made, 1 + n, id, made.blocks[id].(children := kids));
  }

  /** `createChildrenFromPreset` creates `CountAll` records. */
  lemma {:induction false} CreatedGrows(tab: Registry.Table, st: Build, ss: seq<BlockStructure>, pid: string)
    requires FreshFrom(st.blocks, st.nextId)
    ensures Grown(st, Created(tab, st, ss, pid).0, CountAll(tab, ss))
    decreases SizeAll(ss), 2
  {
    if ss == [] {
      assert st.created[|st.created|..] == [];
      assert st.created[..|st.created|] == st.created;
    } else {
      var one := CreateOne(tab, st, ss[0], pid);
      CreateOneGrows(tab, st, ss[0], pid);
      CreatedGrows(tab, one.0, ss[1..], pid);
      GrownTrans(st, one.0, Created(tab, one.0, ss[1..], pid).0, Count(tab, ss[0]), CountAll(tab, ss[1..]));
    }
  }

  /**
   * Record `b` is the one built from structure `s` under id `id` and
   * parent `pid`: apart from its children and its object identity it is
   * exactly `FromStructure` of `s`, with the merged properties.
   */
  ghost predicate Made(tab: Registry.Table, b: Block, s: BlockStructure, id: string, pid: string)
  {
    var schema := Registry.Get(tab, s.blockType);
    b == FromStructure(s.blockType, s, schema, id, PresetProperties(schema, s.properties), Some(pid), b.objectId)
           .(children := b.children)
  }

  /**
   * The records below `pid` mirror the structures `ss`: the registered
   * ones, in order, are the records `kids` names, each made from its
   * structure under parent `pid`, with an id from `drawn`, and with
   * children that in turn mirror the structure's children; a structure
   * of an unregistered type has no record and neither does its subtree.
   */
  ghost predicate Mirrors(tab: Registry.Table, blocks: map<string, Block>, ss: seq<BlockStructure>,
                          kids: seq<string>, pid: string, drawn: set<string>)
    decreases SizeAll(ss)
  {
    if ss == [] then kids == []
    else if Registry.Get(tab, ss[0].blockType).None? then Mirrors(tab, blocks, ss[1..], kids, pid, drawn)
    else
      && |kids| > 0 && kids[0] in drawn && kids[0] in blocks
      && Made(tab, blocks[kids[0]], ss[0], kids[0], pid)
      && Mirrors(tab, blocks, ss[0].children, blocks[kids[0]].children, kids[0], drawn)
      && Mirrors(tab, blocks, ss[1..], kids[1..], pid, drawn)
  }

  /** Mirroring depends only on the records whose ids are in `drawn`, and survives a larger `drawn`. */
  lemma {:induction false} MirrorsFrame(tab: Registry.Table, b1: map<string, Block>, b2: map<string, Block>,
                                        ss: seq<BlockStructure>, kids: seq<string>, pid: string,
                                        f1: set<string>, f2: set<string>)
    requires Mirrors(tab, b1, ss, kids, pid, f1) && f1 <= f2
    requires forall k :: k in f1 && k in b1 ==> k in b2 && b2[k] == b1[k]
    ensures Mirrors(tab, b2, ss, kids, pid, f2)
    decreases SizeAll(ss)
  {
    if ss != [] {
      if Registry.Get(tab, ss[0].blockType).None? {
        MirrorsFrame(tab, b1, b2, ss[1..], kids, pid, f1, f2);
      } else {
        MirrorsFrame(tab, b1, b2, ss[0].children, b1[kids[0]].children, kids[0], f1, f2);
        MirrorsFrame(tab, b1, b2, ss[1..], kids[1..], pid, f1, f2);
      }
    }
  }

  /** The ids created from `st` to `r`. */
  function NewIds(st: Build, r: Build): set<string>
  {
    if |st.created| <= |r.created| then Members(r.created[|st.created|..]) else {}
  }

  /**
   * One iteration returns an id exactly for a registered structure, and
   * that record is made from the structure and mirrors its children.
   */
  lemma {:induction false} CreateOneMirrors(tab: Registry.Table, st: Build, s: BlockStructure, pid: string)
    requires FreshFrom(st.blocks, st.nextId)
    ensures var r := CreateOne(tab, st, s, pid);
      && (r.1.Some? <==> Registry.Get(tab, s.blockType).Some?)
      && (r.1.Some? ==>
            var c := r.1.value;
            && c in NewIds(st, r.0) && c in r.0.blocks
            && Made(tab, r.0.blocks[c], s, c, pid)
            && Mirrors(tab, r.0.blocks, s.children, r.0.blocks[c].children, c, NewIds(st, r.0)))
    decreases Size(s), 1
  {
    if Registry.Get(tab, s.blockType).Some? {
      RegisteredMirrors(tab, st, s, pid);
    }
  }

  /** The registered case of `CreateOneMirrors`. */
  lemma {:induction false} RegisteredMirrors(tab: Registry.Table, st: Build, s: BlockStructure, pid: string)
    requires FreshFrom(st.blocks, st.nextId) && Registry.Get(tab, s.blockType).Some?
    ensures var r := CreateOne(tab, st, s, pid);
      && r.1 == Some(Ids.IdFor(st.nextId))
      && var c := r.1.value;
      && c in NewIds(st, r.0) && c in r.0.blocks
      && Made(tab, r.0.blocks[c], s, c, pid)
      && Mirrors(tab, r.0.blocks, s.children, r.0.blocks[c].children, c, NewIds(st, r.0))
    decreases Size(s), 0
  {
    var childId := Ids.IdFor(st.nextId);
    var schema := Registry.Get(tab, s.blockType).value;
    var child := FromStructure(s.blockType, s, Some(schema), childId,
                               PresetProperties(Some(schema), s.properties), Some(pid), st.nextObject);
    var st1 := Build(st.blocks[childId := child], st.nextId + 1, st.nextObject + 1, st.created + [childId]);
    var made := Created(tab, st1, s.children, childId);
    GrownOne(st, child);
    CreatedGrows(tab, st1, s.children, childId);
    CreatedMirrors(tab, st1, s.children, childId);
    assert made.0.blocks[childId] == child;
    assert childId !in NewIds(st1, made.0);
    RegisteredShape(tab, st, s, pid);
    FinishedMirrors(tab, st, st1, s, pid, child, made, CreateOne(tab, st, s, pid));
  }

  /** One iteration on a registered type, written out: the child, its subtree, then its children list. */
  lemma RegisteredShape(tab: Registry.Table, st: Build, s: BlockStructure, pid: string)
    requires Registry.Get(tab, s.blockType).Some?
    ensures var childId := Ids.IdFor(st.nextId);
      var child := FromStructure(s.blockType, s, Registry.Get(tab, s.blockType), childId,
                                 PresetProperties(Registry.Get(tab, s.blockType), s.properties), Some(pid), st.nextObject);
      var made := Created(tab, Build(st.blocks[childId := child], st.nextId + 1, st.nextObject + 1, st.created + [childId]),
                          s.children, childId);
      CreateOne(tab, st, s, pid) == (made.0.(blocks := made.0.blocks[childId := made.0.blocks[childId].(children := made.1)]), Some(childId))
  {
  }

  /** The registered case of one iteration, once its children are known to mirror their structures. */
  lemma FinishedMirrors(tab: Registry.Table, st: Build, st1: Build, s: BlockStructure, pid: string,
                        child: Block, made: (Build, seq<string>), r: (Build, Option<string>))
    requires var childId := Ids.IdFor(st.nextId);
      && Registry.Get(tab, s.blockType).Some?
      && child == FromStructure(s.blockType, s, Registry.Get(tab, s.blockType), childId,
                                PresetProperties(Registry.Get(tab, s.blockType), s.properties), Some(pid), st.nextObject)
      && st1 == Build(st.blocks[childId := child], st.nextId + 1, st.nextObject + 1, st.created + [childId])
      && |st1.created| <= |made.0.created| && made.0.created[..|st1.created|] == st1.created
      && childId in made.0.blocks && made.0.blocks[childId] == child
      && childId !in NewIds(st1, made.0)
      && Mirrors(tab, made.0.blocks, s.children, made.1, childId, NewIds(st1, made.0))
      && r == (made.0.(blocks := made.0.blocks[childId := made.0.blocks[childId].(children := made.1)]), Some(childId))
    ensures && r.1 == Some(Ids.IdFor(st.nextId))
      && var c := r.1.value;
      && c in NewIds(st, r.0) && c in r.0.blocks
      && Made(tab, r.0.blocks[c], s, c, pid)
      && Mirrors(tab, r.0.blocks, s.children, r.0.blocks[c].children, c, NewIds(st, r.0))
  {
    var childId := Ids.IdFor(st.nextId);
    var fin := r.0;
    ChildIdsJoin(st.created, st1.created, made.0.created, childId);
    assert NewIds(st, fin) == {childId} + NewIds(st1, made.0);
    MirrorsFrame(tab, made.0.blocks, fin.blocks, s.children, made.1, childId,
                 NewIds(st1, made.0), NewIds(st, fin));
  }

  /** The ids one iteration adds: the child's own, then those its children's run adds. */
  lemma ChildIdsJoin(before: seq<string>, withChild: seq<string>, created: seq<string>, childId: string)
    requires withChild == before + [childId]
    requires |withChild| <= |created| && created[..|withChild|] == withChild
    ensures |before| <= |created|
    ensures Members(created[|before|..]) == {childId} + Members(created[|withChild|..])
  {
    Appended(before, withChild, created);
    assert created[|before|..] == [childId] + created[|withChild|..];
  }

  /** `createChildrenFromPreset` returns the ids of records that mirror the structures. */
  lemma {:induction false} CreatedMirrors(tab: Registry.Table, st: Build, ss: seq<BlockStructure>, pid: string)
    requires FreshFrom(st.blocks, st.nextId)
    ensures var r := Created(tab, st, ss, pid);
      Mirrors(tab, r.0.blocks, ss, r.1, pid, NewIds(st, r.0))
    decreases SizeAll(ss), 2
  {
    if ss != [] {
      var one := CreateOne(tab, st, ss[0], pid);
      var rest := Created(tab, one.0, ss[1..], pid);
      CreateOneGrows(tab, st, ss[0], pid);
      CreateOneMirrors(tab, st, ss[0], pid);
      CreatedGrows(tab, one.0, ss[1..], pid);
      CreatedMirrors(tab, one.0, ss[1..], pid);
      ConsMirrors(tab, st, ss, pid, one, rest);
    }
  }

  /** The step of that induction: the first structure's record and the rest's, in the final map. */
  lemma ConsMirrors(tab: Registry.Table, st: Build, ss: seq<BlockStructure>, pid: string,
                    one: (Build, Option<string>), rest: (Build, seq<string>))
    requires ss != []
    requires one.1.Some? <==> Registry.Get(tab, ss[0].blockType).Some?
    requires one.1.Some? ==>
      && one.1.value in NewIds(st, one.0) && one.1.value in one.0.blocks
      && Made(tab, one.0.blocks[one.1.value], ss[0], one.1.value, pid)
      && Mirrors(tab, one.0.blocks, ss[0].children, one.0.blocks[one.1.value].children, one.1.value,
                 NewIds(st, one.0))
    requires Mirrors(tab, rest.0.blocks, ss[1..], rest.1, pid, NewIds(one.0, rest.0))
    requires forall k :: k in one.0.blocks ==> k in rest.0.blocks && rest.0.blocks[k] == one.0.blocks[k]
    requires |st.created| <= |one.0.created| <= |rest.0.created|
    requires one.0.created[..|st.created|] == st.created && rest.0.created[..|one.0.created|] == one.0.created
    ensures Mirrors(tab, rest.0.blocks, ss, (if one.1.Some? then [one.1.value] else []) + rest.1, pid,
                    NewIds(st, rest.0))
  {
    Appended(st.created, one.0.created, rest.0.created);
    var all := NewIds(st, rest.0);
    assert all == NewIds(st, one.0) + NewIds(one.0, rest.0);
    MirrorsFrame(tab, rest.0.blocks, rest.0.blocks, ss[1..], rest.1, pid, NewIds(one.0, rest.0), all);
    if one.1.Some? {
      var c := one.1.value;
      MirrorsFrame(tab, one.0.blocks, rest.0.blocks, ss[0].children, one.0.blocks[c].children, c,
                   NewIds(st, one.0), all);
      assert ([c] + rest.1)[1..] == rest.1;
    } else {
      assert [] + rest.1 == rest.1;
    }
  }

  /** The ids of a duplicate-free list are as many as its elements. */
  lemma {:induction false} MembersCard(s: seq<string>)
    requires NoDuplicates(s)
    ensures |Members(s)| == |s|
  {
    if s != [] {
      assert Members(s) == {s[0]} + Members(s[1..]);
      assert s[0] !in Members(s[1..]);
      MembersCard(s[1..]);
    }
  }

  /** Writing the root under an id that is not a key, and that the generator will not hand out, is growth by one. */
  lemma GrownRoot(p: PageData, nextId: nat, nextObject: nat, blockId: string, root: Block, created: seq<string>)
    requires blockId !in p.blocks && FreshFrom(p.blocks, nextId)
    requires forall k: nat :: nextId <= k ==> Ids.IdFor(k) != blockId
    ensures Grown(Build(p.blocks, nextId, nextObject, created),
                  Build(p.blocks[blockId := root], nextId, nextObject + 1, created + [blockId]), 1)
  {
    assert (created + [blockId])[|created|..] == [blockId];
    assert (created + [blockId])[..|created|] == created;
  }

  /**
   * The records `apply` creates, given that the root's id is not a key and
   * the generator's remaining ids are unused: exactly `1 + CountAll`
   * records under new distinct ids, the root's first; the object counter
   * advanced by as many; and, by `AttachedOver`, every old record but the
   * parent's untouched, the root attached below the parent and its
   * descendants mirroring the registered structures below it.
   */
  lemma PresetCreates(tab: Registry.Table, p: PageData, nextId: nat, nextObject: nat,
                      blockType: string, blockId: string, props: Properties,
                      presetIndex: Option<int>, presetData: Option<BlockStructure>,
                      parentId: Option<string>, regionName: Option<string>, index: Option<int>, s: PresetState)
    requires presetData.Some? || presetIndex.Some?
    requires Root(tab, blockType, blockId, props, presetIndex, presetData, nextObject).Some?
    requires blockId !in p.blocks && FreshFrom(p.blocks, nextId)
    requires forall k: nat :: nextId <= k ==> Ids.IdFor(k) != blockId
    requires Given(parentId) ==> parentId.value in p.blocks
    ensures var o := PresetApplied(tab, p, nextId, nextObject, blockType, blockId, props, presetIndex, presetData,
                                   parentId, regionName, index, s);
      var rs := Root(tab, blockType, blockId, props, presetIndex, presetData, nextObject).value;
      && |s.created| < |o.state.created| && o.state.created[..|s.created|] == s.created
      && var added := o.state.created[|s.created|..];
      && |added| == 1 + CountAll(tab, rs.1) && added[0] == blockId && NoDuplicates(added)
      && (forall x :: x in added ==> x !in p.blocks)
      && o.nextObject == nextObject + |added|
      && blockId in o.page.blocks
      && AttachedOver(tab, p.blocks, o.page.blocks, blockId, rs.0.(children := o.page.blocks[blockId].children),
                      rs.1, added, parentId)
  {
    PresetCreatesIds(tab, p, nextId, nextObject, blockType, blockId, props, presetIndex, presetData, parentId, regionName, index, s);
    PresetCreatesPage(tab, p, nextId, nextObject, blockType, blockId, props, presetIndex, presetData, parentId, regionName, index, s);
  }

  /** The ids and objects part of `PresetCreates`. */
  lemma PresetCreatesIds(tab: Registry.Table, p: PageData, nextId: nat, nextObject: nat,
                      blockType: string, blockId: string, props: Properties,
                      presetIndex: Option<int>, presetData: Option<BlockStructure>,
                      parentId: Option<string>, regionName: Option<string>, index: Option<int>, s: PresetState)
    requires presetData.Some? || presetIndex.Some?
    requires Root(tab, blockType, blockId, props, presetIndex, presetData, nextObject).Some?
    requires blockId !in p.blocks && FreshFrom(p.blocks, nextId)
    requires forall k: nat :: nextId <= k ==> Ids.IdFor(k) != blockId
    requires Given(parentId) ==> parentId.value in p.blocks
    ensures var o := PresetApplied(tab, p, nextId, nextObject, blockType, blockId, props, presetIndex, presetData,
                                   parentId, regionName, index, s);
      var rs := Root(tab, blockType, blockId, props, presetIndex, presetData, nextObject).value;
      && |s.created| < |o.state.created| && o.state.created[..|s.created|] == s.created
      && var added := o.state.created[|s.created|..];
      && |added| == 1 + CountAll(tab, rs.1) && added[0] == blockId && NoDuplicates(added)
      && (forall x :: x in added ==> x !in p.blocks)
      && o.nextObject == nextObject + |added|
  {
    var rs := Root(tab, blockType, blockId, props, presetIndex, presetData, nextObject).value;
    RunFacts(tab, p, nextId, nextObject, blockId, rs.0, rs.1, s.created);
  }

  /** The page part of `PresetCreates`. */
  lemma PresetCreatesPage(tab: Registry.Table, p: PageData, nextId: nat, nextObject: nat,
                      blockType: string, blockId: string, props: Properties,
                      presetIndex: Option<int>, presetData: Option<BlockStructure>,
                      parentId: Option<string>, regionName: Option<string>, index: Option<int>, s: PresetState)
    requires presetData.Some? || presetIndex.Some?
    requires Root(tab, blockType, blockId, props, presetIndex, presetData, nextObject).Some?
    requires blockId !in p.blocks && FreshFrom(p.blocks, nextId)
    requires forall k: nat :: nextId <= k ==> Ids.IdFor(k) != blockId
    requires Given(parentId) ==> parentId.value in p.blocks
    ensures var o := PresetApplied(tab, p, nextId, nextObject, blockType, blockId, props, presetIndex, presetData,
                                   parentId, regionName, index, s);
      var rs := Root(tab, blockType, blockId, props, presetIndex, presetData, nextObject).value;
      && |s.created| < |o.state.created|
      && blockId in o.page.blocks
      && AttachedOver(tab, p.blocks, o.page.blocks, blockId, rs.0.(children := o.page.blocks[blockId].children),
                      rs.1, o.state.created[|s.created|..], parentId)
  {
    var rs := Root(tab, blockType, blockId, props, presetIndex, presetData, nextObject).value;
    var st0 := Build(p.blocks[blockId := rs.0], nextId, nextObject + 1, s.created + [blockId]);
    var made := Created(tab, st0, rs.1, blockId);
    PresetCreatesIds(tab, p, nextId, nextObject, blockType, blockId, props, presetIndex, presetData, parentId, regionName, index, s);
    RunFacts(tab, p, nextId, nextObject, blockId, rs.0, rs.1, s.created);
    var added := made.0.created[|s.created|..];
    PresetAttached(tab, p, blockId, rs.0, rs.1, made.0.blocks, made.1, added, parentId, regionName, index,
                   s.actualIndex);
  }

  /** The records created before the root is attached: the root's record, then its descendants'. */
  lemma RunFacts(tab: Registry.Table, p: PageData, nextId: nat, nextObject: nat, blockId: string, root: Block,
                 structures: seq<BlockStructure>, created: seq<string>)
    requires blockId !in p.blocks && FreshFrom(p.blocks, nextId)
    requires forall k: nat :: nextId <= k ==> Ids.IdFor(k) != blockId
    ensures var made := Created(tab, Build(p.blocks[blockId := root], nextId, nextObject + 1, created + [blockId]),
                                structures, blockId);
      && |created| < |made.0.created| && made.0.created[..|created|] == created
      && var added := made.0.created[|created|..];
      && |added| == 1 + CountAll(tab, structures) && added[0] == blockId && NoDuplicates(added)
      && (forall x :: x in added ==> x !in p.blocks)
      && made.0.blocks.Keys == p.blocks.Keys + Members(added)
      && (forall k :: k in p.blocks ==> made.0.blocks[k] == p.blocks[k])
      && made.0.nextObject == nextObject + |added|
      && Mirrors(tab, made.0.blocks, structures, made.1, blockId, Members(added[1..]))
  {
    var base := Build(p.blocks, nextId, nextObject, created);
    var st0 := Build(p.blocks[blockId := root], nextId, nextObject + 1, created + [blockId]);
    var made := Created(tab, st0, structures, blockId);
    GrownRoot(p, nextId, nextObject, blockId, root, created);
    CreatedGrows(tab, st0, structures, blockId);
    CreatedMirrors(tab, st0, structures, blockId);
    GrownTrans(base, st0, made.0, 1, CountAll(tab, structures));
    var added := made.0.created[|created|..];
    assert made.0.created[..|created| + 1] == created + [blockId];
    assert made.0.created[|created|] == blockId;
    assert made.0.created[|created| + 1..] == added[1..];
  }

  /** The ids created by one run: the root's first, then its descendants', all distinct. */
  lemma AddedSplit(added: seq<string>, blockId: string)
    requires |added| > 0 && added[0] == blockId && NoDuplicates(added)
    ensures blockId !in Members(added[1..])
    ensures Members(added) == {blockId} + Members(added[1..])
    ensures |Members(added)| == |added|
  {
    MembersCard(added);
    assert Members(added) == {added[0]} + Members(added[1..]);
  }

  /** The key set and size of the block map once the created records are attached. */
  lemma AttachedBlocks(pb: map<string, Block>, mb: map<string, Block>, ab: map<string, Block>,
                       blockId: string, parentId: Option<string>, added: set<string>)
    requires blockId in added && pb.Keys !! added
    requires mb.Keys == pb.Keys + added && forall k :: k in pb ==> mb[k] == pb[k]
    requires ab.Keys == mb.Keys + {blockId}
    requires forall k :: k in mb && k != blockId && !(Given(parentId) && parentId.value == k) ==> ab[k] == mb[k]
    ensures ab.Keys == pb.Keys + added && |ab| == |pb| + |added|
    ensures forall k :: k in pb && Some(k) != parentId ==> ab[k] == pb[k]
  {
    assert ab.Keys == pb.Keys + added;
    assert |ab.Keys| == |pb.Keys| + |added|;
  }

  /** The attaching step of `PresetCreates`, once the created records are known. */
  lemma PresetAttached(tab: Registry.Table, p: PageData, blockId: string, root: Block, structures: seq<BlockStructure>,
                       mb: map<string, Block>, kids: seq<string>, added: seq<string>, parentId: Option<string>,
                       regionName: Option<string>, index: Option<int>, prevIndex: Option<nat>)
    requires blockId !in p.blocks && (Given(parentId) ==> parentId.value in p.blocks)
    requires root.parentId == None
    requires |added| > 0 && added[0] == blockId && NoDuplicates(added)
    requires forall x :: x in added ==> x !in p.blocks
    requires mb.Keys == p.blocks.Keys + Members(added) && forall k :: k in p.blocks ==> mb[k] == p.blocks[k]
    requires Mirrors(tab, mb, structures, kids, blockId, Members(added[1..]))
    ensures var a := InsertBlock.Attached(PageData(mb, p.regions), blockId, root.(children := kids),
                                          parentId, regionName, index, prevIndex);
      AttachedOver(tab, p.blocks, a.page.blocks, blockId, root.(children := kids), structures, added, parentId)
  {
    var q := PageData(mb, p.regions);
    var nb := root.(children := kids);
    InsertBlock.AttachedFrame(q, blockId, nb, parentId, regionName, index, prevIndex);
    var ab := InsertBlock.Attached(q, blockId, nb, parentId, regionName, index, prevIndex).page.blocks;
    AttachedMaps(tab, p.blocks, mb, ab, blockId, nb, structures, added, parentId);
  }

  /** What `PresetCreates` states about the final block map `ab`, given the records `pb` before the run. */
  ghost predicate AttachedOver(tab: Registry.Table, pb: map<string, Block>, ab: map<string, Block>, blockId: string,
                               nb: Block, structures: seq<BlockStructure>, added: seq<string>, parentId: Option<string>)
  {
    && (Given(parentId) ==> parentId.value in pb)
    && ab.Keys == pb.Keys + Members(added)
    && |ab| == |pb| + |added|
    && (forall k :: k in pb && Some(k) != parentId ==> ab[k] == pb[k])
    && blockId in ab && ab[blockId] == nb.(parentId := if Given(parentId) then Some(pb[parentId.value].id) else None)
    && Mirrors(tab, ab, structures, nb.children, blockId, Members(added))
  }

  /** `PresetAttached` on the maps alone. */
  lemma AttachedMaps(tab: Registry.Table, pb: map<string, Block>, mb: map<string, Block>, ab: map<string, Block>,
                     blockId: string, nb: Block, structures: seq<BlockStructure>, added: seq<string>,
                     parentId: Option<string>)
    requires blockId !in pb && (Given(parentId) ==> parentId.value in pb)
    requires nb.parentId == None
    requires |added| > 0 && added[0] == blockId && NoDuplicates(added)
    requires forall x :: x in added ==> x !in pb
    requires mb.Keys == pb.Keys + Members(added) && forall k :: k in pb ==> mb[k] == pb[k]
    requires Mirrors(tab, mb, structures, nb.children, blockId, Members(added[1..]))
    requires ab.Keys == mb.Keys + {blockId}
    requires forall k :: k in mb && k != blockId && !(Given(parentId) && parentId.value == k) ==> ab[k] == mb[k]
    requires ab[blockId] == nb.(parentId := if Given(parentId) && parentId.value in mb then Some(mb[parentId.value].id)
                                            else nb.parentId)
    ensures AttachedOver(tab, pb, ab, blockId, nb, structures, added, parentId)
  {
    AddedSplit(added, blockId);
    AttachedBlocks(pb, mb, ab, blockId, parentId, Members(added));
    var below := Members(added[1..]);
    forall k | k in below && k in mb
      ensures k in ab && ab[k] == mb[k]
    {
      assert k in Members(added) && k != blockId;
      assert k !in pb;
    }
    MirrorsFrame(tab, mb, ab, structures, nb.children, blockId, below, Members(added));
  }

  /**
   * `apply` then `revert`, on a page holding none of the ids recorded as
   * created and with a parent (when given) already on it: the block map
   * comes back exactly, every record the run created being deleted, and
   * the regions come back as after an undone plain insert (the default
   * region `apply` had to create stays, empty).
   */
  lemma PresetRoundTrip(tab: Registry.Table, p: PageData, nextId: nat, nextObject: nat,
                        blockType: string, blockId: string, props: Properties,
                        presetIndex: Option<int>, presetData: Option<BlockStructure>,
                        parentId: Option<string>, regionName: Option<string>, index: Option<int>, s: PresetState)
    requires presetData.Some? || presetIndex.Some?
    requires blockId !in p.blocks && FreshFrom(p.blocks, nextId)
    requires forall k: nat :: nextId <= k ==> Ids.IdFor(k) != blockId
    requires forall x :: x in s.created ==> x !in p.blocks
    requires Given(parentId) ==> parentId.value in p.blocks
    requires PresetApplied(tab, p, nextId, nextObject, blockType, blockId, props, presetIndex, presetData,
                           parentId, regionName, index, s).result.Ok?
    ensures var o := PresetApplied(tab, p, nextId, nextObject, blockType, blockId, props, presetIndex, presetData,
                                   parentId, regionName, index, s);
      var r := PresetReverted(o.page, blockId, parentId, regionName, o.state);
      && o.state.inserted.Some?
      && r.1 == Ok(Some(BlockRemoved(blockId, o.state.inserted.value, parentId)))
      && r.0.blocks == p.blocks
      && (r.0.regions == p.regions ||
          (!Given(parentId) && DefaultRegion(p.regions, regionName).Ok? &&
           FindRegion(p.regions, DefaultRegion(p.regions, regionName).value).None? &&
           r.0.regions == p.regions + [Region(DefaultRegion(p.regions, regionName).value, [])]))
  {
    var rs := Root(tab, blockType, blockId, props, presetIndex, presetData, nextObject).value;
    var st0 := Build(p.blocks[blockId := rs.0], nextId, nextObject + 1, s.created + [blockId]);
    var made := Created(tab, st0, rs.1, blockId);
    RunFacts(tab, p, nextId, nextObject, blockId, rs.0, rs.1, s.created);
    var nb := rs.0.(children := made.1);
    var q := PageData(made.0.blocks - {blockId}, p.regions);
    InsertBlock.AttachedOverwrites(PageData(made.0.blocks, p.regions), blockId, nb, parentId, regionName, index,
                                   s.actualIndex);
    InsertBlock.AttachedRoundTrip(q, blockId, nb, parentId, regionName, index, s.actualIndex);
    var a := InsertBlock.Attached(q, blockId, nb, parentId, regionName, index, s.actualIndex);
    DropCreated(p.blocks, made.0.blocks, s.created, made.0.created, blockId);
    RevertedWithout(a.page, Members(made.0.created), blockId, parentId, regionName, a.inserted, a.actualIndex);
  }

  /** Deleting the run's records from the map they were added to leaves the map before the run. */
  lemma DropCreated(pb: map<string, Block>, mb: map<string, Block>, created: seq<string>, all: seq<string>,
                    blockId: string)
    requires |created| <= |all| && all[..|created|] == created
    requires forall x :: x in created ==> x !in pb
    requires forall x :: x in all[|created|..] ==> x !in pb
    requires mb.Keys == pb.Keys + Members(all[|created|..]) && forall k :: k in pb ==> mb[k] == pb[k]
    requires blockId !in pb
    ensures (mb - {blockId}) - Members(all) == pb
    ensures forall k :: k in pb ==> k !in Members(all)
  {
    forall x | x in all
      ensures x !in pb && (x in Members(all[|created|..]) || x in created)
    {
      var i :| 0 <= i < |all| && all[i] == x;
      if i < |created| {
        assert created[i] == x;
      } else {
        assert all[|created|..][i - |created|] == x;
      }
    }
    forall x | x in Members(all[|created|..])
      ensures x in all
    {
      var i :| 0 <= i < |all[|created|..]| && all[|created|..][i] == x;
      assert all[|created| + i] == x;
    }
    assert ((mb - {blockId}) - Members(all)).Keys == pb.Keys;
  }

  /** Deleting ids other than the parent's before `revert` is the same as deleting them after. */
  lemma RevertedWithout(x: PageData, d: set<string>, blockId: string, parentId: Option<string>,
                        regionName: Option<string>, inserted: Option<Block>, actualIndex: Option<nat>)
    requires Given(parentId) ==> parentId.value !in d
    ensures var r1 := InsertBlock.InsertReverted(PageData(x.blocks - d, x.regions), blockId, parentId, regionName,
                                                 inserted, actualIndex);
      var r2 := InsertBlock.InsertReverted(x, blockId, parentId, regionName, inserted, actualIndex);
      r1.1 == r2.1 && r1.0.regions == r2.0.regions && (inserted.Some? ==> r1.0.blocks == r2.0.blocks - d)
  {
    if inserted.Some? && Given(parentId) && parentId.value in x.blocks - {blockId} && actualIndex.Some? {
      var m := x.blocks - {blockId};
      var q := parentId.value;
      var kids := SpliceRemove(m[q].children, actualIndex.value);
      assert (x.blocks - d) - {blockId} == m - d;
      assert WithChildren(m - d, q, kids) == WithChildren(m, q, kids) - d;
    } else if inserted.Some? {
      assert (x.blocks - d) - {blockId} == (x.blocks - {blockId}) - d;
    }
  }

  /** One step of `Created` at position `i` of the list. */
  lemma CreatedStep(tab: Registry.Table, st: Build, ss: seq<BlockStructure>, i: nat, pid: string)
    requires i < |ss|
    ensures var one := CreateOne(tab, st, ss[i], pid);
      var rest := Created(tab, one.0, ss[i + 1..], pid);
      Created(tab, st, ss[i..], pid) == (rest.0, (if one.1.Some? then [one.1.value] else []) + rest.1)
  {
    assert ss[i..][0] == ss[i] && ss[i..][1..] == ss[i + 1..];
  }

  /** Appending one id, then the rest, is appending both. */
  lemma JoinIds(a: seq<string>, x: string, b: seq<string>)
    ensures a + ([x] + b) == (a + [x]) + b
  {
  }

  class InsertFromPresetCommand {
    const page: Page
    const manager: Registry.BlocksManager
    const ids: Ids.IdGenerator
    const blockType: string
    const presetIndex: Option<int>
    const presetData: Option<BlockStructure>
    const parentId: Option<string>
    const regionName: Option<string>
    const index: Option<int>
    const blockId: string
    const properties: Properties
    var insertedBlock: Option<Block>
    var actualIndex: Option<nat>
    var createdBlockIds: seq<string>

    function State(): PresetState
      reads this
    {
      PresetState(insertedBlock, actualIndex, createdBlockIds)
    }

    /** The state `createChildrenFromPreset` works on. */
    function Current(): Build
      reads this, page, ids
    {
      Build(page.blocks, ids.next, page.nextObject, createdBlockIds)
    }

    constructor(page: Page, manager: Registry.BlocksManager, ids: Ids.IdGenerator, blockType: string,
                presetIndex: Option<int>, presetData: Option<BlockStructure>, parentId: Option<string>,
                regionName: Option<string>, index: Option<int>, blockId: string, properties: Properties)
      ensures this.page == page && this.manager == manager && this.ids == ids
      ensures this.blockType == blockType && this.presetIndex == presetIndex && this.presetData == presetData
      ensures this.parentId == parentId && this.regionName == regionName && this.index == index
      ensures this.blockId == blockId && this.properties == properties
      ensures State() == PresetState(None, None, [])
    {
      this.page := page;
      this.manager := manager;
      this.ids := ids;
      this.blockType := blockType;
      this.presetIndex := presetIndex;
      this.presetData := presetData;
      this.parentId := parentId;
      this.regionName := regionName;
      this.index := index;
      this.blockId := blockId;
      this.properties := properties;
      insertedBlock := None;
      actualIndex := None;
      createdBlockIds := [];
    }

    method Apply() returns (r: Result<Event, Error>)
      requires presetData.Some? || presetIndex.Some?
      modifies this, page, ids
      ensures var o := PresetApplied(manager.Data(), old(page.Data()), old(ids.next), old(page.nextObject),
                                     blockType, blockId, properties, presetIndex, presetData,
                                     parentId, regionName, index, old(State()));
        page.Data() == o.page && ids.next == o.nextId && page.nextObject == o.nextObject &&
        State() == o.state && r == o.result
    {
      var rs := PresetRoot();
      if rs.None? {
        return Err(PresetNotFound(presetIndex.value));
      }
      var kids := WriteTree(blockId, rs.value.0, rs.value.1);
      insertedBlock, actualIndex, r :=
        InsertBlock.AttachRecord(page, blockId, rs.value.0.(children := kids), parentId, regionName, index, actualIndex);
    }

    /** The root record, built from the given structure or from the preset the index names. */
    method PresetRoot() returns (rs: Option<(Block, seq<BlockStructure>)>)
      requires presetData.Some? || presetIndex.Some?
      ensures rs == Root(manager.Data(), blockType, blockId, properties, presetIndex, presetData, page.nextObject)
    {
      var schema := Registry.Get(manager.Data(), blockType);
      if presetData.Some? {
        var root := FromStructure(blockType, presetData.value, schema, blockId, properties, None, page.nextObject);
        return Some((root, presetData.value.children));
      }
      var preset := PresetAt(schema, presetIndex.value);
      if preset.None? {
        return None;
      }
      var root := Block(blockType, blockId, properties, None, None, None, [], preset.value.name,
                        None, None, None, page.nextObject);
      rs := Some((root, preset.value.children));
    }

    /** A record is written and recorded as created, then its children are created below it. */
    method WriteTree(id: string, rec: Block, structures: seq<BlockStructure>) returns (kids: seq<string>)
      modifies this`createdBlockIds, page, ids
      decreases SizeAll(structures), 2
      ensures (Current(), kids) ==
              Created(manager.Data(), Build(old(page.blocks)[id := rec], old(ids.next), old(page.nextObject) + 1,
                                            old(createdBlockIds) + [id]), structures, id)
      ensures page.regions == old(page.regions)
    {
      page.nextObject := page.nextObject + 1;
      page.blocks := page.blocks[id := rec];
      createdBlockIds := createdBlockIds + [id];
      kids := [];
      if |structures| > 0 {
        kids := CreateChildren(structures, id);
      }
    }

    /** `createChildrenFromPreset`: the loop over the structures. */
    method CreateChildren(structures: seq<BlockStructure>, pid: string) returns (childIds: seq<string>)
      modifies this`createdBlockIds, page, ids
      decreases SizeAll(structures), 1
      ensures (Current(), childIds) == Created(manager.Data(), old(Current()), structures, pid)
      ensures page.regions == old(page.regions)
    {
      ghost var start := Current();
      childIds := [];
      assert structures[0..] == structures;
      assert Created(manager.Data(), start, structures, pid).1 == childIds + Created(manager.Data(), start, structures, pid).1;
      for i := 0 to |structures|
        invariant Created(manager.Data(), start, structures, pid) ==
                  (Created(manager.Data(), Current(), structures[i..], pid).0,
                   childIds + Created(manager.Data(), Current(), structures[i..], pid).1)
        invariant page.regions == old(page.regions)
      {
        ghost var cur := Current();
        SizeBound(structures, i);
        CreatedStep(manager.Data(), cur, structures, i, pid);
        var c := CreateChild(structures[i], pid);
        ghost var rest := Created(manager.Data(), Current(), structures[i + 1..], pid);
        if c.Some? {
          JoinIds(childIds, c.value, rest.1);
          childIds := childIds + [c.value];
        } else {
          assert [] + rest.1 == rest.1;
        }
      }
      assert structures[|structures|..] == [];
      assert Created(manager.Data(), Current(), [], pid) == (Current(), []);
      assert childIds + [] == childIds;
    }

    /** One iteration of that loop: the id is drawn, the child written and its own children created. */
    method CreateChild(s: BlockStructure, pid: string) returns (c: Option<string>)
      modifies this`createdBlockIds, page, ids
      decreases Size(s), 0
      ensures (Current(), c) == CreateOne(manager.Data(), old(Current()), s, pid)
      ensures page.regions == old(page.regions)
    {
      var childId := ids.Generate();
      var childSchema := Registry.Get(manager.Data(), s.blockType);
      if childSchema.None? {
        return None;
      }
      var props := BuildMergedProperties(childSchema, s.properties);
      var child := FromStructure(s.blockType, s, childSchema, childId, props, Some(pid), page.nextObject);
      var kids := WriteTree(childId, child, s.children);
      page.blocks := page.blocks[childId := page.blocks[childId].(children := kids)];
      c := Some(childId);
    }

    method Revert() returns (r: Result<Option<Event>, Error>)
      modifies page
      ensures (page.Data(), r) == PresetReverted(old(page.Data()), blockId, parentId, regionName, State())
      ensures page.nextObject == old(page.nextObject)
    {
      if insertedBlock.None? {
        return Ok(None);
      }
      for i := 0 to |createdBlockIds|
        invariant page.blocks == old(page.blocks) - Members(createdBlockIds[..i])
        invariant page.regions == old(page.regions) && page.nextObject == old(page.nextObject)
      {
        assert Members(createdBlockIds[..i + 1]) == Members(createdBlockIds[..i]) + {createdBlockIds[i]} by {
          assert createdBlockIds[..i + 1] == createdBlockIds[..i] + [createdBlockIds[i]];
        }
        page.blocks := page.blocks - {createdBlockIds[i]};
      }
      assert createdBlockIds[..|createdBlockIds|] == createdBlockIds;
      page.blocks := page.blocks - {blockId};
      if Given(parentId) {
        if parentId.value in page.blocks && actualIndex.Some? {
          var children := page.blocks[parentId.value].children;
          page.blocks := WithChildren(page.blocks, parentId.value, SpliceRemove(children, actualIndex.value));
        }
      } else {
        var targetRegionName;
        if Given(regionName) {
          targetRegionName := regionName.value;
        } else if page.regions == [] {
          return Err(NoRegions);
        } else {
          targetRegionName := page.regions[0].name;
        }
        var i := FindRegion(page.regions, targetRegionName);
        if i.Some? && actualIndex.Some? {
          page.regions := WithRegionBlocks(page.regions, i.value,
                                           SpliceRemove(page.regions[i.value].blocks, actualIndex.value));
        }
      }
      r := Ok(Some(BlockRemoved(blockId, insertedBlock.value, parentId)));
    }
  }

  /**
   * The constructor: the id is drawn first, even when a check then fails;
   * the command is built only when `Prepared` succeeds.
   */
  method NewInsertFromPreset(page: Page, manager: Registry.BlocksManager, ids: Ids.IdGenerator,
                             blockType: string, presetIndex: Option<int>, presetData: Option<BlockStructure>,
                             parentId: Option<string>, regionName: Option<string>, index: Option<int>)
    returns (r: Result<InsertFromPresetCommand, Error>)
    modifies ids
    ensures ids.next == old(ids.next) + 1
    ensures var prep := Prepared(manager.Data(), blockType, presetIndex, presetData);
      && (r.Err? <==> prep.Err?)
      && (r.Err? ==> r.error == prep.error)
      && (r.Ok? ==> fresh(r.value) && r.value.page == page && r.value.manager == manager && r.value.ids == ids
                    && r.value.blockType == blockType && r.value.presetIndex == presetIndex
                    && r.value.presetData == presetData && r.value.parentId == parentId
                    && r.value.regionName == regionName && r.value.index == index
                    && r.value.blockId == Ids.IdFor(old(ids.next)) && r.value.properties == prep.value
                    && r.value.State() == PresetState(None, None, []))
  {
    var id := ids.Generate();
    if presetIndex.None? && presetData.None? {
      return Err(PresetMissing);
    }
    var schema := Registry.Get(manager.Data(), blockType);
    if schema.None? {
      return Err(NotRegistered(blockType));
    }
    var chosen: Option<Properties>;
    if presetData.Some? {
      chosen := presetData.value.properties;
    } else {
      var preset := PresetAt(schema, presetIndex.value);
      if preset.None? {
        return Err(PresetNotFound(presetIndex.value));
      }
      chosen := preset.value.properties;
    }
    var props := BuildMergedProperties(schema, chosen);
    var cmd := new InsertFromPresetCommand(page, manager, ids, blockType, presetIndex, presetData,
                                           parentId, regionName, index, id, props);
    r := Ok(cmd);
  }
}
