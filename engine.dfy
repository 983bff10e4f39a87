/**
 * The engine: the façade that validates requests, builds one command per
 * request, applies it and records it in the history; undo and redo run the
 * recorded commands; `setPage` replaces the document, normalises it and
 * clears the history.
 *
 * The engine passes the region option to the commands under the key
 * `regionId` (`targetRegionId` for a move), while the commands read
 * `regionName` (`targetRegionName`). So every command the engine builds
 * has no region name, and a block placed at the top level always goes to
 * the first region. The methods below take the region option and, like
 * the source, do not pass it on.
 */
module Engine {
  import opened Wrappers
  import opened Types
  import opened Lists
  import opened Pages
  import Registry
  import Ids
  import History
  import Export
  import Defaults
  import InsertCommand = InsertBlock
  import PresetCommand = InsertFromPreset
  import RemoveCommand = RemoveBlock
  import MoveCommand = MoveBlock
  import ToggleCommand = ToggleBlock
  import PropertyCommand = SetBlockProperty
  import NameCommand = SetBlockName
  import DuplicateCommand = DuplicateBlock

  /** The capacity of the engine's history: `new HistoryManager()` takes the default. */
  const MaxHistory := 100

  /** The page an engine starts with when none is given: no blocks and one empty `main` region. */
  function DefaultPage(): PageData
  {
    PageData(map[], [Region("main", [])])
  }

  /** A command the history can hold: one of the eight command classes. */
  datatype Command =
    | Insert(insert: InsertCommand.InsertBlockCommand)
    | Preset(preset: PresetCommand.InsertFromPresetCommand)
    | Remove(remove: RemoveCommand.RemoveBlockCommand)
    | Move(move: MoveCommand.MoveBlockCommand)
    | Toggle(toggle: ToggleCommand.ToggleBlockCommand)
    | Property(property: PropertyCommand.SetBlockPropertyCommand)
    | Name(name: NameCommand.SetBlockNameCommand)
    | Duplicate(duplicate: DuplicateCommand.DuplicateBlockCommand)

  /** The command object itself. */
  function Obj(c: Command): object
  {
    match c
    case Insert(x) => x
    case Preset(x) => x
    case Remove(x) => x
    case Move(x) => x
    case Toggle(x) => x
    case Property(x) => x
    case Name(x) => x
    case Duplicate(x) => x
  }

  /** A preset command always has a preset index or preset data: its construction checks that. */
  predicate Ready(c: Command)
  {
    c.Preset? ==> c.preset.presetData.Some? || c.preset.presetIndex.Some?
  }

  /** The error a command step threw, if any. */
  function ErrorOf<T>(r: Result<T, Error>): Option<Error>
  {
    if r.Err? then Some(r.error) else None
  }

  /** What `revert()` of command `c`, in its present state, does to page `p`, and the error it throws. */
  ghost function RevertOf(c: Command, p: PageData): (PageData, Option<Error>)
    reads Obj(c)
  {
    match c
    case Insert(x) =>
      var o := InsertCommand.InsertReverted(p, x.blockId, x.parentId, x.regionName, x.insertedBlock, x.actualIndex);
      (o.0, ErrorOf(o.1))
    case Preset(x) =>
      var o := PresetCommand.PresetReverted(p, x.blockId, x.parentId, x.regionName, x.State());
      (o.0, ErrorOf(o.1))
    case Remove(x) => (RemoveCommand.RemoveReverted(p, x.blockId, x.State()).0, None)
    case Move(x) =>
      (MoveCommand.MoveReverted(p, x.blockId, x.targetParentId, x.targetIndex, x.targetRegionName, x.State()).0, None)
    case Toggle(x) => (ToggleCommand.ToggleRevertedAsWritten(p, x.blockId, x.targetDisabled, x.State()).0, None)
    case Property(x) =>
      (PropertyCommand.PropertyReverted(p, x.blockId, x.propertyKey, x.propertyValue, x.State()).0, None)
    case Name(x) => (NameCommand.NameRevertedAsWritten(p, x.blockId, x.newName, x.oldName, x.block).0, None)
    case Duplicate(x) =>
      var o := DuplicateCommand.DuplicateReverted(p, x.State());
      (o.0, ErrorOf(o.1))
  }

  /**
   * What `apply()` of command `c`, in its present state, does to page `p`
   * with registry `tab` and the counters at `nextId` and `nextObject`, and
   * the error it throws.
   */
  ghost function ApplyOf(c: Command, p: PageData, tab: Registry.Table, nextId: nat, nextObject: nat)
    : (PageData, Option<Error>)
    requires Ready(c)
    reads Obj(c)
  {
    match c
    case Insert(x) =>
      var a := InsertCommand.InsertApplied(p, nextObject, x.blockType, x.blockId, x.properties, x.parentId,
                                           x.regionName, x.index, x.actualIndex);
      (a.page, ErrorOf(a.result))
    case Preset(x) =>
      var o := PresetCommand.PresetApplied(tab, p, nextId, nextObject, x.blockType, x.blockId, x.properties,
                                           x.presetIndex, x.presetData, x.parentId, x.regionName, x.index, x.State());
      (o.page, ErrorOf(o.result))
    case Remove(x) =>
      var o := RemoveCommand.RemoveApplied(p, x.blockId, x.State());
      (o.0, ErrorOf(o.2))
    case Move(x) =>
      var o := MoveCommand.MoveApplied(p, x.blockId, x.targetParentId, x.targetIndex, x.targetRegionName, x.State());
      (o.0, ErrorOf(o.2))
    case Toggle(x) =>
      var o := ToggleCommand.ToggleApplied(p, x.blockId, x.targetDisabled, x.State());
      (o.0, ErrorOf(o.2))
    case Property(x) =>
      var o := PropertyCommand.PropertyApplied(p, x.blockId, x.propertyKey, x.propertyValue, x.State());
      (o.0, ErrorOf(o.2))
    case Name(x) => (NameCommand.NameAppliedAsWritten(p, x.blockId, x.newName, x.oldName, x.block).0, None)
    case Duplicate(x) =>
      var o := DuplicateCommand.DuplicateApplied(p, nextId, nextObject, x.blockId, x.State());
      (o.page, ErrorOf(o.result))
  }

  // ---------------------------------------------------------------------
  // Validation

  /** The parent checks: a given parent must exist and accept the child type. */
  function ParentCheck(tab: Registry.Table, p: PageData, childType: string, parentId: Option<string>): Option<Error>
  {
    if !Given(parentId) then None
    else if parentId.value !in p.blocks then Some(ParentNotFound(parentId.value))
    else
      var parentType := p.blocks[parentId.value].blockType;
      if !Registry.CanBeChild(tab, childType, parentType) then Some(CannotBeChild(childType, parentType))
      else None
  }

  /** `insertBlock`'s and `pasteBlock`'s checks: the type is registered, then the parent checks. */
  function InsertCheck(tab: Registry.Table, p: PageData, blockType: string, parentId: Option<string>): Option<Error>
  {
    if Registry.Get(tab, blockType).None? then Some(NotRegistered(blockType))
    else ParentCheck(tab, p, blockType, parentId)
  }

  /** `insertBlockFromPreset`'s checks: the type is registered, the preset exists, then the parent checks. */
  function PresetCheck(tab: Registry.Table, p: PageData, blockType: string, presetIndex: int,
                       parentId: Option<string>): Option<Error>
  {
    if Registry.Get(tab, blockType).None? then Some(NotRegistered(blockType))
    else if PresetCommand.PresetAt(Registry.Get(tab, blockType), presetIndex).None? then
      Some(PresetNotFound(presetIndex))
    else ParentCheck(tab, p, blockType, parentId)
  }

  /**
   * `moveBlock`'s checks, made only when a target parent is given: it must
   * exist, and it must accept the moved block's type; reading the type of a
   * block that does not exist throws.
   */
  function MoveCheck(tab: Registry.Table, p: PageData, blockId: string, targetParentId: Option<string>)
    : Option<Error>
  {
    if !Given(targetParentId) then None
    else if targetParentId.value !in p.blocks then Some(TargetParentNotFound(targetParentId.value))
    else if blockId !in p.blocks then Some(UnknownBlock)
    else
      var childType := p.blocks[blockId].blockType;
      var parentType := p.blocks[targetParentId.value].blockType;
      if !Registry.CanBeChild(tab, childType, parentType) then Some(CannotBeChild(childType, parentType))
      else None
  }

  /** An insert or paste passes the checks exactly when its type is registered and a given parent exists and accepts it. */
  lemma InsertCheckPasses(tab: Registry.Table, p: PageData, blockType: string, parentId: Option<string>)
    ensures InsertCheck(tab, p, blockType, parentId).None? <==>
      && Registry.Get(tab, blockType).Some?
      && (Given(parentId) ==> parentId.value in p.blocks &&
                              Registry.CanBeChild(tab, blockType, p.blocks[parentId.value].blockType))
  {
  }

  /**
   * A preset insert passes the checks exactly when the preset exists and the
   * parent checks pass; then the command's own construction succeeds too.
   */
  lemma PresetCheckPasses(tab: Registry.Table, p: PageData, blockType: string, presetIndex: int,
                          parentId: Option<string>)
    ensures PresetCheck(tab, p, blockType, presetIndex, parentId).None? <==>
      && PresetCommand.PresetAt(Registry.Get(tab, blockType), presetIndex).Some?
      && ParentCheck(tab, p, blockType, parentId).None?
    ensures PresetCheck(tab, p, blockType, presetIndex, parentId).None? ==>
      PresetCommand.Prepared(tab, blockType, Some(presetIndex), None).Ok?
  {
  }

  /**
   * A move to a parent passes the checks exactly when both blocks exist and
   * the target accepts the block's type; a move without a target parent is
   * not checked.
   */
  lemma MoveCheckPasses(tab: Registry.Table, p: PageData, blockId: string, targetParentId: Option<string>)
    ensures MoveCheck(tab, p, blockId, targetParentId).None? <==>
      (Given(targetParentId) ==>
         && targetParentId.value in p.blocks && blockId in p.blocks
         && Registry.CanBeChild(tab, p.blocks[blockId].blockType, p.blocks[targetParentId.value].blockType))
  {
  }

  // ---------------------------------------------------------------------
  // Where engine requests put a top-level block

  /**
   * An insert through the engine without a parent lands in the first region,
   * whatever region was asked for: the command has no region name. The
   * other regions are untouched.
   */
  lemma InsertGoesToFirstRegion(p: PageData, obj: nat, blockType: string, blockId: string,
                                props: Values.Properties, index: Option<int>)
    requires p.regions != []
    ensures var a := InsertCommand.InsertApplied(p, obj, blockType, blockId, props, None, None, index, None);
      && a.result.Ok?
      && |a.page.regions| == |p.regions|
      && blockId in a.page.regions[0].blocks
      && a.page.regions[0].name == p.regions[0].name
      && forall i :: 0 < i < |p.regions| ==> a.page.regions[i] == p.regions[i]
  {
    var target := EnsureRegion(p.regions, p.regions[0].name);
    assert target == (p.regions, 0);
    var placed := Place(p.regions[0].blocks, index, blockId);
    assert placed.0[placed.1] == blockId;
  }

  /**
   * A move through the engine without a target parent lands in the first
   * region (the regions being named), whatever region was asked for.
   */
  lemma MoveGoesToFirstRegion(p: PageData, blockId: string, targetIndex: Option<int>, s: MoveCommand.MoveState)
    requires NamedRegions(p) && p.regions != [] && blockId in p.blocks
    ensures var o := MoveCommand.MoveApplied(p, blockId, None, targetIndex, None, s);
      && o.2.Ok?
      && |o.0.regions| == |p.regions|
      && blockId in o.0.regions[0].blocks
      && o.0.blocks[blockId].parentId.None?
  {
    var cut := Cut(p, blockId, p.blocks[blockId].parentId);
    CutKeepsNames(p, blockId, p.blocks[blockId].parentId);
    var rn := MoveCommand.TargetRegion(cut.0.regions, None);
    assert rn == Ok(cut.0.regions[0].name);
    var target := EnsureRegion(cut.0.regions, rn.value);
    assert target == (cut.0.regions, 0);
    var placed := Place(cut.0.regions[0].blocks, targetIndex, blockId);
    assert placed.0[placed.1] == blockId;
  }

  /** Cutting a block out keeps every region's name. */
  lemma CutKeepsNames(p: PageData, id: string, parent: Option<string>)
    ensures var cut := Cut(p, id, parent).0;
      |cut.regions| == |p.regions| && forall i :: 0 <= i < |p.regions| ==> cut.regions[i].name == p.regions[i].name
  {
    if !Given(parent) {
      var found := RegionWith(p.regions, id);
    }
  }

  // ---------------------------------------------------------------------
  // setPage: the parentId back-fill

  /** Some record of the original map `m0` lists `k` among its children and has id `pid`. */
  ghost predicate ListedBy(m0: map<string, Block>, k: string, pid: string)
  {
    exists q :: q in m0 && k in m0[q].children && m0[q].id == pid
  }

  /** Record `k` differs from its original at most in a `parentId` naming a block that lists it. */
  ghost predicate SetByLister(m0: map<string, Block>, m: map<string, Block>, k: string)
  {
    && k in m0 && k in m
    && m[k].parentId.Some?
    && m[k] == m0[k].(parentId := m[k].parentId)
    && ListedBy(m0, k, m[k].parentId.value)
  }

  /**
   * The back-fill so far: the same keys, and every record is either its
   * original or had no parent and now names a block that lists it.
   */
  ghost predicate Tracks(m0: map<string, Block>, m: map<string, Block>)
  {
    && m.Keys == m0.Keys
    && forall k :: k in m0 ==> m[k] == m0[k] || (!Given(m0[k].parentId) && SetByLister(m0, m, k))
  }

  /** No record the back-fill has set is lost between two moments. */
  ghost predicate KeepsSet(m0: map<string, Block>, before: map<string, Block>, after: map<string, Block>)
  {
    forall k :: SetByLister(m0, before, k) ==> SetByLister(m0, after, k)
  }

  /** Record `x` has a parent: it had one, or the back-fill set one. */
  ghost predicate Filled(m0: map<string, Block>, m: map<string, Block>, x: string)
  {
    x in m0 && (Given(m0[x].parentId) || SetByLister(m0, m, x))
  }

  /** Every existing child of every record has a parent. */
  ghost predicate BackFilled(m0: map<string, Block>, m: map<string, Block>)
  {
    forall q, x :: q in m0 && x in m0[q].children && x in m0 ==> Filled(m0, m, x)
  }

  /** One write of the back-fill: child `x` of `q`, without a parent, gets `q`'s id as its parent. */
  lemma WriteStep(m0: map<string, Block>, m: map<string, Block>, q: string, x: string)
    requires Tracks(m0, m) && q in m0 && x in m && x in m0[q].children && !Given(m[x].parentId)
    ensures var m' := m[x := m[x].(parentId := Some(m0[q].id))];
      Tracks(m0, m') && KeepsSet(m0, m, m') && SetByLister(m0, m', x)
  {
    var m' := m[x := m[x].(parentId := Some(m0[q].id))];
    assert ListedBy(m0, x, m0[q].id);
    assert SetByLister(m0, m', x);
    forall k | SetByLister(m0, m, k)
      ensures SetByLister(m0, m', k)
    {
      if k != x {
        assert m'[k] == m[k];
      }
    }
  }

  /** What the back-fill has filled stays filled. */
  lemma KeepsFilled(m0: map<string, Block>, before: map<string, Block>, after: map<string, Block>)
    requires KeepsSet(m0, before, after)
    ensures forall x :: Filled(m0, before, x) ==> Filled(m0, after, x)
  {
  }

  /**
   * On a well-formed page a listed record already names its lister as
   * parent, and the lister's key is never empty.
   */
  lemma ListedHasParent(p: PageData, k: string, pid: string)
    requires WellFormed(p) && k in p.blocks && ListedBy(p.blocks, k, pid)
    ensures Given(p.blocks[k].parentId)
  {
    var q :| q in p.blocks && k in p.blocks[q].children && p.blocks[q].id == pid;
    assert p.blocks[k].parentId == Some(q);
  }

  /**
   * The back-fill changes nothing on a well-formed page: every listed block
   * already names its parent. So setting a page read back from the engine
   * gives the same blocks.
   */
  lemma BackFillKeepsWellFormed(p: PageData, m: map<string, Block>)
    requires WellFormed(p) && Tracks(p.blocks, m)
    ensures m == p.blocks
  {
    forall k | k in p.blocks
      ensures m[k] == p.blocks[k]
    {
      if SetByLister(p.blocks, m, k) {
        ListedHasParent(p, k, m[k].parentId.value);
      }
    }
  }

  /**
   * A child whose only lister is `q` and that had no parent gets exactly
   * `q`'s id, and nothing else of it changes.
   */
  lemma BackFillUsesTheLister(m0: map<string, Block>, m: map<string, Block>, q: string, x: string)
    requires Tracks(m0, m) && BackFilled(m0, m)
    requires q in m0 && x in m0[q].children && x in m0 && !Given(m0[x].parentId)
    requires forall q' :: q' in m0 && x in m0[q'].children ==> q' == q
    ensures m[x] == m0[x].(parentId := Some(m0[q].id))
  {
    assert Filled(m0, m, x);
    var q' :| q' in m0 && x in m0[q'].children && m0[q'].id == m[x].parentId.value;
  }

  /** The back-fill never overwrites a parent that was set, and changes nothing but `parentId`. */
  lemma BackFillKeepsParents(m0: map<string, Block>, m: map<string, Block>, k: string)
    requires Tracks(m0, m) && k in m0
    ensures Given(m0[k].parentId) ==> m[k] == m0[k]
    ensures m[k] == m0[k].(parentId := m[k].parentId)
  {
  }

  /** The back-fill does not change what any block exports. */
  lemma BackFillKeepsExport(m0: map<string, Block>, m: map<string, Block>, id: string)
    requires Tracks(m0, m)
    ensures Export.ExportBlock(m, id) == Export.ExportBlock(m0, id)
  {
    assert |m| == |m0| by {
      assert |m.Keys| == |m0.Keys|;
    }
    forall k | k in m0
      ensures m[k].(parentId := m0[k].parentId, isGhost := m0[k].isGhost, objectId := m0[k].objectId) == m0[k]
    {
      BackFillKeepsParents(m0, m, k);
    }
    Export.ExportIgnoresLinks(m0, m, id, |m0|);
  }

  /** `Object.keys(blocks)`: every key once, in some order. */
  method KeyList(m: map<string, Block>) returns (ks: seq<string>)
    ensures NoDuplicates(ks)
    ensures forall k :: k in ks <==> k in m
  {
    var todo := m.Keys;
    ks := [];
    while todo != {}
      invariant todo <= m.Keys
      invariant forall k :: k in ks <==> k in m && k !in todo
      invariant NoDuplicates(ks)
      decreases |todo|
    {
      var k :| k in todo;
      ks := ks + [k];
      todo := todo - {k};
    }
  }

  // ---------------------------------------------------------------------
  // The engine

  class Engine {
    const page: Page
    const manager: Registry.BlocksManager
    const ids: Ids.IdGenerator
    const history: History.HistoryManager<Command>

    /** Command `c` works on this engine's page, registry and id generator. */
    ghost predicate Fits(c: Command)
    {
      && Ready(c)
      && match c
         case Insert(x) => x.page == page
         case Preset(x) => x.page == page && x.manager == manager && x.ids == ids
         case Remove(x) => x.page == page
         case Move(x) => x.page == page
         case Toggle(x) => x.page == page
         case Property(x) => x.page == page
         case Name(x) => x.page == page
         case Duplicate(x) => x.page == page && x.ids == ids
    }

    ghost predicate Valid()
      reads manager, history
    {
      && manager.Valid()
      && history.Valid()
      && history.maxHistorySize == MaxHistory
      && forall i :: 0 <= i < |history.history| ==> Fits(history.history[i])
    }

    /** The recorded command objects, which undo and redo update. */
    ghost function Objects(): set<object>
      reads history
    {
      set c | c in history.history :: Obj(c)
    }

    /** `canUndo()`: on a valid engine, there is a recorded command at the cursor, and it fits this engine. */
    predicate CanUndo()
      reads manager, history
      ensures Valid() && CanUndo() ==>
        0 <= history.currentIndex < |history.history| && Fits(history.history[history.currentIndex])
    {
      history.CanUndo()
    }

    /** `canRedo()`: on a valid engine, there is a recorded command after the cursor, and it fits this engine. */
    predicate CanRedo()
      reads manager, history
      ensures Valid() && CanRedo() ==>
        0 <= history.currentIndex + 1 < |history.history| && Fits(history.history[history.currentIndex + 1])
    {
      history.CanRedo()
    }

    /**
     * `getPage()`: a deep copy of the document. As a value it has every
     * record and region of the page, and no later edit can reach it.
     */
    function GetPage(): (r: PageData)
      reads page
      ensures r.blocks.Keys == page.blocks.Keys && r.regions == page.regions
      ensures forall k :: k in r.blocks ==> r.blocks[k] == page.blocks[k]
    {
      page.Data()
    }

    /** Nothing the engine owns has changed. */
    twostate predicate Unmodified()
      reads page, ids, history
    {
      && page.Data() == old(page.Data()) && page.nextObject == old(page.nextObject)
      && ids.next == old(ids.next) && history.State() == old(history.State())
    }

    /** The engine with an empty default page, an empty registry and an empty history. */
    constructor()
      ensures Valid() && fresh(page) && fresh(manager) && fresh(ids) && fresh(history)
      ensures page.Data() == DefaultPage() && page.nextObject == 0 && ids.next == 0
      ensures manager.Data() == Registry.Table(map[], []) && history.State() == History.HState([], -1)
    {
      page := new Page(DefaultPage(), 0);
      manager := new Registry.BlocksManager();
      ids := new Ids.IdGenerator(0);
      history := new History.HistoryManager(MaxHistory);
    }

    /** `historyManager.addCommand(c)`, which keeps every recorded command fitting this engine. */
    method Record(c: Command)
      requires Valid() && Fits(c)
      modifies history
      ensures Valid()
      ensures history.State() == History.Added(old(history.State()), MaxHistory, c)
      ensures CanUndo() && !CanRedo() && history.history[history.currentIndex] == c
    {
      ghost var h := history.State();
      history.AddCommand(c);
      forall i | 0 <= i < |history.history|
        ensures Fits(history.history[i])
      {
        if i < |history.history| - 1 {
          if h.cursor + 1 < MaxHistory {
            assert history.history[i] == h.history[i];
          } else {
            assert history.history[i] == h.history[i + 1];
          }
        }
      }
    }

    /** Runs `revert()` of a recorded command. */
    method RunRevert(c: Command) returns (err: Option<Error>)
      requires Valid() && Fits(c)
      modifies page, Obj(c)
      ensures Valid() && history.State() == old(history.State())
      ensures (page.Data(), err) == old(RevertOf(c, page.Data()))
    {
      match c
      case Insert(x) =>
        var r := x.Revert();
        err := ErrorOf(r);
      case Preset(x) =>
        var r := x.Revert();
        err := ErrorOf(r);
      case Remove(x) =>
        var _ := x.Revert();
        err := None;
      case Move(x) =>
        var _ := x.Revert();
        err := None;
      case Toggle(x) =>
        var _ := x.Revert();
        err := None;
      case Property(x) =>
        var _ := x.Revert();
        err := None;
      case Name(x) =>
        var _ := x.Revert();
        err := None;
      case Duplicate(x) =>
        var r := x.Revert();
        err := ErrorOf(r);
    }

    /** Runs `apply()` of a recorded command. */
    method RunApply(c: Command) returns (err: Option<Error>)
      requires Valid() && Fits(c)
      modifies page, ids, Obj(c)
      ensures Valid() && history.State() == old(history.State())
      ensures (page.Data(), err) == old(ApplyOf(c, page.Data(), manager.Data(), ids.next, page.nextObject))
    {
      match c
      case Insert(x) =>
        var r := x.Apply();
        err := ErrorOf(r);
      case Preset(x) =>
        var r := x.Apply();
        err := ErrorOf(r);
      case Remove(x) =>
        var r := x.Apply();
        err := ErrorOf(r);
      case Move(x) =>
        var r := x.Apply();
        err := ErrorOf(r);
      case Toggle(x) =>
        var r := x.Apply();
        err := ErrorOf(r);
      case Property(x) =>
        var r := x.Apply();
        err := ErrorOf(r);
      case Name(x) =>
        var r := x.Apply();
        err := ErrorOf(r);
      case Duplicate(x) =>
        var r := x.Apply();
        err := ErrorOf(r);
    }

    /**
     * `undo()`: false with nothing to undo. Otherwise the current command is
     * reverted; if that throws, the cursor stays where it was, else it steps
     * back and the answer is true.
     */
    method Undo() returns (r: Result<bool, Error>)
      requires Valid()
      modifies history, page, Objects()
      ensures Valid()
      ensures !old(CanUndo()) ==> r == Ok(false) && page.Data() == old(page.Data()) &&
                                  history.State() == old(history.State())
      ensures old(CanUndo()) ==>
        var o := old(RevertOf(history.history[history.currentIndex], page.Data()));
        && page.Data() == o.0
        && (o.1.Some? ==> r == Err(o.1.value) && history.State() == old(history.State()))
        && (o.1.None? ==> r == Ok(true) && history.State() == History.Undone(old(history.State())).0)
    {
      if !history.CanUndo() {
        return Ok(false);
      }
      var c := history.history[history.currentIndex];
      var err := RunRevert(c);
      if err.Some? {
        return Err(err.value);
      }
      var _ := history.Undo();
      r := Ok(true);
    }

    /**
     * `redo()`: false with nothing to redo. Otherwise the cursor steps
     * forward and the command it reaches is applied again; the answer is
     * true unless that throws.
     */
    method Redo() returns (r: Result<bool, Error>)
      requires Valid()
      modifies history, page, ids, Objects()
      ensures Valid()
      ensures !old(CanRedo()) ==> r == Ok(false) && page.Data() == old(page.Data()) &&
                                  history.State() == old(history.State())
      ensures old(CanRedo()) ==>
        var o := old(ApplyOf(history.history[history.currentIndex + 1], page.Data(), manager.Data(),
                             ids.next, page.nextObject));
        && page.Data() == o.0
        && history.State() == History.Redone(old(history.State())).0
        && r == (if o.1.Some? then Err(o.1.value) else Ok(true))
    {
      if !history.CanRedo() {
        return Ok(false);
      }
      // The history and the command objects are disjoint, so applying the
      // command before stepping the cursor has the same outcome.
      var err := RunApply(history.history[history.currentIndex + 1]);
      var _ := history.Redo();
      r := if err.Some? then Err(err.value) else Ok(true);
    }

    /**
     * `insertBlock(type, {parentId, regionId, index})`: the checks, then a
     * new insert command with the schema's defaults, applied and recorded;
     * the answer is the new block's id.
     */
    method InsertBlock(blockType: string, parentId: Option<string>, regionId: Option<string>, index: Option<int>)
      returns (r: Result<string, Error>)
      requires Valid()
      modifies page, ids, history
      ensures Valid()
      ensures InsertCheck(manager.Data(), old(page.Data()), blockType, parentId).Some? ==>
        r == Err(InsertCheck(manager.Data(), old(page.Data()), blockType, parentId).value) && Unmodified()
      ensures InsertCheck(manager.Data(), old(page.Data()), blockType, parentId).None? ==>
        var a := InsertCommand.InsertApplied(old(page.Data()), old(page.nextObject), blockType,
                   Ids.IdFor(old(ids.next)), Defaults.SchemaDefaults(Registry.Get(manager.Data(), blockType)),
                   parentId, None, index, None);
        && page.Data() == a.page && ids.next == old(ids.next) + 1 && page.nextObject == old(page.nextObject) + 1
        && (a.result.Err? ==> r == Err(a.result.error) && history.State() == old(history.State()))
        && (a.result.Ok? ==> r == Ok(Ids.IdFor(old(ids.next))) && CanUndo() && !CanRedo() &&
                             history.history[history.currentIndex].Insert? &&
                             history.State() == History.Added(old(history.State()), MaxHistory,
                                                              history.history[history.currentIndex]))
    {
      var check := InsertCheck(manager.Data(), page.Data(), blockType, parentId);
      if check.Some? {
        return Err(check.value);
      }
      var schema := Registry.Get(manager.Data(), blockType);
      var cmd := new InsertCommand.InsertBlockCommand(page, ids, blockType, parentId, None, index, schema);
      var res := cmd.Apply();
      if res.Err? {
        return Err(res.error);
      }
      Record(Insert(cmd));
      r := Ok(cmd.blockId);
    }

    /**
     * `insertBlockFromPreset(type, presetIndex, {parentId, regionId, index})`:
     * the checks, then a preset command, applied and recorded.
     */
    method InsertBlockFromPreset(blockType: string, presetIndex: int, parentId: Option<string>,
                                 regionId: Option<string>, index: Option<int>)
      returns (r: Result<string, Error>)
      requires Valid()
      modifies page, ids, history
      ensures Valid()
      ensures PresetCheck(manager.Data(), old(page.Data()), blockType, presetIndex, parentId).Some? ==>
        r == Err(PresetCheck(manager.Data(), old(page.Data()), blockType, presetIndex, parentId).value) &&
        Unmodified()
      ensures PresetCheck(manager.Data(), old(page.Data()), blockType, presetIndex, parentId).None? ==>
        PresetCommand.Prepared(manager.Data(), blockType, Some(presetIndex), None).Ok? &&
        var o := PresetCommand.PresetApplied(manager.Data(), old(page.Data()), old(ids.next) + 1, old(page.nextObject),
                   blockType, Ids.IdFor(old(ids.next)),
                   PresetCommand.Prepared(manager.Data(), blockType, Some(presetIndex), None).value,
                   Some(presetIndex), None, parentId, None, index, PresetCommand.PresetState(None, None, []));
        && page.Data() == o.page && ids.next == o.nextId && page.nextObject == o.nextObject
        && (o.result.Err? ==> r == Err(o.result.error) && history.State() == old(history.State()))
        && (o.result.Ok? ==> r == Ok(Ids.IdFor(old(ids.next))) && CanUndo() && !CanRedo() &&
                             history.history[history.currentIndex].Preset? &&
                             history.State() == History.Added(old(history.State()), MaxHistory,
                                                              history.history[history.currentIndex]))
    {
      var check := PresetCheck(manager.Data(), page.Data(), blockType, presetIndex, parentId);
      if check.Some? {
        return Err(check.value);
      }
      var made := PresetCommand.NewInsertFromPreset(page, manager, ids, blockType, Some(presetIndex), None,
                                                    parentId, None, index);
      var cmd := made.value;
      var res := cmd.Apply();
      if res.Err? {
        return Err(res.error);
      }
      Record(Command.Preset(cmd));
      r := Ok(cmd.blockId);
    }

    /**
     * `pasteBlock(structure, {parentId, regionId, index})`: the insert
     * checks on the structure's type, then a preset command built from the
     * structure, applied and recorded.
     */
    method PasteBlock(structure: BlockStructure, parentId: Option<string>, regionId: Option<string>,
                      index: Option<int>)
      returns (r: Result<string, Error>)
      requires Valid()
      modifies page, ids, history
      ensures Valid()
      ensures InsertCheck(manager.Data(), old(page.Data()), structure.blockType, parentId).Some? ==>
        r == Err(InsertCheck(manager.Data(), old(page.Data()), structure.blockType, parentId).value) &&
        Unmodified()
      ensures InsertCheck(manager.Data(), old(page.Data()), structure.blockType, parentId).None? ==>
        PresetCommand.Prepared(manager.Data(), structure.blockType, None, Some(structure)).Ok? &&
        var o := PresetCommand.PresetApplied(manager.Data(), old(page.Data()), old(ids.next) + 1, old(page.nextObject),
                   structure.blockType, Ids.IdFor(old(ids.next)),
                   PresetCommand.Prepared(manager.Data(), structure.blockType, None, Some(structure)).value,
                   None, Some(structure), parentId, None, index, PresetCommand.PresetState(None, None, []));
        && page.Data() == o.page && ids.next == o.nextId && page.nextObject == o.nextObject
        && (o.result.Err? ==> r == Err(o.result.error) && history.State() == old(history.State()))
        && (o.result.Ok? ==> r == Ok(Ids.IdFor(old(ids.next))) && CanUndo() && !CanRedo() &&
                             history.history[history.currentIndex].Preset? &&
                             history.State() == History.Added(old(history.State()), MaxHistory,
                                                              history.history[history.currentIndex]))
    {
      var check := InsertCheck(manager.Data(), page.Data(), structure.blockType, parentId);
      if check.Some? {
        return Err(check.value);
      }
      var made := PresetCommand.NewInsertFromPreset(page, manager, ids, structure.blockType, None, Some(structure),
                                                    parentId, None, index);
      var cmd := made.value;
      var res := cmd.Apply();
      if res.Err? {
        return Err(res.error);
      }
      Record(Command.Preset(cmd));
      r := Ok(cmd.blockId);
    }

    /** `removeBlock(id)`: a remove command, applied and recorded; there are no checks. */
    method RemoveBlock(blockId: string) returns (r: Result<(), Error>)
      requires Valid()
      modifies page, history
      ensures Valid() && page.nextObject == old(page.nextObject)
      ensures var o := RemoveCommand.RemoveApplied(old(page.Data()), blockId,
                                                   RemoveCommand.RemoveState(None, None, None, None));
        && page.Data() == o.0
        && (o.2.Err? ==> r == Err(o.2.error) && history.State() == old(history.State()))
        && (o.2.Ok? ==> r == Ok(()) && CanUndo() && !CanRedo() && history.history[history.currentIndex].Remove? &&
                        history.State() == History.Added(old(history.State()), MaxHistory,
                                                         history.history[history.currentIndex]))
    {
      var cmd := new RemoveCommand.RemoveBlockCommand(page, blockId);
      var res := cmd.Apply();
      if res.Err? {
        return Err(res.error);
      }
      Record(Remove(cmd));
      r := Ok(());
    }

    /**
     * `moveBlock(id, {targetParentId, targetIndex, targetRegionId})`: the
     * checks when a target parent is given, then a move command, applied
     * and recorded.
     */
    method MoveBlock(blockId: string, targetParentId: Option<string>, targetIndex: Option<int>,
                     targetRegionId: Option<string>)
      returns (r: Result<(), Error>)
      requires Valid()
      modifies page, history
      ensures Valid() && page.nextObject == old(page.nextObject)
      ensures MoveCheck(manager.Data(), old(page.Data()), blockId, targetParentId).Some? ==>
        r == Err(MoveCheck(manager.Data(), old(page.Data()), blockId, targetParentId).value) && Unmodified()
      ensures MoveCheck(manager.Data(), old(page.Data()), blockId, targetParentId).None? ==>
        var o := MoveCommand.MoveApplied(old(page.Data()), blockId, targetParentId, targetIndex, None,
                                         MoveCommand.MoveState(None, None, None, None));
        && page.Data() == o.0
        && (o.2.Err? ==> r == Err(o.2.error) && history.State() == old(history.State()))
        && (o.2.Ok? ==> r == Ok(()) && CanUndo() && !CanRedo() && history.history[history.currentIndex].Move? &&
                        history.State() == History.Added(old(history.State()), MaxHistory,
                                                         history.history[history.currentIndex]))
    {
      var check := MoveCheck(manager.Data(), page.Data(), blockId, targetParentId);
      if check.Some? {
        return Err(check.value);
      }
      var cmd := new MoveCommand.MoveBlockCommand(page, blockId, targetParentId, targetIndex, None);
      var res := cmd.Apply();
      if res.Err? {
        return Err(res.error);
      }
      Record(Move(cmd));
      r := Ok(());
    }

    /** `toggleBlock(id, disabled?)`: a toggle command, applied and recorded. */
    method ToggleBlock(blockId: string, disabled: Option<bool>) returns (r: Result<(), Error>)
      requires Valid()
      modifies page, history
      ensures Valid() && page.nextObject == old(page.nextObject)
      ensures var o := ToggleCommand.ToggleApplied(old(page.Data()), blockId, disabled,
                                                   ToggleCommand.ToggleState(None, None));
        && page.Data() == o.0
        && (o.2.Err? ==> r == Err(o.2.error) && history.State() == old(history.State()))
        && (o.2.Ok? ==> r == Ok(()) && CanUndo() && !CanRedo() && history.history[history.currentIndex].Toggle? &&
                        history.State() == History.Added(old(history.State()), MaxHistory,
                                                         history.history[history.currentIndex]))
    {
      var cmd := new ToggleCommand.ToggleBlockCommand(page, blockId, disabled);
      var res := cmd.Apply();
      if res.Err? {
        return Err(res.error);
      }
      Record(Toggle(cmd));
      r := Ok(());
    }

    /** `setBlockProperty(id, key, value)`: a property command, applied and recorded. */
    method SetBlockProperty(blockId: string, propertyKey: string, propertyValue: Option<Values.Value>)
      returns (r: Result<(), Error>)
      requires Valid()
      modifies page, history
      ensures Valid() && page.nextObject == old(page.nextObject)
      ensures var o := PropertyCommand.PropertyApplied(old(page.Data()), blockId, propertyKey, propertyValue,
                                                       PropertyCommand.PropertyState(None, None));
        && page.Data() == o.0
        && (o.2.Err? ==> r == Err(o.2.error) && history.State() == old(history.State()))
        && (o.2.Ok? ==> r == Ok(()) && CanUndo() && !CanRedo() &&
                        history.history[history.currentIndex].Property? &&
                        history.State() == History.Added(old(history.State()), MaxHistory,
                                                         history.history[history.currentIndex]))
    {
      var cmd := new PropertyCommand.SetBlockPropertyCommand(page, blockId, propertyKey, propertyValue);
      var res := cmd.Apply();
      if res.Err? {
        return Err(res.error);
      }
      Record(Property(cmd));
      r := Ok(());
    }

    /**
     * `setBlockName(id, name)`: building the command fails for a missing
     * block; otherwise it is applied and recorded.
     */
    method SetBlockName(blockId: string, name: string) returns (r: Result<(), Error>)
      requires Valid()
      modifies page, history
      ensures Valid() && page.nextObject == old(page.nextObject)
      ensures blockId !in old(page.blocks) ==> r == Err(BlockNotFound(blockId)) && Unmodified()
      ensures blockId in old(page.blocks) ==>
        && page.Data() == NameCommand.NameApplied(old(page.Data()), blockId, name, old(page.blocks[blockId].name)).0
        && r == Ok(()) && CanUndo() && !CanRedo() && history.history[history.currentIndex].Name?
        && history.State() == History.Added(old(history.State()), MaxHistory, history.history[history.currentIndex])
    {
      var made := NameCommand.NewSetBlockName(page, blockId, name);
      if made.Err? {
        return Err(made.error);
      }
      var cmd := made.value;
      NameCommand.AsWrittenWhileHeld(page.Data(), blockId, name, cmd.oldName, cmd.block);
      var _ := cmd.Apply();
      Record(Name(cmd));
      r := Ok(());
    }

    /**
     * `duplicateBlock(id)`: a duplicate command, applied and recorded; the
     * answer is the copy's id.
     */
    method DuplicateBlock(blockId: string) returns (r: Result<string, Error>)
      requires Valid()
      modifies page, ids, history
      ensures Valid()
      ensures var o := DuplicateCommand.DuplicateApplied(old(page.Data()), old(ids.next), old(page.nextObject), blockId,
                                                         DuplicateCommand.DupState(None, None, None, None, None));
        && page.Data() == o.page && ids.next == o.nextId && page.nextObject == o.nextObject
        && (o.result.Err? ==> r == Err(o.result.error) && history.State() == old(history.State()))
        && (o.result.Ok? ==> r == Ok(Ids.IdFor(old(ids.next))) && CanUndo() && !CanRedo() &&
                             history.history[history.currentIndex].Duplicate? &&
                             history.State() == History.Added(old(history.State()), MaxHistory,
                                                              history.history[history.currentIndex]))
    {
      var first := ids.next;
      var cmd := DuplicateCommand.NewDuplicateBlock(page, ids, blockId);
      var res := cmd.Apply();
      if res.Err? {
        return Err(res.error);
      }
      Record(Duplicate(cmd));
      r := Ok(Ids.IdFor(first));
    }

    /**
     * `processBlock(block)` for the record under `id`: every existing child
     * without a parent gets this record's id as parent, then is processed
     * in turn. False when the depth bound is reached (a cycle, where the
     * source recurses without end); never when `rank` ranks the records and
     * the depth is above the rank of `id`.
     */
    method ProcessBlock(ghost m0: map<string, Block>, ghost rank: map<string, nat>, id: string, fuel: nat)
      returns (done: bool)
      requires Tracks(m0, page.blocks)
      modifies page`blocks
      decreases fuel, 0
      ensures Tracks(m0, page.blocks) && KeepsSet(m0, old(page.blocks), page.blocks)
      ensures done && id in m0 ==> forall x :: x in m0[id].children && x in m0 ==> Filled(m0, page.blocks, x)
      ensures RankedBy(m0, rank) && (id in m0 ==> rank[id] < fuel) ==> done
    {
      if id !in page.blocks {
        return true;
      }
      if fuel == 0 {
        return false;
      }
      var kids := page.blocks[id].children;
      var parent := page.blocks[id].id;
      assert kids == m0[id].children && parent == m0[id].id;
      var i := 0;
      while i < |kids|
        invariant 0 <= i <= |kids|
        invariant Tracks(m0, page.blocks) && KeepsSet(m0, old(page.blocks), page.blocks)
        invariant forall x :: x in kids[..i] && x in m0 ==> Filled(m0, page.blocks, x)
      {
        ghost var before := page.blocks;
        var d := Visit(m0, rank, id, parent, kids[i], fuel - 1);
        if !d {
          return false;
        }
        KeepsFilled(m0, before, page.blocks);
        assert kids[..i + 1] == kids[..i] + [kids[i]];
        i := i + 1;
      }
      assert kids[..|kids|] == kids;
      done := true;
    }

    /**
     * One child `x` of record `q` (whose id is `parent`): when it exists and
     * has no parent it gets `parent`, then it is processed.
     */
    method Visit(ghost m0: map<string, Block>, ghost rank: map<string, nat>, ghost q: string, parent: string,
                 x: string, fuel: nat)
      returns (done: bool)
      requires Tracks(m0, page.blocks) && q in m0 && x in m0[q].children && parent == m0[q].id
      modifies page`blocks
      decreases fuel, 1
      ensures Tracks(m0, page.blocks) && KeepsSet(m0, old(page.blocks), page.blocks)
      ensures done && x in m0 ==> Filled(m0, page.blocks, x)
      ensures RankedBy(m0, rank) && (x in m0 ==> rank[x] < fuel) ==> done
    {
      if x !in page.blocks {
        return true;
      }
      if !Given(page.blocks[x].parentId) {
        WriteStep(m0, page.blocks, q, x);
        page.blocks := page.blocks[x := page.blocks[x].(parentId := Some(parent))];
      }
      assert Filled(m0, page.blocks, x);
      ghost var mid := page.blocks;
      done := ProcessBlock(m0, rank, x, fuel);
      KeepsFilled(m0, mid, page.blocks);
    }

    /**
     * `initializeParentChildRelationships()`: every record is processed in
     * turn; false when one of them reached the depth bound, which a page
     * without cycles never does.
     */
    method InitializeParentChildRelationships() returns (done: bool)
      modifies page`blocks
      ensures Tracks(old(page.blocks), page.blocks)
      ensures done ==> BackFilled(old(page.blocks), page.blocks)
      ensures Acyclic(old(page.blocks)) ==> done
    {
      ghost var m0 := page.blocks;
      ghost var rank: map<string, nat> := map[];
      if Acyclic(m0) {
        rank :| RankedBy(m0, rank);
      }
      var todo := page.blocks.Keys;
      while todo != {}
        invariant todo <= m0.Keys
        invariant Tracks(m0, page.blocks)
        invariant forall q, x :: q in m0 && q !in todo && x in m0[q].children && x in m0 ==> Filled(m0, page.blocks, x)
        decreases |todo|
      {
        var k :| k in todo;
        ghost var before := page.blocks;
        var d := ProcessBlock(m0, rank, k, |page.blocks|);
        if !d {
          return false;
        }
        KeepsFilled(m0, before, page.blocks);
        todo := todo - {k};
      }
      done := true;
    }

    /**
     * `setPage(newPage)`: the page is replaced by a copy of `data`; without
     * regions, one `main` region listing every block id is made; parents
     * are back-filled; then the history is cleared. A back-fill that runs
     * into a cycle throws, and the history is kept; a page without cycles
     * is always accepted.
     */
    method SetPage(data: PageData) returns (r: Result<(), Error>)
      requires Valid()
      modifies page, history
      ensures Valid() && page.nextObject == old(page.nextObject)
      ensures data.regions != [] ==> page.regions == data.regions
      ensures data.regions == [] ==>
        && |page.regions| == 1 && page.regions[0].name == "main"
        && NoDuplicates(page.regions[0].blocks)
        && forall k :: k in page.regions[0].blocks <==> k in data.blocks
      ensures Tracks(data.blocks, page.blocks)
      ensures r.Ok? ==> BackFilled(data.blocks, page.blocks) && history.State() == History.HState([], -1)
      ensures r.Err? ==> r.error == Diverges && history.State() == old(history.State())
      ensures Acyclic(data.blocks) ==> r.Ok?
      ensures r.Ok? && WellFormed(data) && data.regions != [] ==> GetPage() == data
    {
      page.blocks := data.blocks;
      page.regions := data.regions;
      if page.regions == [] {
        var ks := KeyList(page.blocks);
        page.regions := [Region("main", ks)];
      }
      var done := InitializeParentChildRelationships();
      if !done {
        return Err(Diverges);
      }
      history.Clear();
      if WellFormed(data) {
        BackFillKeepsWellFormed(data, page.blocks);
      }
      r := Ok(());
    }
  }

  /** The registry entries `config.blockSchemas` gives, keyed by each schema's type. */
  function Entries(schemas: seq<BlockSchema>): (r: seq<(string, BlockSchema)>)
    ensures |r| == |schemas| && forall i :: 0 <= i < |schemas| ==> r[i] == (schemas[i].blockType, schemas[i])
  {
    if schemas == [] then [] else [(schemas[0].blockType, schemas[0])] + Entries(schemas[1..])
  }

  /**
   * `new Engine({page, blockSchemas})`: the page (or the default one) is
   * set, then every schema is registered under its type, the first
   * duplicate type throwing. With the default page, or any page without
   * cycles, only a duplicate type can make it fail.
   */
  method NewEngine(data: Option<PageData>, schemas: seq<BlockSchema>) returns (r: Result<Engine, Error>)
    ensures r.Ok? ==>
      && fresh(r.value) && r.value.Valid()
      && r.value.history.State() == History.HState([], -1)
      && r.value.ids.next == 0 && r.value.page.nextObject == 0
      && Tracks(data.GetOr(DefaultPage()).blocks, r.value.page.blocks)
      && (data.Some? && data.value.regions != [] ==> r.value.page.regions == data.value.regions)
      && r.value.manager.Data() == Registry.RegisteredAll(Registry.Table(map[], []), Entries(schemas)).0
    ensures r.Err? ==>
      r.error == Diverges || Registry.RegisteredAll(Registry.Table(map[], []), Entries(schemas)).1 == Some(r.error)
    ensures Acyclic(data.GetOr(DefaultPage()).blocks) ==>
      (r.Err? <==> Registry.RegisteredAll(Registry.Table(map[], []), Entries(schemas)).1.Some?)
  {
    if data.None? {
      EmptyAcyclic(DefaultPage().blocks);
    }
    var e := new Engine();
    var s := e.SetPage(data.GetOr(DefaultPage()));
    if s.Err? {
      return Err(s.error);
    }
    var failure := e.manager.RegisterMany(Entries(schemas));
    if failure.Some? {
      return Err(failure.value);
    }
    r := Ok(e);
  }
}
