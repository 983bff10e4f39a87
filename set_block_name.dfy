/**
 * `SetBlockNameCommand`: renames a block. The source looks the block up
 * once, when the command is built, keeps that object and its old name, and
 * has `apply` and `revert` write through the kept object. The functions
 * with the `AsWritten` suffix model that, and the command class follows
 * them; once the page has replaced the object (an undone and redone
 * insert), the writes no longer reach the page (`StaleNameAfterRedo`).
 * `NameApplied` and `NameReverted` re-read the record by id, the intended
 * behaviour, and agree with the class while the object is held
 * (`AsWrittenWhileHeld`).
 */
module SetBlockName {
  import opened Wrappers
  import opened Values
  import opened Types
  import opened Pages
  import InsertBlock

  /** `apply()` as written: the name is set on the object held since construction. */
  function NameAppliedAsWritten(p: PageData, id: string, newName: string, oldName: Option<string>,
                                held: Block): (PageData, Block, Event)
  {
    var b := Live(p, id, held).(name := Some(newName));
    (WriteBack(p, id, b), b, BlockUpdated(id, b, "name", Some(newName), oldName))
  }

  /** `revert()` as written: the old name is put back on the held object. */
  function NameRevertedAsWritten(p: PageData, id: string, newName: string, oldName: Option<string>,
                                 held: Block): (PageData, Block, Event)
  {
    var b := Live(p, id, held).(name := oldName);
    (WriteBack(p, id, b), b, BlockUpdated(id, b, "name", oldName, Some(newName)))
  }

  /** `apply()` reading the record by id: a record that is gone is an error. */
  function NameApplied(p: PageData, id: string, newName: string, oldName: Option<string>)
    : (PageData, Result<Event, Error>)
  {
    if id !in p.blocks then (p, Err(BlockNotFound(id)))
    else
      var b := p.blocks[id].(name := Some(newName));
      (p.(blocks := p.blocks[id := b]), Ok(BlockUpdated(id, b, "name", Some(newName), oldName)))
  }

  /** `revert()` reading the record by id: the old name, undefined included, goes back. */
  function NameReverted(p: PageData, id: string, newName: string, oldName: Option<string>)
    : (PageData, Option<Event>)
  {
    if id !in p.blocks then (p, None)
    else
      var b := p.blocks[id].(name := oldName);
      (p.(blocks := p.blocks[id := b]), Some(BlockUpdated(id, b, "name", oldName, Some(newName))))
  }

  /**
   * `apply` sets the name of the block now on the page and changes no
   * other field and no other record.
   */
  lemma NameApplyEffect(p: PageData, id: string, newName: string, oldName: Option<string>)
    requires id in p.blocks
    ensures var a := NameApplied(p, id, newName, oldName);
      && a.0.blocks[id].name == Some(newName)
      && a.0.blocks == p.blocks[id := p.blocks[id].(name := Some(newName))]
      && a.0.regions == p.regions
      && a.1 == Ok(BlockUpdated(id, a.0.blocks[id], "name", Some(newName), oldName))
  {
  }

  /**
   * With the old name captured from the page, `apply` then `revert` gives
   * back the page, and the two events carry the names swapped.
   */
  lemma NameRoundTrip(p: PageData, id: string, newName: string)
    requires id in p.blocks
    ensures var oldName := p.blocks[id].name;
      var a := NameApplied(p, id, newName, oldName);
      var r := NameReverted(a.0, id, newName, oldName);
      && r.0 == p
      && a.1.Ok? && r.1.Some?
      && r.1.value.newName == a.1.value.oldName && r.1.value.oldName == a.1.value.newName
  {
    var a := NameApplied(p, id, newName, p.blocks[id].name);
    assert a.0.blocks[id := p.blocks[id]] == p.blocks;
  }

  /** While the page still holds the kept object, the source's writes are the same as re-reading. */
  lemma AsWrittenWhileHeld(p: PageData, id: string, newName: string, oldName: Option<string>, held: Block)
    requires id in p.blocks && p.blocks[id].objectId == held.objectId
    ensures NameAppliedAsWritten(p, id, newName, oldName, held).0 == NameApplied(p, id, newName, oldName).0
    ensures NameRevertedAsWritten(p, id, newName, oldName, held).0 == NameReverted(p, id, newName, oldName).0
  {
  }

  /**
   * The discrepancy: insert a block, rename it, undo both, redo both. The
   * redone insert creates a new object under the same id, and the redone
   * rename writes to the object kept from the first run, so the block on
   * the page stays unnamed; re-reading by id names it.
   */
  lemma StaleNameAfterRedo()
    ensures var p0 := PageData(map[], [Region("main", [])]);
      var ins1 := InsertBlock.InsertApplied(p0, 0, "text", "b", map[], None, None, None, None);
      var kept := ins1.page.blocks["b"];
      var ren1 := NameAppliedAsWritten(ins1.page, "b", "Title", None, kept);
      var undo1 := NameRevertedAsWritten(ren1.0, "b", "Title", None, ren1.1);
      var undo2 := InsertBlock.InsertReverted(undo1.0, "b", None, None, ins1.inserted, ins1.actualIndex);
      var ins2 := InsertBlock.InsertApplied(undo2.0, 1, "text", "b", map[], None, None, None, ins1.actualIndex);
      var ren2 := NameAppliedAsWritten(ins2.page, "b", "Title", None, undo1.1);
      && ren1.0.blocks["b"].name == Some("Title")
      && "b" in ren2.0.blocks && ren2.0.blocks["b"].name == None
      && NameApplied(ins2.page, "b", "Title", None).0.blocks["b"].name == Some("Title")
  {
    var p0 := PageData(map[], [Region("main", [])]);
    assert FindRegion(p0.regions, "main") == Some(0);
    var ins1 := InsertBlock.InsertApplied(p0, 0, "text", "b", map[], None, None, None, None);
    assert ins1.page.blocks["b"].objectId == 0;
    var kept := ins1.page.blocks["b"];
    var ren1 := NameAppliedAsWritten(ins1.page, "b", "Title", None, kept);
    var undo1 := NameRevertedAsWritten(ren1.0, "b", "Title", None, ren1.1);
    var undo2 := InsertBlock.InsertReverted(undo1.0, "b", None, None, ins1.inserted, ins1.actualIndex);
    assert "b" !in undo2.0.blocks;
    assert FindRegion(undo2.0.regions, "main") == Some(0);
    var ins2 := InsertBlock.InsertApplied(undo2.0, 1, "text", "b", map[], None, None, None, ins1.actualIndex);
    assert ins2.page.blocks["b"].objectId == 1 && ins2.page.blocks["b"].name == None;
  }

  class SetBlockNameCommand {
    const page: Page
    const blockId: string
    const newName: string
    const oldName: Option<string>
    /** The block object looked up when the command was built, as last written through. */
    var block: Block

    constructor(page: Page, blockId: string, newName: string, oldName: Option<string>, block: Block)
      ensures this.page == page && this.blockId == blockId
      ensures this.newName == newName && this.oldName == oldName && this.block == block
    {
      this.page := page;
      this.blockId := blockId;
      this.newName := newName;
      this.oldName := oldName;
      this.block := block;
    }

    /** `apply()`: the new name is written through the held object; it never fails. */
    method Apply() returns (r: Result<Event, Error>)
      modifies this, page
      ensures r.Ok?
      ensures (page.Data(), block, r.value) == NameAppliedAsWritten(old(page.Data()), blockId, newName, oldName, old(block))
      ensures page.nextObject == old(page.nextObject)
    {
      var b := Live(page.Data(), blockId, block).(name := Some(newName));
      if blockId in page.blocks && page.blocks[blockId].objectId == b.objectId {
        page.blocks := page.blocks[blockId := b];
      }
      block := b;
      r := Ok(BlockUpdated(blockId, b, "name", Some(newName), oldName));
    }

    /** `revert()`: the old name, undefined included, is written through the held object. */
    method Revert() returns (e: Option<Event>)
      modifies this, page
      ensures e.Some?
      ensures (page.Data(), block, e.value) == NameRevertedAsWritten(old(page.Data()), blockId, newName, oldName, old(block))
      ensures page.nextObject == old(page.nextObject)
    {
      var b := Live(page.Data(), blockId, block).(name := oldName);
      if blockId in page.blocks && page.blocks[blockId].objectId == b.objectId {
        page.blocks := page.blocks[blockId := b];
      }
      block := b;
      e := Some(BlockUpdated(blockId, b, "name", oldName, Some(newName)));
    }
  }

  /**
   * The constructor's check: building the command for a missing block
   * fails; otherwise the command holds the block now on the page and its
   * name as the old name.
   */
  method NewSetBlockName(page: Page, blockId: string, name: string) returns (r: Result<SetBlockNameCommand, Error>)
    ensures r.Err? <==> blockId !in page.blocks
    ensures r.Err? ==> r.error == BlockNotFound(blockId)
    ensures r.Ok? ==> fresh(r.value) && r.value.page == page && r.value.blockId == blockId &&
                      r.value.newName == name && r.value.block == page.blocks[blockId] &&
                      r.value.oldName == page.blocks[blockId].name
  {
    if blockId !in page.blocks {
      return Err(BlockNotFound(blockId));
    }
    var cmd := new SetBlockNameCommand(page, blockId, name, page.blocks[blockId].name, page.blocks[blockId]);
    r := Ok(cmd);
  }
}
