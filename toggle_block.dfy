/**
 * `ToggleBlockCommand`: sets a block's `disabled` flag to a given value, or
 * negates it. `apply` reads the record afresh and keeps a reference to it
 * and the original flag; `revert` writes through that reference.
 */
module ToggleBlock {
  import opened Wrappers
  import opened Types
  import opened Pages

  /** The fields `apply` fills in: the held block object and `originalDisabled`. */
  datatype ToggleState = ToggleState(block: Option<Block>, originalDisabled: Option<bool>)

  /** JavaScript `!disabled`: an undefined flag negates to `true`. */
  function Negated(d: Option<bool>): bool
  {
    d != Some(true)
  }

  /** Whether a block is disabled, with an undefined flag read as `false`. */
  function IsDisabled(d: Option<bool>): bool
  {
    d == Some(true)
  }

  /** `apply()`: the flag becomes the target when one is given, its negation otherwise. */
  function ToggleApplied(p: PageData, id: string, target: Option<bool>, s: ToggleState)
    : (PageData, ToggleState, Result<Event, Error>)
  {
    if id !in p.blocks then (p, s.(block := None), Err(BlockNotFound(id)))
    else
      var b := p.blocks[id];
      var flag := if target.Some? then target.value else Negated(b.disabled);
      var b' := b.(disabled := Some(flag));
      (p.(blocks := p.blocks[id := b']), ToggleState(Some(b'), b.disabled),
       Ok(BlockToggled(id, flag, b.disabled)))
  }

  /** The event `revert` emits: its old value is the target, or the negated original. */
  function RevertEvent(id: string, target: Option<bool>, s: ToggleState, flag: bool): Event
  {
    BlockToggled(id, flag, Some(if target.Some? then target.value else Negated(s.originalDisabled)))
  }

  /**
   * `revert()` as the source writes it: a defined original flag is put
   * back; an undefined one makes `revert` negate the current flag.
   */
  function ToggleRevertedAsWritten(p: PageData, id: string, target: Option<bool>, s: ToggleState)
    : (PageData, ToggleState, Option<Event>)
  {
    if s.block.None? then (p, s, None)
    else
      var b := Live(p, id, s.block.value);
      var flag := if s.originalDisabled.Some? then s.originalDisabled.value else Negated(b.disabled);
      var b' := b.(disabled := Some(flag));
      (WriteBack(p, id, b'), s.(block := Some(b')), Some(RevertEvent(id, target, s, flag)))
  }

  /**
   * `revert()` as intended: the original flag is put back, an undefined
   * one as `false` (the state an undefined flag stands for).
   */
  function ToggleReverted(p: PageData, id: string, target: Option<bool>, s: ToggleState)
    : (PageData, ToggleState, Option<Event>)
  {
    if s.block.None? then (p, s, None)
    else
      var b := Live(p, id, s.block.value);
      var flag := IsDisabled(s.originalDisabled);
      var b' := b.(disabled := Some(flag));
      (WriteBack(p, id, b'), s.(block := Some(b')), Some(RevertEvent(id, target, s, flag)))
  }

  /** A missing block fails and leaves the page as it was. */
  lemma ToggleMissing(p: PageData, id: string, target: Option<bool>, s: ToggleState)
    requires id !in p.blocks
    ensures var a := ToggleApplied(p, id, target, s);
      a.0 == p && a.2 == Err(BlockNotFound(id)) && ToggleReverted(a.0, id, target, a.1).0 == p
  {
  }

  /**
   * `apply` sets the flag to the target, or to the negation of the old flag
   * (undefined counting as not disabled); the event carries the new flag
   * and the old one, and no other field or record changes.
   */
  lemma ToggleSetsFlag(p: PageData, id: string, target: Option<bool>, s: ToggleState)
    requires id in p.blocks
    ensures var a := ToggleApplied(p, id, target, s);
      var before := p.blocks[id];
      var flag := a.0.blocks[id].disabled;
      && flag.Some?
      && (target.Some? ==> flag == target)
      && (target.None? ==> flag.value == !IsDisabled(before.disabled))
      && a.0.blocks == p.blocks[id := before.(disabled := flag)]
      && a.0.regions == p.regions
      && a.1.originalDisabled == before.disabled
      && a.2 == Ok(BlockToggled(id, flag.value, before.disabled))
  {
  }

  /** With a defined original flag, `apply` then `revert` (as written) restores the page. */
  lemma AsWrittenRestoresDefined(p: PageData, id: string, target: Option<bool>, s: ToggleState)
    requires id in p.blocks && p.blocks[id].disabled.Some?
    ensures var a := ToggleApplied(p, id, target, s);
      ToggleRevertedAsWritten(a.0, id, target, a.1).0 == p
  {
    var a := ToggleApplied(p, id, target, s);
    assert a.0.blocks[id := p.blocks[id]] == p.blocks;
  }

  /**
   * With an undefined original flag, `revert` (as written) negates the
   * flag `apply` set: a plain toggle then undo leaves `false`, not undefined.
   */
  lemma AsWrittenNegatesUndefined(p: PageData, id: string, target: Option<bool>, s: ToggleState)
    requires id in p.blocks && p.blocks[id].disabled.None?
    ensures var a := ToggleApplied(p, id, target, s);
      var r := ToggleRevertedAsWritten(a.0, id, target, a.1);
      && r.0.blocks[id].disabled == Some(!a.0.blocks[id].disabled.value)
      && (target.None? ==> r.0.blocks[id].disabled == Some(false))
  {
  }

  /**
   * The discrepancy: enabling a block whose flag is undefined with an
   * explicit `false`, then undoing, leaves it disabled.
   */
  lemma AsWrittenUndoDisables(p: PageData, id: string, s: ToggleState)
    requires id in p.blocks && p.blocks[id].disabled.None?
    ensures var a := ToggleApplied(p, id, Some(false), s);
      var r := ToggleRevertedAsWritten(a.0, id, Some(false), a.1);
      !IsDisabled(p.blocks[id].disabled) && IsDisabled(r.0.blocks[id].disabled)
  {
  }

  /**
   * The intended round trip: `apply` then `revert` gives back the page,
   * except that an undefined flag comes back as `false`; either way the
   * block is exactly as disabled as it was.
   */
  lemma ToggleRoundTrip(p: PageData, id: string, target: Option<bool>, s: ToggleState)
    requires id in p.blocks
    ensures var a := ToggleApplied(p, id, target, s);
      var r := ToggleReverted(a.0, id, target, a.1);
      && IsDisabled(r.0.blocks[id].disabled) == IsDisabled(p.blocks[id].disabled)
      && (p.blocks[id].disabled.Some? ==> r.0 == p)
      && (p.blocks[id].disabled.None? ==>
            r.0 == p.(blocks := p.blocks[id := p.blocks[id].(disabled := Some(false))]))
  {
    var a := ToggleApplied(p, id, target, s);
    var d := p.blocks[id].disabled;
    if d.Some? {
      assert d == Some(d.value);
      if d.value {
        assert IsDisabled(d);
      } else {
        assert !IsDisabled(d);
      }
    }
    assert a.0.blocks[id := p.blocks[id]] == p.blocks;
  }

  class ToggleBlockCommand {
    const page: Page
    const blockId: string
    const targetDisabled: Option<bool>
    var block: Option<Block>
    var originalDisabled: Option<bool>

    function State(): ToggleState
      reads this
    {
      ToggleState(block, originalDisabled)
    }

    constructor(page: Page, blockId: string, disabled: Option<bool>)
      ensures this.page == page && this.blockId == blockId && targetDisabled == disabled
      ensures State() == ToggleState(None, None)
    {
      this.page := page;
      this.blockId := blockId;
      targetDisabled := disabled;
      block := None;
      originalDisabled := None;
    }

    method Apply() returns (r: Result<Event, Error>)
      modifies this, page
      ensures (page.Data(), State(), r) == ToggleApplied(old(page.Data()), blockId, targetDisabled, old(State()))
      ensures page.nextObject == old(page.nextObject)
    {
      if blockId !in page.blocks {
        block := None;
        return Err(BlockNotFound(blockId));
      }
      var b := page.blocks[blockId];
      originalDisabled := b.disabled;
      if targetDisabled.Some? {
        b := b.(disabled := targetDisabled);
      } else {
        b := b.(disabled := Some(Negated(b.disabled)));
      }
      page.blocks := page.blocks[blockId := b];
      block := Some(b);
      r := Ok(BlockToggled(blockId, b.disabled.value, originalDisabled));
    }

    method Revert() returns (e: Option<Event>)
      modifies this, page
      ensures (page.Data(), State(), e) == ToggleRevertedAsWritten(old(page.Data()), blockId, targetDisabled, old(State()))
      ensures page.nextObject == old(page.nextObject)
    {
      if block.None? {
        return None;
      }
      var b := Live(page.Data(), blockId, block.value);
      b := b.(disabled := Some(if originalDisabled.Some? then originalDisabled.value else Negated(b.disabled)));
      if blockId in page.blocks && page.blocks[blockId].objectId == b.objectId {
        page.blocks := page.blocks[blockId := b];
      }
      block := Some(b);
      e := Some(RevertEvent(blockId, targetDisabled, ToggleState(block, originalDisabled), b.disabled.value));
    }
  }
}
