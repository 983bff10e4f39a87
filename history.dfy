/**
 * The bounded undo/redo history: a list of commands and a cursor naming the
 * last applied one (-1 when none is). Adding a command discards the redo
 * branch and, at capacity, evicts the oldest entry. The manager does not run
 * commands itself in this model: `Undo` and `Redo` hand back the command the
 * source would revert or re-apply, and the engine runs it.
 */
module History {
  import opened Wrappers

  datatype HState<C> = HState(history: seq<C>, cursor: int)

  /** The manager's invariant, for a capacity of at least one. */
  ghost predicate Inv<C>(h: HState<C>, max: int)
  {
    1 <= max && -1 <= h.cursor < |h.history| <= max
  }

  /** `canUndo()`. */
  predicate Undoable<C>(h: HState<C>)
  {
    h.cursor >= 0
  }

  /** `canRedo()`. */
  predicate Redoable<C>(h: HState<C>)
  {
    h.cursor < |h.history| - 1
  }

  /**
   * `addCommand(cmd)`: the entries up to the cursor are kept, the oldest of
   * them dropped if they already fill the capacity, and `cmd` becomes the
   * last entry and the current one.
   */
  function Added<C>(h: HState<C>, max: int, cmd: C): (r: HState<C>)
    requires Inv(h, max)
    ensures Inv(r, max)
    ensures r.history != [] && r.cursor == |r.history| - 1 && r.history[r.cursor] == cmd
    ensures Undoable(r) && !Redoable(r)
    ensures h.cursor + 1 < max ==> r.history == h.history[..h.cursor + 1] + [cmd]
    ensures h.cursor + 1 == max ==> r.history == h.history[1..] + [cmd] && |r.history| == max
  {
    var kept := h.history[..h.cursor + 1];
    var kept := if |kept| >= max then kept[1..] else kept;
    HState(kept + [cmd], |kept|)
  }

  /**
   * `undo()`: with nothing to undo the state is unchanged and no command is
   * returned; otherwise the current command is returned and the cursor
   * steps back.
   */
  function Undone<C>(h: HState<C>): (r: (HState<C>, Option<C>))
    requires -1 <= h.cursor < |h.history|
    ensures !Undoable(h) ==> r == (h, None)
    ensures Undoable(h) ==> r.1 == Some(h.history[h.cursor]) &&
                            r.0.history == h.history && r.0.cursor == h.cursor - 1 && Redoable(r.0)
  {
    if h.cursor < 0 then (h, None)
    else (HState(h.history, h.cursor - 1), Some(h.history[h.cursor]))
  }

  /**
   * `redo()`: with nothing to redo the state is unchanged and no command is
   * returned; otherwise the cursor steps forward and the command it reaches
   * is returned.
   */
  function Redone<C>(h: HState<C>): (r: (HState<C>, Option<C>))
    requires -1 <= h.cursor < |h.history|
    ensures !Redoable(h) ==> r == (h, None)
    ensures Redoable(h) ==> r.1 == Some(h.history[h.cursor + 1]) &&
                            r.0.history == h.history && r.0.cursor == h.cursor + 1 && Undoable(r.0)
  {
    if h.cursor >= |h.history| - 1 then (h, None)
    else (HState(h.history, h.cursor + 1), Some(h.history[h.cursor + 1]))
  }

  /** Undo then redo returns to the same state and hands back the same command. */
  lemma UndoThenRedo<C>(h: HState<C>, max: int)
    requires Inv(h, max) && Undoable(h)
    ensures Inv(Undone(h).0, max)
    ensures Redone(Undone(h).0) == (h, Undone(h).1)
  {
  }

  /** Redo then undo returns to the same state and hands back the same command. */
  lemma RedoThenUndo<C>(h: HState<C>, max: int)
    requires Inv(h, max) && Redoable(h)
    ensures Inv(Redone(h).0, max)
    ensures Undone(Redone(h).0) == (h, Redone(h).1)
  {
  }

  /**
   * At capacity with nothing undone, adding evicts the oldest command: the
   * size stays at the capacity and undoing every entry never reaches the
   * evicted one.
   */
  lemma AddAtCapacityEvicts<C>(h: HState<C>, max: int, cmd: C)
    requires Inv(h, max) && |h.history| == max && h.cursor == max - 1
    ensures |Added(h, max, cmd).history| == max
    ensures Added(h, max, cmd).history == h.history[1..] + [cmd]
  {
  }

  /** After any number of undos, adding a command leaves nothing to redo. */
  lemma AddAfterUndosTruncates<C>(h: HState<C>, max: int, cmd: C)
    requires Inv(h, max) && Redoable(h)
    ensures !Redoable(Added(h, max, cmd))
    ensures |Added(h, max, cmd).history| <= h.cursor + 2
  {
  }

  class HistoryManager<C> {
    var history: seq<C>
    var currentIndex: int
    const maxHistorySize: int

    function State(): HState<C>
      reads this
    {
      HState(history, currentIndex)
    }

    ghost predicate Valid()
      reads this
    {
      Inv(State(), maxHistorySize)
    }

    constructor(maxHistorySize: int)
      requires maxHistorySize >= 1
      ensures Valid() && this.maxHistorySize == maxHistorySize
      ensures State() == HState([], -1)
    {
      this.maxHistorySize := maxHistorySize;
      history := [];
      currentIndex := -1;
    }

    method AddCommand(cmd: C)
      requires Valid()
      modifies this
      ensures Valid()
      ensures State() == Added(old(State()), maxHistorySize, cmd)
    {
      if currentIndex < |history| - 1 {
        history := history[..currentIndex + 1];
      }
      if |history| >= maxHistorySize {
        history := history[1..];
        currentIndex := currentIndex - 1;
      }
      history := history + [cmd];
      currentIndex := currentIndex + 1;
    }

    method Undo() returns (cmd: Option<C>)
      requires Valid()
      modifies this
      ensures Valid()
      ensures (State(), cmd) == Undone(old(State()))
    {
      if !CanUndo() {
        return None;
      }
      cmd := Some(history[currentIndex]);
      currentIndex := currentIndex - 1;
    }

    method Redo() returns (cmd: Option<C>)
      requires Valid()
      modifies this
      ensures Valid()
      ensures (State(), cmd) == Redone(old(State()))
    {
      if !CanRedo() {
        return None;
      }
      currentIndex := currentIndex + 1;
      cmd := Some(history[currentIndex]);
    }

    /** `canUndo()`: on a valid history, there is a command at the cursor to revert. */
    predicate CanUndo()
      reads this
      ensures Valid() ==> (CanUndo() <==> 0 <= currentIndex < |history|)
    {
      Undoable(State())
    }

    /** `canRedo()`: on a valid history, there is a command just after the cursor to apply again. */
    predicate CanRedo()
      reads this
      ensures Valid() ==> (CanRedo() <==> 0 <= currentIndex + 1 < |history|)
    {
      Redoable(State())
    }

    method Clear()
      requires Valid()
      modifies this
      ensures Valid()
      ensures State() == HState([], -1) && !CanUndo() && !CanRedo()
    {
      history := [];
      currentIndex := -1;
    }

    function CurrentIndex(): int
      reads this
    {
      currentIndex
    }

    function HistorySize(): nat
      reads this
    {
      |history|
    }
  }
}
