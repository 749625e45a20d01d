/**
 * The editor's undo history (History.ts): two stacks of labelled mementos.
 * `add` pushes on the undo stack; `undo` and `redo` move the top pair from one
 * stack to the other after asking the editor to restore its memento.
 */
module UndoHistory {
  import opened Wrappers
  import Clone

  // ---------------------------------------------------------------------
  // Mementos: plain records of the editor's state, held by reference

  datatype GeometryMemento = GeometryMemento(
    drawModel: Clone.Value,
    geometryModel: Clone.Value,
    scene: Clone.Value,
    name2topologyItem: Clone.Value)

  datatype SelectionMemento = SelectionMemento(
    selectedSolids: Clone.Value,
    selectedChildren: Clone.Value,
    selectedEdges: Clone.Value,
    selectedFaces: Clone.Value,
    selectedCurves: Clone.Value)

  datatype SnapMemento = SnapMemento(begPoints: Clone.Value, midPoints: Clone.Value)

  datatype Memento = Memento(db: GeometryMemento, selection: SelectionMemento, snaps: SnapMemento)

  /** A `[name, memento]` pair; the top of a stack is its last element. */
  type Entry = (string, Memento)

  datatype Stacks = Stacks(undo: seq<Entry>, redo: seq<Entry>)

  /** What `editor.restoreFromMemento` did: returned, or threw an error that `undo`/`redo` pass on. */
  datatype RestoreOutcome = RestoreReturned | RestoreThrew(error: string)

  /**
   * What one `undo` or `redo` does: the boolean it returns (false when it threw),
   * the stacks after it, the memento handed to the editor, if any, and the error
   * the editor threw, if any.
   */
  datatype Move = Move(ok: bool, stacks: Stacks, restore: Option<Memento>, thrown: Option<string>)

  function Top(s: seq<Entry>): Entry
    requires s != []
  {
    s[|s| - 1]
  }

  function Pop(s: seq<Entry>): seq<Entry>
    requires s != []
  {
    s[..|s| - 1]
  }

  /**
   * `undo()`: nothing to pop gives false and changes nothing; otherwise the top
   * pair is popped and its memento restored, and only when the editor returns is
   * the pair pushed onto the redo stack. A throwing restore loses the pair.
   */
  function UndoMove(s: Stacks, editor: RestoreOutcome): (m: Move)
    ensures s.undo == [] ==> m == Move(false, s, None, None)
    ensures m.restore.Some? <==> s.undo != []
    ensures s.undo != [] ==> m.restore == Some(Top(s.undo).1) && m.stacks.undo == Pop(s.undo)
    ensures m.ok ==> m.stacks.redo == s.redo + [Top(s.undo)]
    ensures m.ok <==> s.undo != [] && editor.RestoreReturned?
    ensures m.thrown.Some? <==> s.undo != [] && editor.RestoreThrew?
    ensures m.ok ==> |m.stacks.undo| + |m.stacks.redo| == |s.undo| + |s.redo|
    ensures m.thrown.Some? ==> m.stacks.redo == s.redo && |m.stacks.undo| == |s.undo| - 1
  {
    if s.undo == [] then Move(false, s, None, None)
    else
      var top := Top(s.undo);
      match editor
      case RestoreReturned => Move(true, Stacks(Pop(s.undo), s.redo + [top]), Some(top.1), None)
      case RestoreThrew(e) => Move(false, Stacks(Pop(s.undo), s.redo), Some(top.1), Some(e))
  }

  /** `redo()`: the mirror image of `undo()`. */
  function RedoMove(s: Stacks, editor: RestoreOutcome): (m: Move)
    ensures s.redo == [] ==> m == Move(false, s, None, None)
    ensures m.restore.Some? <==> s.redo != []
    ensures s.redo != [] ==> m.restore == Some(Top(s.redo).1) && m.stacks.redo == Pop(s.redo)
    ensures m.ok ==> m.stacks.undo == s.undo + [Top(s.redo)]
    ensures m.ok <==> s.redo != [] && editor.RestoreReturned?
    ensures m.thrown.Some? <==> s.redo != [] && editor.RestoreThrew?
    ensures m.ok ==> |m.stacks.undo| + |m.stacks.redo| == |s.undo| + |s.redo|
    ensures m.thrown.Some? ==> m.stacks.undo == s.undo && |m.stacks.redo| == |s.redo| - 1
  {
    if s.redo == [] then Move(false, s, None, None)
    else
      var top := Top(s.redo);
      match editor
      case RestoreReturned => Move(true, Stacks(s.undo + [top], Pop(s.redo)), Some(top.1), None)
      case RestoreThrew(e) => Move(false, Stacks(s.undo, Pop(s.redo)), Some(top.1), Some(e))
  }

  /** The call's result: the boolean, or the editor's error passed on. */
  function Outcome(m: Move): Result<bool, string>
  {
    match m.thrown
    case Some(e) => Failure(e)
    case None => Success(m.ok)
  }

  function Restored(m: Move): seq<Memento>
  {
    match m.restore
    case Some(x) => [x]
    case None => []
  }

  class History {
    var undoStack: seq<Entry>
    var redoStack: seq<Entry>
    /** The mementos handed to `editor.restoreFromMemento`, in call order. */
    var restored: seq<Memento>
    /** How many times `historyChanged` was dispatched. */
    ghost var historyChanged: nat

    function Current(): Stacks
      reads this
    {
      Stacks(undoStack, redoStack)
    }

    constructor ()
      ensures Current() == Stacks([], []) && restored == [] && historyChanged == 0
    {
      undoStack := [];
      redoStack := [];
      restored := [];
      historyChanged := 0;
    }

    method Add(name: string, state: Memento)
      modifies this
      ensures undoStack == old(undoStack) + [(name, state)]
      ensures redoStack == old(redoStack)
      ensures restored == old(restored) && historyChanged == old(historyChanged)
    {
      undoStack := undoStack + [(name, state)];
    }

    /** `editor` is what `restoreFromMemento` does when it is called. */
    method Undo(editor: RestoreOutcome) returns (r: Result<bool, string>)
      modifies this
      ensures var m := UndoMove(old(Current()), editor);
        && r == Outcome(m)
        && Current() == m.stacks
        && restored == old(restored) + Restored(m)
        && historyChanged == old(historyChanged) + (if m.ok then 1 else 0)
    {
      if undoStack == [] {
        return Success(false);
      }
      var undo := undoStack[|undoStack| - 1];
      undoStack := undoStack[..|undoStack| - 1];
      restored := restored + [undo.1];
      if editor.RestoreThrew? {
        return Failure(editor.error);
      }
      redoStack := redoStack + [undo];
      historyChanged := historyChanged + 1;
      return Success(true);
    }

    method Redo(editor: RestoreOutcome) returns (r: Result<bool, string>)
      modifies this
      ensures var m := RedoMove(old(Current()), editor);
        && r == Outcome(m)
        && Current() == m.stacks
        && restored == old(restored) + Restored(m)
        && historyChanged == old(historyChanged) + (if m.ok then 1 else 0)
    {
      if redoStack == [] {
        return Success(false);
      }
      var redo := redoStack[|redoStack| - 1];
      redoStack := redoStack[..|redoStack| - 1];
      restored := restored + [redo.1];
      if editor.RestoreThrew? {
        return Failure(editor.error);
      }
      undoStack := undoStack + [redo];
      historyChanged := historyChanged + 1;
      return Success(true);
    }
  }

  // ---------------------------------------------------------------------
  // Properties

  /** An `undo` that succeeds is taken back by a `redo`, which restores the same memento again. */
  lemma UndoThenRedo(s: Stacks)
    requires s.undo != []
    ensures RedoMove(UndoMove(s, RestoreReturned).stacks, RestoreReturned).ok
    ensures RedoMove(UndoMove(s, RestoreReturned).stacks, RestoreReturned).stacks == s
    ensures RedoMove(UndoMove(s, RestoreReturned).stacks, RestoreReturned).restore == UndoMove(s, RestoreReturned).restore
  {
    var t := UndoMove(s, RestoreReturned).stacks;
    assert Pop(t.redo) == s.redo;
    assert Pop(s.undo) + [Top(s.undo)] == s.undo;
  }

  /** A `redo` that succeeds is taken back by an `undo`. */
  lemma RedoThenUndo(s: Stacks)
    requires s.redo != []
    ensures UndoMove(RedoMove(s, RestoreReturned).stacks, RestoreReturned).ok
    ensures UndoMove(RedoMove(s, RestoreReturned).stacks, RestoreReturned).stacks == s
    ensures UndoMove(RedoMove(s, RestoreReturned).stacks, RestoreReturned).restore == RedoMove(s, RestoreReturned).restore
  {
    var t := RedoMove(s, RestoreReturned).stacks;
    assert Pop(t.undo) == s.undo;
    assert Pop(s.redo) + [Top(s.redo)] == s.redo;
  }

  /** `undo` restores the memento most recently added, provided nothing was undone since. */
  lemma UndoRestoresLastAdded(s: Stacks, name: string, state: Memento)
    ensures var m := UndoMove(Stacks(s.undo + [(name, state)], s.redo), RestoreReturned);
      m.ok && m.restore == Some(state) && m.stacks == Stacks(s.undo, s.redo + [(name, state)])
  {
    assert Pop(s.undo + [(name, state)]) == s.undo;
  }

  /**
   * `add` leaves the redo stack alone, so a `redo` after an `add` still replays
   * the pair that was undone before it.
   */
  lemma RedoAfterAddReplaysUndone(s: Stacks, name: string, state: Memento)
    requires s.undo != []
    ensures var t := UndoMove(s, RestoreReturned).stacks;
      var m := RedoMove(Stacks(t.undo + [(name, state)], t.redo), RestoreReturned);
      m.ok && m.restore == Some(Top(s.undo).1)
      && m.stacks.undo == Pop(s.undo) + [(name, state), Top(s.undo)]
  {
  }

  function Reversed(s: seq<Entry>): (r: seq<Entry>)
    ensures |r| == |s|
  {
    if s == [] then [] else [Top(s)] + Reversed(Pop(s))
  }

  /** The whole history, oldest first: the undo stack and then the redo stack read from its top down. */
  function Timeline(s: Stacks): seq<Entry>
  {
    s.undo + Reversed(s.redo)
  }

  /** An `undo` or a `redo` whose `restoreFromMemento` returns. */
  datatype Op = UndoOp | RedoOp

  function Apply(s: Stacks, op: Op): Stacks
  {
    match op
    case UndoOp => UndoMove(s, RestoreReturned).stacks
    case RedoOp => RedoMove(s, RestoreReturned).stacks
  }

  function Run(s: Stacks, ops: seq<Op>): Stacks
    decreases |ops|
  {
    if ops == [] then s else Run(Apply(s, ops[0]), ops[1..])
  }

  lemma ApplyKeepsTimeline(s: Stacks, op: Op)
    ensures Timeline(Apply(s, op)) == Timeline(s)
  {
    match op {
      case UndoOp =>
        if s.undo != [] {
          var x := Top(s.undo);
          assert Pop(s.redo + [x]) == s.redo;
          assert Reversed(s.redo + [x]) == [x] + Reversed(s.redo);
          assert Pop(s.undo) + ([x] + Reversed(s.redo)) == (Pop(s.undo) + [x]) + Reversed(s.redo);
          assert Pop(s.undo) + [x] == s.undo;
        }
      case RedoOp =>
        if s.redo != [] {
          var x := Top(s.redo);
          assert Reversed(s.redo) == [x] + Reversed(Pop(s.redo));
          assert (s.undo + [x]) + Reversed(Pop(s.redo)) == s.undo + ([x] + Reversed(Pop(s.redo)));
        }
    }
  }

  /** An `undo` whose restore throws drops the pair it popped from the history, and only that pair. */
  lemma UndoThrowLosesEntry(s: Stacks, e: string)
    requires s.undo != []
    ensures var t := Timeline(s);
      var u := Timeline(UndoMove(s, RestoreThrew(e)).stacks);
      |s.undo| <= |t| && u == t[..|s.undo| - 1] + t[|s.undo|..]
  {
    var t := Timeline(s);
    assert t[..|s.undo| - 1] == Pop(s.undo);
    assert t[|s.undo|..] == Reversed(s.redo);
  }

  /** A `redo` whose restore throws drops the pair it popped from the history, and only that pair. */
  lemma RedoThrowLosesEntry(s: Stacks, e: string)
    requires s.redo != []
    ensures var t := Timeline(s);
      var u := Timeline(RedoMove(s, RestoreThrew(e)).stacks);
      |s.undo| < |t| && u == t[..|s.undo|] + t[|s.undo| + 1..]
  {
    var t := Timeline(s);
    assert Reversed(s.redo) == [Top(s.redo)] + Reversed(Pop(s.redo));
    assert t[..|s.undo|] == s.undo;
    assert t[|s.undo| + 1..] == Reversed(Pop(s.redo));
  }

  /**
   * However many `undo`s and `redo`s run, the history neither gains nor loses
   * an entry nor changes its order: only the split point between the stacks moves.
   */
  lemma {:induction false} RunKeepsTimeline(s: Stacks, ops: seq<Op>)
    ensures Timeline(Run(s, ops)) == Timeline(s)
    ensures |Run(s, ops).undo| + |Run(s, ops).redo| == |s.undo| + |s.redo|
    decreases |ops|
  {
    if ops != [] {
      ApplyKeepsTimeline(s, ops[0]);
      RunKeepsTimeline(Apply(s, ops[0]), ops[1..]);
    }
  }

  /** `k` successful `undo`s followed by `k` `redo`s give back the stacks they started from. */
  lemma {:induction false} UndoAllThenRedoAll(s: Stacks, k: nat)
    requires k <= |s.undo|
    ensures Run(s, Repeat(UndoOp, k) + Repeat(RedoOp, k)) == s
    decreases k
  {
    if k > 0 {
      var t := UndoMove(s, RestoreReturned).stacks;
      UndoThenRedo(s);
      assert Repeat(UndoOp, k) + Repeat(RedoOp, k) == [UndoOp] + (Repeat(UndoOp, k - 1) + Repeat(RedoOp, k - 1) + [RedoOp]);
      RunAppend(t, Repeat(UndoOp, k - 1) + Repeat(RedoOp, k - 1), [RedoOp]);
      UndoAllThenRedoAll(t, k - 1);
    }
  }

  function Repeat(op: Op, k: nat): (ops: seq<Op>)
    ensures |ops| == k
    ensures forall i :: 0 <= i < k ==> ops[i] == op
  {
    if k == 0 then [] else [op] + Repeat(op, k - 1)
  }

  lemma {:induction false} RunAppend(s: Stacks, a: seq<Op>, b: seq<Op>)
    ensures Run(s, a + b) == Run(Run(s, a), b)
    decreases |a|
  {
    if a == [] {
      assert a + b == b;
    } else {
      assert (a + b)[1..] == a[1..] + b;
      RunAppend(Apply(s, a[0]), a[1..], b);
    }
  }
}
