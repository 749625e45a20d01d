/**
 * The command lifecycle of `GeometryFactory`: a five-state machine driven by
 * `update`, `commit`, `cancel` and `finish`, plus the `transaction` helper that
 * snapshots chosen fields after a successful callback and rolls them back when
 * a later callback throws.
 *
 * The subclass hooks `doUpdate`, `doCommit` and `doCancel`, and the callback of
 * `transaction`, are not visible here: each call receives what the hook did
 * (returned, or threw an error) as a parameter. Signals and hook runs are
 * recorded, with the state the factory was in at that moment, in a ghost trace.
 */
module Factory {
  import Wrappers

  /**
   * The five declared states, plus `undefined`: what `previous.get("state")`
   * assigns when the snapshot of a transaction threw before recording the state.
   */
  datatype State = None | Updated | Failed | Cancelled | Committed | Undefined

  /** The states from which `update` runs `doUpdate`. */
  predicate Live(s: State)
  {
    s == None || s == Updated || s == Failed
  }

  /** The states from which `commit` and `finish` are allowed. */
  predicate Committable(s: State)
  {
    s == None || s == Updated
  }

  /** A committed scene item, as `doCommit` hands it back. */
  type ItemId = nat

  /** What `doUpdate`, `doCancel` or a transaction callback did. */
  datatype HookOutcome = Returned | Threw(error: string)

  /** What `doCommit` did: produced scene items, or threw. */
  datatype CommitOutcome = Produced(items: seq<ItemId>) | CommitThrew(error: string)

  datatype FactoryError =
    | InvalidState(state: State)   // 'invalid state: <state>'
    | Rethrown(error: string)      // an error a hook threw, passed on unchanged

  datatype Event = FactoryUpdatedSignal | DoUpdate | FactoryCommittedSignal | DoCommit | DoCancel

  /** An event, with the state the factory was in when it happened. */
  datatype Effect = Effect(event: Event, seen: State)

  /** The result of one lifecycle call: the new state, what ran, what was returned or thrown. */
  datatype Step<T> = Step(state: State, effects: seq<Effect>, result: Wrappers.Result<T, FactoryError>)

  // ---------------------------------------------------------------------
  // The lifecycle calls as functions of the state (Factory.ts:18-75)

  function UpdateStep(s: State, doUpdate: HookOutcome): (r: Step<()>)
    ensures Live(s) ==> r.effects == [Effect(FactoryUpdatedSignal, s), Effect(DoUpdate, s)]
    ensures Live(s) && doUpdate.Returned? ==> r.state == Updated && r.result.Success?
    ensures Live(s) && doUpdate.Threw? ==> r.state == Failed && r.result == Wrappers.Failure(Rethrown(doUpdate.error))
    ensures !Live(s) ==> r == Step(s, [], Wrappers.Failure(InvalidState(s)))
  {
    match s
    case None | Failed | Updated =>
      var ran := [Effect(FactoryUpdatedSignal, s), Effect(DoUpdate, s)];
      (match doUpdate
       case Returned => Step(Updated, ran, Wrappers.Success(()))
       case Threw(e) => Step(Failed, ran, Wrappers.Failure(Rethrown(e))))
    case _ => Step(s, [], Wrappers.Failure(InvalidState(s)))
  }

  function CommitStep(s: State, doCommit: CommitOutcome): (r: Step<seq<ItemId>>)
    ensures Committable(s) ==> r.state == Committed
    ensures Committable(s) ==> r.effects == [Effect(FactoryCommittedSignal, Committed), Effect(DoCommit, Committed)]
    ensures Committable(s) && doCommit.Produced? ==> r.result == Wrappers.Success(doCommit.items)
    ensures Committable(s) && doCommit.CommitThrew? ==> r.result == Wrappers.Failure(Rethrown(doCommit.error))
    ensures !Committable(s) ==> r == Step(s, [], Wrappers.Failure(InvalidState(s)))
  {
    match s
    case None | Updated =>
      var ran := [Effect(FactoryCommittedSignal, Committed), Effect(DoCommit, Committed)];
      (match doCommit
       case Produced(items) => Step(Committed, ran, Wrappers.Success(items))
       case CommitThrew(e) => Step(Committed, ran, Wrappers.Failure(Rethrown(e))))
    case _ => Step(s, [], Wrappers.Failure(InvalidState(s)))
  }

  function CancelStep(s: State, doCancel: HookOutcome): (r: Step<()>)
    ensures r.state == s
    ensures s == Updated ==> r.effects == [Effect(DoCancel, Updated)]
    ensures s == Updated ==> (r.result.Success? <==> doCancel.Returned?)
    ensures s == Updated && doCancel.Threw? ==> r.result == Wrappers.Failure(Rethrown(doCancel.error))
    ensures s == None || s == Cancelled || s == Failed ==> r.effects == [] && r.result.Success?
    ensures s == Committed || s == Undefined ==> r.effects == [] && r.result == Wrappers.Failure(InvalidState(s))
  {
    match s
    case Updated =>
      (match doCancel
       case Returned => Step(s, [Effect(DoCancel, s)], Wrappers.Success(()))
       case Threw(e) => Step(s, [Effect(DoCancel, s)], Wrappers.Failure(Rethrown(e))))
    case None | Cancelled | Failed => Step(s, [], Wrappers.Success(()))
    case Committed | Undefined => Step(s, [], Wrappers.Failure(InvalidState(s)))
  }

  function FinishStep(s: State, doCommit: CommitOutcome): (r: Step<()>)
    ensures r.state == CommitStep(s, doCommit).state && r.effects == CommitStep(s, doCommit).effects
    ensures r.result.Success? <==> CommitStep(s, doCommit).result.Success?
    ensures CommitStep(s, doCommit).result.Failure? ==> r.result == Wrappers.Failure(CommitStep(s, doCommit).result.error)
    ensures !Committable(s) ==> r.result == Wrappers.Failure(InvalidState(s))
  {
    match s
    case None | Updated =>
      var c := CommitStep(s, doCommit);
      (match c.result
       case Success(_) => Step(c.state, c.effects, Wrappers.Success(()))
       case Failure(e) => Step(c.state, c.effects, Wrappers.Failure(e)))
    case _ => Step(s, [], Wrappers.Failure(InvalidState(s)))
  }

  // ---------------------------------------------------------------------
  // The transaction helper (Factory.ts:77-101)

  /** A field of the concrete command; `state` is kept apart. */
  type FieldName = s: string | s != "state" witness "radius"

  /** A name in the `keys` of `transaction`: any property of the factory, `state` included. */
  type Key = string

  /** The rollback point: the listed fields and the state after the last successful callback. */
  datatype Snapshot<V> = Snapshot(values: map<FieldName, V>, state: State)

  /**
   * What a transaction callback did before it returned or threw: the fields it
   * wrote, and the state it left if it drove the lifecycle.
   */
  datatype Callback<V> = Callback(writes: map<FieldName, V>, setsState: Wrappers.Option<State>, outcome: HookOutcome)

  /** The factory's data: the state, the subclass fields (absent = undefined) and `previous`. */
  datatype FactoryData<V> = FactoryData(state: State, fields: map<FieldName, V>, previous: Wrappers.Option<Snapshot<V>>)

  /** The `previous` map the success branch builds: each listed key's current value. */
  function SnapshotOf<V>(fields: map<FieldName, V>, keys: seq<Key>): (m: map<FieldName, V>)
    ensures forall k: FieldName :: k in m <==> k in keys && k in fields
    ensures forall k :: k in m ==> m[k] == fields[k]
  {
    if keys == [] then map[]
    else
      var m := SnapshotOf(fields, keys[..|keys| - 1]);
      var k := keys[|keys| - 1];
      if k != "state" && k in fields then m[k := fields[k]] else m
  }

  /**
   * The value `previous.get("state")` has after the snapshot loop copied the keys
   * `copied`: the state if `state` was among them, otherwise undefined.
   */
  function PartialState(s: State, copied: seq<Key>): (r: State)
    ensures r == s || r == Undefined
    ensures "state" in copied ==> r == s
    ensures "state" !in copied ==> r == Undefined
  {
    if "state" in copied then s else Undefined
  }

  /**
   * The rollback loop: every listed key is written back from the snapshot,
   * undefined if it has none. A listed `state` is the state, which the catch
   * writes back once more after the loop (`RolledBack`).
   */
  function RestoreKeys<V>(fields: map<FieldName, V>, saved: map<FieldName, V>, keys: seq<Key>): (r: map<FieldName, V>)
    ensures forall k: FieldName :: k in keys ==> (k in r <==> k in saved)
    ensures forall k: FieldName :: k in keys && k in saved ==> r[k] == saved[k]
    ensures forall k: FieldName :: k !in keys ==> (k in r <==> k in fields)
    ensures forall k: FieldName :: k !in keys && k in fields ==> r[k] == fields[k]
  {
    if keys == [] then fields
    else
      var r := RestoreKeys(fields, saved, keys[..|keys| - 1]);
      var k := keys[|keys| - 1];
      if k == "state" then r
      else if k in saved then r[k := saved[k]] else r - {k}
  }

  /**
   * Where the snapshot loop throws: the first listed key whose value is defined
   * and cannot be copied, or `|keys|` when every copy succeeds.
   */
  function FirstUncopyable<V>(fields: map<FieldName, V>, keys: seq<Key>, uncopyable: set<FieldName>): (i: nat)
    ensures i <= |keys|
    ensures forall j :: 0 <= j < i ==> !(keys[j] in fields && keys[j] in uncopyable)
    ensures i < |keys| ==> keys[i] in fields && keys[i] in uncopyable
  {
    if keys == [] then 0
    else if keys[0] in fields && keys[0] in uncopyable then 0
    else 1 + FirstUncopyable(fields, keys[1..], uncopyable)
  }

  /** The catch branch's rollback from the snapshot `p`. */
  function RolledBack<V>(d: FactoryData<V>, p: Snapshot<V>, keys: seq<Key>): FactoryData<V>
  {
    d.(fields := RestoreKeys(d.fields, p.values, keys), state := p.state)
  }

  /** The callback's own effect on the factory, before `transaction` reacts to its outcome. */
  function AfterCallback<V>(d: FactoryData<V>, cb: Callback<V>): FactoryData<V>
  {
    var s := match cb.setsState case Some(t) => t case None => d.state;
    FactoryData(s, d.fields + cb.writes, d.previous)
  }

  /**
   * `transaction(keys, cb)`. After a returning callback the new snapshot replaces
   * `previous` key by key; a listed field in `uncopyable` (a `null`, on which
   * `'clone' in` throws, or an object whose `clone()` throws) stops it, and the
   * catch then rolls back from the partial snapshot, which holds "state" only if
   * `state` was listed before the throwing key. A listed `state` is a string, so
   * copying it never throws.
   */
  function TransactionStep<V>(d: FactoryData<V>, keys: seq<Key>, cb: Callback<V>, uncopyable: set<FieldName>): FactoryData<V>
  {
    var a := AfterCallback(d, cb);
    match cb.outcome
    case Returned =>
      var stop := FirstUncopyable(a.fields, keys, uncopyable);
      if stop == |keys| then a.(previous := Wrappers.Some(Snapshot(SnapshotOf(a.fields, keys), a.state)))
      else
        var p := Snapshot(SnapshotOf(a.fields, keys[..stop]), PartialState(a.state, keys[..stop]));
        RolledBack(a.(previous := Wrappers.Some(p)), p, keys)
    case Threw(_) =>
      match a.previous
      case Some(p) => RolledBack(a, p, keys)
      case None => a
  }

  // ---------------------------------------------------------------------
  // The factory object

  class GeometryFactory<V> {
    var state: State
    /** The concrete command's fields other than `state`; a missing name reads as undefined. */
    var fields: map<FieldName, V>
    var previous: Wrappers.Option<Snapshot<V>>
    /** Signals dispatched and hooks run, in order. */
    ghost var trace: seq<Effect>

    function Data(): FactoryData<V>
      reads this
    {
      FactoryData(state, fields, previous)
    }

    constructor (initial: map<FieldName, V>)
      ensures state == None && fields == initial && previous == Wrappers.None && trace == []
    {
      state := None;
      fields := initial;
      previous := Wrappers.None;
      trace := [];
    }

    method Finish(doCommit: CommitOutcome) returns (r: Wrappers.Result<(), FactoryError>)
      modifies this`state, this`trace
      ensures state == FinishStep(old(state), doCommit).state
      ensures trace == old(trace) + FinishStep(old(state), doCommit).effects
      ensures r == FinishStep(old(state), doCommit).result
    {
      match state
      case None | Updated =>
        var c := Commit(doCommit);
        match c {
          case Success(_) => r := Wrappers.Success(());
          case Failure(e) => r := Wrappers.Failure(e);
        }
      case _ =>
        r := Wrappers.Failure(InvalidState(state));
    }

    method Update(doUpdate: HookOutcome) returns (r: Wrappers.Result<(), FactoryError>)
      modifies this`state, this`trace
      ensures state == UpdateStep(old(state), doUpdate).state
      ensures trace == old(trace) + UpdateStep(old(state), doUpdate).effects
      ensures r == UpdateStep(old(state), doUpdate).result
    {
      match state
      case None | Failed | Updated =>
        trace := trace + [Effect(FactoryUpdatedSignal, state)];
        trace := trace + [Effect(DoUpdate, state)];
        match doUpdate {
          case Returned =>
            state := Updated;
            r := Wrappers.Success(());
          case Threw(e) =>
            state := Failed;
            r := Wrappers.Failure(Rethrown(e));
        }
      case _ =>
        r := Wrappers.Failure(InvalidState(state));
    }

    method Commit(doCommit: CommitOutcome) returns (r: Wrappers.Result<seq<ItemId>, FactoryError>)
      modifies this`state, this`trace
      ensures state == CommitStep(old(state), doCommit).state
      ensures trace == old(trace) + CommitStep(old(state), doCommit).effects
      ensures r == CommitStep(old(state), doCommit).result
    {
      match state
      case None | Updated =>
        state := Committed;
        trace := trace + [Effect(FactoryCommittedSignal, state)];
        trace := trace + [Effect(DoCommit, state)];
        match doCommit {
          case Produced(items) => r := Wrappers.Success(items);
          case CommitThrew(e) => r := Wrappers.Failure(Rethrown(e));
        }
      case _ =>
        r := Wrappers.Failure(InvalidState(state));
    }

    method Cancel(doCancel: HookOutcome) returns (r: Wrappers.Result<(), FactoryError>)
      modifies this`trace
      ensures trace == old(trace) + CancelStep(state, doCancel).effects
      ensures r == CancelStep(state, doCancel).result
    {
      match state
      case Updated =>
        // doCancel runs, then control falls through to the no-op cases
        trace := trace + [Effect(DoCancel, state)];
        match doCancel {
          case Returned => r := Wrappers.Success(());
          case Threw(e) => r := Wrappers.Failure(Rethrown(e));
        }
      case None | Cancelled | Failed =>
        r := Wrappers.Success(());
      case Committed | Undefined =>
        r := Wrappers.Failure(InvalidState(state));
    }

    /** Runs the callback; never throws. `uncopyable` names the fields whose copy would throw. */
    method Transaction(keys: seq<Key>, cb: Callback<V>, uncopyable: set<FieldName>)
      modifies this`state, this`fields, this`previous
      ensures Data() == TransactionStep(old(Data()), keys, cb, uncopyable)
    {
      fields := fields + cb.writes;
      match cb.setsState {
        case Some(t) => state := t;
        case None =>
      }
      var threw := cb.outcome.Threw?;
      if !threw {
        var saved, complete, stateCopied := CollectSnapshot(fields, keys, uncopyable);
        assert keys[..|keys|] == keys;
        previous := Wrappers.Some(Snapshot(saved, if complete || stateCopied then state else Undefined));
        threw := !complete;
      }
      if threw && previous.Some? {
        var p := previous.value;
        fields := WriteBack(fields, p.values, keys);
        state := p.state;
      }
    }
  }

  /**
   * The success branch's loop: `previous[key] = this[key]` for each listed key
   * that is defined, until a value that cannot be copied throws.
   */
  method CollectSnapshot<V>(fields: map<FieldName, V>, keys: seq<Key>, uncopyable: set<FieldName>)
    returns (saved: map<FieldName, V>, complete: bool, stateCopied: bool)
    ensures var stop := FirstUncopyable(fields, keys, uncopyable);
      && complete == (stop == |keys|)
      && saved == SnapshotOf(fields, keys[..stop])
      && stateCopied == ("state" in keys[..stop])
  {
    saved := map[];
    stateCopied := false;
    var i := 0;
    while i < |keys| && !(keys[i] in fields && keys[i] in uncopyable)
      invariant i <= FirstUncopyable(fields, keys, uncopyable)
      invariant saved == SnapshotOf(fields, keys[..i])
      invariant stateCopied == ("state" in keys[..i])
    {
      assert keys[..i + 1] == keys[..i] + [keys[i]];
      var key := keys[i];
      if key == "state" {
        stateCopied := true;
      } else if key in fields {
        var name: FieldName := key;
        saved := saved[name := fields[name]];
      }
      i := i + 1;
    }
    complete := i == |keys|;
  }

  /** The rollback loop: `this[key] = previous[key]` for each listed key. */
  method WriteBack<V>(fields: map<FieldName, V>, saved: map<FieldName, V>, keys: seq<Key>) returns (r: map<FieldName, V>)
    ensures r == RestoreKeys(fields, saved, keys)
  {
    r := fields;
    for i := 0 to |keys|
      invariant r == RestoreKeys(fields, saved, keys[..i])
    {
      assert keys[..i + 1][..i] == keys[..i];
      var key := keys[i];
      if key != "state" {
        var name: FieldName := key;
        if name in saved {
          r := r[name := saved[name]];
        } else {
          r := r - {name};
        }
      }
    }
    assert keys[..|keys|] == keys;
  }

  // ---------------------------------------------------------------------
  // Properties of the lifecycle

  /** One lifecycle call whose error, if any, the caller catches before making the next. */
  datatype Op = UpdateOp(doUpdate: HookOutcome) | CommitOp(doCommit: CommitOutcome)
              | CancelOp(doCancel: HookOutcome) | FinishOp(finishCommit: CommitOutcome)

  function Apply(s: State, op: Op): (State, seq<Effect>)
  {
    match op
    case UpdateOp(h) => var t := UpdateStep(s, h); (t.state, t.effects)
    case CommitOp(c) => var t := CommitStep(s, c); (t.state, t.effects)
    case CancelOp(h) => var t := CancelStep(s, h); (t.state, t.effects)
    case FinishOp(c) => var t := FinishStep(s, c); (t.state, t.effects)
  }

  /** The final state and the whole trace of a sequence of calls. */
  function Run(s: State, ops: seq<Op>): (State, seq<Effect>)
    decreases |ops|
  {
    if ops == [] then (s, [])
    else
      var first := Apply(s, ops[0]);
      var rest := Run(first.0, ops[1..]);
      (rest.0, first.1 + rest.1)
  }

  function Count(effects: seq<Effect>, ev: Event): nat
  {
    if effects == [] then 0 else (if effects[0].event == ev then 1 else 0) + Count(effects[1..], ev)
  }

  lemma {:induction false} CountAppend(a: seq<Effect>, b: seq<Effect>, ev: Event)
    ensures Count(a + b, ev) == Count(a, ev) + Count(b, ev)
  {
    if a == [] {
      assert a + b == b;
    } else {
      assert (a + b)[1..] == a[1..] + b;
      CountAppend(a[1..], b, ev);
    }
  }

  /** Committing twice: the second call throws the invalid-state error and runs nothing. */
  lemma CommitTwiceThrows(s: State, first: CommitOutcome, second: CommitOutcome)
    requires Committable(s)
    ensures CommitStep(CommitStep(s, first).state, second) == Step(Committed, [], Wrappers.Failure(InvalidState(Committed)))
  {
  }

  /** From `committed`, every call throws and nothing runs: the state is terminal. */
  lemma {:induction false} CommittedIsTerminal(ops: seq<Op>)
    ensures Run(Committed, ops) == (Committed, [])
    decreases |ops|
  {
    if ops != [] {
      assert Apply(Committed, ops[0]) == (Committed, []);
      CommittedIsTerminal(ops[1..]);
      assert Run(Committed, ops).0 == Committed;
      assert Run(Committed, ops).1 == [];
    }
  }

  /** Over any sequence of calls `doCommit` runs at most once, and never from `committed` or `cancelled`. */
  lemma {:induction false} CommitRunsAtMostOnce(s: State, ops: seq<Op>)
    ensures Count(Run(s, ops).1, DoCommit) <= (if s == Committed || s == Cancelled then 0 else 1)
    decreases |ops|
  {
    if ops != [] {
      var first := Apply(s, ops[0]);
      var rest := Run(first.0, ops[1..]);
      assert Run(s, ops).1 == first.1 + rest.1;
      CountAppend(first.1, rest.1, DoCommit);
      ApplyCommitCount(s, ops[0]);
      if first.0 == Committed {
        CommittedIsTerminal(ops[1..]);
      } else {
        CommitRunsAtMostOnce(first.0, ops[1..]);
      }
    }
  }

  /** One call runs `doCommit` at most once, and only on its way into `committed`. */
  lemma ApplyCommitCount(s: State, op: Op)
    ensures Count(Apply(s, op).1, DoCommit) <= 1
    ensures Count(Apply(s, op).1, DoCommit) == 1 ==> Committable(s) && Apply(s, op).0 == Committed
    ensures s == Committed || s == Cancelled ==> Apply(s, op) == (s, [])
  {
    match op {
      case UpdateOp(h) =>
        if Live(s) { CountPair(Effect(FactoryUpdatedSignal, s), Effect(DoUpdate, s), DoCommit); }
      case CommitOp(c) =>
        if Committable(s) { CountPair(Effect(FactoryCommittedSignal, Committed), Effect(DoCommit, Committed), DoCommit); }
      case FinishOp(c) =>
        if Committable(s) { CountPair(Effect(FactoryCommittedSignal, Committed), Effect(DoCommit, Committed), DoCommit); }
      case CancelOp(h) =>
        if s == Updated { assert [Effect(DoCancel, Updated)][1..] == []; }
    }
  }

  lemma CountPair(a: Effect, b: Effect, ev: Event)
    ensures Count([a, b], ev) == (if a.event == ev then 1 else 0) + (if b.event == ev then 1 else 0)
  {
    assert [a, b][1..] == [b];
    assert [b][1..] == [];
    assert Count([b], ev) == (if b.event == ev then 1 else 0) + Count([], ev);
  }

  /** No call ever moves the factory into `cancelled`: the state is only reachable by starting there. */
  lemma {:induction false} CancelledNeverEntered(s: State, ops: seq<Op>)
    requires s != Cancelled
    ensures Run(s, ops).0 != Cancelled
    decreases |ops|
  {
    if ops != [] {
      CancelledNeverEntered(Apply(s, ops[0]).0, ops[1..]);
    }
  }

  /** `doCommit` always observes the state already set to `committed`; `doCancel` always observes `updated`. */
  lemma {:induction false} HooksSeeTheirState(s: State, ops: seq<Op>)
    ensures forall i :: 0 <= i < |Run(s, ops).1| && Run(s, ops).1[i].event == DoCommit ==> Run(s, ops).1[i].seen == Committed
    ensures forall i :: 0 <= i < |Run(s, ops).1| && Run(s, ops).1[i].event == DoCancel ==> Run(s, ops).1[i].seen == Updated
    decreases |ops|
  {
    if ops != [] {
      HooksSeeTheirState(Apply(s, ops[0]).0, ops[1..]);
    }
  }

  // ---------------------------------------------------------------------
  // Properties of the transaction helper

  /** After a successful callback whose listed fields all copy, the listed fields and the state are recorded as the rollback point. */
  lemma TransactionSuccessRecords<V>(d: FactoryData<V>, keys: seq<Key>, cb: Callback<V>, uncopyable: set<FieldName>)
    requires cb.outcome.Returned?
    requires forall k :: k in keys && k in AfterCallback(d, cb).fields ==> k !in uncopyable
    ensures var a := AfterCallback(d, cb);
      var t := TransactionStep(d, keys, cb, uncopyable);
      && t.fields == a.fields && t.state == a.state
      && t.previous.Some? && t.previous.value.state == a.state
      && (forall k :: k in t.previous.value.values <==> k in keys && k in a.fields)
      && (forall k :: k in t.previous.value.values ==> t.previous.value.values[k] == a.fields[k])
  {
  }

  /**
   * A successful callback followed by a copy that throws: the catch rolls back
   * from the partial snapshot, so the keys copied before the throw keep their
   * values and every other listed key becomes undefined. The state becomes
   * undefined too, unless `state` itself was listed before the throwing key.
   */
  lemma TransactionSnapshotThrows<V>(d: FactoryData<V>, keys: seq<Key>, cb: Callback<V>, uncopyable: set<FieldName>)
    requires cb.outcome.Returned?
    requires exists k :: k in keys && k in AfterCallback(d, cb).fields && k in uncopyable
    ensures var a := AfterCallback(d, cb);
      var stop := FirstUncopyable(a.fields, keys, uncopyable);
      var t := TransactionStep(d, keys, cb, uncopyable);
      && stop < |keys|
      && t.state == PartialState(a.state, keys[..stop])
      && t.previous == Wrappers.Some(Snapshot(SnapshotOf(a.fields, keys[..stop]), t.state))
      && (forall k :: k in keys[..stop] ==> (k in t.fields <==> k in a.fields))
      && (forall k :: k in keys[..stop] && k in a.fields ==> t.fields[k] == a.fields[k])
      && (forall k :: k in keys && k !in keys[..stop] ==> k !in t.fields)
      && (forall k :: k !in keys ==> (k in t.fields <==> k in a.fields))
      && (forall k :: k !in keys && k in a.fields ==> t.fields[k] == a.fields[k])
  {
  }

  /** A callback that throws after an earlier success: the listed fields and the state come back from the snapshot. */
  lemma TransactionRollsBack<V>(d: FactoryData<V>, keys: seq<Key>, cb: Callback<V>, uncopyable: set<FieldName>)
    requires cb.outcome.Threw? && d.previous.Some?
    ensures var a := AfterCallback(d, cb);
      var p := d.previous.value;
      var t := TransactionStep(d, keys, cb, uncopyable);
      && t.state == p.state && t.previous == d.previous
      && (forall k :: k in keys ==> (k in t.fields <==> k in p.values))
      && (forall k :: k in keys && k in p.values ==> t.fields[k] == p.values[k])
      && (forall k :: k !in keys ==> (k in t.fields <==> k in a.fields))
      && (forall k :: k !in keys && k in a.fields ==> t.fields[k] == a.fields[k])
  {
  }

  /** A callback that throws with no earlier snapshot: nothing is restored and the error is swallowed. */
  lemma TransactionWithoutSnapshotKeepsCallbackEffects<V>(d: FactoryData<V>, keys: seq<Key>, cb: Callback<V>, uncopyable: set<FieldName>)
    requires cb.outcome.Threw? && d.previous.None?
    ensures TransactionStep(d, keys, cb, uncopyable) == AfterCallback(d, cb)
  {
  }

  /**
   * Two transactions over the same keys, the first one's callback returning and
   * the second one's throwing: the fields and the state are as the first
   * transaction left them, whether or not its snapshot completed.
   */
  lemma TransactionRoundTrip<V>(d: FactoryData<V>, keys: seq<Key>, ok: Callback<V>, bad: Callback<V>, uncopyable: set<FieldName>)
    requires ok.outcome.Returned? && bad.outcome.Threw?
    ensures var t1 := TransactionStep(d, keys, ok, uncopyable);
      var t2 := TransactionStep(t1, keys, bad, uncopyable);
      && t2.state == t1.state && t2.previous == t1.previous
      && (forall k :: k in keys ==> (k in t2.fields <==> k in t1.fields))
      && (forall k :: k in keys && k in t1.fields ==> t2.fields[k] == t1.fields[k])
  {
    var a := AfterCallback(d, ok);
    var t1 := TransactionStep(d, keys, ok, uncopyable);
    if FirstUncopyable(a.fields, keys, uncopyable) == |keys| {
      assert forall k :: k in keys && k in a.fields ==> k !in uncopyable;
      TransactionSuccessRecords(d, keys, ok, uncopyable);
    }
    TransactionRollsBack(t1, keys, bad, uncopyable);
  }

  /** Once the state is undefined, every lifecycle call throws and nothing runs. */
  lemma {:induction false} UndefinedIsStuck(ops: seq<Op>)
    ensures Run(Undefined, ops) == (Undefined, [])
    decreases |ops|
  {
    if ops != [] {
      assert Apply(Undefined, ops[0]) == (Undefined, []);
      UndefinedIsStuck(ops[1..]);
      assert Run(Undefined, ops).0 == Undefined;
      assert Run(Undefined, ops).1 == [];
    }
  }
}
