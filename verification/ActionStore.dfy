/** The shared action store and the counters of the continuity state beside it.

    Actions are files by id; the state is one record that every write reads, merges and
    puts back with its version raised. Requests come one at a time, ids are fresh, and the
    state file can be written. */
module ActionStore {
  import opened Wrappers

  datatype Status = Pending | Executing | Completed | Failed | Cancelled

  datatype Action = Action(source: string, action: string, data: string, status: Status, result: Option<string>,
                           receiptId: Option<string>, createdAt: string, updatedAt: string)

  datatype Note = Initialized | Created(action: string) | FailedWith(action: string, error: string) |
      CancelledNote(action: string)

  datatype State = State(version: nat, lastAgent: string, pendingActions: int, completedActions: int,
      failedActions: int,
                         agentsSeen: seq<string>, lastNote: Note)

  const DEFAULT_STATE := State(0, "system", 0, 0, 0, [], Initialized)

  /** The actions directory, and the state file if there is one. */
  datatype Store = Store(actions: map<string, Action>, file: Option<State>)

  const EMPTY := Store(map[], None)

  // ---------------------------------------------------------------------
  // The operations as functions
  // ---------------------------------------------------------------------

  function Current(file: Option<State>): State {
    if file.Some? then file.value else DEFAULT_STATE
  }

  function WithAgent(agents: seq<string>, agent: string): seq<string> {
    if agent in agents then agents else agents + [agent]
  }

  /** writeState: the given counters over the current record, one version up. */
  function Written(s: State, agent: string, pending: int, failed: int, note: Note): State {
    State(s.version + 1, agent, pending, s.completedActions, failed, WithAgent(s.agentsSeen, agent), note)
  }

  function AtLeastZero(n: int): int {
    if n < 0 then 0 else n
  }

  datatype Op =
    | Create(id: string, source: string, action: string, data: string, now: string)
    | Claim(id: string, now: string)
    | Complete(id: string, result: string, now: string, entry: Option<string>)
    | Fail(id: string, error: string, now: string, entry: Option<string>)
    | Cancel(id: string, now: string)

  /** Whether the operation finds its action in the status it starts from. */
  predicate Applies(s: Store, op: Op) {
    match op
    case Create(_, _, _, _, _) => true
    case Claim(id, _) => id in s.actions && s.actions[id].status == Pending
    case Complete(id, _, _, _) => id in s.actions && s.actions[id].status == Executing
    case Fail(id, _, _, _) => id in s.actions && s.actions[id].status == Executing
    case Cancel(id, _) => id in s.actions && s.actions[id].status == Pending
  }

  /** The record that an operation leaves. */
  function Updated(s: Store, op: Op): Action
    requires Applies(s, op)
  {
    match op
    case Create(_, source, action, data, now) => Action(source, action, data, Pending, None, None, now, now)
    case Claim(id, now) => s.actions[id].(status := Executing, updatedAt := now)
    case Complete(id, result, now, entry) =>
      s.actions[id].(status := Completed, result := Some(result), updatedAt := now,
                     receiptId := if entry.Some? then entry else s.actions[id].receiptId)
    case Fail(id, error, now, entry) =>
      s.actions[id].(status := Failed, result := Some(error), updatedAt := now,
                     receiptId := if entry.Some? then entry else s.actions[id].receiptId)
    case Cancel(id, now) => s.actions[id].(status := Cancelled, updatedAt := now)
  }

  /** Claiming and completing leave the state file alone. */
  function FileAfter(s: Store, op: Op): Option<State>
    requires Applies(s, op)
  {
    var c := Current(s.file);
    var a := Updated(s, op);
    match op
    case Create(_, _, _, _, _) => Some(Written(c, a.source, c.pendingActions + 1, c.failedActions, Created(a.action)))
    case Fail(_, error, _, _) =>
      Some(Written(c, a.source, AtLeastZero(c.pendingActions - 1), c.failedActions + 1, FailedWith(a.action, error)))
    case Cancel(_, _) =>
      Some(Written(c, a.source, AtLeastZero(c.pendingActions - 1), c.failedActions, CancelledNote(a.action)))
    case _ => s.file
  }

  function Step(s: Store, op: Op): (Store, Option<Action>) {
    if !Applies(s, op) then (s, None)
    else (Store(s.actions[op.id := Updated(s, op)], FileAfter(s, op)), Some(Updated(s, op)))
  }

  /** What each operation does to the records: which status it starts from, and what it leaves. */
  lemma StepTells(s: Store, op: Op)
    ensures var t := Step(s, op).0.actions;
      match op
      case Create(id, source, action, data, now) =>
        t == s.actions[id := Action(source, action, data, Pending, None, None, now, now)]
      case Claim(id, now) =>
        if id in s.actions && s.actions[id].status == Pending
        then t == s.actions[id := s.actions[id].(status := Executing, updatedAt := now)] else t == s.actions
      case Complete(id, result, now, entry) =>
        if id in s.actions && s.actions[id].status == Executing
        then id in t && t[id].status == Completed && t[id].result == Some(result) && t[id].updatedAt == now &&
          t[id].receiptId == (if entry.Some? then entry else s.actions[id].receiptId) && t == s.actions[id := t[id]] &&
          t[id].source == s.actions[id].source && t[id].data == s.actions[id].data
        else t == s.actions
      case Fail(id, error, now, entry) =>
        if id in s.actions && s.actions[id].status == Executing
        then id in t && t[id].status == Failed && t[id].result == Some(error) && t[id].updatedAt == now &&
          t[id].receiptId == (if entry.Some? then entry else s.actions[id].receiptId) && t == s.actions[id := t[id]] &&
          t[id].source == s.actions[id].source && t[id].data == s.actions[id].data
        else t == s.actions
      case Cancel(id, now) =>
        if id in s.actions && s.actions[id].status == Pending
        then t == s.actions[id := s.actions[id].(status := Cancelled, updatedAt := now)] else t == s.actions
    ensures var start := if op.Claim? || op.Cancel? then Pending else Executing;
      Step(s, op).1.Some? <==> (op.Create? || (op.id in s.actions && s.actions[op.id].status == start))
  {
  }

  /** Claiming and completing leave the state file; the others name their agent in it. */
  lemma StepTellsFile(s: Store, op: Op)
    ensures op.Claim? || op.Complete? || Step(s, op).1.None? ==> Step(s, op).0.file == s.file
    ensures Step(s, op).1.Some? && (op.Create? || op.Fail? || op.Cancel?) ==>
      var c := Step(s, op).0.file;
      c.Some? && c.value.lastAgent == Step(s, op).1.value.source &&
      c.value.lastNote ==
        match op
        case Create(_, _, action, _, _) => Created(action)
        case Fail(_, error, _, _) => FailedWith(s.actions[op.id].action, error)
        case Cancel(_, _) => CancelledNote(s.actions[op.id].action)
        case _ => Initialized
  {
  }

  // ---------------------------------------------------------------------
  // What the counters count
  // ---------------------------------------------------------------------

  /** The ids in one of some statuses. */
  function Among(actions: map<string, Action>, statuses: set<Status>): set<string> {
    set id | id in actions && actions[id].status in statuses
  }

  function Live(actions: map<string, Action>): set<string> {
    Among(actions, {Pending, Executing, Completed})
  }

  function Sources(actions: map<string, Action>): set<string> {
    set id | id in actions :: actions[id].source
  }

  predicate Writes(s: Store, op: Op) {
    Applies(s, op) && (op.Create? || op.Fail? || op.Cancel?)
  }

  /** pending_actions counts the completed ones too, and completed_actions_count nothing. */
  ghost predicate Inv(s: Store) {
    var c := Current(s.file);
    c.pendingActions == |Live(s.actions)| &&
    c.failedActions == |Among(s.actions, {Failed})| &&
    c.completedActions == 0 &&
    AgentsAreSources(c, s.actions)
  }

  ghost predicate AgentsAreSources(c: State, actions: map<string, Action>) {
    (forall i, j | 0 <= i < j < |c.agentsSeen| :: c.agentsSeen[i] != c.agentsSeen[j]) &&
    (forall a :: a in c.agentsSeen <==> a in Sources(actions))
  }

  predicate IdIsFresh(s: Store, op: Op) {
    op.Create? ==> op.id !in s.actions
  }

  lemma AmongAfter(actions: map<string, Action>, id: string, a: Action, statuses: set<Status>)
    ensures Among(actions[id := a], statuses) ==
            if a.status in statuses then Among(actions, statuses) + {id} else Among(actions, statuses) - {id}
  {
  }

  lemma CountAfter(actions: map<string, Action>, id: string, a: Action, statuses: set<Status>)
    ensures var before := id in actions && actions[id].status in statuses;
      |Among(actions[id := a], statuses)| ==
      |Among(actions, statuses)| + (if a.status in statuses then 1 else 0) - (if before then 1 else 0)
  {
    AmongAfter(actions, id, a, statuses);
    var ids := Among(actions, statuses);
    if id in ids {
      assert ids + {id} == ids;
      assert |ids - {id}| == |ids| - 1;
    } else {
      assert ids - {id} == ids;
    }
  }

  lemma SourcesAfter(actions: map<string, Action>, id: string, a: Action)
    requires id in actions ==> actions[id].source == a.source
    ensures Sources(actions[id := a]) == Sources(actions) + {a.source}
  {
    var after := actions[id := a];
    forall x | x in Sources(actions) + {a.source} ensures x in Sources(after) {
      if x == a.source {
        assert after[id].source == x;
      } else {
        var other :| other in actions && actions[other].source == x;
        assert after[other].source == x;
      }
    }
  }

  /** A record that the clamped subtractions start from is counted, so they never clamp. */
  lemma ClampNeverFires(s: Store, op: Op)
    requires Inv(s) && Applies(s, op) && (op.Fail? || op.Cancel?)
    ensures AtLeastZero(Current(s.file).pendingActions - 1) == Current(s.file).pendingActions - 1
  {
    assert op.id in Live(s.actions);
  }

  lemma StepKeepsCounts(s: Store, op: Op)
    requires Inv(s) && IdIsFresh(s, op)
    ensures var t := Step(s, op).0;
      var c := Current(t.file);
      c.pendingActions == |Live(t.actions)| && c.failedActions == |Among(t.actions, {Failed})| &&
        c.completedActions == 0
  {
    if Applies(s, op) {
      CountAfter(s.actions, op.id, Updated(s, op), {Pending, Executing, Completed});
      CountAfter(s.actions, op.id, Updated(s, op), {Failed});
      if op.Fail? || op.Cancel? {
        ClampNeverFires(s, op);
      }
    }
  }

  lemma StepKeepsAgents(s: Store, op: Op)
    requires Inv(s) && IdIsFresh(s, op)
    ensures AgentsAreSources(Current(Step(s, op).0.file), Step(s, op).0.actions)
  {
    if Applies(s, op) {
      var a := Updated(s, op);
      SourcesAfter(s.actions, op.id, a);
      if !op.Create? {
        assert a.source in Sources(s.actions);
      }
    }
  }

  lemma StepKeepsInv(s: Store, op: Op)
    requires Inv(s) && IdIsFresh(s, op)
    ensures Inv(Step(s, op).0)
    ensures Current(Step(s, op).0.file).version == Current(s.file).version + (if Writes(s, op) then 1 else 0)
  {
    StepKeepsCounts(s, op);
    StepKeepsAgents(s, op);
  }

  // ---------------------------------------------------------------------
  // Runs
  // ---------------------------------------------------------------------

  function After(s: Store, ops: seq<Op>): Store
    decreases |ops|
  {
    if ops == [] then s else After(Step(s, ops[0]).0, ops[1..])
  }

  predicate IdsAreFresh(s: Store, ops: seq<Op>)
    decreases |ops|
  {
    ops == [] || (IdIsFresh(s, ops[0]) && IdsAreFresh(Step(s, ops[0]).0, ops[1..]))
  }

  function WriteCount(s: Store, ops: seq<Op>): nat
    decreases |ops|
  {
    if ops == [] then 0 else (if Writes(s, ops[0]) then 1 else 0) + WriteCount(Step(s, ops[0]).0, ops[1..])
  }

  lemma {:induction false} RunKeepsInv(s: Store, ops: seq<Op>)
    requires Inv(s) && IdsAreFresh(s, ops)
    ensures Inv(After(s, ops))
    ensures Current(After(s, ops).file).version == Current(s.file).version + WriteCount(s, ops)
    decreases |ops|
  {
    if ops != [] {
      StepKeepsInv(s, ops[0]);
      RunKeepsInv(Step(s, ops[0]).0, ops[1..]);
    }
  }

  lemma AmongSplits(actions: map<string, Action>)
    ensures |Live(actions)| == |Among(actions, {Pending})| + |Among(actions, {Executing})| +
      |Among(actions, {Completed})|
  {
    var p, e, c := Among(actions, {Pending}), Among(actions, {Executing}), Among(actions, {Completed});
    assert p !! e && (p + e) !! c;
    assert Live(actions) == p + e + c;
  }

  /** After any run from the empty store: pending_actions is the number of pending,
      executing and completed records, failed_actions_count of failed ones, and version of
      state writes. */
  lemma CountersAreRecords(ops: seq<Op>)
    requires IdsAreFresh(EMPTY, ops)
    ensures var t := After(EMPTY, ops);
      var c := Current(t.file);
      c.pendingActions == |Among(t.actions, {Pending})| + |Among(t.actions, {Executing})| +
        |Among(t.actions, {Completed})| &&
      c.failedActions == |Among(t.actions, {Failed})| && c.version == WriteCount(EMPTY, ops)
  {
    assert Live(map[]) == {} && Among(map[], {Failed}) == {} && Sources(map[]) == {};
    RunKeepsInv(EMPTY, ops);
    AmongSplits(After(EMPTY, ops).actions);
  }

  /** The name promises the work still open. It is that number only while nothing has
      been completed. */
  lemma PendingIsOpenWorkIff(ops: seq<Op>)
    requires IdsAreFresh(EMPTY, ops)
    ensures var t := After(EMPTY, ops);
      Current(t.file).pendingActions == |Among(t.actions, {Pending})| + |Among(t.actions, {Executing})| <==>
      forall id | id in t.actions :: t.actions[id].status != Completed
  {
    CountersAreRecords(ops);
    var t := After(EMPTY, ops);
    var done := Among(t.actions, {Completed});
    if id :| id in t.actions && t.actions[id].status == Completed {
      assert id in done;
    } else {
      assert done == {};
    }
  }

  // ---------------------------------------------------------------------
  // Claims
  // ---------------------------------------------------------------------

  /** How often the run hands out one action. */
  function Claims(s: Store, ops: seq<Op>, id: string): nat
    decreases |ops|
  {
    if ops == [] then 0
    else
      (if ops[0].Claim? && ops[0].id == id && Step(s, ops[0]).1.Some? then 1 else 0) +
      Claims(Step(s, ops[0]).0, ops[1..], id)
  }

  predicate Claimable(s: Store, id: string) {
    id in s.actions ==> s.actions[id].status == Pending
  }

  lemma {:induction false} NeverClaimedAgain(s: Store, ops: seq<Op>, id: string)
    requires IdsAreFresh(s, ops) && !Claimable(s, id)
    ensures Claims(s, ops, id) == 0
    decreases |ops|
  {
    if ops != [] {
      NeverClaimedAgain(Step(s, ops[0]).0, ops[1..], id);
    }
  }

  /** No action is handed to two executors. */
  lemma {:induction false} ClaimedAtMostOnce(s: Store, ops: seq<Op>, id: string)
    requires IdsAreFresh(s, ops)
    ensures Claims(s, ops, id) <= 1
    decreases |ops|
  {
    if ops != [] {
      var t := Step(s, ops[0]).0;
      if ops[0].Claim? && ops[0].id == id && Step(s, ops[0]).1.Some? {
        NeverClaimedAgain(t, ops[1..], id);
      } else {
        ClaimedAtMostOnce(t, ops[1..], id);
      }
    }
  }

  /** Whether an action is past its claim. */
  function Started(s: Store, id: string): nat {
    if id in s.actions && s.actions[id].status in {Executing, Completed, Failed} then 1 else 0
  }

  lemma StepStarts(s: Store, op: Op, id: string)
    requires IdIsFresh(s, op)
    ensures Started(Step(s, op).0, id) ==
            Started(s, id) + (if op.Claim? && op.id == id && Step(s, op).1.Some? then 1 else 0)
  {
  }

  lemma {:induction false} ClaimsAreStarts(s: Store, ops: seq<Op>, id: string)
    requires IdsAreFresh(s, ops)
    ensures Started(After(s, ops), id) == Started(s, id) + Claims(s, ops, id)
    decreases |ops|
  {
    if ops != [] {
      StepStarts(s, ops[0], id);
      ClaimsAreStarts(Step(s, ops[0]).0, ops[1..], id);
    }
  }

  /** In a run from the empty store an action is executing, completed or failed exactly if it
      was claimed, once; a pending or cancelled one never was. */
  lemma StartedIffClaimed(ops: seq<Op>, id: string)
    requires IdsAreFresh(EMPTY, ops)
    ensures var t := After(EMPTY, ops);
      Claims(EMPTY, ops, id) ==
      if id in t.actions && (t.actions[id].status == Executing || t.actions[id].status == Completed ||
                             t.actions[id].status == Failed) then 1 else 0
  {
    ClaimsAreStarts(EMPTY, ops, id);
  }

  // ---------------------------------------------------------------------
  // The store
  // ---------------------------------------------------------------------

  class Files {
    var actions: map<string, Action>
    var stateFile: Option<State>

    ghost function Snapshot(): Store
      reads this
    {
      Store(actions, stateFile)
    }

    constructor ()
      ensures Snapshot() == EMPTY
    {
      actions, stateFile := map[], None;
    }

    /** Creates the file from the defaults when it is missing. */
    method ReadState() returns (state: State)
      modifies this`stateFile
      ensures state == Current(old(stateFile)) && stateFile == Some(state)
    {
      if stateFile.None? {
        stateFile := Some(DEFAULT_STATE);
      }
      state := stateFile.value;
    }

    method WriteState(agent: string, pending: int, failed: int, note: Note)
      modifies this`stateFile
      ensures stateFile == Some(Written(Current(old(stateFile)), agent, pending, failed, note))
    {
      var current := ReadState();
      var agents := if agent in current.agentsSeen then current.agentsSeen else current.agentsSeen + [agent];
      stateFile := Some(current.(version := current.version + 1, lastAgent := agent, pendingActions := pending,
                                 failedActions := failed, agentsSeen := agents, lastNote := note));
    }

    method CreateAction(id: string, source: string, action: string, data: string, now: string) returns (created: Action)
      modifies this
      ensures (Snapshot(), Some(created)) == Step(old(Snapshot()), Create(id, source, action, data, now))
    {
      created := Action(source, action, data, Pending, None, None, now, now);
      actions := actions[id := created];
      var state := ReadState();
      WriteState(source, state.pendingActions + 1, state.failedActions, Created(action));
    }

    method ClaimAction(id: string, now: string) returns (claimed: Option<Action>)
      modifies this`actions
      ensures (Snapshot(), claimed) == Step(old(Snapshot()), Claim(id, now))
    {
      if id !in actions || actions[id].status != Pending {
        return None;
      }
      actions := actions[id := actions[id].(status := Executing, updatedAt := now)];
      claimed := Some(actions[id]);
    }

    method CompleteAction(id: string, result: string, now: string, entry: Option<string>)
      returns (completed: Option<Action>)
      modifies this`actions
      ensures (Snapshot(), completed) == Step(old(Snapshot()), Complete(id, result, now, entry))
    {
      if id !in actions || actions[id].status != Executing {
        return None;
      }
      var action := actions[id].(status := Completed, result := Some(result), updatedAt := now);
      if entry.Some? {
        action := action.(receiptId := entry);
      }
      actions := actions[id := action];
      completed := Some(action);
    }

    method FailAction(id: string, error: string, now: string, entry: Option<string>) returns (failed: Option<Action>)
      modifies this
      ensures (Snapshot(), failed) == Step(old(Snapshot()), Fail(id, error, now, entry))
    {
      if id !in actions || actions[id].status != Executing {
        return None;
      }
      var action := actions[id].(status := Failed, result := Some(error), updatedAt := now);
      if entry.Some? {
        action := action.(receiptId := entry);
      }
      actions := actions[id := action];
      var state := ReadState();
      WriteState(action.source, AtLeastZero(state.pendingActions - 1), state.failedActions + 1,
        FailedWith(action.action, error));
      failed := Some(action);
    }

    method CancelAction(id: string, now: string) returns (cancelled: Option<Action>)
      modifies this
      ensures (Snapshot(), cancelled) == Step(old(Snapshot()), Cancel(id, now))
    {
      if id !in actions || actions[id].status != Pending {
        return None;
      }
      var action := actions[id].(status := Cancelled, updatedAt := now);
      actions := actions[id := action];
      var state := ReadState();
      WriteState(action.source, AtLeastZero(state.pendingActions - 1), state.failedActions,
        CancelledNote(action.action));
      cancelled := Some(action);
    }
  }
}
