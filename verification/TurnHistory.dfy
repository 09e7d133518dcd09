/**
The history of one session and the root turns that write it (pkg/agent/turn_state.go:407-492, steering.go:227-262,
loop.go:1559-1638): turns take the session lock one after another, remember how long the history was, append to it, and
may at any time be told to take back what they wrote.
*/
module TurnHistory {
  import opened Wrappers

  // A message knows the turn that wrote it; None wrote the messages of WithSessionLock.
  datatype Entry = Entry(author: Option<nat>, text: string)

  // atLock and atExit are the history as the turn took the lock and as it gave the session up, asked is whether it had
  // been told to roll back by then.
  datatype Turn = Turn(
    locked: bool, snapshot: Option<nat>, rollbackOnExit: bool, exited: bool,
    atLock: seq<Entry>, atExit: seq<Entry>, asked: bool)

  datatype State = State(history: seq<Entry>, turns: seq<Turn>, holder: Option<nat>)

  function Init(history: seq<Entry>): State {
    State(history, [], None)
  }

  const WAITING := Turn(false, None, false, false, [], [], false)

  // turn_state.go:476-492
  function RolledBack(history: seq<Entry>, snapshot: Option<nat>): seq<Entry> {
    if snapshot.None? || |history| <= snapshot.value then history else history[..snapshot.value]
  }

  function Set(s: State, t: nat, x: Turn): State
    requires t < |s.turns|
  {
    s.(turns := s.turns[t := x])
  }

  // Turn t holds the lock and has not given the session up.
  predicate Owns(s: State, t: nat) {
    t < |s.turns| && s.holder == Some(t) && !s.turns[t].exited
  }

  datatype Action =
    | ABegin | ALock(t: nat) | ASnapshot(t: nat) | AWrite(t: nat, text: string) | AForeignWrite(text: string)
    | AAsk(t: nat) | ARollback(t: nat) | AExit(t: nat) | AUnlock(t: nat)

  // An action that cannot happen in s leaves it as it is.
  function Step(s: State, a: Action): State {
    match a
    case ABegin => s.(turns := s.turns + [WAITING])
    case ALock(t) =>
      if t < |s.turns| && s.holder.None? && !s.turns[t].locked then
        Set(s, t, s.turns[t].(locked := true, atLock := s.history)).(holder := Some(t))
      else s
    case ASnapshot(t) =>
      if Owns(s, t) && s.turns[t].snapshot.None? then Set(s, t, s.turns[t].(snapshot := Some(|s.history|))) else s
    case AWrite(t, text) =>
      if Owns(s, t) && s.turns[t].snapshot.Some? then s.(history := s.history + [Entry(Some(t), text)]) else s
    case AForeignWrite(text) => if s.holder.None? then s.(history := s.history + [Entry(None, text)]) else s
    case AAsk(t) => if t < |s.turns| then Set(s, t, s.turns[t].(rollbackOnExit := true)) else s
    case ARollback(t) =>
      if t < |s.turns| && !s.turns[t].exited then s.(history := RolledBack(s.history, s.turns[t].snapshot)) else s
    case AExit(t) =>
      if Owns(s, t) then
        var x := s.turns[t];
        var h := if x.rollbackOnExit then RolledBack(s.history, x.snapshot) else s.history;
        Set(s, t, x.(exited := true, atExit := h, asked := x.rollbackOnExit)).(history := h)
      else s
    case AUnlock(t) => if t < |s.turns| && s.holder == Some(t) && s.turns[t].exited then s.(holder := None) else s
  }

  function Run(s: State, actions: seq<Action>): State {
    if actions == [] then s else Step(Run(s, actions[..|actions| - 1]), actions[|actions| - 1])
  }

  // ---- the invariant --------------------------------------------------------------------------------------------------

  // The turn that owns the session has only added to what it found.
  predicate Added(s: State, t: nat)
    requires t < |s.turns|
  {
    var base := s.turns[t].atLock;
    && base <= s.history
    && (s.turns[t].snapshot.None? ==> s.history == base)
    && (forall k | |base| <= k < |s.history| :: s.history[k].author == Some(t))
  }

  predicate TurnOk(s: State, t: nat)
    requires t < |s.turns|
  {
    var x := s.turns[t];
    && (x.snapshot.Some? ==> x.locked && x.snapshot.value == |x.atLock|)
    && (x.snapshot.Some? && !x.exited ==> s.holder == Some(t))
    && (x.exited ==> x.locked)
    && (x.exited && x.asked ==> x.atExit == x.atLock)
    && (s.holder == Some(t) ==> x.locked)
    && (s.holder == Some(t) && !x.exited ==> Added(s, t))
    && (s.holder == Some(t) && x.exited ==> s.history == x.atExit)
  }

  predicate Inv(s: State) {
    && (s.holder.Some? ==> s.holder.value < |s.turns|)
    && forall t | 0 <= t < |s.turns| :: TurnOk(s, t)
  }

  lemma StepInv(s: State, a: Action)
    requires Inv(s)
    ensures Inv(Step(s, a))
  {
    var s' := Step(s, a);
    if s.holder.Some? { assert TurnOk(s, s.holder.value); }
    if a.ARollback? && a.t < |s.turns| { assert TurnOk(s, a.t); }
    forall t | 0 <= t < |s'.turns| ensures TurnOk(s', t) {
      if t < |s.turns| { assert TurnOk(s, t); }
      if a.AExit? && a.t == t { ExitOk(s, t); }
    }
  }

  lemma ExitOk(s: State, t: nat)
    requires Inv(s) && t < |s.turns|
    ensures Owns(s, t) && s.turns[t].rollbackOnExit ==> RolledBack(s.history, s.turns[t].snapshot) == s.turns[t].atLock
  {
    assert TurnOk(s, t);
  }

  lemma {:induction false} RunInv(s: State, actions: seq<Action>)
    requires Inv(s)
    ensures Inv(Run(s, actions))
  {
    if actions != [] {
      RunInv(s, actions[..|actions| - 1]);
      StepInv(Run(s, actions[..|actions| - 1]), actions[|actions| - 1]);
    }
  }

  // ---- rolling back is safe ---------------------------------------------------------------------------------------------

  /** However late its writes land, a turn that was aborted before it exited leaves the history it found. */
  lemma AbortedTurnLeavesNothing(history: seq<Entry>, actions: seq<Action>, t: nat)
    requires var s := Run(Init(history), actions); t < |s.turns| && s.turns[t].exited && s.turns[t].asked
    ensures var x := Run(Init(history), actions).turns[t]; x.atExit == x.atLock
  {
    RunInv(Init(history), actions);
    assert TurnOk(Run(Init(history), actions), t);
  }

  // From its request on, an abort stays in force until the turn exits.
  lemma {:induction false} RequestsLast(s: State, actions: seq<Action>, t: nat)
    requires t < |s.turns| && s.turns[t].rollbackOnExit && !s.turns[t].exited
    ensures t < |Run(s, actions).turns|
    ensures var x := Run(s, actions).turns[t]; x.rollbackOnExit && (x.exited ==> x.asked)
  {
    if actions != [] {
      RequestsLast(s, actions[..|actions| - 1], t);
    }
  }

  /** After HardAbort has asked, the turn's exit gives back the history of its lock. */
  lemma HardAbortRestores(history: seq<Entry>, before: seq<Action>, after: seq<Action>, t: nat)
    requires var s := Run(Init(history), before); t < |s.turns| && s.turns[t].rollbackOnExit && !s.turns[t].exited
    requires t < |Run(Run(Init(history), before), after).turns| && Run(Run(Init(history), before), after).turns[t].exited
    ensures var x := Run(Run(Init(history), before), after).turns[t]; x.atExit == x.atLock
  {
    RunInv(Init(history), before);
    RequestsLast(Run(Init(history), before), after, t);
    RunInv(Run(Init(history), before), after);
    assert TurnOk(Run(Run(Init(history), before), after), t);
  }

  // What h holds that others than t wrote.
  function Others(h: seq<Entry>, t: nat): seq<Entry> {
    if h == [] then []
    else
      var front := Others(h[..|h| - 1], t);
      if h[|h| - 1].author == Some(t) then front else front + [h[|h| - 1]]
  }

  lemma {:induction false} OthersPrefix(h: seq<Entry>, k: nat, t: nat)
    requires k <= |h| && forall j | k <= j < |h| :: h[j].author == Some(t)
    ensures Others(h[..k], t) == Others(h, t)
  {
    if k < |h| {
      OthersPrefix(h[..|h| - 1], k, t);
      assert h[..|h| - 1][..k] == h[..k];
    } else {
      assert h[..k] == h;
    }
  }

  /** A rollback at any time, of any turn, takes back messages of that turn only, from the end. */
  lemma RollbackTakesOnlyItsOwn(s: State, t: nat)
    requires Inv(s) && t < |s.turns|
    ensures Step(s, ARollback(t)).history <= s.history
    ensures Others(Step(s, ARollback(t)).history, t) == Others(s.history, t)
    ensures s.turns[t].exited || s.holder != Some(t) ==> Step(s, ARollback(t)).history == s.history
  {
    assert TurnOk(s, t);
    if !s.turns[t].exited && s.turns[t].snapshot.Some? {
      OthersPrefix(s.history, s.turns[t].snapshot.value, t);
      assert s.history[..|s.history|] == s.history;
    }
  }

  // What turn u wrote.
  function By(h: seq<Entry>, u: nat): seq<Entry> {
    if h == [] then []
    else
      var front := By(h[..|h| - 1], u);
      if h[|h| - 1].author == Some(u) then front + [h[|h| - 1]] else front
  }

  lemma {:induction false} ByPrefix(h: seq<Entry>, k: nat, u: nat)
    requires k <= |h| && forall j | k <= j < |h| :: h[j].author != Some(u)
    ensures By(h[..k], u) == By(h, u)
  {
    if k < |h| {
      ByPrefix(h[..|h| - 1], k, u);
      assert h[..|h| - 1][..k] == h[..k];
    } else {
      assert h[..k] == h;
    }
  }

  lemma StepKeepsBy(s: State, a: Action, u: nat)
    requires Inv(s) && u < |s.turns| && s.turns[u].exited
    ensures u < |Step(s, a).turns| && Step(s, a).turns[u].exited
    ensures By(Step(s, a).history, u) == By(s.history, u)
  {
    var s' := Step(s, a);
    assert TurnOk(s, u);
    if |s'.history| > |s.history| {
      assert s'.history[..|s.history|] == s.history;
      ByPrefix(s'.history, |s.history|, u);
    } else if s'.history != s.history {
      assert TurnOk(s, a.t);
      ByPrefix(s.history, |s'.history|, u);
      assert s.history[..|s'.history|] == s'.history;
    }
  }

  /** Once a turn has exited, nothing that happens, no abort of any turn included, takes a message of it or adds one. */
  lemma {:induction false} ExitedTurnsKeepTheirMessages(s: State, actions: seq<Action>, u: nat)
    requires Inv(s) && u < |s.turns| && s.turns[u].exited
    ensures u < |Run(s, actions).turns| && Run(s, actions).turns[u].exited
    ensures By(Run(s, actions).history, u) == By(s.history, u)
  {
    if actions != [] {
      ExitedTurnsKeepTheirMessages(s, actions[..|actions| - 1], u);
      RunInv(s, actions[..|actions| - 1]);
      StepKeepsBy(Run(s, actions[..|actions| - 1]), actions[|actions| - 1], u);
    }
  }

  // ---- the session and its turns -----------------------------------------------------------------------------------------

  class Session {
    var history: seq<Entry>
    var turns: seq<Turn>
    ghost var holder: Option<nat>

    ghost function View(): State
      reads this
    {
      State(history, turns, holder)
    }

    constructor (found: seq<Entry>)
      ensures View() == Init(found)
    {
      history, turns, holder := found, [], None;
    }

    // loop.go:1626-1638 with turn_state.go:410-415
    method SetHistorySnapshot(t: nat, n: nat)
      requires Inv(View()) && Owns(View(), t) && turns[t].snapshot.None? && n == |history|
      modifies this`turns
      ensures Inv(View()) && View() == Step(old(View()), ASnapshot(t))
    {
      StepInv(View(), ASnapshot(t));
      turns := turns[t := turns[t].(snapshot := Some(n))];
    }

    method Append(t: nat, text: string)
      requires Inv(View()) && Owns(View(), t) && turns[t].snapshot.Some?
      modifies this`history
      ensures Inv(View()) && View() == Step(old(View()), AWrite(t, text))
    {
      StepInv(View(), AWrite(t, text));
      history := history + [Entry(Some(t), text)];
    }

    // turn_state.go:476-492
    method RollBackLocked(t: nat)
      requires t < |turns|
      modifies this`history
      ensures history == RolledBack(old(history), turns[t].snapshot)
    {
      if turns[t].snapshot.None? {
        return;
      }
      var keep := turns[t].snapshot.value;
      if |history| <= keep {
        return;
      }
      history := history[..keep];
    }

    // turn_state.go:466-473
    method RollBack(t: nat)
      requires Inv(View()) && t < |turns|
      modifies this`history
      ensures Inv(View()) && View() == Step(old(View()), ARollback(t))
      ensures history <= old(history) && Others(history, t) == Others(old(history), t)
      ensures history == if Owns(old(View()), t) then turns[t].atLock else old(history)
    {
      StepInv(View(), ARollback(t));
      assert TurnOk(View(), t);
      RollbackTakesOnlyItsOwn(View(), t);
      if turns[t].exited {
        return;
      }
      RollBackLocked(t);
    }

    // turn_state.go:439-446
    method Exit(t: nat)
      requires Inv(View()) && Owns(View(), t)
      modifies this`history, this`turns
      ensures Inv(View()) && View() == Step(old(View()), AExit(t))
      ensures old(turns[t].rollbackOnExit) ==> history == turns[t].atLock
    {
      StepInv(View(), AExit(t));
      ExitOk(View(), t);
      if turns[t].rollbackOnExit {
        RollBackLocked(t);
      }
      turns := turns[t := turns[t].(exited := true, atExit := history, asked := turns[t].rollbackOnExit)];
    }

    // steering.go:227-262, for the turns of the session: each is asked first, and rolled back after the abort.
    method HardAbort(ts: seq<nat>)
      requires Inv(View()) && forall k | 0 <= k < |ts| :: ts[k] < |turns|
      modifies this`history, this`turns
      ensures Inv(View()) && |turns| == |old(turns)| && history <= old(history)
      ensures forall t | 0 <= t < |turns| :: turns[t] == old(turns)[t].(rollbackOnExit := old(turns)[t].rollbackOnExit || t in ts)
      ensures holder.Some? && !turns[holder.value].exited && holder.value in ts ==> history == turns[holder.value].atLock
      ensures !(holder.Some? && !turns[holder.value].exited && holder.value in ts) ==> history == old(history)
    {
      hide TurnOk, Step;
      AskAll(ts);
      ghost var asked := turns;
      for k := 0 to |ts|
        invariant Inv(View()) && history <= old(history) && turns == asked
        invariant Working(View(), ts[..k]) ==> history == turns[holder.value].atLock
        invariant !Working(View(), ts[..k]) ==> history == old(history)
      {
        assert ts[..k + 1] == ts[..k] + [ts[k]];
        RollBack(ts[k]);
      }
      assert ts[..|ts|] == ts;
    }

    // steering.go:233-250
    method AskAll(ts: seq<nat>)
      requires Inv(View()) && forall k | 0 <= k < |ts| :: ts[k] < |turns|
      modifies this`turns
      ensures Inv(View()) && |turns| == |old(turns)|
      ensures forall t | 0 <= t < |turns| :: turns[t] == old(turns)[t].(rollbackOnExit := old(turns)[t].rollbackOnExit || t in ts)
    {
      for k := 0 to |ts|
        invariant Inv(View()) && |turns| == |old(turns)|
        invariant forall t | 0 <= t < |turns| :: turns[t] == old(turns)[t].(rollbackOnExit := old(turns)[t].rollbackOnExit || t in ts[..k])
      {
        StepInv(View(), AAsk(ts[k]));
        assert ts[..k + 1] == ts[..k] + [ts[k]];
        turns := turns[ts[k] := turns[ts[k]].(rollbackOnExit := true)];
      }
      assert ts[..|ts|] == ts;
    }
  }

  // The turn that owns the session is among ts.
  predicate Working(s: State, ts: seq<nat>) {
    s.holder.Some? && Owns(s, s.holder.value) && s.holder.value in ts
  }
}
