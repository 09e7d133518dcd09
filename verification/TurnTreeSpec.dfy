/**
The turn tree and its registry as a state machine (pkg/agent/turn_state.go, steering.go, subturn.go): root turns that
register and unregister, sub-turns that are listed under their parent and loop-wide, and any number of aborts, each
walking the tree while turns are still being spawned. A turn is known by its place in the table of all turns.
*/
module TurnTreeSpec {
  import opened Wrappers

  // Where a turn is. A root is Rooted from its registration on; a sub-turn is listed under its parent, then loop-wide
  // as well, and taken off the two lists in the other order.
  datatype Phase = Rooted | Listed | Running | Unlisting | Gone

  datatype Turn = Turn(
    id: string, session: string, parent: Option<nat>, phase: Phase, started: bool, children: seq<nat>, hardAborted: bool)

  // Each abort in progress is the list of turns it has yet to finish, the next one first.
  datatype State = State(
    turns: seq<Turn>, byId: map<string, nat>, bySession: map<string, seq<nat>>, subTurns: set<nat>, aborts: seq<seq<nat>>)

  const INIT := State([], map[], map[], {}, [])

  // A turn of the tree is older than its children, and what is listed exists.
  ghost predicate TurnShaped(turns: seq<Turn>, t: nat)
    requires t < |turns|
  {
    && (turns[t].parent.Some? ==> turns[t].parent.value < t)
    && forall k | 0 <= k < |turns[t].children| :: IsChild(turns, t, turns[t].children[k])
  }

  predicate IsChild(turns: seq<Turn>, t: nat, c: nat) {
    t < c < |turns| && turns[c].parent == Some(t)
  }

  predicate Exist(turns: seq<Turn>, ts: seq<nat>) {
    forall k | 0 <= k < |ts| :: ts[k] < |turns|
  }

  ghost predicate Shaped(s: State) {
    && (forall t | 0 <= t < |s.turns| :: TurnShaped(s.turns, t))
    && (forall t | t in s.subTurns :: t < |s.turns|)
    && (forall id | id in s.byId :: s.byId[id] < |s.turns|)
    && (forall key | key in s.bySession :: Exist(s.turns, s.bySession[key]))
    && (forall k | 0 <= k < |s.aborts| :: Exist(s.turns, s.aborts[k]))
  }

  // turn_state.go:428-433
  function Root(s: State, t: nat): (r: nat)
    requires Shaped(s) && t < |s.turns|
    ensures r <= t && s.turns[r].parent.None?
    decreases t
  {
    match s.turns[t].parent
    case None => t
    case Some(p) => assert TurnShaped(s.turns, t); Root(s, p)
  }

  function Without(xs: seq<nat>, x: nat): seq<nat> {
    if xs == [] then []
    else if xs[0] == x then xs[1..]
    else [xs[0]] + Without(xs[1..], x)
  }

  // ---- the registry -------------------------------------------------------------------------------------------------

  function Of(m: map<string, seq<nat>>, key: string): seq<nat> {
    if key in m then m[key] else []
  }

  // turn_state.go:223-235; the caller's id is kept unless it is empty or taken, and minted ids are new.
  function NewId(s: State, id: string, minted: string): string {
    if id in s.byId || id == "" then id + "#" + minted else id
  }

  function Register(s: State, id: string, minted: string, session: string): State {
    var t, name := |s.turns|, NewId(s, id, minted);
    if name in s.byId then s
    else
      s.(turns := s.turns + [Turn(name, session, None, Rooted, false, [], false)],
         byId := s.byId[name := t],
         bySession := s.bySession[session := Of(s.bySession, session) + [t]])
  }

  predicate IsRegistered(s: State, t: nat)
    requires t < |s.turns|
  {
    s.turns[t].id in s.byId && s.byId[s.turns[t].id] == t
  }

  // turn_state.go:239-258
  function Unregister(s: State, t: nat): State
    requires t < |s.turns|
  {
    if !IsRegistered(s, t) then s
    else
      var x := s.turns[t];
      var rest := Without(Of(s.bySession, x.session), t);
      s.(byId := s.byId - {x.id},
         bySession := if rest == [] then s.bySession - {x.session} else s.bySession[x.session := rest])
  }

  // ---- spawning -----------------------------------------------------------------------------------------------------

  function Set(s: State, t: nat, x: Turn): State
    requires t < |s.turns|
  {
    s.(turns := s.turns[t := x])
  }

  // subturn.go:309-356 with turn_state.go:383-392
  function AddChild(s: State, p: nat): State
    requires p < |s.turns|
  {
    var x := s.turns[p];
    if x.hardAborted then s
    else
      var c := |s.turns|;
      Set(s, p, x.(children := x.children + [c]))
        .(turns := s.turns[p := x.(children := x.children + [c])] + [Turn("", "", Some(p), Listed, false, [], false)])
  }

  // subturn.go:361
  function AddSub(s: State, c: nat): State
    requires c < |s.turns|
  {
    if !s.turns[c].phase.Listed? then s
    else Set(s, c, s.turns[c].(phase := Running)).(subTurns := s.subTurns + {c})
  }

  // subturn.go:362, as the sub-turn returns
  function RemoveSub(s: State, c: nat): State
    requires c < |s.turns|
  {
    if !s.turns[c].phase.Running? then s
    else Set(s, c, s.turns[c].(phase := Unlisting)).(subTurns := s.subTurns - {c})
  }

  // subturn.go:357 with turn_state.go:396-405
  function RemoveChild(s: State, c: nat): State
    requires Shaped(s) && c < |s.turns|
  {
    if !s.turns[c].phase.Unlisting? || s.turns[c].parent.None? then s
    else
      assert TurnShaped(s.turns, c);
      var p := s.turns[c].parent.value;
      Set(Set(s, c, s.turns[c].(phase := Gone)), p, s.turns[p].(children := Without(s.turns[p].children, c)))
  }

  // ---- aborting -----------------------------------------------------------------------------------------------------

  // turn_state.go:533-548, what one Finish(true) does under the lock: it marks the turn and takes its children.
  function Marked(s: State, t: nat): State
    requires t < |s.turns|
  {
    Set(s, t, s.turns[t].(hardAborted := true))
  }

  function ToVisit(s: State, t: nat): seq<nat>
    requires t < |s.turns|
  {
    if s.turns[t].hardAborted then [] else s.turns[t].children
  }

  // The next turn of abort k is finished; its children come before the rest.
  function FinishNext(s: State, k: nat): State
    requires Shaped(s) && k < |s.aborts|
  {
    var work := s.aborts[k];
    if work == [] then s
    else
      var t := work[0];
      Marked(s, t).(aborts := s.aborts[k := ToVisit(s, t) + work[1..]])
  }

  // The registered roots of the session, or of all sessions.
  ghost predicate IsTarget(s: State, t: nat, session: string, all: bool)
    requires t < |s.turns|
  {
    IsRegistered(s, t) && (all || s.turns[t].session == session)
  }

  // A root that is no longer registered but has a sub-turn running.
  ghost predicate IsOrphaned(s: State, r: nat, session: string, all: bool)
    requires Shaped(s) && r < |s.turns|
  {
    && !IsRegistered(s, r) && (all || s.turns[r].session == session)
    && exists t :: t in s.subTurns && Root(s, t) == r
  }

  predicate NoRepeats(xs: seq<nat>) {
    forall j, k | 0 <= j < k < |xs| :: xs[j] != xs[k]
  }

  // turn_state.go:190-216: the two lists a cancel aborts. For all sessions the first comes in the order of a map.
  ghost predicate AreTargets(s: State, session: string, all: bool, registered: seq<nat>, orphaned: seq<nat>)
    requires Shaped(s)
  {
    && NoRepeats(registered) && NoRepeats(orphaned)
    && Exist(s.turns, registered) && Exist(s.turns, orphaned)
    && (forall t | t in registered :: t < |s.turns| && IsTarget(s, t, session, all))
    && (forall t | 0 <= t < |s.turns| && IsTarget(s, t, session, all) :: t in registered)
    && (forall r | r in orphaned :: r < |s.turns| && IsOrphaned(s, r, session, all))
    && (forall r | 0 <= r < |s.turns| && IsOrphaned(s, r, session, all) :: r in orphaned)
    && (!all ==> registered == Of(s.bySession, session))
  }

  function Unstarted(s: State, ts: seq<nat>): seq<nat>
    requires Exist(s.turns, ts)
  {
    if ts == [] then []
    else
      var front, t := Unstarted(s, ts[..|ts| - 1]), ts[|ts| - 1];
      if s.turns[t].started then front else front + [t]
  }

  // steering.go:272-284: what waits for its session lock goes first.
  function AbortOrder(s: State, registered: seq<nat>, orphaned: seq<nat>): seq<nat>
    requires Exist(s.turns, registered)
  {
    Unstarted(s, registered) + registered + orphaned
  }

  // ---- actions ------------------------------------------------------------------------------------------------------

  datatype Action =
    | ARegister(id: string, minted: string, session: string) | AUnregister(t: nat) | AStart(t: nat)
    | AAddChild(p: nat) | AAddSub(c: nat) | ARemoveSub(c: nat) | ARemoveChild(c: nat)
    | ACancel(session: string, all: bool, registered: seq<nat>, orphaned: seq<nat>) | AFinishNext(k: nat)

  predicate Exists(s: State, a: Action) {
    match a
    case AUnregister(t) => t < |s.turns|
    case AStart(t) => t < |s.turns|
    case AAddChild(p) => p < |s.turns|
    case AAddSub(c) => c < |s.turns|
    case ARemoveSub(c) => c < |s.turns|
    case ARemoveChild(c) => c < |s.turns|
    case AFinishNext(k) => k < |s.aborts|
    case _ => true
  }

  // An action that cannot happen in s leaves it as it is; a cancel comes with the targets that one look finds.
  ghost function Step(s: State, a: Action): State
    requires Shaped(s)
  {
    if !Exists(s, a) then s
    else
      match a
      case ARegister(id, minted, session) => Register(s, id, minted, session)
      case AUnregister(t) => Unregister(s, t)
      case AStart(t) => Set(s, t, s.turns[t].(started := true))
      case AAddChild(p) => AddChild(s, p)
      case AAddSub(c) => AddSub(s, c)
      case ARemoveSub(c) => RemoveSub(s, c)
      case ARemoveChild(c) => RemoveChild(s, c)
      case ACancel(session, all, registered, orphaned) =>
        if AreTargets(s, session, all, registered, orphaned) then
          s.(aborts := s.aborts + [AbortOrder(s, registered, orphaned)])
        else s
      case AFinishNext(k) => FinishNext(s, k)
  }

  // ---- the invariant --------------------------------------------------------------------------------------------------

  // A registered root is in both indexes, and neither has anything else.
  predicate IdFits(s: State, id: string)
    requires id in s.byId && s.byId[id] < |s.turns|
  {
    s.turns[s.byId[id]].id == id && s.turns[s.byId[id]].parent.None?
  }

  predicate KeyFits(s: State, key: string)
    requires key in s.bySession && Exist(s.turns, s.bySession[key])
  {
    && s.bySession[key] != [] && NoRepeats(s.bySession[key])
    && forall k | 0 <= k < |s.bySession[key]| ::
         IsRegistered(s, s.bySession[key][k]) && s.turns[s.bySession[key][k]].session == key
  }

  predicate Findable(s: State, t: nat)
    requires t < |s.turns|
  {
    IsRegistered(s, t) ==> t in Of(s.bySession, s.turns[t].session)
  }

  ghost predicate IndexesAgree(s: State)
    requires Shaped(s)
  {
    && (forall id | id in s.byId :: IdFits(s, id))
    && (forall key | key in s.bySession :: KeyFits(s, key))
    && (forall t | 0 <= t < |s.turns| :: Findable(s, t))
  }

  ghost predicate InAborts(s: State, t: nat) {
    exists k | 0 <= k < |s.aborts| :: t in s.aborts[k]
  }

  predicate IsListed(phase: Phase) {
    phase.Listed? || phase.Running? || phase.Unlisting?
  }

  // The lists and the phase of a sub-turn.
  ghost predicate PhaseFits(s: State, t: nat)
    requires Shaped(s) && t < |s.turns|
  {
    var x := s.turns[t];
    && (x.parent.None? <==> x.phase.Rooted?)
    && (x.phase.Running? <==> t in s.subTurns)
    && (x.parent.Some? ==> x.parent.value < |s.turns| && (IsListed(x.phase) <==> t in s.turns[x.parent.value].children))
    && NoRepeats(x.children)
  }

  // Every child listed under a turn that was hard-aborted is hard-aborted, or some abort will come to it.
  ghost predicate AbortFits(s: State, t: nat)
    requires Shaped(s) && t < |s.turns|
  {
    s.turns[t].hardAborted ==> forall k | 0 <= k < |s.turns[t].children| :: Covered(s, s.turns[t].children[k])
  }

  ghost predicate Covered(s: State, c: nat) {
    c < |s.turns| && (s.turns[c].hardAborted || InAborts(s, c))
  }

  ghost predicate Inv(s: State) {
    && Shaped(s)
    && IndexesAgree(s)
    && (forall t | 0 <= t < |s.turns| :: PhaseFits(s, t))
    && (forall t | 0 <= t < |s.turns| :: AbortFits(s, t))
  }

  lemma InitInv()
    ensures Inv(INIT)
  {
  }
}
