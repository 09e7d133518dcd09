/**
The session locks as a state machine (pkg/agent/sessionlock.go): any number of calls of lock, each anywhere between
its first line and the end of its unlock, interleaved at will and cancelled at any time. An entry is known by its
place in the table of all the entries ever made, a link of a context chain by its place among all links.
*/
module SessionLocksSpec {

  import opened Wrappers

  datatype Entry = Entry(key: string, refs: int, full: bool)

  // heldSessionLock; owner is the call that made it.
  datatype Link = Link(key: string, released: bool, parent: Option<nat>, owner: nat)

  // Where a call is.
  datatype Pc =
    | Starting                     // before it looks at its context
    | Entering                     // not re-entrant and not cancelled, before mu
    | Waiting(e: nat)              // counted in e, in the select
    | Acquired(e: nat)             // its token is in e, before the second look at its context
    | Held(e: nat, link: nat)      // returned with the lock
    | Backing(e: nat)              // cancelled with the token, before it takes it back
    | Unlocking(e: nat)            // unlock has marked the link, before it takes the token back
    | Leaving(e: nat, had: bool)   // without the token, before mu in release
    | Nested                       // returned at once: an outer holder releases
    | Failed                       // returned its context's error
    | Done                         // unlocked

  datatype Call = Call(key: string, chain: Option<nat>, cancelled: bool, pc: Pc)

  datatype State = State(table: seq<Entry>, entries: map<string, nat>, links: seq<Link>, calls: seq<Call>)

  const INIT := State([], map[], [], [])

  predicate ValidChain(links: seq<Link>, from: Option<nat>) {
    from.Some? ==> from.value < |links|
  }

  // The links of the contexts around it are older than a link.
  predicate ValidLinks(links: seq<Link>) {
    forall l | 0 <= l < |links| :: links[l].parent.Some? ==> links[l].parent.value < l
  }

  // Whether link l is from or around it.
  predicate OnChain(links: seq<Link>, from: Option<nat>, l: nat)
    requires ValidLinks(links) && ValidChain(links, from)
    decreases if from.Some? then from.value + 1 else 0
  {
    from.Some? && (l == from.value || OnChain(links, links[from.value].parent, l))
  }

  // sessionlock.go:76-83
  predicate Holds(links: seq<Link>, from: Option<nat>, key: string)
    requires ValidLinks(links) && ValidChain(links, from)
    decreases if from.Some? then from.value + 1 else 0
  {
    from.Some? && ((links[from.value].key == key && !links[from.value].released) || Holds(links, links[from.value].parent, key))
  }

  // ---- steps ------------------------------------------------------------------------------------------------------

  predicate Ok(s: State) {
    && ValidLinks(s.links)
    && (forall i | 0 <= i < |s.calls| :: CallOk(s, s.calls[i]))
    && (forall k | k in s.entries :: s.entries[k] < |s.table|)
  }

  predicate CallOk(s: State, c: Call) {
    && ValidChain(s.links, c.chain)
    && (EntryOf(c.pc).Some? ==> EntryOf(c.pc).value < |s.table|)
    && (c.pc.Held? ==> c.pc.link < |s.links|)
  }

  // The entry a call is counted in.
  function EntryOf(pc: Pc): Option<nat> {
    match pc
    case Waiting(e) => Some(e)
    case Acquired(e) => Some(e)
    case Held(e, _) => Some(e)
    case Backing(e) => Some(e)
    case Unlocking(e) => Some(e)
    case Leaving(e, _) => Some(e)
    case _ => None
  }

  // The entry a call has its token in.
  function TokenIn(pc: Pc): Option<nat> {
    match pc
    case Acquired(e) => Some(e)
    case Held(e, _) => Some(e)
    case Backing(e) => Some(e)
    case Unlocking(e) => Some(e)
    case _ => None
  }

  function Move(s: State, i: nat, pc: Pc): State
    requires i < |s.calls|
  {
    s.(calls := s.calls[i := s.calls[i].(pc := pc)])
  }

  // sessionlock.go:107-112
  function Begin(s: State, i: nat): State
    requires Ok(s) && i < |s.calls|
  {
    var c := s.calls[i];
    if !c.pc.Starting? then s
    else if Holds(s.links, c.chain, c.key) then Move(s, i, Nested)
    else if c.cancelled then Move(s, i, Failed)
    else Move(s, i, Entering)
  }

  // sessionlock.go:114-124
  function Enter(s: State, i: nat): State
    requires Ok(s) && i < |s.calls|
  {
    var c := s.calls[i];
    if !c.pc.Entering? then s
    else if c.key in s.entries then
      var e := s.entries[c.key];
      Move(s.(table := s.table[e := s.table[e].(refs := s.table[e].refs + 1)]), i, Waiting(e))
    else
      var e := |s.table|;
      Move(s.(table := s.table + [Entry(c.key, 1, false)], entries := s.entries[c.key := e]), i, Waiting(e))
  }

  // sessionlock.go:127: only one token fits.
  function Acquire(s: State, i: nat): State
    requires Ok(s) && i < |s.calls|
  {
    var pc := s.calls[i].pc;
    if !pc.Waiting? then s
    else
      assert CallOk(s, s.calls[i]);
      if s.table[pc.e].full then s else Move(s.(table := s.table[pc.e := s.table[pc.e].(full := true)]), i, Acquired(pc.e))
  }

  // sessionlock.go:128-130
  function Abandon(s: State, i: nat): State
    requires i < |s.calls|
  {
    var c := s.calls[i];
    if c.pc.Waiting? && c.cancelled then Move(s, i, Leaving(c.pc.e, false)) else s
  }

  // sessionlock.go:134-147
  function Check(s: State, i: nat): State
    requires i < |s.calls|
  {
    var c := s.calls[i];
    if !c.pc.Acquired? then s
    else if c.cancelled then Move(s, i, Backing(c.pc.e))
    else Move(s.(links := s.links + [Link(c.key, false, c.chain, i)]), i, Held(c.pc.e, |s.links|))
  }

  // sessionlock.go:141-146; a second unlock does nothing.
  function Unlock(s: State, i: nat): State
    requires Ok(s) && i < |s.calls|
  {
    var pc := s.calls[i].pc;
    if !pc.Held? then s
    else
      assert CallOk(s, s.calls[i]);
      Move(s.(links := s.links[pc.link := s.links[pc.link].(released := true)]), i, Unlocking(pc.e))
  }

  // sessionlock.go:153-155: receiving from an empty channel would wait.
  function TakeBack(s: State, i: nat): State
    requires Ok(s) && i < |s.calls|
  {
    var pc := s.calls[i].pc;
    if !pc.Backing? && !pc.Unlocking? then s
    else
      assert CallOk(s, s.calls[i]);
      if !s.table[pc.e].full then s
      else Move(s.(table := s.table[pc.e := s.table[pc.e].(full := false)]), i, Leaving(pc.e, pc.Unlocking?))
  }

  // sessionlock.go:156-161
  function Leave(s: State, i: nat): State
    requires Ok(s) && i < |s.calls|
  {
    var c := s.calls[i];
    if !c.pc.Leaving? then s
    else
      assert CallOk(s, c);
      var refs := s.table[c.pc.e].refs - 1;
      Move(s.(table := s.table[c.pc.e := s.table[c.pc.e].(refs := refs)],
              entries := if refs == 0 then s.entries - {c.key} else s.entries),
           i, if c.pc.had then Done else Failed)
  }

  datatype Action =
    | ACall(key: string, chain: Option<nat>, cancelled: bool)
    | ACancel(i: nat)
    | ABegin(i: nat) | AEnter(i: nat) | AAcquire(i: nat) | AAbandon(i: nat) | ACheck(i: nat)
    | AUnlock(i: nat) | ATakeBack(i: nat) | ALeave(i: nat)

  // An action that cannot happen in s leaves it as it is.
  function Step(s: State, a: Action): State
    requires Ok(s)
  {
    match a
    case ACall(key, chain, cancelled) =>
      if ValidChain(s.links, chain) then s.(calls := s.calls + [Call(key, chain, cancelled, Starting)]) else s
    case ACancel(i) => if i < |s.calls| then s.(calls := s.calls[i := s.calls[i].(cancelled := true)]) else s
    case ABegin(i) => if i < |s.calls| then Begin(s, i) else s
    case AEnter(i) => if i < |s.calls| then Enter(s, i) else s
    case AAcquire(i) => if i < |s.calls| then Acquire(s, i) else s
    case AAbandon(i) => if i < |s.calls| then Abandon(s, i) else s
    case ACheck(i) => if i < |s.calls| then Check(s, i) else s
    case AUnlock(i) => if i < |s.calls| then Unlock(s, i) else s
    case ATakeBack(i) => if i < |s.calls| then TakeBack(s, i) else s
    case ALeave(i) => if i < |s.calls| then Leave(s, i) else s
  }

  // ---- the invariant ------------------------------------------------------------------------------------------------

  function One(b: bool): nat { if b then 1 else 0 }

  // How many calls are counted in entry e, and how many have their token in it.
  function Counted(calls: seq<Call>, e: nat): nat {
    if calls == [] then 0
    else Counted(calls[..|calls| - 1], e) + One(EntryOf(calls[|calls| - 1].pc) == Some(e))
  }

  function Tokens(calls: seq<Call>, e: nat): nat {
    if calls == [] then 0
    else Tokens(calls[..|calls| - 1], e) + One(TokenIn(calls[|calls| - 1].pc) == Some(e))
  }

  // An entry counts its callers, its channel holds a caller's token or nothing, and the map has it while it counts any.
  predicate EntryOk(s: State, e: nat)
    requires e < |s.table|
  {
    var x := s.table[e];
    && x.refs == Counted(s.calls, e)
    && Tokens(s.calls, e) == One(x.full)
    && (x.refs > 0 <==> x.key in s.entries && s.entries[x.key] == e)
  }

  // A call is counted in an entry of its own key, and a holder's link is its own and not released.
  predicate CallFits(s: State, i: nat)
    requires i < |s.calls| && CallOk(s, s.calls[i])
  {
    var c := s.calls[i];
    && (EntryOf(c.pc).Some? ==> s.table[EntryOf(c.pc).value].key == c.key)
    && (c.pc.Held? ==> s.links[c.pc.link].owner == i && s.links[c.pc.link].key == c.key)
  }

  // A link is unreleased exactly while its owner holds the lock through it.
  predicate LinkFits(s: State, l: nat)
    requires l < |s.links|
  {
    var o := s.links[l].owner;
    && o < |s.calls|
    && (!s.links[l].released <==> s.calls[o].pc.Held? && s.calls[o].pc.link == l)
  }

  predicate Inv(s: State) {
    && Ok(s)
    && (forall e | 0 <= e < |s.table| :: EntryOk(s, e))
    && (forall k | k in s.entries :: s.table[s.entries[k]].key == k)
    && (forall i | 0 <= i < |s.calls| :: CallFits(s, i))
    && (forall l | 0 <= l < |s.links| :: LinkFits(s, l))
  }
}
