/**
The lock table itself (pkg/agent/sessionlock.go:40-169): a method for each section of lock, unlock and release. Each
one is the step of SessionLocksSpec that bears its name; the calls in progress are ghost.

The map of the entries and the table of all entries ever made are fields.
*/
module SessionLocks {
  import opened Wrappers
  import opened SessionLocksSpec
  import opened SessionLocksInv
  import opened SessionLocksSafety

  class SessionLocks {
    // What the map points to, and the links that contexts carry.
    var table: seq<Entry>
    var entries: map<string, nat>
    var links: seq<Link>
    ghost var calls: seq<Call>

    ghost function View(): State
      reads this
    {
      State(table, entries, links, calls)
    }

    constructor ()
      ensures View() == INIT
    {
      table, entries, links, calls := [], map[], [], [];
    }

    // sessionlock.go:76-83
    method HoldsSessionLock(from: Option<nat>, key: string) returns (holds: bool)
      requires ValidLinks(links) && ValidChain(links, from)
      ensures holds == Holds(links, from, key)
    {
      var h := from;
      while h.Some?
        invariant ValidChain(links, h)
        invariant Holds(links, from, key) == Holds(links, h, key)
        decreases if h.Some? then h.value + 1 else 0
      {
        if links[h.value].key == key && !links[h.value].released {
          return true;
        }
        h := links[h.value].parent;
      }
      return false;
    }

    // sessionlock.go:107-112
    method Begin(key: string, chain: Option<nat>, cancelled: bool, ghost i: nat) returns (nested: bool, failed: bool)
      requires Inv(View()) && i < |calls| && calls[i] == Call(key, chain, cancelled, Starting)
      modifies this`calls
      ensures View() == Step(old(View()), ABegin(i))
      ensures nested <==> calls[i].pc.Nested?
      ensures failed <==> calls[i].pc.Failed?
    {
      assert CallOk(View(), calls[i]);
      nested := HoldsSessionLock(chain, key);
      failed := !nested && cancelled;
      calls := SessionLocksSpec.Begin(View(), i).calls;
    }

    // sessionlock.go:114-124
    method Enter(key: string, ghost i: nat) returns (e: nat)
      requires Inv(View()) && i < |calls| && calls[i].key == key && calls[i].pc.Entering?
      modifies this`table, this`entries, this`calls
      ensures View() == Step(old(View()), AEnter(i))
      ensures calls[i].pc == Waiting(e)
    {
      if key in entries {
        e := entries[key];
      } else {
        e := |table|;
        table := table + [Entry(key, 0, false)];
        entries := entries[key := e];
      }
      table := table[e := table[e].(refs := table[e].refs + 1)];
      calls := calls[i := calls[i].(pc := Waiting(e))];
      assert old(table) + [Entry(key, 1, false)] == (old(table) + [Entry(key, 0, false)])[|old(table)| := Entry(key, 1, false)];
    }

    // sessionlock.go:127, when there is room for the token
    method Acquire(e: nat, ghost i: nat)
      requires Inv(View()) && i < |calls| && calls[i].pc == Waiting(e)
      requires e < |table| && !table[e].full
      modifies this`table, this`calls
      ensures View() == Step(old(View()), AAcquire(i))
    {
      table := table[e := table[e].(full := true)];
      calls := calls[i := calls[i].(pc := Acquired(e))];
    }

    // sessionlock.go:134-147: the second look at the context; a cancelled caller gives the lock back. That the link
    // knows its call is for the proof.
    method Check(key: string, chain: Option<nat>, cancelled: bool, e: nat, i: nat) returns (held: Option<nat>)
      requires Inv(View()) && i < |calls| && calls[i] == Call(key, chain, cancelled, Acquired(e))
      modifies this`links, this`calls
      ensures View() == Step(old(View()), ACheck(i))
      ensures held.Some? <==> !cancelled
      ensures held.Some? ==> calls[i].pc == Held(e, held.value)
    {
      held := None;
      ghost var after := SessionLocksSpec.Check(View(), i);
      if !cancelled {
        held := Some(|links|);
        links := links + [Link(key, false, chain, i)];
      }
      calls := after.calls;
    }

    // sessionlock.go:141-146
    method Unlock(e: nat, link: nat, ghost i: nat)
      requires Inv(View()) && i < |calls| && calls[i].pc == Held(e, link) && link < |links|
      modifies this`links, this`calls
      ensures View() == Step(old(View()), AUnlock(i))
    {
      links := links[link := links[link].(released := true)];
      calls := calls[i := calls[i].(pc := Unlocking(e))];
    }

    // sessionlock.go:153-155: the invariant says that there is a token to receive, so this never waits.
    method TakeBack(e: nat, ghost i: nat)
      requires Inv(View()) && i < |calls| && (calls[i].pc == Unlocking(e) || calls[i].pc == Backing(e))
      modifies this`table, this`calls
      ensures View() == Step(old(View()), ATakeBack(i))
      ensures calls[i].pc.Leaving?
    {
      CountedIsKept(View(), i);
      assert table[e].full;
      table := table[e := table[e].(full := false)];
      calls := calls[i := calls[i].(pc := Leaving(e, calls[i].pc.Unlocking?))];
    }

    // sessionlock.go:156-161: what is deleted is the caller's own entry.
    method Leave(key: string, e: nat, ghost i: nat)
      requires Inv(View()) && i < |calls| && calls[i].key == key && calls[i].pc.Leaving? && calls[i].pc.e == e
      modifies this`table, this`entries, this`calls
      ensures View() == Step(old(View()), ALeave(i))
      ensures forall k | k in old(entries) && k != key :: k in entries && entries[k] == old(entries)[k]
      ensures key !in entries ==> table[e].refs == 0
    {
      CountedIsKept(View(), i);
      table := table[e := table[e].(refs := table[e].refs - 1)];
      if table[e].refs == 0 {
        entries := entries - {key};
      }
      calls := calls[i := calls[i].(pc := if calls[i].pc.had then Done else Failed)];
    }

    // sessionlock.go:165-169
    method Size() returns (n: nat)
      requires Inv(View())
      ensures n == |entries|
      ensures (forall i | 0 <= i < |calls| :: Resting(calls[i])) ==> n == 0
    {
      n := |entries|;
      if forall i | 0 <= i < |calls| :: Resting(calls[i]) {
        RestingIsEmpty(View());
      }
    }
  }
}
