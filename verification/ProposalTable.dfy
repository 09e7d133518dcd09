/**
The proposals table (pkg/approval/store.go): its rows, the statements that change them, and the bounds an insert is
held to. A row keeps its place for ever; pruning marks it, and no statement sees it again. Times are milliseconds.
*/
module ProposalTable {
  import opened Wrappers

  datatype Kind = Order | Mandate | Memory | TriggerParam | IntentCleanup | Mute

  datatype Origin = FromOwner | FromProactive | FromMandate | FromSuggestion | FromReflection

  datatype Status = Pending | Approved | Rejected | Expired | Executing | Executed | Failed | Cancelled

  // The canonical bytes of a proposal's parameters; the hash of kind and parameters has no collisions.
  type Params = nat
  datatype Hash = HashOf(kind: Kind, params: Params)

  datatype Row = Row(
    kind: Kind, params: Params, hash: Hash, origin: Origin, mode: string, reducing: bool, status: Status,
    created: int, expires: int, decidedAt: Option<int>, decidedBy: string, finished: Option<int>, pruned: bool)

  type Table = seq<Row>

  const HOUR := 60 * 60 * 1000
  const DAY := 24 * HOUR
  const RETENTION := 180 * DAY

  // ---- classes ------------------------------------------------------------------------------------------------------

  datatype Class = OrderClass | MandateClass | MemoryClass | ReflectionClass

  // reflection.go:202-204
  predicate IsReflection(k: Kind) {
    k.TriggerParam? || k.IntentCleanup? || k.Mute?
  }

  // store.go:119-129
  function ClassOf(k: Kind, o: Origin): Class {
    if k.Memory? then MemoryClass
    else if IsReflection(k) then ReflectionClass
    else if k.Mandate? || o.FromMandate? then MandateClass
    else OrderClass
  }

  // store.go:91-101, the WHERE clause of a class
  predicate Matches(c: Class, k: Kind, o: Origin) {
    match c
    case MandateClass => k.Mandate? || o.FromMandate?
    case MemoryClass => k.Memory?
    case ReflectionClass => IsReflection(k)
    case OrderClass => !(k.Mandate? || k.Memory? || IsReflection(k) || o.FromMandate?)
  }

  // store.go:104-114
  function MaxPending(c: Class): nat {
    match c
    case OrderClass => 3
    case MandateClass => 8
    case MemoryClass => 5
    case ReflectionClass => 5
  }

  function MaxInWindow(c: Class): nat {
    match c
    case OrderClass => 10
    case MandateClass => 30
    case MemoryClass => 10
    case ReflectionClass => 10
  }

  function Window(c: Class): int {
    if c.MemoryClass? || c.ReflectionClass? then DAY else HOUR
  }

  // The pairs the Propose functions make (service.go:200-217, mandate.go:215, memory.go:204, reflection.go:302).
  predicate Proposable(k: Kind, o: Origin) {
    match k
    case Order => o.FromOwner? || o.FromProactive? || o.FromMandate?
    case Mandate => o.FromOwner?
    case Memory => o.FromSuggestion?
    case _ => o.FromReflection?
  }

  /** The clause a row is counted under is the class it is held to, except that a mandate's memory or reflection is counted twice. */
  lemma ClassesAgree(k: Kind, o: Origin)
    ensures (forall c: Class :: Matches(c, k, o) <==> c == ClassOf(k, o)) <==> !(o.FromMandate? && (k.Memory? || IsReflection(k)))
    ensures Matches(ClassOf(k, o), k, o)
    ensures Proposable(k, o) ==> forall c: Class :: Matches(c, k, o) <==> c == ClassOf(k, o)
  {
    if o.FromMandate? && (k.Memory? || IsReflection(k)) {
      assert Matches(MandateClass, k, o) && ClassOf(k, o) != MandateClass;
    }
  }

  /** A mandate's memory would count among the mandates' proposals too. */
  lemma CountedTwice()
    ensures ClassOf(Memory, FromMandate) == MemoryClass && Matches(MemoryClass, Memory, FromMandate) && Matches(MandateClass, Memory, FromMandate)
    ensures !Proposable(Memory, FromMandate)
  {
  }

  // ---- counting -----------------------------------------------------------------------------------------------------

  predicate CountsPending(r: Row, c: Class, now: int) {
    !r.pruned && r.status.Pending? && r.expires > now && Matches(c, r.kind, r.origin)
  }

  predicate CountsCreated(r: Row, c: Class, from: int) {
    !r.pruned && r.created > from && Matches(c, r.kind, r.origin)
  }

  function PendingIn(t: Table, c: Class, now: int): nat {
    if t == [] then 0 else PendingIn(t[..|t| - 1], c, now) + if CountsPending(t[|t| - 1], c, now) then 1 else 0
  }

  function CreatedIn(t: Table, c: Class, from: int): nat {
    if t == [] then 0 else CreatedIn(t[..|t| - 1], c, from) + if CountsCreated(t[|t| - 1], c, from) then 1 else 0
  }

  // ---- statements ---------------------------------------------------------------------------------------------------

  // store.go:196-204: the row goes in only if both counts leave room for it.
  predicate Fits(t: Table, k: Kind, o: Origin, now: int) {
    var c := ClassOf(k, o);
    PendingIn(t, c, now) < MaxPending(c) && CreatedIn(t, c, now - Window(c)) < MaxInWindow(c)
  }

  function NewRow(k: Kind, params: Params, o: Origin, mode: string, reducing: bool, now: int, expires: int): Row {
    Row(k, params, HashOf(k, params), o, mode, reducing, Pending, now, expires, None, "", None, false)
  }

  function Insert(t: Table, r: Row, now: int): Table {
    if Fits(t, r.kind, r.origin, now) then t + [r] else t
  }

  // store.go:299-308
  predicate CanDecide(r: Row, now: int) {
    !r.pruned && r.status.Pending? && r.expires > now
  }

  function Decided(r: Row, approve: bool, sender: string, now: int): Row {
    r.(status := if approve then Approved else Rejected, decidedAt := Some(now), decidedBy := sender,
       finished := if approve then None else Some(now))
  }

  // store.go:310-314
  function ExpiredAt(r: Row, now: int): Row {
    if !r.pruned && r.status.Pending? && r.expires <= now then r.(status := Expired, finished := Some(now)) else r
  }

  // store.go:316-320
  function CancelledAt(r: Row, now: int): Row {
    if !r.pruned && r.status.Pending? then r.(status := Cancelled, finished := Some(now)) else r
  }

  // store.go:322-325
  function Marked(r: Row): Row {
    if !r.pruned && r.status.Approved? then r.(status := Executing) else r
  }

  // store.go:328-332
  function FinishedAt(r: Row, ok: bool, now: int): Row {
    if !r.pruned && r.status.Executing? then r.(status := if ok then Executed else Failed, finished := Some(now)) else r
  }

  // store.go:355-365 with service.go:657
  function PrunedAt(r: Row, now: int): Row {
    if r.finished.Some? && r.finished.value < now - RETENTION then r.(pruned := true) else r
  }

  // ---- the bounds over a table's life -----------------------------------------------------------------------------

  // What the statements can do to a row: its kind, origin and times stay, and a row that is not pending, or is pruned,
  // stays so. Only a row created more than the retention ago is pruned.
  predicate Ages(r: Row, r': Row, now: int) {
    && r'.kind == r.kind && r'.origin == r.origin && r'.created == r.created && r'.expires == r.expires
    && (r'.status.Pending? ==> r.status.Pending?)
    && (r.pruned ==> r'.pruned)
    && (r'.pruned && !r.pruned ==> r.finished.Some? && r.finished.value < now - RETENTION)
    && (r'.finished.Some? ==> r'.finished == r.finished || r'.finished.value == now)
  }

  // The created column in order, no row finished before it was created, and none pruned within a window of now.
  predicate Timed(t: Table, now: int) {
    && (forall i | 0 <= i < |t| :: TimedRow(t[i], now))
    && (forall i, j | 0 <= i < j < |t| :: t[i].created <= t[j].created)
  }

  predicate TimedRow(r: Row, now: int) {
    && r.created <= now
    && (r.finished.Some? ==> r.created <= r.finished.value <= now)
    && (r.pruned ==> r.created < now - RETENTION)
  }

  // How many of the rows, pruned or not, were created for class c after from.
  function EverCreated(t: Table, c: Class, from: int): nat {
    if t == [] then 0
    else EverCreated(t[..|t| - 1], c, from) + if Late(t[|t| - 1], c, from) then 1 else 0
  }

  predicate Late(r: Row, c: Class, from: int) {
    r.created > from && Matches(c, r.kind, r.origin)
  }

  // At the end of the window that each row's creation closes, its class was within its bound.
  predicate WindowsHold(t: Table) {
    forall i | 0 <= i < |t| :: WindowHoldsAt(t, i)
  }

  predicate WindowHoldsAt(t: Table, i: nat)
    requires i < |t|
  {
    var c := ClassOf(t[i].kind, t[i].origin);
    EverCreated(t[..i + 1], c, t[i].created - Window(c)) <= MaxInWindow(c)
  }

  // The undecided, unexpired rows held to class c.
  predicate Open(r: Row, c: Class, now: int) {
    !r.pruned && r.status.Pending? && r.expires > now && ClassOf(r.kind, r.origin) == c
  }

  function OpenIn(t: Table, c: Class, now: int): nat {
    if t == [] then 0 else OpenIn(t[..|t| - 1], c, now) + if Open(t[|t| - 1], c, now) then 1 else 0
  }

  predicate Bounded(t: Table, now: int) {
    && Timed(t, now)
    && WindowsHold(t)
    && forall c: Class :: OpenIn(t, c, now) <= MaxPending(c)
  }

  lemma {:induction false} CreatedIsEver(t: Table, c: Class, from: int, now: int)
    requires Timed(t, now) && now - RETENTION <= from
    ensures CreatedIn(t, c, from) == EverCreated(t, c, from)
  {
    if t != [] {
      CreatedIsEver(t[..|t| - 1], c, from, now);
      assert TimedRow(t[|t| - 1], now);
    }
  }

  lemma {:induction false} OpenIsPending(t: Table, c: Class, now: int)
    ensures OpenIn(t, c, now) <= PendingIn(t, c, now)
  {
    if t != [] {
      OpenIsPending(t[..|t| - 1], c, now);
      ClassesAgree(t[|t| - 1].kind, t[|t| - 1].origin);
    }
  }

  predicate Aged(t: Table, t': Table, now: int) {
    |t'| == |t| && forall i | 0 <= i < |t| :: Ages(t[i], t'[i], now)
  }

  lemma {:induction false} AgedOpen(t: Table, t': Table, c: Class, now: int, later: int)
    requires Aged(t, t', later) && now <= later
    ensures OpenIn(t', c, later) <= OpenIn(t, c, now)
  {
    if t != [] {
      assert Ages(t[|t| - 1], t'[|t| - 1], later);
      AgedOpen(t[..|t| - 1], t'[..|t| - 1], c, now, later);
    }
  }

  lemma {:induction false} AgedEver(t: Table, t': Table, c: Class, from: int, later: int)
    requires Aged(t, t', later)
    ensures EverCreated(t', c, from) == EverCreated(t, c, from)
  {
    if t != [] {
      assert Ages(t[|t| - 1], t'[|t| - 1], later);
      AgedEver(t[..|t| - 1], t'[..|t| - 1], c, from, later);
    }
  }

  lemma AgedWindow(t: Table, t': Table, now: int, i: nat)
    requires Aged(t, t', now) && i < |t| && WindowHoldsAt(t, i)
    ensures WindowHoldsAt(t', i)
  {
    assert Ages(t[i], t'[i], now);
    var c := ClassOf(t[i].kind, t[i].origin);
    AgedEver(t[..i + 1], t'[..i + 1], c, t[i].created - Window(c), now);
  }

  /** Deciding, expiring, cancelling, executing, finishing and pruning, and time passing, keep the bounds. */
  lemma AgingKeepsBounds(t: Table, t': Table, now: int, later: int)
    requires Bounded(t, now) && now <= later && Aged(t, t', later)
    ensures Bounded(t', later)
  {
    forall i | 0 <= i < |t'| ensures TimedRow(t'[i], later) {
      assert Ages(t[i], t'[i], later) && TimedRow(t[i], now);
    }
    forall i, j | 0 <= i < j < |t'| ensures t'[i].created <= t'[j].created {
      assert Ages(t[i], t'[i], later) && Ages(t[j], t'[j], later);
    }
    forall i | 0 <= i < |t'| ensures WindowHoldsAt(t', i) {
      assert WindowHoldsAt(t, i);
      AgedWindow(t, t', later, i);
    }
    forall c: Class ensures OpenIn(t', c, later) <= MaxPending(c) {
      AgedOpen(t, t', c, now, later);
    }
  }

  /** An insert keeps the bounds of every class. */
  lemma InsertKeepsBounds(t: Table, r: Row, now: int)
    requires Bounded(t, now) && r.created == now && r.status.Pending? && !r.pruned && r.finished.None?
    ensures Bounded(Insert(t, r, now), now)
  {
    if Fits(t, r.kind, r.origin, now) {
      var t', c := t + [r], ClassOf(r.kind, r.origin);
      assert t'[..|t|] == t;
      forall d: Class ensures OpenIn(t', d, now) <= MaxPending(d) {
        OpenIsPending(t, d, now);
      }
      forall i | 0 <= i < |t'| ensures TimedRow(t'[i], now) {
        if i < |t| { assert TimedRow(t[i], now); }
      }
      forall i | 0 <= i < |t'| ensures WindowHoldsAt(t', i) {
        if i < |t| {
          assert WindowHoldsAt(t, i) && t'[..i + 1] == t[..i + 1];
        } else {
          CreatedIsEver(t, c, now - Window(c), now);
          assert t'[..|t| + 1] == t';
        }
      }
    }
  }

  // How many rows held to class c were created in (from, to].
  function CreatedBetween(t: Table, c: Class, from: int, to: int): nat {
    if t == [] then 0
    else
      var r := t[|t| - 1];
      CreatedBetween(t[..|t| - 1], c, from, to) + if from < r.created <= to && ClassOf(r.kind, r.origin) == c then 1 else 0
  }

  lemma {:induction false} BetweenIsEver(t: Table, c: Class, from: int, to: int)
    ensures CreatedBetween(t, c, from, to) <= EverCreated(t, c, from)
  {
    if t != [] {
      BetweenIsEver(t[..|t| - 1], c, from, to);
      ClassesAgree(t[|t| - 1].kind, t[|t| - 1].origin);
    }
  }

  lemma {:induction false} EarlierFromCountsMore(t: Table, c: Class, from: int, from': int)
    requires from' <= from
    ensures EverCreated(t, c, from) <= EverCreated(t, c, from')
  {
    if t != [] {
      EarlierFromCountsMore(t[..|t| - 1], c, from, from');
    }
  }

  /** No interval of a class's window length ever holds more creations than the class may have, pruned rows included. */
  lemma {:induction false} EveryWindowHolds(t: Table, c: Class, to: int, n: nat)
    requires WindowsHold(t) && n <= |t|
    ensures CreatedBetween(t[..n], c, to - Window(c), to) <= MaxInWindow(c)
  {
    if n > 0 {
      var r, front := t[n - 1], t[..n - 1];
      assert t[..n][..n - 1] == front;
      if to - Window(c) < r.created <= to && ClassOf(r.kind, r.origin) == c {
        assert WindowHoldsAt(t, n - 1);
        EarlierFromCountsMore(t[..n], c, to - Window(c), r.created - Window(c));
        BetweenIsEver(t[..n], c, to - Window(c), to);
      } else {
        EveryWindowHolds(t, c, to, n - 1);
      }
    }
  }

  // ---- independence of the classes ----------------------------------------------------------------------------------

  predicate AllProposable(t: Table) {
    forall i | 0 <= i < |t| :: Proposable(t[i].kind, t[i].origin)
  }

  // The rows of t that are held to class c.
  function OfClass(t: Table, c: Class): Table {
    if t == [] then []
    else
      var front, r := OfClass(t[..|t| - 1], c), t[|t| - 1];
      if ClassOf(r.kind, r.origin) == c then front + [r] else front
  }

  lemma {:induction false} CountsOfClass(t: Table, c: Class, now: int, from: int)
    requires AllProposable(t)
    ensures PendingIn(OfClass(t, c), c, now) == PendingIn(t, c, now)
    ensures CreatedIn(OfClass(t, c), c, from) == CreatedIn(t, c, from)
  {
    if t != [] {
      var front, r := t[..|t| - 1], t[|t| - 1];
      CountsOfClass(front, c, now, from);
      assert Proposable(r.kind, r.origin);
      ClassesAgree(r.kind, r.origin);
      assert (OfClass(front, c) + [r])[..|OfClass(front, c)|] == OfClass(front, c);
    }
  }

  /** Whether a proposal fits depends on the rows of its own class alone: no class makes another refuse. */
  lemma ClassesAreIndependent(t: Table, t': Table, k: Kind, o: Origin, now: int)
    requires AllProposable(t) && AllProposable(t')
    requires OfClass(t, ClassOf(k, o)) == OfClass(t', ClassOf(k, o))
    ensures Fits(t, k, o, now) <==> Fits(t', k, o, now)
  {
    var c := ClassOf(k, o);
    CountsOfClass(t, c, now, now - Window(c));
    CountsOfClass(t', c, now, now - Window(c));
  }
}
