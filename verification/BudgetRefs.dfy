/**
 The shared write budgets. A bind acquires the budget, publishes its key and re-parents the session's
 limiter in one lane step; binds, closes and releases of any number of sessions interleave.
 */
module BudgetRefs {
  import opened Ids
  import opened Counting
  import opened Options

  /** A client identity and a workspace; "" is no key. */
  type Key = string

  /** A budget shared by every session bound to its key: its limiter's identity, its holders and its cap. */
  datatype Entry = Entry(limiter: nat, refs: nat, limit: int)

  /** The registry; `made` counts the limiters made so far. */
  datatype Budgets = Budgets(entries: map<Key, Entry>, made: nat)

  function AcquireBudget(b: Budgets, key: Key, limit: int): Budgets {
    if key in b.entries
    then b.(entries := b.entries[key := Entry(b.entries[key].limiter, b.entries[key].refs + 1, limit)])
    else Budgets(b.entries[key := Entry(b.made, 1, limit)], b.made + 1)
  }

  function SetBudgetLimit(b: Budgets, key: Key, limit: int): Budgets {
    if key in b.entries then b.(entries := b.entries[key := b.entries[key].(limit := limit)]) else b
  }

  function ReleaseBudget(b: Budgets, key: Key): Budgets {
    if key == "" || key !in b.entries || b.entries[key].refs <= 0 then b
    else if b.entries[key].refs == 1 then b.(entries := b.entries - {key})
    else b.(entries := b.entries[key := b.entries[key].(refs := b.entries[key].refs - 1)])
  }

  /** Every other key's budget is as it was. */
  predicate OthersSame(b: Budgets, b': Budgets, key: Key) {
    forall k :: k in b.entries.Keys + b'.entries.Keys && k != key ==>
      k in b.entries && k in b'.entries && b'.entries[k] == b.entries[k]
  }

  /** key has one holder more and this cap, on the limiter it had or on one nobody has. */
  predicate Adopts(b: Budgets, b': Budgets, key: Key, limit: int) {
    OthersSame(b, b', key) && key in b'.entries && b'.entries[key].limit == limit &&
    b'.entries[key].refs == Count(b, key) + 1 &&
    if key in b.entries then b'.entries[key].limiter == b.entries[key].limiter && b'.made == b.made
    else b'.entries[key].limiter == b.made && b'.made == b.made + 1
  }

  /** key has one holder less, and no budget without any. */
  predicate Drops(b: Budgets, b': Budgets, key: Key) {
    OthersSame(b, b', key) && b'.made == b.made &&
    (key in b'.entries <==> key in b.entries && (key == "" || b.entries[key].refs != 1)) &&
    (key in b'.entries ==>
       b'.entries[key] == b.entries[key].(refs := b'.entries[key].refs) &&
       b'.entries[key].refs == if key == "" || b.entries[key].refs == 0 then b.entries[key].refs else b.entries[key].refs - 1)
  }

  /** key's cap alone is set, if it has a budget. */
  predicate Recaps(b: Budgets, b': Budgets, key: Key, limit: int) {
    OthersSame(b, b', key) && b'.made == b.made && (key in b'.entries <==> key in b.entries) &&
    (key in b.entries ==> b'.entries[key] == b.entries[key].(limit := limit))
  }

  lemma AcquireAdopts(b: Budgets, key: Key, limit: int)
    ensures Adopts(b, AcquireBudget(b, key, limit), key, limit)
  {
  }

  lemma ReleaseDrops(b: Budgets, key: Key)
    ensures Drops(b, ReleaseBudget(b, key), key)
  {
  }

  // ---- the registry as the daemon holds it ----------------------------------------------------

  class BudgetEntry {
    const limiter: nat
    var refs: nat
    var limit: int

    constructor (limiter: nat)
      ensures Value() == Entry(limiter, 0, 0)
    {
      this.limiter := limiter;
      refs, limit := 0, 0;
    }

    ghost function Value(): Entry
      reads this
    {
      Entry(limiter, refs, limit)
    }
  }

  class SharedBudgets {
    var m: map<Key, BudgetEntry>
    var made: nat
    ghost var Repr: set<BudgetEntry>

    /** No two keys share an entry. */
    ghost predicate Valid()
      reads this, Repr
    {
      (forall k :: k in m ==> m[k] in Repr) && (forall k, l :: k in m && l in m && k != l ==> m[k] != m[l])
    }

    ghost function View(): Budgets
      requires Valid()
      reads this, Repr
    {
      Budgets(map k | k in m :: m[k].Value(), made)
    }

    constructor ()
      ensures Valid() && View() == Budgets(map[], 0)
    {
      m, made, Repr := map[], 0, {};
    }

    /** Makes a budget nobody holds yet. */
    method Make(key: Key)
      requires Valid() && key !in m
      modifies this
      ensures Valid() && fresh(Repr - old(Repr)) && key in m && fresh(m[key])
      ensures View() == Budgets(old(View()).entries[key := Entry(old(made), 0, 0)], old(made) + 1)
    {
      var e := new BudgetEntry(made);
      made := made + 1;
      m := m[key := e];
      Repr := Repr + {e};
    }

    /** Counts one more holder of an existing budget, and sets its cap. */
    method Hold(key: Key, limit: int)
      requires Valid() && key in m
      modifies m[key]
      ensures Valid()
      ensures var e := old(View()).entries[key];
        View() == old(View()).(entries := old(View()).entries[key := Entry(e.limiter, e.refs + 1, limit)])
    {
      var e := m[key];
      e.refs := e.refs + 1;
      e.limit := limit;
    }

    method Acquire(key: Key, limit: int) returns (limiter: nat)
      requires Valid()
      modifies this, Repr
      ensures Valid() && fresh(Repr - old(Repr)) && View() == AcquireBudget(old(View()), key, limit)
      ensures limiter == View().entries[key].limiter
      ensures Adopts(old(View()), View(), key, limit)
    {
      hide Adopts;
      AcquireAdopts(View(), key, limit);
      if key !in m {
        Make(key);
      }
      Hold(key, limit);
      return m[key].limiter;
    }

    method SetLimit(key: Key, limit: int)
      requires Valid()
      modifies Repr
      ensures Valid() && View() == SetBudgetLimit(old(View()), key, limit) && Recaps(old(View()), View(), key, limit)
    {
      if key in m {
        m[key].limit := limit;
      }
    }

    method Unhold(key: Key)
      requires Valid() && key in m && m[key].refs > 0
      modifies m[key]
      ensures Valid()
      ensures var e := old(View()).entries[key];
        View() == old(View()).(entries := old(View()).entries[key := e.(refs := e.refs - 1)])
    {
      m[key].refs := m[key].refs - 1;
    }

    method Release(key: Key)
      requires Valid()
      modifies this`m, Repr
      ensures Valid() && View() == ReleaseBudget(old(View()), key) && Drops(old(View()), View(), key)
    {
      hide Drops;
      ReleaseDrops(View(), key);
      if key == "" || key !in m || m[key].refs <= 0 {
        return;
      }
      Unhold(key);
      if m[key].refs == 0 {
        m := m - {key};
      }
    }
  }

  // ---- the protocol ---------------------------------------------------------------------------

  /** A session's published key, its limiter's parent, and how far its end has come. */
  datatype Session = Session(live: bool, bound: Key, parent: Option<nat>, swapped: bool)

  /** Where a call has got to; Dropping still has to release its key. */
  datatype Thread = Binding(s: nat, key: Key, limit: int) | Capping(key: Key, limit: int) | Dropping(key: Key)
                  | Closing(s: nat) | Done

  datatype State = State(budgets: Budgets, sessions: seq<Session>, threads: seq<Thread>)

  datatype Action = OpenSession | Bind(session: nat, key: Key, limit: int) | Cancel(session: nat)
                  | CloseSession(session: nat) | Advance(thread: nat)

  predicate WellFormed(st: State) {
    forall i :: 0 <= i < |st.threads| ==>
      match st.threads[i]
      case Binding(s, key, _) => s < |st.sessions| && key != ""
      case Capping(_, _) => true
      case Dropping(key) => key != ""
      case Closing(s) => s < |st.sessions| && !st.sessions[s].live
      case Done => true
  }

  predicate Enabled(st: State, a: Action) {
    match a
    case OpenSession => true
    case Bind(s, key, _) => s < |st.sessions| && key != ""
    case Cancel(s) => s < |st.sessions|
    case CloseSession(s) => s < |st.sessions| && !st.sessions[s].live
    case Advance(t) => t < |st.threads|
  }

  function With(st: State, t: nat, thread: Thread): State
    requires t < |st.threads|
  {
    st.(threads := st.threads[t := thread])
  }

  /** The lane step of a bind, on a key the session is not bound to yet. */
  function PublishKey(st: State, s: nat, key: Key, limit: int): State
    requires s < |st.sessions|
  {
    var budgets := AcquireBudget(st.budgets, key, limit);
    var session := st.sessions[s].(bound := key, parent := Some(budgets.entries[key].limiter));
    st.(budgets := budgets, sessions := st.sessions[s := session])
  }

  function Unbind(st: State, s: nat): State
    requires s < |st.sessions|
  {
    st.(sessions := st.sessions[s := st.sessions[s].(bound := "", swapped := true)])
  }

  function AdvanceThread(st: State, t: nat): State
    requires WellFormed(st) && t < |st.threads|
  {
    match st.threads[t]
    case Binding(s, key, limit) =>
      var prev := st.sessions[s].bound;
      if !st.sessions[s].live then With(st, t, Done)
      else if prev == key then With(st, t, Capping(key, limit))
      else With(PublishKey(st, s, key, limit), t, if prev != "" then Dropping(prev) else Done)
    case Capping(key, limit) => With(st.(budgets := SetBudgetLimit(st.budgets, key, limit)), t, Done)
    case Dropping(key) => With(st.(budgets := ReleaseBudget(st.budgets, key)), t, Done)
    case Closing(s) =>
      With(Unbind(st, s), t, if st.sessions[s].bound != "" then Dropping(st.sessions[s].bound) else Done)
    case Done => st
  }

  function Act(st: State, a: Action): State
    requires WellFormed(st) && Enabled(st, a)
  {
    match a
    case OpenSession => st.(sessions := st.sessions + [Session(true, "", None, false)])
    case Bind(s, key, limit) => st.(threads := st.threads + [Binding(s, key, limit)])
    case Cancel(s) => st.(sessions := st.sessions[s := st.sessions[s].(live := false)])
    case CloseSession(s) => st.(threads := st.threads + [Closing(s)])
    case Advance(t) => AdvanceThread(st, t)
  }

  // ---- the balance ----------------------------------------------------------------------------

  function Owes(t: Thread): Key {
    match t
    case Dropping(key) => key
    case _ => ""
  }

  function Bound(s: Session): Key {
    s.bound
  }

  function Count(b: Budgets, key: Key): nat {
    if key in b.entries then b.entries[key].refs else 0
  }

  function Owned(st: State, key: Key): nat {
    Tally(st.sessions, Bound, key) + Tally(st.threads, Owes, key)
  }

  /** Every budget has a limiter of its own. */
  ghost predicate OwnLimiters(b: Budgets) {
    (forall k :: k in b.entries ==> k != "" && b.entries[k].refs >= 1 && b.entries[k].limiter < b.made) &&
    (forall k, l :: k in b.entries && l in b.entries && k != l ==> b.entries[k].limiter != b.entries[l].limiter)
  }

  ghost predicate Balanced(st: State) {
    forall key :: key != "" ==> Count(st.budgets, key) == Owned(st, key)
  }

  /** A bound session's limiter draws on the budget of the key it published. */
  ghost predicate Parented(st: State) {
    forall i :: 0 <= i < |st.sessions| && st.sessions[i].bound != "" ==>
      st.sessions[i].bound in st.budgets.entries &&
      st.sessions[i].parent == Some(st.budgets.entries[st.sessions[i].bound].limiter)
  }

  ghost predicate Sound(st: State) {
    WellFormed(st) && OwnLimiters(st.budgets) && Balanced(st) && Parented(st) &&
    forall i :: 0 <= i < |st.sessions| ==>
      if st.sessions[i].swapped then !st.sessions[i].live && st.sessions[i].bound == ""
      else st.sessions[i].bound == "" ==> st.sessions[i].parent == None
  }

  lemma WithOwned(st: State, t: nat, thread: Thread, key: Key)
    requires t < |st.threads|
    ensures Owned(With(st, t, thread), key) + (if Owes(st.threads[t]) == key then 1 else 0) ==
      Owned(st, key) + if Owes(thread) == key then 1 else 0
  {
    TallyUpdate(st.threads, Owes, key, t, thread);
  }

  lemma BoundOwned(st: State, s: nat, session: Session, key: Key)
    requires s < |st.sessions|
    ensures Owned(st.(sessions := st.sessions[s := session]), key) +
      (if st.sessions[s].bound == key then 1 else 0) == Owned(st, key) + if session.bound == key then 1 else 0
  {
    TallyUpdate(st.sessions, Bound, key, s, session);
  }

  /** A session bound to a key, and a call that has yet to release one, each hold a reference on it. */
  lemma HeldTwice(st: State, key: Key, i: nat, t: nat)
    requires Balanced(st) && key != "" && i < |st.sessions| && t < |st.threads|
    requires st.sessions[i].bound == key && Owes(st.threads[t]) == key
    ensures Count(st.budgets, key) >= 2
  {
    TallyPositive(st.sessions, Bound, key, i);
    TallyPositive(st.threads, Owes, key, t);
    assert Count(st.budgets, key) == Owned(st, key);
  }

  lemma DropSound(st: State, t: nat, key: Key)
    requires Sound(st) && t < |st.threads| && st.threads[t] == Dropping(key)
    ensures Sound(AdvanceThread(st, t))
  {
    var st' := AdvanceThread(st, t);
    TallyPositive(st.threads, Owes, key, t);
    assert Count(st.budgets, key) == Owned(st, key);
    forall k | k != "" ensures Count(st'.budgets, k) == Owned(st', k) {
      WithOwned(st, t, Done, k);
      assert Owned(st', k) == Owned(With(st, t, Done), k);
    }
    forall i | 0 <= i < |st.sessions| && st.sessions[i].bound != ""
      ensures st.sessions[i].bound in st'.budgets.entries &&
        st'.budgets.entries[st.sessions[i].bound].limiter == st.budgets.entries[st.sessions[i].bound].limiter
    {
      if st.sessions[i].bound == key {
        HeldTwice(st, key, i, t);
      }
    }
  }

  lemma CapSound(st: State, t: nat, key: Key, limit: int)
    requires Sound(st) && t < |st.threads| && st.threads[t] == Capping(key, limit)
    ensures Sound(AdvanceThread(st, t))
  {
    var st' := AdvanceThread(st, t);
    forall k | k != "" ensures Count(st'.budgets, k) == Owned(st', k) {
      WithOwned(st, t, Done, k);
      assert Owned(st', k) == Owned(With(st, t, Done), k);
    }
  }

  lemma UnbindSound(st: State, t: nat, s: nat)
    requires Sound(st) && t < |st.threads| && st.threads[t] == Closing(s)
    ensures Sound(AdvanceThread(st, t))
  {
    var st1 := Unbind(st, s);
    var st' := AdvanceThread(st, t);
    forall k | k != "" ensures Owned(st', k) == Owned(st, k) {
      BoundOwned(st, s, st1.sessions[s], k);
      WithOwned(st1, t, st'.threads[t], k);
    }
  }

  lemma QuietBindSound(st: State, t: nat, s: nat, key: Key, limit: int)
    requires Sound(st) && t < |st.threads| && st.threads[t] == Binding(s, key, limit)
    requires !st.sessions[s].live || st.sessions[s].bound == key
    ensures Sound(AdvanceThread(st, t))
  {
    var st' := AdvanceThread(st, t);
    forall k | k != "" ensures Owned(st', k) == Owned(st, k) {
      WithOwned(st, t, st'.threads[t], k);
    }
  }

  lemma PublishSound(st: State, t: nat, s: nat, key: Key, limit: int)
    requires Sound(st) && t < |st.threads| && st.threads[t] == Binding(s, key, limit)
    requires st.sessions[s].live && st.sessions[s].bound != key
    ensures Sound(AdvanceThread(st, t))
  {
    var st1 := PublishKey(st, s, key, limit);
    var st' := AdvanceThread(st, t);
    forall k | k != "" ensures Count(st'.budgets, k) == Owned(st', k) {
      PublishCounts(st, t, s, key, limit, k);
    }
    assert OwnLimiters(st1.budgets);
    assert Parented(st1);
  }

  lemma PublishCounts(st: State, t: nat, s: nat, key: Key, limit: int, k: Key)
    requires WellFormed(st) && t < |st.threads| && st.threads[t] == Binding(s, key, limit)
    requires st.sessions[s].live && st.sessions[s].bound != key && k != ""
    requires Count(st.budgets, k) == Owned(st, k)
    ensures Count(AdvanceThread(st, t).budgets, k) == Owned(AdvanceThread(st, t), k)
  {
    var st1 := PublishKey(st, s, key, limit);
    var st' := AdvanceThread(st, t);
    BoundOwned(st, s, st1.sessions[s], k);
    WithOwned(st1, t, st'.threads[t], k);
    assert Count(st'.budgets, k) == Count(st.budgets, k) + if k == key then 1 else 0;
  }

  lemma AdvanceSound(st: State, t: nat)
    requires Sound(st) && t < |st.threads|
    ensures Sound(AdvanceThread(st, t))
  {
    match st.threads[t]
    case Binding(s, key, limit) =>
      if !st.sessions[s].live || st.sessions[s].bound == key {
        QuietBindSound(st, t, s, key, limit);
      } else {
        PublishSound(st, t, s, key, limit);
      }
    case Capping(key, limit) => CapSound(st, t, key, limit);
    case Dropping(key) => DropSound(st, t, key);
    case Closing(s) => UnbindSound(st, t, s);
    case Done =>
  }

  lemma ActSound(st: State, a: Action)
    requires Sound(st) && Enabled(st, a)
    ensures Sound(Act(st, a))
  {
    var st' := Act(st, a);
    match a
    case Advance(t) => AdvanceSound(st, t);
    case OpenSession =>
      forall k | k != "" ensures Owned(st', k) == Owned(st, k) {
        TallyAppend(st.sessions, Bound, k, Session(true, "", None, false));
      }
    case Bind(s, key, limit) =>
      forall k | k != "" ensures Owned(st', k) == Owned(st, k) {
        TallyAppend(st.threads, Owes, k, Binding(s, key, limit));
      }
    case Cancel(s) =>
      forall k | k != "" ensures Owned(st', k) == Owned(st, k) {
        BoundOwned(st, s, st.sessions[s].(live := false), k);
      }
    case CloseSession(s) =>
      forall k | k != "" ensures Owned(st', k) == Owned(st, k) {
        TallyAppend(st.threads, Owes, k, Closing(s));
      }
  }

  // ---- interleavings --------------------------------------------------------------------------

  const Start := State(Budgets(map[], 0), [], [])

  predicate Runs(st: State, acts: seq<Action>)
    requires WellFormed(st)
    decreases |acts|
  {
    acts == [] || (Enabled(st, acts[0]) && WellFormed(Act(st, acts[0])) && Runs(Act(st, acts[0]), acts[1..]))
  }

  function Play(st: State, acts: seq<Action>): State
    requires WellFormed(st) && Runs(st, acts)
    decreases |acts|
  {
    if acts == [] then st else Play(Act(st, acts[0]), acts[1..])
  }

  lemma {:induction false} PlaySound(st: State, acts: seq<Action>)
    requires Sound(st) && Runs(st, acts)
    ensures Sound(Play(st, acts))
    decreases |acts|
  {
    if acts == [] {
    } else {
      ActSound(st, acts[0]);
      PlaySound(Act(st, acts[0]), acts[1..]);
    }
  }

  /**
   In every state of every interleaving: a budget's count is the sessions bound to it and the releases still
   owed; until its close has run, a session whose limiter has a parent is bound, and a bound session's limiter
   draws on the very budget it published, which is live; and two sessions draw on one budget exactly when they
   published one key.
   */
  lemma BudgetsBalance(acts: seq<Action>, key: Key, i: nat, j: nat)
    requires Runs(Start, acts) && key != ""
    ensures var st := Play(Start, acts);
      Count(st.budgets, key) == Tally(st.sessions, Bound, key) + Tally(st.threads, Owes, key)
    ensures var st := Play(Start, acts);
      i < |st.sessions| && st.sessions[i].bound != "" ==>
        st.sessions[i].bound in st.budgets.entries && st.budgets.entries[st.sessions[i].bound].refs >= 1 &&
        st.sessions[i].parent == Some(st.budgets.entries[st.sessions[i].bound].limiter)
    ensures var st := Play(Start, acts);
      i < |st.sessions| && (st.sessions[i].live || !st.sessions[i].swapped) && st.sessions[i].parent.Some? ==>
        st.sessions[i].bound != ""
    ensures var st := Play(Start, acts);
      i < |st.sessions| && j < |st.sessions| && st.sessions[i].bound != "" && st.sessions[j].bound != "" ==>
        (st.sessions[i].parent == st.sessions[j].parent <==> st.sessions[i].bound == st.sessions[j].bound)
  {
    assert Sound(Start);
    PlaySound(Start, acts);
    assert Balanced(Play(Start, acts));
  }

  /**
   What one step of a call does. The lane step of a bind publishes the key, on a budget capped as asked now or by
   the call's last step, and owes the release of the key it displaced; it does nothing for a session that has ended.
   A close unbinds its session and owes the release of what that was bound to.
   */
  lemma CallSettles(st: State, t: nat)
    requires Sound(st) && t < |st.threads|
    ensures var st' := AdvanceThread(st, t); var now := st'.threads[t];
      |st'.threads| == |st.threads| && st' == st.(budgets := st'.budgets, sessions := st'.sessions, threads := st.threads[t := now]) &&
      match st.threads[t]
      case Binding(s, key, limit) =>
        var was := st.sessions[s];
        if !was.live then now == Done && st'.budgets == st.budgets && st'.sessions == st.sessions
        else if was.bound == key then now == Capping(key, limit) && st'.budgets == st.budgets && st'.sessions == st.sessions
        else
          now == (if was.bound == "" then Done else Dropping(was.bound)) && Adopts(st.budgets, st'.budgets, key, limit) &&
          st'.sessions == st.sessions[s := was.(bound := key, parent := Some(st'.budgets.entries[key].limiter))]
      case Capping(key, limit) => now == Done && Recaps(st.budgets, st'.budgets, key, limit) && st'.sessions == st.sessions
      case Dropping(key) => now == Done && Drops(st.budgets, st'.budgets, key) && st'.sessions == st.sessions
      case Closing(s) =>
        now == (if st.sessions[s].bound == "" then Done else Dropping(st.sessions[s].bound)) && st'.budgets == st.budgets &&
        st'.sessions == st.sessions[s := st.sessions[s].(bound := "", swapped := true)]
      case Done => st' == st
  {
  }

  predicate Quiescent(st: State) {
    forall t :: 0 <= t < |st.threads| ==> st.threads[t] == Done
  }

  predicate AllClosed(st: State) {
    forall i :: 0 <= i < |st.sessions| ==> st.sessions[i].swapped
  }

  /** Once every call has returned and every session has closed, no budget is left. */
  lemma NothingLeaks(acts: seq<Action>)
    requires Runs(Start, acts) && Quiescent(Play(Start, acts)) && AllClosed(Play(Start, acts))
    ensures Play(Start, acts).budgets.entries == map[]
  {
    assert Sound(Start);
    PlaySound(Start, acts);
    var st := Play(Start, acts);
    forall key | key != "" ensures key !in st.budgets.entries {
      assert forall t :: 0 <= t < |st.threads| ==> Owes(st.threads[t]) != key;
      TallyZero(st.threads, Owes, key);
      TallyZero(st.sessions, Bound, key);
      assert Count(st.budgets, key) == Owned(st, key);
    }
    assert st.budgets.entries == map[];
  }
}
