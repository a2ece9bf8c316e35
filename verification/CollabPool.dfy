/**
 The pool of collaboration stores. A store is opened without the pool's lock by the one caller that leads
 its key's flight; the others wait and look again. Opens that fail, find nothing or panic, and the pool's
 shutdown, interleave with any number of callers.
 */
module CollabPool {
  import opened Ids
  import opened Options

  /** A workspace, or the daemon-level store's key. */
  type Key = string

  const GLOBAL_KEY: Key := "\0global"

  type Handle = nat

  /** What the pool's lock guards; a flight is known by the call that leads it. */
  datatype Pool = Pool(stores: map<Key, Handle>, inflight: map<Key, nat>, closed: bool)

  /** What an unlocked open came to. */
  datatype Opened = Got(handle: Handle) | Absent | Failed

  /** The lookup's answer: a cached store, the flight to wait for, or the lead. */
  datatype Turn = Hit(handle: Handle) | Wait(flight: nat) | Lead

  function Lookup(p: Pool, key: Key, me: nat): (Pool, Turn) {
    if key in p.stores then (p, Hit(p.stores[key]))
    else if key in p.inflight then (p, Wait(p.inflight[key]))
    else (p.(inflight := p.inflight[key := me]), Lead)
  }

  function EndFlight(p: Pool, key: Key): Pool {
    p.(inflight := p.inflight - {key})
  }

  /** The leader's second critical section: end the flight, and publish unless the pool has closed. */
  function Finish(p: Pool, key: Key, found: Opened): Pool {
    var p1 := EndFlight(p, key);
    if found.Got? && !p.closed then p1.(stores := p1.stores[key := found.handle]) else p1
  }

  // ---- the pool as the daemon holds it --------------------------------------------------------

  class CollabStores {
    var stores: map<Key, Handle>
    var global: Option<Handle>
    var inflight: map<Key, nat>
    var closed: bool

    ghost predicate Valid()
      reads this
    {
      GLOBAL_KEY !in stores
    }

    /** The daemon-level store is filed under its flight's key. */
    ghost function View(): Pool
      reads this
    {
      Pool(if global.Some? then stores[GLOBAL_KEY := global.value] else stores, inflight, closed)
    }

    constructor ()
      ensures Valid() && View() == Pool(map[], map[], false)
    {
      stores, global, inflight, closed := map[], None, map[], false;
    }

    method Cached(key: Key) returns (hit: Option<Handle>)
      requires Valid()
      ensures hit == if key in View().stores then Some(View().stores[key]) else None
    {
      if key == GLOBAL_KEY {
        return global;
      }
      return if key in stores then Some(stores[key]) else None;
    }

    method Publish(key: Key, s: Handle)
      requires Valid()
      modifies this`stores, this`global
      ensures Valid() && View() == old(View()).(stores := old(View()).stores[key := s])
    {
      if key == GLOBAL_KEY {
        global := Some(s);
      } else {
        stores := stores[key := s];
      }
    }

    /** The critical section in front of an open. */
    method LookOrLead(key: Key, me: nat) returns (turn: Turn)
      requires Valid()
      modifies this`inflight
      ensures Valid() && (View(), turn) == Lookup(old(View()), key, me)
    {
      var hit := Cached(key);
      if hit.Some? {
        return Hit(hit.value);
      }
      if key in inflight {
        return Wait(inflight[key]);
      }
      inflight := inflight[key := me];
      return Lead;
    }

    method FinishOpen(key: Key, found: Opened) returns (wasClosed: bool)
      requires Valid()
      modifies this`inflight, this`stores, this`global
      ensures Valid() && View() == Finish(old(View()), key, found) && wasClosed == closed
    {
      inflight := inflight - {key};
      wasClosed := closed;
      if found.Got? && !wasClosed {
        Publish(key, found.handle);
      }
    }

    /** Closes every published store, and says which they were. */
    method CloseAll() returns (shut: set<Handle>)
      requires Valid()
      modifies this
      ensures Valid() && View() == old(View()).(stores := map[], closed := true)
      ensures shut == old(View()).stores.Values
    {
      closed := true;
      shut := {};
      ghost var table := View().stores;
      var todo := stores.Keys;
      while todo != {}
        invariant todo <= stores.Keys && shut == set k | k in stores && k !in todo :: stores[k]
        decreases todo
      {
        var k :| k in todo;
        todo := todo - {k};
        shut := shut + {stores[k]};
      }
      if global.Some? {
        shut := shut + {global.value};
      }
      assert forall h :: h in table.Values <==> h in shut by {
        forall h | h in shut ensures h in table.Values {
          if global.Some? && h == global.value {
            assert table[GLOBAL_KEY] == h;
          } else {
            var k :| k in stores && stores[k] == h;
            assert table[k] == h;
          }
        }
      }
      stores := map[];
      global := None;
    }
  }

  // ---- the protocol ---------------------------------------------------------------------------

  datatype Result = Store(handle: Handle) | Nothing | Error

  datatype Thread =
    | Looking(key: Key, create: bool)
    | Waiting(key: Key, create: bool, flight: nat)
    | Opening(key: Key, create: bool)
    | Finishing(key: Key, create: bool, found: Opened)
    | Panicking(key: Key)
    | MustClose(key: Key, handle: Handle)
    | Returned(key: Key, create: bool, result: Result)
    | Panicked

  /** What an open handle opens, and the call that opened it. */
  datatype Birth = Birth(key: Key, opener: nat)

  datatype State = State(pool: Pool, live: map<Handle, Birth>, made: nat, threads: seq<Thread>)

  /** How an open in flight ends. */
  datatype Fate = Opens | FindsNothing | Fails | Panics

  datatype Action = Call(key: Key, create: bool) | Advance(thread: nat, fate: Fate) | CloseAll

  predicate Enabled(st: State, a: Action) {
    match a
    case Call(_, _) => true
    case CloseAll => true
    case Advance(t, fate) =>
      t < |st.threads| &&
      match st.threads[t]
      case Looking(_, _) => true
      case Waiting(key, _, flight) => !(key in st.pool.inflight && st.pool.inflight[key] == flight)
      case Opening(_, create) => fate == FindsNothing ==> !create
      case Finishing(_, _, _) => true
      case Panicking(_) => true
      case MustClose(_, _) => true
      case Returned(_, _, _) => false
      case Panicked => false
  }

  function With(st: State, t: nat, thread: Thread): State
    requires t < |st.threads|
  {
    st.(threads := st.threads[t := thread])
  }

  function Outcome(found: Opened): Result {
    match found
    case Got(handle) => Store(handle)
    case Absent => Nothing
    case Failed => Error
  }

  function AfterOpen(st: State, t: nat, key: Key, create: bool, fate: Fate): State
    requires t < |st.threads|
  {
    match fate
    case Opens =>
      With(st.(live := st.live[st.made := Birth(key, t)], made := st.made + 1), t, Finishing(key, create, Got(st.made)))
    case FindsNothing => With(st, t, Finishing(key, create, Absent))
    case Fails => With(st, t, Finishing(key, create, Failed))
    case Panics => With(st, t, Panicking(key))
  }

  function AdvanceThread(st: State, t: nat, fate: Fate): State
    requires Enabled(st, Advance(t, fate))
  {
    match st.threads[t]
    case Looking(key, create) =>
      var (pool, turn) := Lookup(st.pool, key, t);
      With(st.(pool := pool), t,
           match turn
           case Hit(handle) => Returned(key, create, Store(handle))
           case Wait(flight) => Waiting(key, create, flight)
           case Lead => Opening(key, create))
    case Waiting(key, create, _) => With(st, t, Looking(key, create))
    case Opening(key, create) => AfterOpen(st, t, key, create, fate)
    case Finishing(key, create, found) =>
      With(st.(pool := Finish(st.pool, key, found)), t,
           if found.Got? && st.pool.closed then MustClose(key, found.handle)
           else Returned(key, create, Outcome(found)))
    case Panicking(key) => With(st.(pool := EndFlight(st.pool, key)), t, Panicked)
    case MustClose(key, handle) => With(st.(live := st.live - {handle}), t, Returned(key, true, Error))
  }

  function Act(st: State, a: Action): State
    requires Enabled(st, a)
  {
    match a
    case Call(key, create) => st.(threads := st.threads + [Looking(key, create)])
    case CloseAll =>
      st.(pool := st.pool.(stores := map[], closed := true), live := st.live - st.pool.stores.Values)
    case Advance(t, fate) => AdvanceThread(st, t, fate)
  }

  // ---- the invariant --------------------------------------------------------------------------

  /** The key whose flight the call leads. */
  function LeadOf(t: Thread): Option<Key> {
    match t
    case Opening(key, _) => Some(key)
    case Finishing(key, _, _) => Some(key)
    case Panicking(key) => Some(key)
    case _ => None
  }

  /** The unpublished handle the call holds. */
  function HeldBy(t: Thread): Option<Handle> {
    match t
    case MustClose(_, handle) => Some(handle)
    case Finishing(_, _, found) => if found.Got? then Some(found.handle) else None
    case _ => None
  }

  /** A call that asked for the store to be created is never told there is none. */
  predicate Honest(t: Thread) {
    (t.Finishing? && t.create ==> t.found != Absent) && (t.Returned? && t.create ==> t.result != Nothing)
  }

  predicate PublishedAs(p: Pool, key: Key, h: Handle) {
    key in p.stores && p.stores[key] == h
  }

  /** Flights and their leaders correspond, and no key in flight is published. */
  ghost predicate FlightsLed(st: State) {
    (forall i | 0 <= i < |st.threads| && LeadOf(st.threads[i]).Some? ::
       LeadOf(st.threads[i]).value in st.pool.inflight && st.pool.inflight[LeadOf(st.threads[i]).value] == i) &&
    (forall key | key in st.pool.inflight :: Led(st, key) && key !in st.pool.stores)
  }

  predicate Led(st: State, key: Key)
    requires key in st.pool.inflight
  {
    st.pool.inflight[key] < |st.threads| && LeadOf(st.threads[st.pool.inflight[key]]) == Some(key)
  }

  /** Every live handle is published under its key or held by the call that opened it, never both. */
  ghost predicate HandlesKept(st: State) {
    (forall h | h in st.live :: Kept(st, h)) &&
    (forall key | key in st.pool.stores :: st.pool.stores[key] in st.live && st.live[st.pool.stores[key]].key == key) &&
    (forall i | 0 <= i < |st.threads| && HeldBy(st.threads[i]).Some? ::
       var h := HeldBy(st.threads[i]).value;
       h in st.live && st.live[h] == Birth(st.threads[i].key, i) && !PublishedAs(st.pool, st.live[h].key, h))
  }

  predicate Kept(st: State, h: Handle)
    requires h in st.live
  {
    var birth := st.live[h];
    h < st.made && birth.opener < |st.threads| &&
    (PublishedAs(st.pool, birth.key, h) || HeldBy(st.threads[birth.opener]) == Some(h))
  }

  ghost predicate Sound(st: State) {
    FlightsLed(st) && HandlesKept(st) && (st.pool.closed ==> st.pool.stores == map[]) &&
    (forall i | 0 <= i < |st.threads| :: Honest(st.threads[i]) && (st.threads[i].MustClose? ==> st.pool.closed))
  }

  // ---- each step keeps it ---------------------------------------------------------------------

  lemma LookSound(st: State, t: nat)
    requires Sound(st) && t < |st.threads| && st.threads[t].Looking?
    ensures Sound(AdvanceThread(st, t, Opens))
  {
  }

  lemma OpenedSound(st: State, t: nat)
    requires Sound(st) && t < |st.threads| && st.threads[t].Opening?
    ensures Sound(AdvanceThread(st, t, Opens))
  {
    var st' := AdvanceThread(st, t, Opens);
    assert FlightsLed(st');
    assert HandlesKept(st');
  }

  lemma UnopenedSound(st: State, t: nat, fate: Fate)
    requires Sound(st) && Enabled(st, Advance(t, fate)) && st.threads[t].Opening? && fate != Opens
    ensures Sound(AdvanceThread(st, t, fate))
  {
    var st' := AdvanceThread(st, t, fate);
    assert FlightsLed(st');
    assert HandlesKept(st');
  }

  lemma FinishFlights(st: State, t: nat)
    requires Sound(st) && t < |st.threads| && st.threads[t].Finishing?
    ensures FlightsLed(AdvanceThread(st, t, Opens))
  {
  }

  lemma PublishHandles(st: State, t: nat)
    requires Sound(st) && t < |st.threads| && st.threads[t].Finishing? && st.threads[t].found.Got? && !st.pool.closed
    ensures HandlesKept(AdvanceThread(st, t, Opens))
  {
    var key, h := st.threads[t].key, st.threads[t].found.handle;
    assert HeldBy(st.threads[t]) == Some(h);
    assert PublishedAs(AdvanceThread(st, t, Opens).pool, key, h);
  }

  lemma WithdrawHandles(st: State, t: nat)
    requires Sound(st) && t < |st.threads| && st.threads[t].Finishing? && (!st.threads[t].found.Got? || st.pool.closed)
    ensures HandlesKept(AdvanceThread(st, t, Opens))
  {
    assert AdvanceThread(st, t, Opens).pool.stores == st.pool.stores;
  }

  lemma FinishSound(st: State, t: nat)
    requires Sound(st) && t < |st.threads| && st.threads[t].Finishing?
    ensures Sound(AdvanceThread(st, t, Opens))
  {
    FinishFlights(st, t);
    if st.threads[t].found.Got? && !st.pool.closed {
      PublishHandles(st, t);
    } else {
      WithdrawHandles(st, t);
    }
  }

  lemma PanicSound(st: State, t: nat)
    requires Sound(st) && t < |st.threads| && st.threads[t].Panicking?
    ensures Sound(AdvanceThread(st, t, Opens))
  {
  }

  lemma CloseOwnSound(st: State, t: nat)
    requires Sound(st) && t < |st.threads| && st.threads[t].MustClose?
    ensures Sound(AdvanceThread(st, t, Opens))
  {
  }

  lemma CloseAllSound(st: State)
    requires Sound(st)
    ensures Sound(Act(st, CloseAll))
  {
  }

  lemma ActSound(st: State, a: Action)
    requires Sound(st) && Enabled(st, a)
    ensures Sound(Act(st, a))
  {
    match a
    case Call(key, create) =>
    case CloseAll => CloseAllSound(st);
    case Advance(t, fate) =>
      match st.threads[t]
      case Looking(_, _) => LookSound(st, t);
      case Waiting(_, _, _) =>
      case Opening(_, _) =>
        if fate == Opens {
          OpenedSound(st, t);
        } else {
          UnopenedSound(st, t, fate);
        }
      case Finishing(_, _, _) => FinishSound(st, t);
      case Panicking(_) => PanicSound(st, t);
      case MustClose(_, _) => CloseOwnSound(st, t);
  }

  // ---- interleavings --------------------------------------------------------------------------

  const Start := State(Pool(map[], map[], false), map[], 0, [])

  /** The state after an interleaving, or None when some action of it could not run. */
  function Play(st: State, acts: seq<Action>): Option<State>
    decreases |acts|
  {
    if acts == [] then Some(st)
    else if !Enabled(st, acts[0]) then None
    else Play(Act(st, acts[0]), acts[1..])
  }

  predicate Reached(acts: seq<Action>, st: State) {
    Play(Start, acts) == Some(st)
  }

  lemma {:induction false} PlaySound(st: State, acts: seq<Action>)
    requires Sound(st) && Play(st, acts).Some?
    ensures Sound(Play(st, acts).value)
    decreases |acts|
  {
    if acts == [] {
    } else {
      ActSound(st, acts[0]);
      PlaySound(Act(st, acts[0]), acts[1..]);
    }
  }

  /** A handle its opener will close, because the pool shut before it could be published. */
  predicate DoomedHandle(st: State, h: Handle) {
    h in st.live && st.live[h].opener < |st.threads| && st.threads[st.live[h].opener].MustClose? &&
    st.threads[st.live[h].opener].handle == h
  }

  /**
   In every interleaving a key has at most one live handle besides those doomed by the pool's shutdown, and
   none is doomed while the pool is open.
   */
  lemma OneLiveHandle(acts: seq<Action>, st: State, g: Handle, h: Handle)
    requires Reached(acts, st) && g in st.live && h in st.live && st.live[g].key == st.live[h].key
    requires !DoomedHandle(st, g) && !DoomedHandle(st, h)
    ensures g == h
    ensures !st.pool.closed ==> forall d :: d in st.live ==> !DoomedHandle(st, d)
  {
    PlaySound(Start, acts);
    assert Kept(st, g) && Kept(st, h);
  }

  /** Every handle whose opener has returned is published under its key or closed. */
  lemma PublishedOrClosed(acts: seq<Action>, st: State, h: Handle)
    requires Reached(acts, st) && h in st.live
    requires st.live[h].opener < |st.threads| ==> st.threads[st.live[h].opener].Returned? || st.threads[st.live[h].opener].Panicked?
    ensures PublishedAs(st.pool, st.live[h].key, h)
  {
    PlaySound(Start, acts);
    assert Kept(st, h);
  }

  /** A caller that asked for creation is never told the store is absent, whoever led the flight it waited for. */
  lemma CreatorNeverAbsent(acts: seq<Action>, st: State, t: nat)
    requires Reached(acts, st) && t < |st.threads| && st.threads[t].Returned? && st.threads[t].create
    ensures st.threads[t].result != Nothing
  {
    PlaySound(Start, acts);
    assert Honest(st.threads[t]);
  }

  /** The store a call returns is the one published under its key as it returns. */
  lemma ReturnsPublished(acts: seq<Action>, st: State, t: nat, fate: Fate)
    requires Reached(acts, st) && Enabled(st, Advance(t, fate))
    requires AdvanceThread(st, t, fate).threads[t].Returned? && AdvanceThread(st, t, fate).threads[t].result.Store?
    ensures var st' := AdvanceThread(st, t, fate); var h := st'.threads[t].result.handle;
      PublishedAs(st'.pool, st.threads[t].key, h) && h in st'.live && st'.live[h].key == st.threads[t].key
  {
    PlaySound(Start, acts);
    ActSound(st, Advance(t, fate));
  }

  /**
   What a call is told. A store, if it found one published or its own open came back with one the pool took; that
   there is none, if its own open said so; an error, if its open failed or the pool shut before its store could be
   published.
   */
  lemma ToldAsFound(st: State, t: nat, fate: Fate)
    requires Sound(st) && Enabled(st, Advance(t, fate)) && AdvanceThread(st, t, fate).threads[t].Returned?
    ensures var was, told := st.threads[t], AdvanceThread(st, t, fate).threads[t].result;
      (told == Nothing <==> was.Finishing? && was.found == Absent) &&
      (told == Error <==> was.MustClose? || (was.Finishing? && was.found == Failed)) &&
      (forall h :: told == Store(h) <==>
         (was.Looking? && PublishedAs(st.pool, was.key, h)) || (was.Finishing? && was.found == Got(h) && !st.pool.closed))
  {
  }

  /** And what its open finds is what becomes of it: a handle nobody had, nothing, a failure or a panic. */
  lemma FindsWhatOpens(st: State, t: nat, fate: Fate)
    requires Sound(st) && Enabled(st, Advance(t, fate)) && st.threads[t].Opening?
    ensures var now, st' := AdvanceThread(st, t, fate).threads[t], AdvanceThread(st, t, fate);
      match fate
      case Opens => now.Finishing? && now.found.Got? && now.found.handle !in st.live &&
                    st'.live == st.live[now.found.handle := Birth(now.key, t)] && now.key == st.threads[t].key
      case FindsNothing => now.Finishing? && now.found == Absent && !st.threads[t].create && st'.live == st.live
      case Fails => now.Finishing? && now.found == Failed && st'.live == st.live
      case Panics => now.Panicking? && st'.live == st.live
  {
    forall h | h in st.live ensures h < st.made {
      assert Kept(st, h);
    }
  }

  predicate Ended(t: Thread) {
    t.Returned? || t.Panicked?
  }

  /** After the pool has closed and every call has ended, no handle is open. */
  lemma NothingLeftOpen(acts: seq<Action>, st: State)
    requires Reached(acts, st) && st.pool.closed && (forall t | 0 <= t < |st.threads| :: Ended(st.threads[t]))
    ensures st.live == map[]
  {
    PlaySound(Start, acts);
    forall h | h in st.live ensures Holding(st, h) {
      UnpublishedIsHeld(st, h);
    }
    forall h ensures h !in st.live {
      assert h in st.live ==> Holding(st, h);
    }
    assert st.live == map[];
  }

  lemma UnpublishedIsHeld(st: State, h: Handle)
    requires Sound(st) && h in st.live && st.pool.closed
    ensures Holding(st, h)
  {
  }

  /** The call that opened the handle still holds it. */
  predicate Holding(st: State, h: Handle) {
    h in st.live && st.live[h].opener < |st.threads| && HeldBy(st.threads[st.live[h].opener]) == Some(h)
  }

  /** Nobody waits for ever: a call that cannot go on waits for one that can. */
  lemma NobodyWedged(acts: seq<Action>, st: State, t: nat) returns (u: nat)
    requires Reached(acts, st) && t < |st.threads| && !Ended(st.threads[t])
    ensures u < |st.threads| && Enabled(st, Advance(u, Fails))
    ensures u == t || (st.threads[t].Waiting? && st.threads[t].flight == u && LeadOf(st.threads[u]) == Some(st.threads[t].key))
  {
    PlaySound(Start, acts);
    if Enabled(st, Advance(t, Fails)) {
      u := t;
    } else {
      u := st.threads[t].flight;
      assert Led(st, st.threads[t].key);
    }
  }

  // ---- before and after the shutdown ------------------------------------------------------------

  lemma {:induction false} PlayAppend(st: State, acts: seq<Action>, more: seq<Action>)
    requires Play(st, acts).Some?
    ensures Play(st, acts + more) == Play(Play(st, acts).value, more)
    decreases |acts|
  {
    if acts == [] {
      assert acts + more == more;
    } else {
      assert (acts + more)[1..] == acts[1..] + more;
      PlayAppend(Act(st, acts[0]), acts[1..], more);
    }
  }

  predicate WithoutClose(acts: seq<Action>) {
    forall a :: a in acts ==> !a.CloseAll?
  }

  /** The interleaving goes from st to st' without another shutdown, and keeps what was live. */
  predicate Goes(st: State, acts: seq<Action>, st': State) {
    WithoutClose(acts) && Play(st, acts) == Some(st')
  }

  lemma GoesOn(st: State, acts: seq<Action>, st1: State, more: seq<Action>, st2: State)
    requires Goes(st, acts, st1) && Goes(st1, more, st2)
    ensures Goes(st, acts + more, st2)
  {
    PlayAppend(st, acts, more);
  }

  lemma GoesOne(st: State, a: Action)
    requires Enabled(st, a) && !a.CloseAll?
    ensures Goes(st, [a], Act(st, a))
  {
    assert [a][1..] == [];
  }

  /** At most one handle of the key is open. */
  ghost predicate Single(st: State, key: Key) {
    forall g, h :: g in st.live && h in st.live && st.live[g].key == key && st.live[h].key == key ==> g == h
  }

  /** Nor will there be more, whatever happens short of another shutdown. */
  ghost predicate StaysSingle(st: State, key: Key) {
    forall acts | WithoutClose(acts) && Play(st, acts).Some? :: Single(Play(st, acts).value, key)
  }

  lemma OpenPoolIsSingle(st: State, key: Key)
    requires Sound(st) && !st.pool.closed
    ensures Single(st, key)
  {
    forall g, h | g in st.live && h in st.live && st.live[g].key == key && st.live[h].key == key
      ensures g == h
    {
      assert Kept(st, g) && Kept(st, h);
    }
  }

  lemma {:induction false} StaysOpen(st: State, acts: seq<Action>)
    requires WithoutClose(acts) && Play(st, acts).Some?
    ensures Play(st, acts).value.pool.closed == st.pool.closed
    decreases |acts|
  {
    if acts == [] {
    } else {
      assert acts[0] in acts;
      StaysOpen(Act(st, acts[0]), acts[1..]);
    }
  }

  /** Once the pool has shut, the key's flight can be brought down. */
  lemma Lands(st: State, key: Key) returns (acts: seq<Action>, st': State)
    requires Sound(st) && st.pool.closed
    ensures Goes(st, acts, st') && Sound(st') && st'.pool.closed && key !in st'.pool.inflight
  {
    if key !in st.pool.inflight {
      acts, st' := [], st;
    } else {
      var u := st.pool.inflight[key];
      assert Led(st, key);
      acts, st' := [], st;
      if st.threads[u].Opening? {
        acts, st' := [Advance(u, Fails)], Act(st, Advance(u, Fails));
        GoesOne(st, Advance(u, Fails));
        ActSound(st, Advance(u, Fails));
      }
      ActSound(st', Advance(u, Fails));
      GoesOne(st', Advance(u, Fails));
      GoesOn(st, acts, st', [Advance(u, Fails)], Act(st', Advance(u, Fails)));
      acts, st' := acts + [Advance(u, Fails)], Act(st', Advance(u, Fails));
    }
  }

  /** A call finds nothing published, leads the key again and opens another handle. */
  lemma OpensAnother(st: State, key: Key) returns (acts: seq<Action>, st': State, t: nat)
    requires Sound(st) && st.pool.closed && key !in st.pool.inflight
    ensures Goes(st, acts, st') && Sound(st') && st'.pool.closed
    ensures t < |st'.threads| && st'.threads[t] == Finishing(key, true, Got(st.made))
    ensures st.made !in st.live && st'.live == st.live[st.made := Birth(key, t)]
  {
    t := |st.threads|;
    var called := Act(st, Call(key, true));
    ActSound(st, Call(key, true));
    GoesOne(st, Call(key, true));
    var led := Act(called, Advance(t, Opens));
    ActSound(called, Advance(t, Opens));
    GoesOne(called, Advance(t, Opens));
    st' := Act(led, Advance(t, Opens));
    ActSound(led, Advance(t, Opens));
    GoesOne(led, Advance(t, Opens));
    GoesOn(st, [Call(key, true)], called, [Advance(t, Opens)], led);
    acts := [Call(key, true)] + [Advance(t, Opens)] + [Advance(t, Opens)];
    GoesOn(st, [Call(key, true)] + [Advance(t, Opens)], led, [Advance(t, Opens)], st');
    forall h | h in st.live ensures h < st.made {
      assert Kept(st, h);
    }
  }

  /** It ends its flight, and has yet to close what it opened. */
  lemma DoomsIt(st: State, key: Key) returns (acts: seq<Action>, st': State)
    requires Sound(st) && st.pool.closed && key !in st.pool.inflight
    ensures Goes(st, acts, st') && Sound(st') && st'.pool.closed && key !in st'.pool.inflight
    ensures st.made in st'.live && st'.live[st.made].key == key
  {
    var first, holding, t := OpensAnother(st, key);
    st' := Act(holding, Advance(t, Opens));
    ActSound(holding, Advance(t, Opens));
    GoesOne(holding, Advance(t, Opens));
    GoesOn(st, first, holding, [Advance(t, Opens)], st');
    acts := first + [Advance(t, Opens)];
  }

  /** A second call does the same before that. */
  lemma OpensTwo(st: State, key: Key) returns (acts: seq<Action>, st': State)
    requires Sound(st) && st.pool.closed && key !in st.pool.inflight
    ensures Goes(st, acts, st') && !Single(st', key)
  {
    var first, doomed := DoomsIt(st, key);
    var second, end, t := OpensAnother(doomed, key);
    acts, st' := first + second, end;
    GoesOn(st, first, doomed, second, end);
    assert st.made in end.live && doomed.made in end.live && st.made != doomed.made;
  }

  /**
   At most one handle of a key is open from here on exactly while the pool has not been shut: whatever state
   the shutdown left, some later calls have two handles of the key open at once.
   */
  lemma SingleUntilShut(acts: seq<Action>, st: State, key: Key)
    requires Reached(acts, st)
    ensures StaysSingle(st, key) <==> !st.pool.closed
  {
    PlaySound(Start, acts);
    if st.pool.closed {
      var first, landed := Lands(st, key);
      var second, end := OpensTwo(landed, key);
      GoesOn(st, first, landed, second, end);
      assert Play(st, first + second).Some? && !Single(Play(st, first + second).value, key);
    } else {
      forall more | WithoutClose(more) && Play(st, more).Some? ensures Single(Play(st, more).value, key) {
        PlaySound(st, more);
        StaysOpen(st, more);
        OpenPoolIsSingle(Play(st, more).value, key);
      }
    }
  }
}
