/**
 The project-config watcher's reference counts. A session acquires a watch before it publishes the root,
 publishes in the mutation lane only while the session is live, and releases whatever it displaced; any
 number of such calls, session closes and the manager's own shutdown interleave.
 */
module WatchRefs {
  import opened Ids
  import opened Counting

  // ---- the manager ----------------------------------------------------------------------------

  /** Live references per root. */
  type Refs = map<Path, nat>

  function AcquireRef(refs: Refs, closed: bool, root: Path): Refs {
    if root == "" || closed then refs
    else refs[root := (if root in refs then refs[root] else 0) + 1]
  }

  function ReleaseRef(refs: Refs, root: Path): Refs {
    if root !in refs then refs
    else if refs[root] <= 1 then refs - {root}
    else refs[root := refs[root] - 1]
  }

  /** How many references the root has. */
  function Count(refs: Refs, root: Path): nat {
    if root in refs then refs[root] else 0
  }

  /** No entry outlives its last reference. */
  predicate NoDeadEntry(refs: Refs) {
    forall root :: root in refs ==> refs[root] >= 1
  }

  /** A release undoes the acquisition before it, whatever else is watched. */
  lemma ReleaseUndoesAcquire(refs: Refs, root: Path)
    requires NoDeadEntry(refs)
    ensures ReleaseRef(AcquireRef(refs, false, root), root) == if root == "" then ReleaseRef(refs, root) else refs
  {
  }

  class WatchManager {
    var watches: Refs
    var closed: bool

    constructor ()
      ensures watches == map[] && !closed
    {
      watches, closed := map[], false;
    }

    method Acquire(root: Path)
      modifies this`watches
      ensures watches == AcquireRef(old(watches), closed, root)
      ensures forall r :: Count(watches, r) == Count(old(watches), r) + if r == root && root != "" && !closed then 1 else 0
      ensures NoDeadEntry(old(watches)) ==> NoDeadEntry(watches)
    {
      if root == "" || closed {
        return;
      }
      if root in watches {
        watches := watches[root := watches[root] + 1];
        return;
      }
      watches := watches[root := 1];
    }

    method Release(root: Path)
      modifies this`watches
      ensures watches == ReleaseRef(old(watches), root)
      ensures NoDeadEntry(old(watches)) ==>
        forall r :: Count(watches, r) == Count(old(watches), r) - if r == root && root in old(watches) then 1 else 0
      ensures NoDeadEntry(old(watches)) ==> NoDeadEntry(watches)
    {
      if root in watches {
        var left: int := watches[root] as int - 1;
        if left <= 0 {
          watches := watches - {root};
        } else {
          watches := watches[root := left];
        }
      }
    }

    method Close()
      modifies this
      ensures closed && watches == map[]
    {
      closed := true;
      var todo := watches.Keys;
      while todo != {}
        invariant watches.Keys == todo && closed
        decreases todo
      {
        var root :| root in todo;
        todo := todo - {root};
        watches := watches - {root};
      }
      assert watches == map[];
    }
  }

  // ---- the protocol ---------------------------------------------------------------------------

  /** What a session has published, and how far its end has come: its context, and close's lane swap. */
  datatype Session = Session(live: bool, published: Path, swapped: bool)

  /** Where one call has got to. Publishing and Dropping hold a reference the call must still settle. */
  datatype Thread =
    | Entering(s: nat, root: Path)
    | PastFastPath(s: nat, root: Path)
    | Acquiring(s: nat, root: Path)
    | Publishing(s: nat, root: Path)
    | Dropping(root: Path)
    | Closing(s: nat)
    | Done

  datatype State = State(refs: Refs, mgrClosed: bool, sessions: seq<Session>, threads: seq<Thread>)

  datatype Action = OpenSession | Track(session: nat, root: Path) | Cancel(session: nat) | CloseSession(session: nat)
                  | Advance(thread: nat) | CloseManager

  predicate Enabled(st: State, a: Action) {
    match a
    case OpenSession => true
    case Track(s, root) => s < |st.sessions| && root != ""
    case Cancel(s) => s < |st.sessions|
    case CloseSession(s) => s < |st.sessions| && !st.sessions[s].live
    case Advance(t) => t < |st.threads| && st.threads[t] != Done
    case CloseManager => true
  }

  /** Every call works for a session that exists, on a root. */
  predicate WellFormed(st: State) {
    forall i :: 0 <= i < |st.threads| ==>
      match st.threads[i]
      case Entering(s, root) => s < |st.sessions| && root != ""
      case PastFastPath(s, root) => s < |st.sessions| && root != ""
      case Acquiring(s, root) => s < |st.sessions| && root != ""
      case Publishing(s, root) => s < |st.sessions| && root != ""
      case Dropping(root) => root != ""
      case Closing(s) => s < |st.sessions| && !st.sessions[s].live
      case Done => true
  }

  function With(st: State, t: nat, thread: Thread): State
    requires t < |st.threads|
  {
    st.(threads := st.threads[t := thread])
  }

  /** The lane step of a track call: publish if the session is live, and settle what that leaves owed. */
  function PublishStep(st: State, t: nat, s: nat, root: Path): State
    requires t < |st.threads| && s < |st.sessions|
  {
    var session := st.sessions[s];
    if !session.live then With(st, t, Dropping(root))
    else
      var st1 := st.(sessions := st.sessions[s := session.(published := root)]);
      if session.published == root then With(st1, t, Dropping(root))
      else if session.published != "" then With(st1, t, Dropping(session.published))
      else With(st1, t, Done)
  }

  /** close's lane step: take whatever is published, and release it. */
  function SwapStep(st: State, t: nat, s: nat): State
    requires t < |st.threads| && s < |st.sessions|
  {
    var session := st.sessions[s];
    With(st.(sessions := st.sessions[s := session.(published := "", swapped := true)]), t,
         if session.published != "" then Dropping(session.published) else Done)
  }

  function AdvanceThread(st: State, t: nat): State
    requires WellFormed(st) && t < |st.threads|
  {
    match st.threads[t]
    case Entering(s, root) =>
      if st.sessions[s].published == root then With(st, t, Done) else With(st, t, PastFastPath(s, root))
    case PastFastPath(s, root) => if !st.sessions[s].live then With(st, t, Done) else With(st, t, Acquiring(s, root))
    case Acquiring(s, root) =>
      With(st.(refs := AcquireRef(st.refs, st.mgrClosed, root)), t, Publishing(s, root))
    case Publishing(s, root) => PublishStep(st, t, s, root)
    case Dropping(root) => With(st.(refs := ReleaseRef(st.refs, root)), t, Done)
    case Closing(s) => SwapStep(st, t, s)
    case Done => st
  }

  function Act(st: State, a: Action): State
    requires WellFormed(st) && Enabled(st, a)
  {
    match a
    case OpenSession => st.(sessions := st.sessions + [Session(true, "", false)])
    case Track(s, root) => st.(threads := st.threads + [Entering(s, root)])
    case Cancel(s) => st.(sessions := st.sessions[s := st.sessions[s].(live := false)])
    case CloseSession(s) => st.(threads := st.threads + [Closing(s)])
    case Advance(t) => AdvanceThread(st, t)
    case CloseManager => st.(mgrClosed := true, refs := map[])
  }

  /** The call is a track call that holds no reference, or has one in hand. */
  predicate Tracking(t: Thread) {
    t.Entering? || t.PastFastPath? || t.Acquiring? || t.Publishing?
  }

  /**
   A track call takes its reference and then publishes its root. It leaves that path only for a session that has
   ended, or one that already publishes the root; and whatever publishing leaves over, the call goes on to drop.
   */
  lemma TrackSettles(st: State, t: nat)
    requires WellFormed(st) && t < |st.threads| && Tracking(st.threads[t])
    ensures var was, st' := st.threads[t], AdvanceThread(st, t);
      var now, session := st'.threads[t], st.sessions[was.s];
      if was.Publishing? then
        if session.live then
          st'.sessions == st.sessions[was.s := session.(published := was.root)] && st'.refs == st.refs &&
          now == if session.published == "" then Done else Dropping(session.published)
        else st'.sessions == st.sessions && st'.refs == st.refs && now == Dropping(was.root)
      else
        st'.sessions == st.sessions &&
        (now == Done <==> (was.Entering? && session.published == was.root) || (was.PastFastPath? && !session.live)) &&
        (now != Done ==> Tracking(now) && now.s == was.s && now.root == was.root) &&
        (now.Publishing? <==> was.Acquiring?) &&
        forall r :: Count(st'.refs, r) == Count(st.refs, r) + if was.Acquiring? && r == was.root && !st.mgrClosed then 1 else 0
  {
  }

  // ---- the balance ----------------------------------------------------------------------------

  /** The root whose reference the call still has to settle. */
  function Owes(t: Thread): Path {
    match t
    case Publishing(_, root) => root
    case Dropping(root) => root
    case _ => ""
  }

  function Published(s: Session): Path {
    s.published
  }

  /** References accounted for: those published, and those some call still has to settle. */
  function Owned(st: State, root: Path): nat {
    Tally(st.sessions, Published, root) + Tally(st.threads, Owes, root)
  }

  ghost predicate Balanced(st: State) {
    WellFormed(st) && "" !in st.refs &&
    NoDeadEntry(st.refs) &&
    (if st.mgrClosed then st.refs == map[]
     else forall root :: root != "" ==> Count(st.refs, root) == Owned(st, root)) &&
    (forall i :: 0 <= i < |st.sessions| && st.sessions[i].swapped ==>
       !st.sessions[i].live && st.sessions[i].published == "")
  }

  lemma WithOwned(st: State, t: nat, thread: Thread, root: Path)
    requires t < |st.threads|
    ensures Owned(With(st, t, thread), root) + (if Owes(st.threads[t]) == root then 1 else 0) ==
      Owned(st, root) + if Owes(thread) == root then 1 else 0
  {
    TallyUpdate(st.threads, Owes, root, t, thread);
  }

  lemma PublishedOwned(st: State, s: nat, session: Session, root: Path)
    requires s < |st.sessions|
    ensures Owned(st.(sessions := st.sessions[s := session]), root) +
      (if st.sessions[s].published == root then 1 else 0) == Owned(st, root) + if session.published == root then 1 else 0
  {
    TallyUpdate(st.sessions, Published, root, s, session);
  }

  /** A held reference is a live one. */
  lemma OwedIsLive(st: State, t: nat)
    requires Balanced(st) && !st.mgrClosed && t < |st.threads| && Owes(st.threads[t]) != ""
    ensures Owes(st.threads[t]) in st.refs
  {
    var root := Owes(st.threads[t]);
    TallyPositive(st.threads, Owes, root, t);
    assert Count(st.refs, root) == Owned(st, root);
  }

  lemma AcquireBalanced(st: State, t: nat, s: nat, root: Path)
    requires Balanced(st) && t < |st.threads| && st.threads[t] == Acquiring(s, root)
    ensures Balanced(AdvanceThread(st, t))
  {
    forall r | r != "" ensures !st.mgrClosed ==> Count(AdvanceThread(st, t).refs, r) == Owned(AdvanceThread(st, t), r) {
      WithOwned(st, t, Publishing(s, root), r);
    }
  }

  lemma DropBalanced(st: State, t: nat, root: Path)
    requires Balanced(st) && t < |st.threads| && st.threads[t] == Dropping(root)
    ensures Balanced(AdvanceThread(st, t))
  {
    var st' := AdvanceThread(st, t);
    if !st.mgrClosed {
      OwedIsLive(st, t);
      forall r | r != "" ensures Count(st'.refs, r) == Owned(st', r) {
        WithOwned(st, t, Done, r);
        assert st' == With(st.(refs := st'.refs), t, Done);
        assert Owned(st', r) == Owned(With(st, t, Done), r);
      }
    }
  }

  lemma PublishBalanced(st: State, t: nat, s: nat, root: Path)
    requires Balanced(st) && t < |st.threads| && st.threads[t] == Publishing(s, root)
    ensures Balanced(PublishStep(st, t, s, root))
  {
    var session := st.sessions[s];
    forall r | r != "" ensures Owned(PublishStep(st, t, s, root), r) == Owned(st, r) {
      if !session.live {
        WithOwned(st, t, Dropping(root), r);
      } else {
        var st1 := st.(sessions := st.sessions[s := session.(published := root)]);
        PublishedOwned(st, s, session.(published := root), r);
        WithOwned(st1, t, PublishStep(st, t, s, root).threads[t], r);
      }
    }
  }

  lemma SwapBalanced(st: State, t: nat, s: nat)
    requires Balanced(st) && t < |st.threads| && st.threads[t] == Closing(s)
    ensures Balanced(SwapStep(st, t, s))
  {
    var session := st.sessions[s].(published := "", swapped := true);
    var st1 := st.(sessions := st.sessions[s := session]);
    forall r | r != "" ensures Owned(SwapStep(st, t, s), r) == Owned(st, r) {
      PublishedOwned(st, s, session, r);
      WithOwned(st1, t, SwapStep(st, t, s).threads[t], r);
    }
  }

  lemma AdvanceBalanced(st: State, t: nat)
    requires Balanced(st) && t < |st.threads|
    ensures Balanced(AdvanceThread(st, t))
  {
    match st.threads[t]
    case Acquiring(s, root) => AcquireBalanced(st, t, s, root);
    case Publishing(s, root) => PublishBalanced(st, t, s, root);
    case Dropping(root) => DropBalanced(st, t, root);
    case Closing(s) => SwapBalanced(st, t, s);
    case Done =>
    case Entering(s, root) => QuietBalanced(st, t);
    case PastFastPath(s, root) => QuietBalanced(st, t);
  }

  lemma QuietBalanced(st: State, t: nat)
    requires Balanced(st) && t < |st.threads| && (st.threads[t].Entering? || st.threads[t].PastFastPath?)
    ensures Balanced(AdvanceThread(st, t))
  {
    var st' := AdvanceThread(st, t);
    forall r | r != "" ensures Owned(st', r) == Owned(st, r) {
      WithOwned(st, t, st'.threads[t], r);
    }
  }

  lemma ActBalanced(st: State, a: Action)
    requires Balanced(st) && Enabled(st, a)
    ensures Balanced(Act(st, a))
  {
    var st' := Act(st, a);
    match a
    case Advance(t) => AdvanceBalanced(st, t);
    case CloseManager =>
    case OpenSession =>
      forall r | r != "" ensures Owned(st', r) == Owned(st, r) {
        TallyAppend(st.sessions, Published, r, Session(true, "", false));
      }
    case Track(s, root) =>
      forall r | r != "" ensures Owned(st', r) == Owned(st, r) {
        TallyAppend(st.threads, Owes, r, Entering(s, root));
      }
    case Cancel(s) =>
      forall r | r != "" ensures Owned(st', r) == Owned(st, r) {
        PublishedOwned(st, s, st.sessions[s].(live := false), r);
      }
    case CloseSession(s) =>
      forall r | r != "" ensures Owned(st', r) == Owned(st, r) {
        TallyAppend(st.threads, Owes, r, Closing(s));
      }
  }

  // ---- interleavings --------------------------------------------------------------------------

  const Start := State(map[], false, [], [])

  /** Whether the interleaving can run, one enabled action after another. */
  predicate Runs(st: State, acts: seq<Action>)
    requires WellFormed(st)
    decreases |acts|
  {
    acts == [] || (Enabled(st, acts[0]) && WellFormed(Act(st, acts[0])) && Runs(Act(st, acts[0]), acts[1..]))
  }

  function Play(st: State, acts: seq<Action>): State
    requires WellFormed(st) && Runs(st, acts)
    decreases |acts|
  {
    if acts == [] then st else Play(Act(st, acts[0]), acts[1..])
  }

  lemma {:induction false} PlayBalanced(st: State, acts: seq<Action>)
    requires Balanced(st) && Runs(st, acts)
    ensures Balanced(Play(st, acts))
    decreases |acts|
  {
    if acts == [] {
    } else {
      ActBalanced(st, acts[0]);
      PlayBalanced(Act(st, acts[0]), acts[1..]);
    }
  }

  /** Reference balance in every state any interleaving reaches, and what each further step may rely on. */
  lemma RefsBalance(acts: seq<Action>, root: Path)
    requires Runs(Start, acts) && root != "" && !Play(Start, acts).mgrClosed
    ensures var st := Play(Start, acts);
      Count(st.refs, root) == Tally(st.sessions, Published, root) + Tally(st.threads, Owes, root)
    ensures var st := Play(Start, acts);
      forall i :: 0 <= i < |st.sessions| && st.sessions[i].published == root ==> root in st.refs
    ensures var st := Play(Start, acts); forall t :: 0 <= t < |st.threads| && st.threads[t] == Dropping(root) ==> root in st.refs
  {
    assert Balanced(Start);
    PlayBalanced(Start, acts);
    var st := Play(Start, acts);
    forall i | 0 <= i < |st.sessions| && st.sessions[i].published == root ensures root in st.refs {
      TallyPositive(st.sessions, Published, root, i);
      assert Count(st.refs, root) == Owned(st, root);
    }
    forall t | 0 <= t < |st.threads| && st.threads[t] == Dropping(root) ensures root in st.refs {
      OwedIsLive(st, t);
    }
  }

  predicate Quiescent(st: State) {
    forall t :: 0 <= t < |st.threads| ==> st.threads[t] == Done
  }

  predicate AllClosed(st: State) {
    forall i :: 0 <= i < |st.sessions| ==> st.sessions[i].swapped
  }

  /**
   Whatever the interleaving, once every call has returned a root's count is the number of sessions that
   publish it, and once every session's close has run too no reference is left.
   */
  lemma NothingLeaks(acts: seq<Action>)
    requires Runs(Start, acts) && Quiescent(Play(Start, acts))
    ensures var st := Play(Start, acts);
      !st.mgrClosed ==> forall root :: root != "" ==> Count(st.refs, root) == Tally(st.sessions, Published, root)
    ensures AllClosed(Play(Start, acts)) ==> Play(Start, acts).refs == map[]
  {
    assert Balanced(Start);
    PlayBalanced(Start, acts);
    var st := Play(Start, acts);
    forall root | root != "" ensures !st.mgrClosed ==> Count(st.refs, root) == Tally(st.sessions, Published, root) {
      TallyZero(st.threads, Owes, root);
    }
    if AllClosed(st) && !st.mgrClosed {
      forall root | root != "" ensures root !in st.refs {
        TallyZero(st.sessions, Published, root);
      }
      assert st.refs == map[];
    }
  }
}
