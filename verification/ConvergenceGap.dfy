/**
 What an orphan costs. Once a subagent's first word has been turned away, its conversation can still move the
 connection and file a row the orphaned shard never hears of; four ordinary calls later the two have parted.
 So convergence survives a call exactly when the call leaves no orphan.
 */
module ConvergenceGap {
  import opened Ids
  import opened ConnSpec
  import opened ConnFrames
  import opened Ownership
  import opened Convergence
  import opened Shelter
  import opened Options
  import Leaks

  /** a has been seen alone and has no shard; its subagent s has one, and chose nothing. */
  predicate Parted(c: Conn, a: Id, s: Id) {
    c.persist && !c.priorShared && c.pin.root != "" && c.seen == {a} && a != "" && LinkageOf(a) == a &&
    a !in c.shards && a !in c.refused && s in c.shards && s != a && LinkageOf(s) == a && !Chose(c.shards[s])
  }

  /** The row filed for a, and nothing of the orphan at the same root. */
  predicate Missed(c: Conn, a: Id, s: Id, root: Path)
    requires s in c.shards
  {
    a in c.store.agentPins && c.store.agentPins[a].root == root && c.store.agentPins[a].origin == SessionStart &&
    (FollowsConnection(c.shards, s) ==> c.shards[s].pin.root == c.pin.root) &&
    (!FollowsConnection(c.shards, s) ==> c.shards[s].pin.root != root)
  }

  /** Two other workspaces the filesystem resolves to themselves; nobody sits at the first, which can be restored. */
  predicate TwoWorkspaces(c: Conn, fs: Fs, first: Target, second: Target) {
    RepinTarget(fs, first.root, SessionStart, Live) == Some(first) && RestoreRootIntact(fs, first.root) &&
    RepinTarget(fs, second.root, SessionStart, Live) == Some(second) && first.root != second.root &&
    c.pin.root != first.root && forall id :: id in c.shards ==> c.shards[id].pin.root != first.root
  }

  /** a's own session_start, forced; the connection answers for it. */
  function ParentMoves(a: Id, t: Target): Event {
    SessionStartCall(a, "", t.root, true, false, false, true)
  }

  /** An anonymous forced session_start, which a connection that has seen one identity still accepts. */
  function SomebodyMoves(t: Target): Event {
    SessionStartCall("", "", t.root, true, false, false, true)
  }

  /** A call by q that resolves a path, or merely shows its name. */
  function Calls(q: Id, resolves: bool): Event {
    ToolCall(q, false, false, "", false, resolves, false)
  }

  /** A forced move of the connection, by a or by nobody in particular. */
  lemma ForcedMove(c: Conn, fs: Fs, a: Id, s: Id, id: Id, t: Target)
    requires Parted(c, a, s) && id in {"", a} && t.root != c.pin.root
    ensures var (c', out) := RepinOnConnection(c, fs, id, false, t, SessionStart, Live, true);
      out == ConnScope(t.root) && Parted(c', a, s) && c'.pin.root == t.root &&
      c'.shards[s] == (if Dragged(c, s, c.pin.root) then c.shards[s].(pin := c'.pin) else c.shards[s]) &&
      (FollowsConnection(c'.shards, s) <==> FollowsConnection(c.shards, s)) &&
      (a in c'.store.agentPins <==> id == a || a in c.store.agentPins) &&
      (id == a ==> c'.store.agentPins[a] == Pin(t.root, c'.pin.lang, SessionStart)) &&
      (id != a && a in c.store.agentPins ==> c'.store.agentPins[a] == c.store.agentPins[a])
  {
    var (c1, moved) := AttachOrRepin(c, fs, id, false, t, SessionStart, Live, true);
    assert moved == ConnMoved && c1.pin.root == t.root;
    var c2 := AttributeConnectionPin(c1, id, t.root, SessionStart, Live);
    assert !Dragged(c2, a, c.pin.root);
  }

  lemma ParentRepins(c: Conn, fs: Fs, a: Id, s: Id, t: Target)
    requires Parted(c, a, s) && RepinTarget(fs, t.root, SessionStart, Live) == Some(t)
    ensures Repinned(c, fs, ParentMoves(a, t)) == RepinOnConnection(c, fs, a, false, t, SessionStart, Live, true)
  {
    assert BeforeTool(c, a, false) == c;
    assert !Routed(c, a);
  }

  lemma ParentMovesStep(c: Conn, fs: Fs, a: Id, s: Id, t: Target)
    requires Parted(c, a, s) && t.root != c.pin.root && RepinTarget(fs, t.root, SessionStart, Live) == Some(t)
    requires FollowsConnection(c.shards, s) ==> c.shards[s].pin.root == c.pin.root
    requires c.shards[s].pin.root != t.root
    ensures var c' := Step(c, fs, ParentMoves(a, t)); Parted(c', a, s) && Missed(c', a, s, t.root) && c'.pin.root == t.root
  {
    ForcedMove(c, fs, a, s, a, t);
    var e := ParentMoves(a, t);
    ParentRepins(c, fs, a, s, t);
    CommitIdentityFrame(Repinned(c, fs, e).0, e);
    CommitSeen(Repinned(c, fs, e).0, e);
  }

  lemma SomebodyMovesStep(c: Conn, fs: Fs, a: Id, s: Id, t: Target)
    requires Parted(c, a, s) && Missed(c, a, s, c.pin.root) && t.root != c.pin.root
    requires RepinTarget(fs, t.root, SessionStart, Live) == Some(t)
    ensures var c' := Step(c, fs, SomebodyMoves(t));
      Parted(c', a, s) && Missed(c', a, s, c.pin.root) && c'.shards[s].pin.root != c.pin.root
  {
    ForcedMove(c, fs, a, s, "", t);
    var e := SomebodyMoves(t);
    assert BeforeTool(c, "", false) == c;
    assert Repinned(c, fs, e) == RepinOnConnection(c, fs, "", false, t, SessionStart, Live, true);
    CommitIdentityFrame(Repinned(c, fs, e).0, e);
    CommitSeen(Repinned(c, fs, e).0, e);
  }

  lemma ParentReturns(c: Conn, fs: Fs, a: Id, s: Id, q: Id, root: Path)
    requires Parted(c, a, s) && Missed(c, a, s, root) && c.shards[s].pin.root != root && q !in {"", a}
    requires RestoreRootIntact(fs, root) && root != ""
    ensures var c' := Step(Step(c, fs, Calls(q, false)), fs, Calls(a, true)); s in c'.shards && !Chose(c'.shards[s]) && !AtHome(c', s)
  {
  }

  /** The calls that part them. */
  function Parting(a: Id, q: Id, first: Target, second: Target): seq<Event> {
    [ParentMoves(a, first), SomebodyMoves(second), Calls(q, false), Calls(a, true)]
  }

  lemma PartingRuns(c: Conn, fs: Fs, a: Id, q: Id, first: Target, second: Target)
    requires a != ""
    ensures var run := Parting(a, q, first, second);
      OrderlyRun(c, fs, run) &&
      Exec(c, fs, run) ==
        Step(Step(Step(Step(c, fs, run[0]), fs, run[1]), fs, run[2]), fs, run[3])
  {
    var run := Parting(a, q, first, second);
    var head := [run[0], run[1], run[2]];
    Leaks.ExecThree(c, fs, run[0], run[1], run[2]);
    Leaks.ExecTwo(Step(c, fs, run[0]), fs, run[1], run[2]);
    ExecSnoc(c, fs, head, run[3]);
    assert head + [run[3]] == run;
  }

  lemma PartedDiverges(c: Conn, fs: Fs, a: Id, s: Id, first: Target, second: Target) returns (run: seq<Event>)
    requires Parted(c, a, s) && Converged(c, fs) && TwoWorkspaces(c, fs, first, second)
    ensures OrderlyRun(c, fs, run) && !AllAtHome(Exec(c, fs, run))
  {
    var q := Leaks.FreshConversation({a});
    run := Parting(a, q, first, second);
    PartingRuns(c, fs, a, q, first, second);
    assert Settled(c, fs, s);
    ParentMovesStep(c, fs, a, s, first);
    var c1 := Step(c, fs, run[0]);
    SomebodyMovesStep(c1, fs, a, s, second);
    ParentReturns(Step(c1, fs, run[1]), fs, a, s, q, first.root);
  }

  lemma OrphanIsParted(c: Conn, fs: Fs, e: Event)
    requires Converged(c, fs) && Sheltered(c) && LeavesOrphan(c, fs, e)
    ensures Parted(Step(c, fs, e), LinkageOf(e.sessionId), e.sessionId) && Converged(Step(c, fs, e), fs)
  {
    var a := LinkageOf(e.sessionId);
    LinkageIsConversation(e.sessionId);
    LinkageIsConversation(a);
    StepConverges(c, fs, e);
    assert NoStray(c, a);
    FirstWordLeaves(c, fs, e, a);
    SessionStartSeen(c, fs, e);
  }

  /** Whatever orderly calls follow, every undecided shard is where it should be after each of them. */
  ghost predicate KeepsConverging(c: Conn, fs: Fs) {
    forall run: seq<Event> | OrderlyRun(c, fs, run) :: AllAtHome(Exec(c, fs, run))
  }

  /**
   Subagent convergence is kept by exactly the calls that leave no orphan: after any other event of a
   converged, sheltered connection every orderly continuation converges, and after such a call one does not,
   provided the filesystem has two other workspaces to move to.
   */
  lemma ConvergesIffNoOrphan(c: Conn, fs: Fs, e: Event, first: Target, second: Target)
    requires Converged(c, fs) && Sheltered(c) && (e.Restart? ==> Step(c, fs, e).pin.root != "")
    requires TwoWorkspaces(Step(c, fs, e), fs, first, second)
    ensures KeepsConverging(Step(c, fs, e), fs) <==> !LeavesOrphan(c, fs, e)
  {
    var c' := Step(c, fs, e);
    if LeavesOrphan(c, fs, e) {
      OrphanIsParted(c, fs, e);
      var run := PartedDiverges(c', fs, LinkageOf(e.sessionId), e.sessionId, first, second);
    } else {
      StepConverges(c, fs, e);
      StepSheltered(c, fs, e);
      forall run | OrderlyRun(c', fs, run) ensures AllAtHome(Exec(c', fs, run)) {
        SubagentsConverge(c', fs, run);
      }
    }
  }
}
