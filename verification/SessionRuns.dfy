/**
 A session driven through a whole run of events, reconnecting where the daemon restarts: what the run-level
 theorems say of the value, said of the object's own fields and shards.
 */
module SessionRuns {
  import opened Ids
  import opened ConnSpec
  import opened ConnFrames
  import opened ConnSession
  import opened Options
  import Admission
  import Convergence
  import Durable
  import Ownership
  import Shelter

  /** One event. A restart builds the session anew over the rows the old one left. */
  method Serve(s: Session, fs: Fs, e: Event) returns (s': Session)
    requires s.Valid()
    modifies s, s.Repr
    ensures s'.Valid() && s'.View() == Step(old(s.View()), fs, e)
    ensures (s' == s || fresh(s')) && fresh(s'.Repr - old(s.Repr))
    ensures !e.Restart? ==> s' == s
  {
    if e.Restart? {
      s' := new Session.Reconnect(fs, s.store, s.persist, e, s.View());
      return;
    }
    s' := s;
    match e
    case SessionStartCall(_, _, _, _, _, _, _) => s.OnSessionStart(fs, e);
    case ToolCall(_, _, _, _, _, _, _) => s.OnToolCall(fs, e);
    case RootsChanged(folders) => s.OnRootsChanged(fs, folders);
  }

  /** A whole run. */
  method Drive(s: Session, fs: Fs, run: seq<Event>) returns (s': Session)
    requires s.Valid()
    modifies s, s.Repr
    ensures s'.Valid() && s'.View() == Exec(old(s.View()), fs, run)
  {
    s' := s;
    for i := 0 to |run|
      invariant s'.Valid() && s'.View() == Exec(old(s.View()), fs, run[..i])
      invariant (s' == s || fresh(s')) && fresh(s'.Repr - old(s.Repr))
    {
      s' := Serve(s', fs, run[i]);
      ExecSnoc(old(s.View()), fs, run[..i], run[i]);
      assert run[..i] + [run[i]] == run[..i + 1];
    }
    assert run[..|run|] == run;
  }

  // ---- what the run leaves in the object ---------------------------------------------------------

  /** A root an agent pinned itself is still its own, whoever else called: only its own force has moved it. */
  method DriveOwned(s: Session, fs: Fs, run: seq<Event>, id: Id) returns (s': Session)
    requires s.Valid() && Ownership.OwnershipInv(s.View()) && Ownership.NoRestart(run)
    requires id in s.shards && s.shards[id].selfPinned
    modifies s, s.Repr
    ensures s'.Valid() && id in s'.shards && s'.shards[id].selfPinned
    ensures s'.shards[id].root != "" && s'.shards[id].pinOrigin == SessionStart
    ensures s'.shards[id].root == old(s.shards[id].root) ||
      exists i :: 0 <= i < |run| && Ownership.ActorOf(run[i]) == id && Ownership.Forced(run[i])
  {
    Ownership.RunOwnership(s.View(), fs, run, id);
    assert s.View().shards[id].pin.root == s.shards[id].root;
    s' := Drive(s, fs, run);
    assert s'.View().shards[id] == s'.shards[id].Value();
  }

  /** A connection held by an accepted session_start sits, and would be restored, on the last one accepted. */
  method DriveHeld(s: Session, fs: Fs, run: seq<Event>, root: Path) returns (s': Session)
    requires s.Valid() && Durable.HeldAt(s.View(), root) && Durable.BenignRun(s.View(), fs, run, root)
    modifies s, s.Repr
    ensures s'.Valid() && s'.pin.root == Durable.LastAccepted(old(s.View()), fs, run, root)
    ensures s'.pin.origin == SessionStart && s'.store.connPin.Some? && s'.store.connPin.value.root == s'.pin.root
  {
    Durable.RunHolds(s.View(), fs, run, root);
    s' := Drive(s, fs, run);
  }

  /** A shard whose agent chose nothing sits with its conversation, if that chose, or else on the connection. */
  method DriveConverged(s: Session, fs: Fs, run: seq<Event>) returns (s': Session)
    requires s.Valid() && Convergence.Converged(s.View(), fs) && Convergence.Sheltered(s.View())
    requires Shelter.OrderlyRun(s.View(), fs, run)
    modifies s, s.Repr
    ensures s'.Valid()
    ensures forall id :: id in s'.shards && !s'.shards[id].selfPinned && !s'.shards[id].restored ==>
      var parent := LinkageOf(id);
      if parent != id && parent in s'.shards && (s'.shards[parent].selfPinned || s'.shards[parent].restored)
      then s'.shards[id].root == s'.shards[parent].root
      else s'.shards[id].parentSeeded || s'.shards[id].root == s'.pin.root
  {
    Shelter.SubagentsConverge(s.View(), fs, run);
    s' := Drive(s, fs, run);
    ghost var c := s'.View();
    forall id | id in s'.shards && !s'.shards[id].selfPinned && !s'.shards[id].restored
      ensures var parent := LinkageOf(id);
        if parent != id && parent in s'.shards && (s'.shards[parent].selfPinned || s'.shards[parent].restored)
        then s'.shards[id].root == s'.shards[parent].root
        else s'.shards[id].parentSeeded || s'.shards[id].root == s'.pin.root
    {
      assert c.shards[id] == s'.shards[id].Value() && Shelter.AtHome(c, id);
    }
  }

  /** A state-changing call the session then lets through on a shared connection is vouched for. */
  method DriveThenAdmit(s: Session, fs: Fs, run: seq<Event>, known: set<Id>, e: Event) returns (s': Session, refuses: bool)
    requires s.Valid() && Admission.Vouched(s.View(), known) && e.ToolCall? && e.mutating
    modifies s, s.Repr
    ensures s'.Valid() && s'.View() == Exec(old(s.View()), fs, run)
    ensures !refuses && SharedWith(s'.seen, e.stamp) ==>
      e.stamp != "" &&
      (LinkageOf(e.stamp) in known + Admission.DeclaredOver(old(s.View()), fs, run) ||
       OneConversation(s'.seen, LinkageOf(e.stamp)))
  {
    s' := Drive(s, fs, run);
    refuses := s'.RefusesCall(e);
    if !refuses && SharedWith(s'.seen, e.stamp) {
      Admission.AdmittedIsVouched(old(s.View()), fs, run, known, e);
    }
  }
}
