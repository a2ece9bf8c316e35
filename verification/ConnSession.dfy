/**
 The connection session as the daemon runs it: an object whose critical sections update its fields, the
 shard table and the shards in place, each proved to do what the same section of ConnSpec does to the
 value the object stands for.
 */
module ConnSession {
  import opened Ids
  import opened ConnSpec
  import opened Options
  import Outcomes
  import AO = AttachOutcomes
  import CO = CallOutcomes
  import RO = RepinOutcomes

  class AgentShard {
    const id: Id
    var root: Path
    var language: Lang
    var pinOrigin: Origin
    var selfPinned: bool
    var restored: bool
    var parentSeeded: bool

    constructor (id: Id, pin: Pin)
      ensures this.id == id && Value() == Shard(pin, false, false, false)
    {
      this.id := id;
      root := pin.root;
      language := pin.lang;
      pinOrigin := pin.origin;
      selfPinned := false;
      restored := false;
      parentSeeded := false;
    }

    function GetPin(): Pin
      reads this
    {
      Pin(root, language, pinOrigin)
    }

    ghost function Value(): Shard
      reads this
    {
      Shard(GetPin(), selfPinned, restored, parentSeeded)
    }

    method SetPin(pin: Pin)
      modifies this
      ensures Value() == old(Value()).(pin := pin)
    {
      root := pin.root;
      language := pin.lang;
      pinOrigin := pin.origin;
    }
  }

  lemma SeededThenRestored(c: Conn, fs: Fs, id: Id, seeded: Shard)
    requires seeded == SeedFromParent(c, fs, id, Shard(c.pin, false, false, false))
    ensures SeedShard(c, fs, id) == match Restorable(c, fs, id)
      case None => seeded
      case Some(p) => seeded.(pin := p, restored := true)
  {
  }

  /** What a conversation's move does to one shard of the table. */
  function Carried(sh: Shard, id: Id, parent: Id, p: Pin): Shard {
    if id != parent && LinkageOf(id) == parent && !Chose(sh) then sh.(pin := p) else sh
  }

  lemma FollowedCarried(was: map<Id, Shard>, parent: Id)
    requires parent in was
    ensures forall id :: id in was ==> FollowedParent(was, parent)[id] == Carried(was[id], id, parent, was[parent].pin)
  {
  }

  /** What is left of a table once the entries outside todo are as in goal. */
  function Remaining<V>(was: map<Id, V>, goal: map<Id, V>, todo: set<Id>): map<Id, V> {
    map id | id in was && (id in todo || id in goal) :: was[id]
  }

  lemma RemainingStep<V>(was: map<Id, V>, goal: map<Id, V>, todo: set<Id>, id: Id)
    ensures Remaining(was, goal, todo - {id}) ==
      if id in goal then Remaining(was, goal, todo) else Remaining(was, goal, todo) - {id}
  {
  }

  /** Half-way through a follow, whether a shard is still to be dragged is what it was at the start. */
  lemma MidFollow(was: Conn, now: Conn, goal: Conn, prevRoot: Path, todo: set<Id>, id: Id)
    requires goal == FollowConnection(was, prevRoot) && id in todo
    requires now.shards.Keys == was.shards.Keys == goal.shards.Keys && id in was.shards
    requires forall x :: x in was.shards ==> now.shards[x] == if x in todo then was.shards[x] else goal.shards[x]
    ensures Dragged(now, id, prevRoot) == Dragged(was, id, prevRoot)
  {
  }

  /** What the whole follow does to one shard, its refused declaration and its row. */
  lemma FollowEntry(was: Conn, prevRoot: Path, id: Id)
    requires id in was.shards && was.pin.root != "" && was.pin.root != prevRoot
    ensures var goal := FollowConnection(was, prevRoot); var dragged := Dragged(was, id, prevRoot);
      id in goal.shards &&
      goal.shards[id] == (if dragged then was.shards[id].(pin := was.pin) else was.shards[id]) &&
      (id in goal.refused <==> id in was.refused && !(dragged && was.refused[id].requested == was.pin.root)) &&
      (id in goal.store.agentPins <==> id in was.store.agentPins && !(dragged && was.persist))
  {
  }

  class Session {
    var pin: Pin
    var shards: map<Id, AgentShard>
    var refused: map<Id, Refusal>
    var seen: set<Id>
    var declared: set<Id>
    var priorShared: bool
    var linked: Id
    var persist: bool
    var hint: Path
    var store: Store
    ghost var Repr: set<AgentShard>

    /** Every shard is filed under its own identity, so no two identities share one. */
    ghost predicate Valid()
      reads this`shards, this`Repr, Repr
    {
      forall id :: id in shards ==> shards[id] in Repr && shards[id].id == id
    }

    /** The shard table as a value. */
    ghost function Table(): (m: map<Id, Shard>)
      requires Valid()
      reads this`shards, this`Repr, Repr
      ensures m.Keys == shards.Keys
      ensures forall id :: id in shards ==> m[id] == shards[id].Value()
    {
      map id | id in shards :: shards[id].Value()
    }

    /** The value of ConnSpec this object stands for. */
    ghost function View(): Conn
      requires Valid()
      reads this, Repr
    {
      Conn(pin, Table(), refused, seen, declared, priorShared, linked, persist, hint, store)
    }

    /** A connection that reconnects after a daemon restart, over the rows filed under its proxy session. */
    constructor Reconnect(fs: Fs, rows: Store, persist: bool, e: Event, ghost was: Conn)
      requires e.Restart? && was.store == rows && was.persist == persist
      ensures Valid() && View() == RestartStep(was, fs, e) && fresh(Repr)
      ensures AO.RestartComesTo(was, fs, e, View())
    {
      pin := NoPin;
      shards := map[];
      refused := map[];
      seen := {};
      declared := if persist
        then (set l | l in rows.declared && l in e.keptDeclared :: LinkageOf(l)) + {LinkageOf(rows.linkage)} - {""}
        else {};
      priorShared := persist && e.recentlyShared;
      linked := if persist then rows.linkage else "";
      this.persist := persist;
      hint := e.hint;
      store := rows;
      Repr := {};
      new;
      assert Table() == map[];
      AttachAtInit(fs, e.replayed, e.roots);
      AO.RestartReattaches(was, fs, e);
    }

    // ---- identities and rows ------------------------------------------------------------------

    method Record(id: Id)
      requires Valid()
      modifies this`seen
      ensures Valid() && View() == RecordAgent(old(View()), id)
    {
      if id != "" {
        seen := seen + {id};
      }
    }

    method DeclareLinkage(id: Id)
      requires Valid()
      modifies this`declared, this`store
      ensures Valid() && View() == Declare(old(View()), id)
    {
      var linkage := LinkageOf(id);
      if linkage != "" {
        declared := declared + {linkage};
        if persist {
          store := store.(declared := store.declared + {linkage});
        }
      }
    }

    method MarkDeclarationRefused(id: Id, requested: Path, sittingOn: Path)
      requires Valid()
      modifies this`refused
      ensures Valid() && View() == MarkRefused(old(View()), id, requested, sittingOn)
    {
      if id == "" || requested == "" {
        return;
      }
      refused := refused[id := Refusal(requested, sittingOn)];
    }

    method ClearDeclarationRefused(id: Id)
      requires Valid()
      modifies this`refused
      ensures Valid() && View() == ClearRefused(old(View()), id)
    {
      if id != "" {
        refused := refused - {id};
      }
    }

    method PersistPin(p: Pin)
      requires Valid()
      modifies this`store
      ensures Valid() && View() == PersistConnPin(old(View()), p)
    {
      if p.origin == Unknown || !persist || p.root == "" {
        return;
      }
      store := store.(connPin := Some(p));
    }

    method PersistPinForAgent(id: Id, p: Pin)
      requires Valid()
      modifies this`store
      ensures Valid() && View() == PersistAgentPin(old(View()), id, p)
    {
      if id == "" || p.origin == Unknown || !persist || p.root == "" {
        return;
      }
      store := store.(agentPins := store.agentPins[id := p]);
    }

    // ---- shards -------------------------------------------------------------------------------

    method ParentHasChosen(id: Id) returns (chose: bool)
      requires Valid()
      ensures chose == ParentChose(Table(), id)
    {
      var linkage := LinkageOf(id);
      if linkage == id || linkage !in shards {
        return false;
      }
      var parent := shards[linkage];
      return parent.selfPinned || parent.restored;
    }

    method RowFor(fs: Fs, id: Id) returns (row: Option<Pin>)
      requires Valid()
      ensures row == Restorable(View(), fs, id)
    {
      if !persist || id !in store.agentPins {
        return None;
      }
      var p := store.agentPins[id];
      if p.root == "" || p.origin == Roots || !RestoreRootIntact(fs, p.root) {
        return None;
      }
      return Some(p);
    }

    method SeedFromConversation(fs: Fs, sh: AgentShard)
      requires Valid() && sh !in Repr
      modifies sh
      ensures sh.Value() == SeedFromParent(old(View()), fs, sh.id, old(sh.Value()))
    {
      var linkage := LinkageOf(sh.id);
      if linkage == sh.id || linkage == "" {
        return;
      }
      if linkage in shards {
        var parent := shards[linkage];
        if parent.selfPinned || parent.restored {
          sh.SetPin(parent.GetPin());
        }
        return;
      }
      var row := RowFor(fs, linkage);
      if row.Some? {
        sh.SetPin(row.value);
        sh.parentSeeded := true;
      }
    }

    method RestoreInto(sh: AgentShard, row: Option<Pin>)
      modifies sh
      ensures sh.Value() == match row
        case None => old(sh.Value())
        case Some(p) => old(sh.Value()).(pin := p, restored := true)
    {
      if row.Some? {
        sh.SetPin(row.value);
        sh.restored := true;
      }
    }

    /** A new shard, seeded from the connection and then from its conversation. */
    method UnrestoredShard(fs: Fs, id: Id) returns (sh: AgentShard)
      requires Valid()
      ensures fresh(sh) && sh.id == id
      ensures sh.Value() == SeedFromParent(View(), fs, id, Shard(View().pin, false, false, false))
    {
      ghost var was := View();
      sh := new AgentShard(id, pin);
      SeedFromConversation(fs, sh);
      assert View() == was;
    }

    /** A new shard, seeded from the connection, then its conversation, then its own row. */
    method NewShard(fs: Fs, id: Id) returns (sh: AgentShard)
      requires Valid()
      ensures fresh(sh) && sh.id == id && sh.Value() == SeedShard(View(), fs, id)
    {
      hide SeedFromParent;
      hide SeedShard;
      hide Restorable;
      ghost var was := View();
      sh := UnrestoredShard(fs, id);
      ghost var seeded := sh.Value();
      var row := RowFor(fs, id);
      RestoreInto(sh, row);
      assert View() == was;
      SeededThenRestored(was, fs, id, seeded);
    }

    /** Returns id's shard, building it on first use. */
    method EnsureShard(fs: Fs, id: Id) returns (sh: AgentShard)
      requires Valid()
      modifies this`shards, this`Repr
      ensures Valid() && View() == ShardOf(old(View()), fs, id)
      ensures id in shards && shards[id] == sh && fresh(Repr - old(Repr))
    {
      if id in shards {
        return shards[id];
      }
      sh := NewShard(fs, id);
      ghost var was := Table();
      shards := shards[id := sh];
      Repr := Repr + {sh};
      assert Table() == was[id := sh.Value()];
    }

    /** The call's refused declaration, its own or its conversation's. */
    method PendingDeclarationForCall(id: Id) returns (pending: bool)
      requires Valid()
      ensures pending == PendingForCall(View(), id)
      ensures pending == Outcomes.Silenced(View(), id)
    {
      hide Outcomes.Silenced;
      Outcomes.PendingSilences(View(), id);
      if id == "" {
        return false;
      }
      if id in refused {
        return true;
      }
      var linkage := LinkageOf(id);
      if linkage == id || linkage == "" || linkage !in refused {
        return false;
      }
      if id !in shards {
        return true;
      }
      var sh := shards[id];
      return !(sh.selfPinned || sh.restored);
    }

    /** The shard a call resolves through, if the connection is shared or was before a restart. */
    method RouteToShard(fs: Fs, id: Id)
      requires Valid()
      modifies this`shards, this`Repr
      ensures Valid() && View() == ShardFor(old(View()), fs, id)
      ensures fresh(Repr - old(Repr))
    {
      if id == "" || !(SharedWith(seen, id) || priorShared) {
        return;
      }
      var sh := EnsureShard(fs, id);
    }

    method OrientCall(fs: Fs, id: Id)
      requires Valid()
      modifies this`shards, this`Repr
      ensures Valid() && View() == Orient(old(View()), fs, id)
      ensures fresh(Repr - old(Repr))
      ensures Outcomes.Resolves(old(View()), fs, id, View())
    {
      hide Outcomes.Resolves;
      Outcomes.OrientResolves(View(), fs, id, Orient(View(), fs, id));
      var pending := PendingDeclarationForCall(id);
      if !pending {
        RouteToShard(fs, id);
      }
    }

    /** The root a call by id resolves against: none while a declaration is refused. */
    method WorkspaceForCall(fs: Fs, id: Id) returns (root: Path)
      requires Valid()
      modifies this`shards, this`Repr
      ensures Valid() && View() == Orient(old(View()), fs, id) && fresh(Repr - old(Repr))
      ensures root == WorkspaceFor(old(View()), fs, id)
      ensures Outcomes.Answers(old(View()), fs, id, root)
    {
      hide Outcomes.Answers;
      Outcomes.WorkspaceAnswers(View(), fs, id, WorkspaceFor(View(), fs, id));
      var pending := PendingDeclarationForCall(id);
      if pending {
        return "";
      }
      if id == "" || !(SharedWith(seen, id) || priorShared) {
        return pin.root;
      }
      var sh := EnsureShard(fs, id);
      return sh.root;
    }

    /** The root id's first call will resolve against, found without giving it a shard. */
    method FirstCallRoot(fs: Fs, id: Id) returns (root: Path, inherited: bool)
      requires Valid()
      ensures inherited <==> id !in View().shards
      ensures root == ShardOf(View(), fs, id).shards[id].pin.root
    {
      if id in shards {
        return shards[id].root, false;
      }
      ghost var was := View();
      var probe := NewShard(fs, id);
      assert View() == was;
      return probe.root, true;
    }

    /** One shard's fields were set: the table changes there alone. */
    twostate lemma OneShardChanged(id: Id)
      requires old(Valid()) && id in shards && shards == old(shards)
      requires Repr == old(Repr) && forall other :: other in shards && other != id ==> unchanged(shards[other])
      ensures Valid() && Table() == old(Table())[id := shards[id].Value()]
    {
    }

    method ConfirmPin(id: Id, root: Path, lang: Lang, origin: Origin)
      requires Valid() && id in shards
      modifies this`store, shards[id]
      ensures Valid() && View() == ConfirmShardPin(old(View()), id, root, lang, origin)
    {
      var sh := shards[id];
      if origin != SessionStart || sh.selfPinned {
        return;
      }
      sh.selfPinned := true;
      sh.pinOrigin := origin;
      OneShardChanged(id);
      PersistPinForAgent(id, Pin(root, lang, origin));
    }

    method Move(id: Id, p: Pin)
      requires Valid() && id in shards
      modifies this`store, shards[id]
      ensures Valid() && View() == MoveShard(old(View()), id, p)
    {
      var sh := shards[id];
      sh.selfPinned := true;
      sh.SetPin(p);
      OneShardChanged(id);
      PersistPinForAgent(id, p);
    }

    /** The shards outside todo hold their new values, the others still hold the old ones. */
    ghost predicate Halfway(was: map<Id, Shard>, goal: map<Id, Shard>, todo: set<Id>)
      reads this`shards, this`Repr, Repr
    {
      Valid() && todo <= shards.Keys && was.Keys == goal.Keys == shards.Keys &&
      forall id :: id in shards ==> shards[id].Value() == if id in todo then was[id] else goal[id]
    }

    method CarryShard(id: Id, parent: Id, p: Pin, ghost was: map<Id, Shard>, ghost goal: map<Id, Shard>,
                      ghost todo: set<Id>)
      requires Halfway(was, goal, todo) && id in todo && goal[id] == Carried(was[id], id, parent, p)
      modifies shards[id]
      ensures Halfway(was, goal, todo - {id})
    {
      var sh := shards[id];
      if id != parent && LinkageOf(id) == parent && !sh.selfPinned && !sh.restored {
        sh.SetPin(p);
      }
    }

    method CarryAll(parent: Id, p: Pin, ghost was: map<Id, Shard>, ghost goal: map<Id, Shard>)
      requires Halfway(was, goal, shards.Keys)
      requires forall id :: id in was ==> goal[id] == Carried(was[id], id, parent, p)
      modifies Repr
      ensures Halfway(was, goal, {})
    {
      var todo := shards.Keys;
      while todo != {}
        invariant Halfway(was, goal, todo)
        decreases todo
      {
        var id :| id in todo;
        CarryShard(id, parent, p, was, goal, todo);
        todo := todo - {id};
      }
    }

    /** Every subagent of a conversation that has just moved, unless it chose a root, goes with it. */
    method FollowParentShard(parent: Id, prevRoot: Path)
      requires Valid()
      modifies Repr
      ensures Valid() && View() == FollowParent(old(View()), parent, prevRoot)
    {
      hide FollowedParent;
      hide Carried;
      if prevRoot == "" || LinkageOf(parent) != parent || parent !in shards {
        return;
      }
      var p := shards[parent].GetPin();
      ghost var was := Table();
      ghost var goal := FollowedParent(was, parent);
      FollowedCarried(was, parent);
      CarryAll(parent, p, was, goal);
      EndCarry(was, goal);
    }

    lemma EndCarry(was: map<Id, Shard>, goal: map<Id, Shard>)
      requires Halfway(was, goal, {})
      ensures Table() == goal
    {
    }

    method Refuse(sh: AgentShard, requested: Path)
      requires Valid()
      modifies this`refused
      ensures Valid() && View() == if !old(sh.selfPinned) && !old(sh.restored)
        then MarkRefused(old(View()), sh.id, requested, old(sh.root)) else old(View())
    {
      if !sh.selfPinned && !sh.restored {
        MarkDeclarationRefused(sh.id, requested, sh.root);
      }
    }

    /** The per-agent re-pin, on a caller that already has a shard. */
    method RepinShard(id: Id, t: Target, origin: Origin, force: bool) returns (moved: AgentMove)
      requires Valid() && id in shards
      modifies this`store, this`refused, Repr
      ensures Valid() && (View(), moved) == RepinAgent(old(View()), id, t, origin, force)
    {
      var sh := shards[id];
      var prev := sh.root;
      if !force && prev != "" && t.root != prev && !CorrectsSeededRoot(sh.selfPinned, prev, t.root) &&
         sh.pinOrigin == SessionStart {
        Refuse(sh, t.root);
        return AgentRefused;
      }
      if t.root == prev && t.lang == sh.language {
        ConfirmPin(id, t.root, t.lang, origin);
        return AgentKept;
      }
      Move(id, Pin(t.root, t.lang, origin));
      if t.root != prev {
        FollowParentShard(id, prev);
      }
      return AgentMoved;
    }

    // ---- the connection's own pin -------------------------------------------------------------

    /** Nothing but shards, refused declarations and rows differs from was. */
    ghost predicate SameSettings(was: Conn)
      reads this
    {
      pin == was.pin && seen == was.seen && declared == was.declared && priorShared == was.priorShared &&
      linked == was.linked && persist == was.persist && hint == was.hint
    }

    /** The follow has handled every shard outside todo. */
    ghost predicate Dragging(was: Conn, goal: Conn, todo: set<Id>)
      reads this, Repr
    {
      Halfway(was.shards, goal.shards, todo) && refused == Remaining(was.refused, goal.refused, todo) &&
      store == was.store.(agentPins := Remaining(was.store.agentPins, goal.store.agentPins, todo)) &&
      SameSettings(was)
    }

    /** The refused declaration and the row of a shard the connection takes along. */
    method ForgetDragged(id: Id)
      requires Valid()
      modifies this`refused, this`store
      ensures Valid() && Table() == old(Table())
      ensures refused == old(if id in refused && refused[id].requested == pin.root then refused - {id} else refused)
      ensures store == old(if persist then store.(agentPins := store.agentPins - {id}) else store)
    {
      if id in refused && refused[id].requested == pin.root {
        refused := refused - {id};
      }
      if persist {
        store := store.(agentPins := store.agentPins - {id});
      }
    }

    method FollowsHome(id: Id, prevRoot: Path) returns (dragged: bool)
      requires Valid() && id in shards
      ensures dragged == Dragged(View(), id, prevRoot)
    {
      var parentChose := ParentHasChosen(id);
      var sh := shards[id];
      return !sh.selfPinned && !sh.restored && !sh.parentSeeded && !parentChose && sh.root == prevRoot;
    }

    method Reseed(id: Id, dragged: bool, ghost was: map<Id, Shard>, ghost goal: map<Id, Shard>, ghost todo: set<Id>)
      requires Halfway(was, goal, todo) && id in todo
      requires goal[id] == if dragged then was[id].(pin := pin) else was[id]
      modifies shards[id]
      ensures Halfway(was, goal, todo - {id})
    {
      if dragged {
        shards[id].SetPin(pin);
      }
    }

    method ForgetIf(id: Id, dragged: bool, ghost was: Conn, ghost goal: Conn, ghost todo: set<Id>)
      requires Valid() && pin == was.pin && persist == was.persist && id in todo
      requires refused == Remaining(was.refused, goal.refused, todo)
      requires store == was.store.(agentPins := Remaining(was.store.agentPins, goal.store.agentPins, todo))
      requires id in goal.refused <==> id in was.refused && !(dragged && was.refused[id].requested == was.pin.root)
      requires id in goal.store.agentPins <==> id in was.store.agentPins && !(dragged && was.persist)
      modifies this`refused, this`store
      ensures refused == Remaining(was.refused, goal.refused, todo - {id})
      ensures store == was.store.(agentPins := Remaining(was.store.agentPins, goal.store.agentPins, todo - {id}))
    {
      RemainingStep(was.refused, goal.refused, todo, id);
      RemainingStep(was.store.agentPins, goal.store.agentPins, todo, id);
      if dragged {
        ForgetDragged(id);
      }
    }

    /** Whether the shard is to be dragged, and what the whole follow does to it. */
    method DragDecision(id: Id, prevRoot: Path, ghost was: Conn, ghost goal: Conn, ghost todo: set<Id>)
        returns (dragged: bool)
      requires Dragging(was, goal, todo) && id in todo && goal == FollowConnection(was, prevRoot)
      requires was.pin.root != "" && was.pin.root != prevRoot
      ensures goal.shards[id] == if dragged then was.shards[id].(pin := was.pin) else was.shards[id]
      ensures id in goal.refused <==> id in was.refused && !(dragged && was.refused[id].requested == was.pin.root)
      ensures id in goal.store.agentPins <==> id in was.store.agentPins && !(dragged && was.persist)
    {
      MidFollow(was, View(), goal, prevRoot, todo, id);
      FollowEntry(was, prevRoot, id);
      dragged := FollowsHome(id, prevRoot);
    }

    method ApplyDrag(id: Id, dragged: bool, ghost was: Conn, ghost goal: Conn, ghost todo: set<Id>)
      requires Dragging(was, goal, todo) && id in todo
      requires goal.shards[id] == if dragged then was.shards[id].(pin := was.pin) else was.shards[id]
      requires id in goal.refused <==> id in was.refused && !(dragged && was.refused[id].requested == was.pin.root)
      requires id in goal.store.agentPins <==> id in was.store.agentPins && !(dragged && was.persist)
      modifies this`refused, this`store, shards[id]
      ensures Dragging(was, goal, todo - {id})
    {
      hide Remaining;
      ForgetIf(id, dragged, was, goal, todo);
      assert SameSettings(was) && Halfway(was.shards, goal.shards, todo);
      Reseed(id, dragged, was.shards, goal.shards, todo);
    }

    /** One turn of the follow's loop. */
    method DragShard(id: Id, prevRoot: Path, ghost was: Conn, ghost goal: Conn, ghost todo: set<Id>)
      requires Dragging(was, goal, todo) && id in todo && goal == FollowConnection(was, prevRoot)
      requires was.pin.root != "" && was.pin.root != prevRoot
      modifies this`refused, this`store, shards[id]
      ensures Dragging(was, goal, todo - {id})
    {
      var dragged := DragDecision(id, prevRoot, was, goal, todo);
      ApplyDrag(id, dragged, was, goal, todo);
    }

    /** Re-seeds every shard whose agent chose nothing from the connection's new pin. */
    method FollowConnectionShards(prevRoot: Path)
      requires Valid()
      modifies this`refused, this`store, Repr
      ensures Valid() && View() == FollowConnection(old(View()), prevRoot)
    {
      if pin.root == "" || pin.root == prevRoot {
        return;
      }
      ghost var was := View();
      ghost var goal := FollowConnection(was, prevRoot);
      BeginDrag(was, goal, prevRoot);
      DragAll(prevRoot, was, goal);
      EndDrag(was, goal, prevRoot);
    }

    lemma BeginDrag(was: Conn, goal: Conn, prevRoot: Path)
      requires Valid() && was == View() && goal == FollowConnection(was, prevRoot)
      ensures Dragging(was, goal, shards.Keys)
    {
    }

    lemma EndDrag(was: Conn, goal: Conn, prevRoot: Path)
      requires Dragging(was, goal, {}) && goal == FollowConnection(was, prevRoot)
      ensures View() == goal
    {
      assert Table() == goal.shards;
      assert refused == goal.refused;
      assert store.agentPins == goal.store.agentPins;
    }

    method DragAll(prevRoot: Path, ghost was: Conn, ghost goal: Conn)
      requires Dragging(was, goal, shards.Keys) && goal == FollowConnection(was, prevRoot)
      requires was.pin.root != "" && was.pin.root != prevRoot
      modifies this`refused, this`store, Repr
      ensures Dragging(was, goal, {})
    {
      var todo := shards.Keys;
      while todo != {}
        invariant Dragging(was, goal, todo)
        decreases todo
      {
        var id :| id in todo;
        DragShard(id, prevRoot, was, goal, todo);
        todo := todo - {id};
      }
    }

    method SetPin(p: Pin)
      requires Valid()
      modifies this`pin, this`store
      ensures Valid() && View() == PersistConnPin(old(View()).(pin := p), p)
    {
      pin := p;
      PersistPin(p);
    }

    /** The one mutation lane of the connection's pin. */
    method AttachOrRepinTo(fs: Fs, id: Id, authorised: bool, t: Target, origin: Origin, trigger: Trigger, force: bool)
        returns (moved: ConnMove)
      requires Valid()
      modifies this`pin, this`store
      ensures Valid() && (View(), moved) == AttachOrRepin(old(View()), fs, id, authorised, t, origin, trigger, force)
    {
      var prev := pin.root;
      if force && trigger == Live && prev != "" && t.root != prev && id == "" && !authorised && SharedWith(seen, "") {
        return ConnRefused;
      }
      if !force && trigger == Live && prev != "" && t.root != prev && pin.origin == SessionStart {
        return if origin == SessionStart then ConnRefused else ConnKept;
      }
      if t.root == prev {
        if origin == SessionStart {
          SetPin(pin.(origin := origin));
        }
        return ConnKept;
      }
      SetPin(Pin(t.root, fs.acquire(t.root, t.lang), origin));
      return ConnMoved;
    }

    method AttributePin(id: Id, root: Path, origin: Origin, trigger: Trigger)
      requires Valid()
      modifies this`store
      ensures Valid() && View() == AttributeConnectionPin(old(View()), id, root, origin, trigger)
    {
      if trigger == Live && origin == SessionStart {
        PersistPinForAgent(id, Pin(root, pin.lang, origin));
      }
    }

    method RepinCallersShard(fs: Fs, id: Id, t: Target, origin: Origin, force: bool) returns (out: Outcome)
      requires Valid()
      modifies this`shards, this`Repr, this`store, this`refused, Repr
      ensures Valid() && (View(), out) == RepinOnAgent(old(View()), fs, id, t, origin, force)
      ensures fresh(Repr - old(Repr))
    {
      var sh := EnsureShard(fs, id);
      var moved := RepinShard(id, t, origin, force);
      if moved == AgentRefused {
        return Failed;
      }
      ClearDeclarationRefused(id);
      return AgentScope(t.root);
    }

    method Settle(id: Id, prevRoot: Path, t: Target, origin: Origin, trigger: Trigger, moved: bool)
      requires Valid()
      modifies this`store, this`refused, Repr
      ensures Valid() && View() == SettleConnection(old(View()), id, prevRoot, t, origin, trigger, moved)
    {
      AttributePin(id, t.root, origin, trigger);
      if moved {
        FollowConnectionShards(prevRoot);
      }
      ClearDeclarationRefused(id);
    }

    method RepinTheConnection(fs: Fs, id: Id, authorised: bool, t: Target, origin: Origin, trigger: Trigger,
                              force: bool) returns (out: Outcome)
      requires Valid()
      modifies this`pin, this`store, this`refused, Repr
      ensures Valid() && (View(), out) == RepinOnConnection(old(View()), fs, id, authorised, t, origin, trigger, force)
    {
      var prev := pin.root;
      var moved := AttachOrRepinTo(fs, id, authorised, t, origin, trigger, force);
      if moved == ConnRefused {
        return Failed;
      }
      Settle(id, prev, t, origin, trigger, moved == ConnMoved);
      return ConnScope(t.root);
    }

    method RepinWorkspaceFrom(fs: Fs, id: Id, authorised: bool, folder: Path, origin: Origin, trigger: Trigger,
                              force: bool) returns (out: Outcome)
      requires Valid()
      modifies this`pin, this`shards, this`Repr, this`store, this`refused, Repr
      ensures Valid() && (View(), out) == RepinFrom(old(View()), fs, id, authorised, folder, origin, trigger, force)
      ensures fresh(Repr - old(Repr))
      ensures RO.RepinComesTo(old(View()), fs, id, authorised, folder, origin, trigger, force, View(), out)
    {
      hide RO.RepinComesTo;
      RO.Repins(View(), fs, id, authorised, folder, origin, trigger, force);
      var target := RepinTarget(fs, folder, origin, trigger);
      if target.None? {
        return Failed;
      }
      if id != "" && (SharedWith(seen, id) || priorShared) {
        out := RepinCallersShard(fs, id, target.value, origin, force);
      } else {
        out := RepinTheConnection(fs, id, authorised, target.value, origin, trigger, force);
      }
    }

    method RepinConnectionScope(fs: Fs, id: Id, folder: Path, force: bool) returns (out: Outcome)
      requires Valid()
      modifies this`pin, this`shards, this`Repr, this`store, this`refused, Repr
      ensures Valid() && (View(), out) == RepinConnection(old(View()), fs, id, folder, force)
      ensures fresh(Repr - old(Repr))
      ensures RO.ScopeComesTo(old(View()), fs, id, folder, force, View(), out)
    {
      hide RO.ScopeComesTo;
      ghost var (goal, outcome) := RepinConnection(View(), fs, id, folder, force);
      RO.ScopeDecided(View(), fs, id, folder, force, goal, outcome);
      if id == "" && SharedWith(seen, "") {
        return Failed;
      }
      out := RepinWorkspaceFrom(fs, "", true, folder, SessionStart, Live, force);
      if out == Failed || id == "" {
        return;
      }
      ClearDeclarationRefused(id);
      OrientCall(fs, id);
    }

    // ---- attaching ----------------------------------------------------------------------------

    method AttachFirst(fs: Fs, target: Option<Target>, origin: Origin)
      requires Valid()
      modifies this`pin, this`store
      ensures Valid() && View() == FirstAttach(old(View()), fs, target, origin)
    {
      if pin.root != "" || target.None? || UndeclaredWideRoot(fs, target.value.root, origin) {
        return;
      }
      SetPin(Pin(target.value.root, fs.acquire(target.value.root, target.value.lang), origin));
    }

    method ForgetPin(root: Path)
      requires Valid()
      modifies this`store
      ensures Valid() && View() == DropPin(old(View()), root)
    {
      if persist && store.connPin.Some? && store.connPin.value.root == root {
        store := store.(connPin := None);
      }
    }

    method Rehydrate(fs: Fs)
      requires Valid()
      modifies this`pin, this`store
      ensures Valid() && View() == RehydratePin(old(View()), fs)
    {
      if !persist || store.connPin.None? || store.connPin.value.root == "" {
        return;
      }
      var row := store.connPin.value;
      if !RestoreRootIntact(fs, row.root) {
        ForgetPin(row.root);
        return;
      }
      var target := Resolve(fs, row.root, row.origin);
      if target.Some? && target.value.root == row.root {
        AttachFirst(fs, target, row.origin);
      }
    }

    method AttachFromCall(fs: Fs, seed: Path)
      requires Valid()
      modifies this`pin, this`store
      ensures Valid() && View() == SeedFromCall(old(View()), fs, seed)
      ensures AO.SeededBy(old(View()), fs, seed, View())
    {
      hide AO.SeededBy;
      AO.CallSeeds(View(), fs, seed);
      if pin.root != "" {
        return;
      }
      Rehydrate(fs);
      if pin.root == "" {
        AttachFirst(fs, DetectedFolder(fs, hint), Unknown);
      }
      if pin.root != "" || seed == "" || !IsAbs(seed) {
        return;
      }
      AttachFirst(fs, fs.seedRoot(seed, false), Unknown);
    }

    /** A workspace argument on an unattached connection: deferred to Execute if the call declares an agent. */
    method AttachNamed(fs: Fs, caller: Id, workspace: Path)
      requires Valid()
      modifies this`pin, this`store
      ensures Valid() && View() == AttachDeclared(old(View()), fs, caller, workspace)
      ensures AO.DeclaredBy(old(View()), fs, caller, workspace, View())
    {
      hide AO.DeclaredBy;
      AO.CallDeclares(View(), fs, caller, workspace, AttachDeclared(View(), fs, caller, workspace));
      if pin.root != "" || caller != "" || !IsAbs(workspace) {
        return;
      }
      AttachFirst(fs, fs.seedRoot(workspace, true), SessionStart);
    }

    method AttachForToolCall(fs: Fs, e: Event)
      requires Valid() && e.ToolCall?
      modifies this`pin, this`store
      ensures Valid() && View() == AttachForCall(old(View()), fs, e)
      ensures CO.CallAttaches(old(View()), fs, e, View())
    {
      hide AO.SeededBy;
      hide AO.DeclaredBy;
      if e.explicit {
        AttachNamed(fs, e.stamp, e.seed);
      } else {
        AttachFromCall(fs, e.seed);
      }
    }

    method ReplayPin(fs: Fs, root: Path, origin: Origin)
      requires Valid()
      modifies this`pin, this`shards, this`Repr, this`store, this`refused, Repr
      ensures Valid() && View() == AttachReplayedPin(old(View()), fs, root, origin)
      ensures fresh(Repr - old(Repr))
    {
      if root == "" {
        return;
      }
      if !RestoreRootIntact(fs, root) {
        ForgetPin(root);
        return;
      }
      var out := RepinWorkspaceFrom(fs, "", false, root, origin, Restore, false);
    }

    /** The pin the reconnecting proxy replays. */
    method ReplayHandedPin(fs: Fs, replayed: Path)
      requires Valid()
      modifies this`pin, this`shards, this`Repr, this`store, this`refused, Repr
      ensures Valid() && fresh(Repr - old(Repr))
      ensures View() == if replayed == "" || fs.wide(replayed) then old(View())
        else AttachReplayedPin(old(View()), fs, replayed, SessionStart)
    {
      if replayed != "" && !fs.wide(replayed) {
        ReplayPin(fs, replayed, SessionStart);
      }
    }

    /** The connection's own row, if nothing has attached it yet. */
    method ReplayRow(fs: Fs, row: Option<Pin>)
      requires Valid()
      modifies this`pin, this`shards, this`Repr, this`store, this`refused, Repr
      ensures Valid() && fresh(Repr - old(Repr))
      ensures View() == if old(pin.root) == "" && row.Some?
        then AttachReplayedPin(old(View()), fs, row.value.root, row.value.origin) else old(View())
    {
      if pin.root == "" && row.Some? {
        ReplayPin(fs, row.value.root, row.value.origin);
      }
    }

    /** The attach ladder of a newly initialised connection. */
    method AttachAtInit(fs: Fs, replayed: Path, roots: Path)
      requires Valid()
      modifies this`pin, this`shards, this`Repr, this`store, this`refused, Repr
      ensures Valid() && View() == AttachOnInit(old(View()), fs, replayed, roots)
      ensures fresh(Repr - old(Repr))
      ensures AO.Settles(old(View()), fs, replayed, roots, View())
    {
      hide AO.Settles;
      hide AttachReplayedPin;
      hide FirstAttach;
      hide DetectedFolder;
      AO.LadderSettles(View(), fs, replayed, roots);
      var row := if persist && store.connPin.Some? && store.connPin.value.root != "" then store.connPin else None;
      ReplayHandedPin(fs, replayed);
      ReplayRow(fs, if row.Some? && row.value.origin == SessionStart then row else None);
      AttachFirst(fs, DetectedFolder(fs, roots), Roots);
      ReplayRow(fs, row);
      AttachFirst(fs, DetectedFolder(fs, hint), Unknown);
    }

    // ---- the events of a run ------------------------------------------------------------------

    method RecordAttachOf(id: Id)
      requires Valid()
      modifies this`seen, this`declared, this`store
      ensures Valid() && View() == RecordAttach(old(View()), id)
    {
      DeclareLinkage(id);
      Record(id);
    }

    method MirrorLinkage(linkage: Id)
      requires Valid()
      modifies this`store
      ensures Valid() && View() == if persist then old(View()).(store := old(store).(linkage := linkage)) else old(View())
    {
      if persist {
        store := store.(linkage := linkage);
      }
    }

    method Relink(externalId: Id)
      requires Valid()
      modifies this`seen, this`declared, this`store, this`linked
      ensures Valid() && View() == RelinkTo(old(View()), externalId)
    {
      var linkage := LinkageOf(externalId);
      linked := linkage;
      RecordAttachOf(externalId);
      MirrorLinkage(linkage);
    }

    method LinkExternalId(stamp: Id, externalId: Id)
      requires Valid()
      modifies this`seen, this`declared, this`store, this`linked
      ensures Valid() && View() == LinkExternal(old(View()), stamp, externalId)
    {
      var linkage := LinkageOf(externalId);
      if linkage != "" && stamp != "" && linked != "" && linked != linkage {
        RecordAttachOf(externalId);
      } else {
        Relink(externalId);
      }
    }

    /** The identity half of every admitted call: a /clear hand-over, then the caller is committed. */
    method BeforeCall(stamp: Id, marker: bool)
      requires Valid()
      modifies this`seen, this`declared, this`store, this`linked
      ensures Valid() && View() == BeforeTool(old(View()), stamp, marker)
      ensures CO.Precedes(old(View()), stamp, marker, View())
    {
      hide CO.Precedes;
      CO.PrecedesDecided(View(), stamp, marker, BeforeTool(View(), stamp, marker));
      if stamp != "" && '/' !in stamp && marker && stamp !in seen && SoleConversationIs(seen, linked) {
        Relink(stamp);
      }
      Record(stamp);
    }

    method AttachBeforeSessionStart(fs: Fs, e: Event)
      requires Valid() && e.SessionStartCall?
      modifies this`seen, this`declared, this`store, this`linked, this`pin
      ensures Valid() && View() == BeforeSessionStart(old(View()), fs, e)
    {
      BeforeCall(e.stamp, e.marker);
      if pin.root != "" {
        return;
      }
      if e.workspace == "" {
        AttachFromCall(fs, "");
      } else {
        AttachNamed(fs, CallerOf(e), e.workspace);
      }
    }

    method RepinForSessionStart(fs: Fs, e: Event) returns (out: Outcome)
      requires Valid() && e.SessionStartCall?
      modifies this`pin, this`shards, this`Repr, this`store, this`refused, Repr
      ensures Valid() && (View(), out) == RepinWorkspace(old(View()), fs, e)
      ensures fresh(Repr - old(Repr))
    {
      if e.workspace == "" {
        return AgentScope("");
      }
      if e.connScope {
        out := RepinConnectionScope(fs, CallerOf(e), e.workspace, e.force);
      } else {
        out := RepinWorkspaceFrom(fs, CallerOf(e), false, e.workspace, SessionStart, Live, e.force);
      }
    }

    method Commit(e: Event)
      requires Valid() && e.SessionStartCall?
      modifies this`seen, this`declared, this`store, this`linked
      ensures Valid() && View() == CommitIdentity(old(View()), e)
      ensures CO.Commits(old(View()), e, View())
    {
      hide CO.Commits;
      CO.CommitsDecided(View(), e, CommitIdentity(View(), e));
      if e.sessionId != "" {
        LinkExternalId(e.stamp, e.sessionId);
      }
      if e.stamp != "" {
        DeclareLinkage(e.stamp);
      }
    }

    method OnSessionStart(fs: Fs, e: Event)
      requires Valid() && e.SessionStartCall?
      modifies this, Repr
      ensures Valid() && View() == SessionStartStep(old(View()), fs, e)
      ensures fresh(Repr - old(Repr))
      ensures CO.SessionStartComesTo(old(View()), fs, e, View())
    {
      hide CO.SessionStartComesTo;
      hide BeforeSessionStart;
      hide Orient;
      hide RepinWorkspace;
      hide CommitIdentity;
      CO.SessionStartDecided(View(), fs, e, SessionStartStep(View(), fs, e));
      AttachBeforeSessionStart(fs, e);
      OrientCall(fs, CallerOf(e));
      var out := RepinForSessionStart(fs, e);
      if e.valid && out != Failed {
        Commit(e);
      }
    }

    /** The fail-closed ceiling in front of a state-changing call. */
    method RefusesCall(e: Event) returns (refuses: bool)
      requires Valid() && e.ToolCall?
      ensures refuses == RefusedCall(View(), e)
      ensures refuses == CO.TurnedAway(View(), e)
    {
      hide CO.TurnedAway;
      CO.RefusedTurnedAway(View(), e);
      if !e.mutating || !SharedWith(seen, e.stamp) {
        return false;
      }
      if e.stamp == "" {
        return true;
      }
      var linkage := LinkageOf(e.stamp);
      return linkage !in declared && !OneConversation(seen, linkage);
    }

    method IdentifyCaller(fs: Fs, id: Id)
      requires Valid()
      modifies this`shards, this`Repr
      ensures Valid() && View() == Identify(old(View()), fs, id)
      ensures fresh(Repr - old(Repr))
      ensures Outcomes.Identifies(old(View()), fs, id, View())
    {
      hide Outcomes.Identifies;
      Outcomes.IdentifyIdentifies(View(), fs, id, Identify(View(), fs, id));
      if id == "" {
        return;
      }
      if SharedWith(seen, id) || priorShared || ('/' in id && linked != "" && LinkageOf(id) == linked) {
        var sh := EnsureShard(fs, id);
      }
    }

    method OnToolCall(fs: Fs, e: Event)
      requires Valid() && e.ToolCall?
      modifies this
      ensures Valid() && View() == ToolCallStep(old(View()), fs, e)
      ensures fresh(Repr - old(Repr))
      ensures CO.ToolCallComesTo(old(View()), fs, e, View())
    {
      hide CO.ToolCallComesTo;
      hide BeforeTool;
      hide AttachForCall;
      hide Orient;
      hide Identify;
      hide RefusedCall;
      CO.ToolCallDecided(View(), fs, e, ToolCallStep(View(), fs, e));
      var refuses := RefusesCall(e);
      if refuses {
        return;
      }
      BeforeCall(e.stamp, e.marker);
      AttachForToolCall(fs, e);
      if e.resolves {
        OrientCall(fs, e.stamp);
      }
      if e.identifies {
        IdentifyCaller(fs, e.stamp);
      }
    }

    method OnRootsChanged(fs: Fs, folders: seq<Path>)
      requires Valid()
      modifies this, Repr
      ensures Valid() && View() == RootsChangedStep(old(View()), fs, folders)
      ensures fresh(Repr - old(Repr))
      ensures RO.RootsComeTo(old(View()), fs, folders, View())
    {
      hide RO.RootsComeTo;
      RO.RootsDecided(View(), fs, folders, RootsChangedStep(View(), fs, folders));
      if folders == [] {
        return;
      }
      if pin.root == "" {
        AttachFirst(fs, DetectedFolder(fs, folders[0]), Roots);
        return;
      }
      var stays := RootStillReported(fs, folders);
      if stays || pin.origin == SessionStart || NamesNoFolder(folders[0]) {
        return;
      }
      var out := RepinWorkspaceFrom(fs, "", false, folders[0], Roots, Live, false);
    }

    /** Whether any reported folder still leads to the pinned root. */
    method RootStillReported(fs: Fs, folders: seq<Path>) returns (stays: bool)
      requires Valid()
      ensures stays == StillReported(View(), fs, folders)
    {
      for i := 0 to |folders|
        invariant forall j :: 0 <= j < i ==> !LeadsTo(fs, folders[j], pin.root)
      {
        if LeadsTo(fs, folders[i], pin.root) {
          return true;
        }
      }
      return false;
    }
  }
}
