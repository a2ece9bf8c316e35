/**
 What a re-pin comes to: for the caller's own shard, for the connection and everything that follows it, and when
 the client changes its folders. Who is refused, who moves, who is taken along and which rows are written or
 dropped are said of the fields before and after.
 */
module RepinOutcomes {
  import opened Ids
  import opened ConnSpec
  import opened Options
  import opened Outcomes
  import opened AttachOutcomes
  import Admission

  // ---- the caller's own shard -----------------------------------------------------------------

  /** One root lies in the other, or they are the same. */
  ghost predicate Nested(a: Path, b: Path) {
    a != "" && b != "" && (a == b || Beneath(a, b) || Beneath(b, a))
  }

  ghost predicate Beneath(path: Path, root: Path) {
    |root| < |path| && path[..|root|] == root && path[|root|] == '/'
  }

  /** The agent holds a declared root, and this would leave it: an inherited one may still be narrowed or widened. */
  ghost predicate Holds(sh: Shard, t: Target) {
    sh.pin.origin == SessionStart && sh.pin.root != "" && t.root != sh.pin.root &&
    (sh.selfPinned || !Nested(t.root, sh.pin.root))
  }

  /** The shard's new pin. Asked for where it already is, it keeps it, and a declaration makes it its own. */
  ghost predicate Takes(sh: Shard, t: Target, origin: Origin, sh': Shard) {
    sh' == sh.(pin := sh'.pin, selfPinned := sh'.selfPinned) &&
    if sh.pin.root == t.root && sh.pin.lang == t.lang then
      sh'.selfPinned == (sh.selfPinned || origin == SessionStart) &&
      sh'.pin == sh.pin.(origin := if sh'.selfPinned && !sh.selfPinned then origin else sh.pin.origin)
    else sh'.selfPinned && sh'.pin == Pin(t.root, t.lang, origin)
  }

  /** A subagent of id that has decided nothing goes where id goes, if id is a conversation that leaves a root. */
  ghost predicate GoesAlong(c: Conn, id: Id, t: Target, x: Id)
    requires id in c.shards
  {
    x in c.shards && x != id && LinkageOf(x) == id && !Decided(c.shards[x]) &&
    c.shards[id].pin.root != "" && t.root != c.shards[id].pin.root
  }

  /** The agent's row is written when it moves or makes its pin its own. */
  ghost predicate Files(c: Conn, id: Id, t: Target, origin: Origin)
    requires id in c.shards
  {
    c.persist && id != "" && origin != Unknown &&
    (c.shards[id].pin.root != t.root || c.shards[id].pin.lang != t.lang || (origin == SessionStart && !c.shards[id].selfPinned))
  }

  /** A re-pin of a caller with a shard. The connection, and everybody else's declarations and rows, stay as they are. */
  ghost predicate AgentRepinned(c: Conn, id: Id, t: Target, origin: Origin, force: bool, c': Conn, out: Outcome)
    requires id in c.shards
  {
    var sh := c.shards[id];
    if Holds(sh, t) && !force then
      out == Failed &&
      c' == c.(refused := if id == "" || Decided(sh) then c.refused else c.refused[id := Refusal(t.root, sh.pin.root)])
    else
      out == AgentScope(t.root) &&
      c' == c.(shards := c'.shards, refused := c.refused - Naming(id),
               store := c.store.(agentPins := c'.store.agentPins)) &&
      c'.shards.Keys == c.shards.Keys && Takes(sh, t, origin, c'.shards[id]) &&
      (forall x :: x in c.shards && x != id ==>
         c'.shards[x] == if GoesAlong(c, id, t, x) then c.shards[x].(pin := c'.shards[id].pin) else c.shards[x]) &&
      c'.store.agentPins ==
        if Files(c, id, t, origin) then c.store.agentPins[id := Pin(t.root, t.lang, origin)] else c.store.agentPins
  }

  lemma NestedCorrects(selfPinned: bool, prev: Path, root: Root)
    ensures CorrectsSeededRoot(selfPinned, prev, root) <==> !selfPinned && Nested(root, prev)
  {
    if prev != "" {
      assert root + "/" <= prev <==> Beneath(prev, root);
      assert prev + "/" <= root <==> Beneath(root, prev);
    }
  }

  lemma RefusedOrNot(c: Conn, id: Id, t: Target, force: bool)
    requires id in c.shards
    ensures AgentMoveRefused(c.shards[id], t.root, force) <==> Holds(c.shards[id], t) && !force
  {
    NestedCorrects(c.shards[id].selfPinned, c.shards[id].pin.root, t.root);
  }

  lemma AgentRefuses(c: Conn, id: Id, t: Target, origin: Origin, force: bool) returns (c1: Conn)
    requires id in c.shards && Holds(c.shards[id], t) && !force
    ensures (c1, AgentRefused) == RepinAgent(c, id, t, origin, force)
    ensures AgentRepinned(c, id, t, origin, force, c1, Failed)
  {
    RefusedOrNot(c, id, t, force);
    c1 := RepinAgent(c, id, t, origin, force).0;
  }

  lemma AgentConfirms(c: Conn, id: Id, t: Target, origin: Origin) returns (c1: Conn)
    requires id in c.shards && t.root == c.shards[id].pin.root && t.lang == c.shards[id].pin.lang
    ensures c1 == ConfirmShardPin(c, id, t.root, t.lang, origin)
    ensures c1 == c.(shards := c1.shards, store := c.store.(agentPins := c1.store.agentPins)) && c1.shards.Keys == c.shards.Keys
    ensures Takes(c.shards[id], t, origin, c1.shards[id]) && forall x :: x in c.shards && x != id ==> c1.shards[x] == c.shards[x]
    ensures c1.store.agentPins ==
      if Files(c, id, t, origin) then c.store.agentPins[id := Pin(t.root, t.lang, origin)] else c.store.agentPins
  {
    c1 := ConfirmShardPin(c, id, t.root, t.lang, origin);
  }

  lemma AgentKeeps(c: Conn, id: Id, t: Target, origin: Origin, force: bool) returns (c1: Conn)
    requires id in c.shards && t.root == c.shards[id].pin.root && t.lang == c.shards[id].pin.lang
    ensures (c1, AgentKept) == RepinAgent(c, id, t, origin, force)
    ensures AgentRepinned(c, id, t, origin, force, ClearRefused(c1, id), AgentScope(t.root))
  {
    c1 := AgentConfirms(c, id, t, origin);
    hide ConfirmShardPin;
    hide Takes;
    hide Files;
    KeepsBranch(c, id, t, origin, force);
    hide RepinAgent;
    assert c.refused - {} == c.refused;
  }

  lemma KeepsBranch(c: Conn, id: Id, t: Target, origin: Origin, force: bool)
    requires id in c.shards && t.root == c.shards[id].pin.root && t.lang == c.shards[id].pin.lang
    ensures RepinAgent(c, id, t, origin, force) == (ConfirmShardPin(c, id, t.root, t.lang, origin), AgentKept)
  {
    hide ConfirmShardPin;
    hide MoveShard;
    hide FollowParent;
  }

  lemma Moves(c: Conn, id: Id, t: Target, origin: Origin) returns (c1: Conn)
    requires id in c.shards
    ensures c1 == MoveShard(c, id, Pin(t.root, t.lang, origin))
    ensures c1 == c.(shards := c.shards[id := c.shards[id].(pin := Pin(t.root, t.lang, origin), selfPinned := true)],
                     store := c.store.(agentPins :=
                       if id == "" || origin == Unknown || !c.persist then c.store.agentPins
                       else c.store.agentPins[id := Pin(t.root, t.lang, origin)]))
  {
    c1 := MoveShard(c, id, Pin(t.root, t.lang, origin));
  }

  lemma SubagentsGoAlong(c: Conn, c1: Conn, id: Id, t: Target, origin: Origin) returns (c2: Conn)
    requires id in c.shards && c1.shards == c.shards[id := c.shards[id].(pin := Pin(t.root, t.lang, origin), selfPinned := true)]
    ensures c2 == if t.root != c.shards[id].pin.root then FollowParent(c1, id, c.shards[id].pin.root) else c1
    ensures c2 == c1.(shards := c2.shards) && c2.shards.Keys == c1.shards.Keys && c2.shards[id] == c1.shards[id]
    ensures forall x :: x in c.shards && x != id ==>
      c2.shards[x] == if GoesAlong(c, id, t, x) then c.shards[x].(pin := c1.shards[id].pin) else c.shards[x]
  {
    c2 := if t.root != c.shards[id].pin.root then FollowParent(c1, id, c.shards[id].pin.root) else c1;
    forall x | x in c.shards && x != id
      ensures c2.shards[x] == if GoesAlong(c, id, t, x) then c.shards[x].(pin := c1.shards[id].pin) else c.shards[x]
    {
      LinkageIsConversation(x);
    }
  }

  lemma MovesBranch(c: Conn, id: Id, t: Target, origin: Origin, force: bool)
    requires id in c.shards && !(Holds(c.shards[id], t) && !force)
    requires t.root != c.shards[id].pin.root || t.lang != c.shards[id].pin.lang
    ensures var c1 := MoveShard(c, id, Pin(t.root, t.lang, origin));
      RepinAgent(c, id, t, origin, force) ==
        (if t.root != c.shards[id].pin.root then FollowParent(c1, id, c.shards[id].pin.root) else c1, AgentMoved)
  {
    RefusedOrNot(c, id, t, force);
    hide ConfirmShardPin;
    hide MoveShard;
    hide FollowParent;
    hide AgentMoveRefused;
    hide Holds;
  }

  lemma AgentMoves(c: Conn, id: Id, t: Target, origin: Origin, force: bool) returns (c2: Conn)
    requires id in c.shards && !(Holds(c.shards[id], t) && !force)
    requires t.root != c.shards[id].pin.root || t.lang != c.shards[id].pin.lang
    ensures (c2, AgentMoved) == RepinAgent(c, id, t, origin, force)
    ensures AgentRepinned(c, id, t, origin, force, ClearRefused(c2, id), AgentScope(t.root))
  {
    var c1 := Moves(c, id, t, origin);
    c2 := SubagentsGoAlong(c, c1, id, t, origin);
    MovesBranch(c, id, t, origin, force);
    hide RepinAgent;
    hide MoveShard;
    hide FollowParent;
    hide GoesAlong;
    hide Holds;
    assert Takes(c.shards[id], t, origin, c2.shards[id]);
    assert Files(c, id, t, origin) <==> c.persist && id != "" && origin != Unknown;
    hide Takes;
    hide Files;
    assert c.refused - {} == c.refused;
  }

  /** A re-pin on the caller's shard comes to exactly this. */
  lemma AgentRepins(c: Conn, fs: Fs, id: Id, t: Target, origin: Origin, force: bool)
    requires id in c.shards
    ensures var (c', out) := RepinOnAgent(c, fs, id, t, origin, force); AgentRepinned(c, id, t, origin, force, c', out)
  {
    hide RepinAgent;
    hide AgentRepinned;
    var sh := c.shards[id];
    if Holds(sh, t) && !force {
      var c1 := AgentRefuses(c, id, t, origin, force);
    } else if t.root == sh.pin.root && t.lang == sh.pin.lang {
      var c1 := AgentKeeps(c, id, t, origin, force);
    } else {
      var c2 := AgentMoves(c, id, t, origin, force);
    }
  }

  lemma AgentRepinnedOnce(c: Conn, id: Id, t: Target, origin: Origin, force: bool, c1: Conn, out1: Outcome, c2: Conn,
                          out2: Outcome)
    requires id in c.shards && AgentRepinned(c, id, t, origin, force, c1, out1)
    requires AgentRepinned(c, id, t, origin, force, c2, out2)
    ensures c1 == c2 && out1 == out2
  {
    if !(Holds(c.shards[id], t) && !force) {
      assert c1.shards == c2.shards;
    }
  }

  // ---- the connection -------------------------------------------------------------------------

  /** A shard at the connection's root whose agent and conversation have decided nothing: it goes where that goes. */
  ghost predicate Follows(c: Conn, x: Id) {
    x in c.shards && c.shards[x].pin.root == c.pin.root && !Decided(c.shards[x]) && !c.shards[x].parentSeeded &&
    (LinkageOf(x) != x && LinkageOf(x) in c.shards ==> !Decided(c.shards[LinkageOf(x)]))
  }

  /** The rows once a live declaration by a named caller is filed as its own. */
  function Attributed(c: Conn, id: Id, pin: Pin, trigger: Trigger): map<Id, Pin> {
    if c.persist && id != "" && trigger == Live && pin.origin == SessionStart then c.store.agentPins[id := pin]
    else c.store.agentPins
  }

  /**
   The connection moves to pin. Its followers take the pin, and lose their rows and any refused declaration that
   asked for just this root; the caller's refused declaration is settled; everything else stays.
   */
  ghost predicate MovedTo(c: Conn, id: Id, pin: Pin, trigger: Trigger, c': Conn) {
    c' == c.(pin := pin, shards := c'.shards, refused := c'.refused, store := c'.store) &&
    c'.store == c.store.(connPin := if c.persist && pin.origin != Unknown then Some(pin) else c.store.connPin,
                         agentPins := c'.store.agentPins) &&
    ShardsFollow(c, pin, c'.shards) && DeclarationsFollow(c, id, pin, c'.refused) &&
    RowsFollow(c, Attributed(c, id, pin, trigger), c'.store.agentPins)
  }

  ghost predicate ShardsFollow(c: Conn, pin: Pin, shards: map<Id, Shard>) {
    shards.Keys == c.shards.Keys &&
    forall x :: x in c.shards ==> shards[x] == if Follows(c, x) then c.shards[x].(pin := pin) else c.shards[x]
  }

  ghost predicate DeclarationsFollow(c: Conn, id: Id, pin: Pin, refused: map<Id, Refusal>) {
    (forall x :: x in refused <==>
       x in c.refused && x !in Naming(id) && !(Follows(c, x) && c.refused[x].requested == pin.root)) &&
    forall x :: x in refused && x in c.refused ==> refused[x] == c.refused[x]
  }

  ghost predicate RowsFollow(c: Conn, filed: map<Id, Pin>, rows: map<Id, Pin>) {
    (forall x :: x in rows <==> x in filed && !(c.persist && Follows(c, x))) &&
    forall x :: x in rows && x in filed ==> rows[x] == filed[x]
  }

  /**
   The connection may not leave its root for this: forced by a nameless caller nobody vouches for on a shared
   connection, or unforced while a declaration holds it.
   */
  ghost predicate Stuck(c: Conn, id: Id, authorised: bool, t: Target, trigger: Trigger, force: bool) {
    trigger == Live && c.pin.root != "" && t.root != c.pin.root &&
    if force then id == "" && !authorised && Shares(c, "") else c.pin.origin == SessionStart
  }

  /** Asked for the root it is at, the connection keeps its pin, and a declaration makes it one. */
  ghost predicate Confirmed(c: Conn, id: Id, origin: Origin, trigger: Trigger, c': Conn) {
    var pin := if origin == SessionStart then c.pin.(origin := origin) else c.pin;
    c' == c.(pin := pin, refused := c.refused - Naming(id), store := c'.store) &&
    c'.store == c.store.(
      connPin := if origin == SessionStart && c.persist then Some(pin) else c.store.connPin,
      agentPins := if origin == SessionStart then Attributed(c, id, pin, trigger) else c.store.agentPins)
  }

  /** A re-pin of the connection: refused or passed over where it is stuck, confirmed where it is, else a move. */
  ghost predicate ConnRepinned(c: Conn, fs: Fs, id: Id, authorised: bool, t: Target, origin: Origin, trigger: Trigger,
                               force: bool, c': Conn, out: Outcome) {
    if Stuck(c, id, authorised, t, trigger, force) then
      if force || origin == SessionStart then out == Failed && c' == c
      else out == ConnScope(t.root) && c' == c.(refused := c.refused - Naming(id))
    else
      out == ConnScope(t.root) &&
      if t.root == c.pin.root then Confirmed(c, id, origin, trigger, c') else MovedTo(c, id, PinAt(fs, t, origin), trigger, c')
  }

  lemma StuckOrNot(c: Conn, id: Id, authorised: bool, t: Target, trigger: Trigger, force: bool)
    ensures RefusesAnonymousForcedMove(c, id, authorised, t.root, trigger, force) || StickyPinHolds(c, t.root, trigger, force) <==>
      Stuck(c, id, authorised, t, trigger, force)
    ensures RefusesAnonymousForcedMove(c, id, authorised, t.root, trigger, force) ==> force
    ensures StickyPinHolds(c, t.root, trigger, force) ==> !force
  {
    RoutedSharded(c, "");
    Admission.SharedWithCounts(c.seen, "");
  }

  lemma FollowersDragged(c: Conn, c1: Conn, x: Id)
    requires c1.shards == c.shards
    ensures Dragged(c1, x, c.pin.root) <==> Follows(c, x)
  {
  }

  /** The move's own half: the pin and its row. */
  lemma MoveSets(c: Conn, fs: Fs, id: Id, authorised: bool, t: Target, origin: Origin, trigger: Trigger, force: bool)
      returns (c1: Conn)
    requires !Stuck(c, id, authorised, t, trigger, force) && t.root != c.pin.root
    ensures (c1, ConnMoved) == AttachOrRepin(c, fs, id, authorised, t, origin, trigger, force)
    ensures PinnedAt(c, PinAt(fs, t, origin), c1)
  {
    StuckOrNot(c, id, authorised, t, trigger, force);
    c1 := PersistConnPin(c.(pin := PinAt(fs, t, origin)), PinAt(fs, t, origin));
  }

  lemma MoveAttributes(c: Conn, c1: Conn, id: Id, pin: Pin, trigger: Trigger) returns (c2: Conn)
    requires PinnedAt(c, pin, c1) && pin.root != ""
    ensures c2 == AttributeConnectionPin(c1, id, pin.root, pin.origin, trigger)
    ensures c2 == c1.(store := c1.store.(agentPins := Attributed(c, id, pin, trigger)))
  {
    c2 := AttributeConnectionPin(c1, id, pin.root, pin.origin, trigger);
  }

  lemma FollowersSame(c: Conn, c2: Conn)
    requires c2.shards == c.shards
    ensures forall x :: Dragged(c2, x, c.pin.root) <==> Follows(c, x)
  {
    forall x ensures Dragged(c2, x, c.pin.root) <==> Follows(c, x) {
      FollowersDragged(c, c2, x);
    }
  }

  lemma ShardsDrag(c: Conn, c2: Conn)
    requires c2.shards == c.shards && c2.pin.root != "" && c2.pin.root != c.pin.root
    ensures ShardsFollow(c, c2.pin, FollowConnection(c2, c.pin.root).shards)
  {
    FollowersSame(c, c2);
    hide Dragged;
    hide Follows;
  }

  lemma DeclarationsDrag(c: Conn, c2: Conn, id: Id)
    requires c2.shards == c.shards && c2.refused == c.refused && c2.pin.root != "" && c2.pin.root != c.pin.root
    ensures DeclarationsFollow(c, id, c2.pin, ClearRefused(FollowConnection(c2, c.pin.root), id).refused)
  {
    FollowersSame(c, c2);
    hide Dragged;
    hide Follows;
  }

  lemma RowsDrag(c: Conn, c2: Conn)
    requires c2.shards == c.shards && c2.persist == c.persist && c2.pin.root != "" && c2.pin.root != c.pin.root
    ensures RowsFollow(c, c2.store.agentPins, FollowConnection(c2, c.pin.root).store.agentPins)
  {
    FollowersSame(c, c2);
    hide Dragged;
    hide Follows;
  }

  /** The other half: those who follow. */
  lemma MoveDrags(c: Conn, c2: Conn, id: Id, pin: Pin, trigger: Trigger) returns (c3: Conn)
    requires pin.root != "" && pin.root != c.pin.root
    requires PinnedAt(c, pin, c2.(store := c2.store.(agentPins := c.store.agentPins)))
    requires c2.store.agentPins == Attributed(c, id, pin, trigger)
    ensures c3 == ClearRefused(FollowConnection(c2, c.pin.root), id)
    ensures MovedTo(c, id, pin, trigger, c3)
  {
    assert c2 == c.(pin := pin, store := c2.store);
    ShardsDrag(c, c2);
    DeclarationsDrag(c, c2, id);
    RowsDrag(c, c2);
    hide ShardsFollow;
    hide DeclarationsFollow;
    hide RowsFollow;
    hide Attributed;
    c3 := ClearRefused(FollowConnection(c2, c.pin.root), id);
  }

  lemma ConnMoves(c: Conn, fs: Fs, id: Id, authorised: bool, t: Target, origin: Origin, trigger: Trigger, force: bool)
      returns (c3: Conn)
    requires !Stuck(c, id, authorised, t, trigger, force) && t.root != c.pin.root
    ensures (c3, ConnScope(t.root)) == RepinOnConnection(c, fs, id, authorised, t, origin, trigger, force)
    ensures MovedTo(c, id, PinAt(fs, t, origin), trigger, c3)
  {
    var c1 := MoveSets(c, fs, id, authorised, t, origin, trigger, force);
    var c2 := MoveAttributes(c, c1, id, PinAt(fs, t, origin), trigger);
    c3 := MoveDrags(c, c2, id, PinAt(fs, t, origin), trigger);
    hide AttachOrRepin;
    hide AttributeConnectionPin;
    hide FollowConnection;
    hide MovedTo;
    assert c3 == SettleConnection(c1, id, c.pin.root, t, origin, trigger, true);
  }

  lemma ConnConfirms(c: Conn, fs: Fs, id: Id, authorised: bool, t: Target, origin: Origin, trigger: Trigger, force: bool)
      returns (c1: Conn)
    requires t.root == c.pin.root
    ensures (c1, ConnScope(t.root)) == RepinOnConnection(c, fs, id, authorised, t, origin, trigger, force)
    ensures Confirmed(c, id, origin, trigger, c1)
  {
    c1 := RepinOnConnection(c, fs, id, authorised, t, origin, trigger, force).0;
    assert c.refused - {} == c.refused;
  }

  lemma ConnStays(c: Conn, fs: Fs, id: Id, authorised: bool, t: Target, origin: Origin, trigger: Trigger, force: bool)
    requires Stuck(c, id, authorised, t, trigger, force)
    ensures RepinOnConnection(c, fs, id, authorised, t, origin, trigger, force) ==
      if force || origin == SessionStart then (c, Failed)
      else (c.(refused := c.refused - Naming(id)), ConnScope(t.root))
  {
    StuckOrNot(c, id, authorised, t, trigger, force);
    assert c.refused - {} == c.refused;
  }

  /** A re-pin on the connection comes to exactly this. */
  lemma ConnRepins(c: Conn, fs: Fs, id: Id, authorised: bool, t: Target, origin: Origin, trigger: Trigger, force: bool)
    ensures var (c', out) := RepinOnConnection(c, fs, id, authorised, t, origin, trigger, force);
      ConnRepinned(c, fs, id, authorised, t, origin, trigger, force, c', out)
  {
    hide RepinOnConnection;
    if Stuck(c, id, authorised, t, trigger, force) {
      ConnStays(c, fs, id, authorised, t, origin, trigger, force);
    } else if t.root == c.pin.root {
      var c1 := ConnConfirms(c, fs, id, authorised, t, origin, trigger, force);
    } else {
      var c3 := ConnMoves(c, fs, id, authorised, t, origin, trigger, force);
    }
  }

  lemma MovedOnce(c: Conn, id: Id, pin: Pin, trigger: Trigger, c1: Conn, c2: Conn)
    requires MovedTo(c, id, pin, trigger, c1) && MovedTo(c, id, pin, trigger, c2)
    ensures c1 == c2
  {
    assert c1.shards == c2.shards && c1.refused == c2.refused && c1.store.agentPins == c2.store.agentPins;
  }

  lemma ConnRepinnedOnce(c: Conn, fs: Fs, id: Id, authorised: bool, t: Target, origin: Origin, trigger: Trigger,
                         force: bool, c1: Conn, out1: Outcome, c2: Conn, out2: Outcome)
    requires ConnRepinned(c, fs, id, authorised, t, origin, trigger, force, c1, out1)
    requires ConnRepinned(c, fs, id, authorised, t, origin, trigger, force, c2, out2)
    ensures c1 == c2 && out1 == out2
  {
    if !Stuck(c, id, authorised, t, trigger, force) && t.root != c.pin.root {
      MovedOnce(c, id, PinAt(fs, t, origin), trigger, c1, c2);
    }
  }

  // ---- any re-pin -----------------------------------------------------------------------------

  /** The folder leads this authority to t: an absolute folder below "/", and no undeclared wide root. */
  ghost predicate Leads(fs: Fs, folder: Path, origin: Origin, trigger: Trigger, t: Target) {
    |folder| > 1 && folder[0] == '/' && Finds(fs, folder, origin == SessionStart, t) &&
    (trigger == Restore ==> t.root == folder) && (fs.wide(t.root) ==> origin == SessionStart)
  }

  lemma TargetLeads(fs: Fs, folder: Path, origin: Origin, trigger: Trigger, t: Target)
    ensures RepinTarget(fs, folder, origin, trigger) == Some(t) <==> Leads(fs, folder, origin, trigger, t)
  {
    ResolveFinds(fs, folder, origin, t);
  }

  /**
   A re-pin fails without a trace if its folder leads nowhere. Otherwise it is a matter of the caller's own shard,
   built if need be, or of the connection if the caller has none.
   */
  ghost predicate RepinComesTo(c: Conn, fs: Fs, id: Id, authorised: bool, folder: Path, origin: Origin,
                               trigger: Trigger, force: bool, c': Conn, out: Outcome) {
    ((forall t :: !Leads(fs, folder, origin, trigger, t)) ==> c' == c && out == Failed) &&
    forall t :: Leads(fs, folder, origin, trigger, t) ==>
      if Sharded(c, id) then exists c1 :: Builds(c, fs, id, c1) && AgentRepinned(c1, id, t, origin, force, c', out)
      else ConnRepinned(c, fs, id, authorised, t, origin, trigger, force, c', out)
  }

  lemma BuiltRepins(c: Conn, fs: Fs, id: Id, t: Target, origin: Origin, force: bool)
    ensures var (c', out) := RepinOnAgent(c, fs, id, t, origin, force); var c1 := ShardOf(c, fs, id);
      Builds(c, fs, id, c1) && AgentRepinned(c1, id, t, origin, force, c', out)
  {
    var c1 := ShardOf(c, fs, id);
    ShardBuilt(c, fs, id, c1);
    AgentRepins(c1, fs, id, t, origin, force);
    hide RepinAgent;
    hide SeedShard;
    hide AgentRepinned;
    assert RepinOnAgent(c1, fs, id, t, origin, force) == RepinOnAgent(c, fs, id, t, origin, force);
  }

  lemma RepinsTo(c: Conn, fs: Fs, id: Id, authorised: bool, folder: Path, origin: Origin, trigger: Trigger, force: bool,
                 t: Target)
    requires Leads(fs, folder, origin, trigger, t)
    ensures RepinFrom(c, fs, id, authorised, folder, origin, trigger, force) ==
      if Sharded(c, id) then RepinOnAgent(c, fs, id, t, origin, force)
      else RepinOnConnection(c, fs, id, authorised, t, origin, trigger, force)
  {
    hide RepinOnAgent;
    hide RepinOnConnection;
    TargetLeads(fs, folder, origin, trigger, t);
    hide RepinTarget;
    RoutedSharded(c, id);
  }

  lemma LeadsNowhere(fs: Fs, folder: Path, origin: Origin, trigger: Trigger)
    requires forall t :: !Leads(fs, folder, origin, trigger, t)
    ensures RepinTarget(fs, folder, origin, trigger) == None
  {
    var target := RepinTarget(fs, folder, origin, trigger);
    if target.Some? {
      TargetLeads(fs, folder, origin, trigger, target.value);
    }
  }

  /** Every re-pin comes to exactly this. */
  lemma Repins(c: Conn, fs: Fs, id: Id, authorised: bool, folder: Path, origin: Origin, trigger: Trigger, force: bool)
    ensures var (c', out) := RepinFrom(c, fs, id, authorised, folder, origin, trigger, force);
      RepinComesTo(c, fs, id, authorised, folder, origin, trigger, force, c', out)
  {
    hide RepinOnAgent;
    hide RepinOnConnection;
    hide AgentRepinned;
    hide ConnRepinned;
    hide Builds;
    if t :| Leads(fs, folder, origin, trigger, t) {
      forall u | Leads(fs, folder, origin, trigger, u) ensures u == t {
      }
      hide Leads;
      RepinsTo(c, fs, id, authorised, folder, origin, trigger, force, t);
      hide RepinFrom;
      if Sharded(c, id) {
        BuiltRepins(c, fs, id, t, origin, force);
      } else {
        ConnRepins(c, fs, id, authorised, t, origin, trigger, force);
      }
    } else {
      LeadsNowhere(fs, folder, origin, trigger);
    }
  }

  lemma RepinDecided(c: Conn, fs: Fs, id: Id, authorised: bool, folder: Path, origin: Origin, trigger: Trigger,
                     force: bool, c': Conn, out: Outcome)
    ensures RepinComesTo(c, fs, id, authorised, folder, origin, trigger, force, c', out) <==>
      (c', out) == RepinFrom(c, fs, id, authorised, folder, origin, trigger, force)
  {
    var (c2, out2) := RepinFrom(c, fs, id, authorised, folder, origin, trigger, force);
    Repins(c, fs, id, authorised, folder, origin, trigger, force);
    hide RepinFrom;
    hide AgentRepinned;
    hide ConnRepinned;
    if RepinComesTo(c, fs, id, authorised, folder, origin, trigger, force, c', out) {
      if t :| Leads(fs, folder, origin, trigger, t) {
        if Sharded(c, id) {
          var c1 :| Builds(c, fs, id, c1) && AgentRepinned(c1, id, t, origin, force, c', out);
          var c3 :| Builds(c, fs, id, c3) && AgentRepinned(c3, id, t, origin, force, c2, out2);
          ShardBuilt(c, fs, id, c1);
          ShardBuilt(c, fs, id, c3);
          AgentRepinnedOnce(c1, id, t, origin, force, c', out, c2, out2);
        } else {
          ConnRepinnedOnce(c, fs, id, authorised, t, origin, trigger, force, c', out, c2, out2);
        }
      }
    }
  }

  /**
   A session_start for the whole connection: refused to a nameless caller on a shared one; otherwise the connection
   is re-pinned on nobody's behalf, and a named caller's refused declaration is settled before its call resolves.
   */
  ghost predicate ScopeComesTo(c: Conn, fs: Fs, id: Id, folder: Path, force: bool, c': Conn, out: Outcome) {
    if id == "" && Shares(c, "") then c' == c && out == Failed
    else
      exists c1 :: RepinComesTo(c, fs, "", true, folder, SessionStart, Live, force, c1, out) &&
        if out == Failed || id == "" then c' == c1 else Resolves(c1.(refused := c1.refused - {id}), fs, id, c')
  }

  lemma ScopeDecided(c: Conn, fs: Fs, id: Id, folder: Path, force: bool, c': Conn, out: Outcome)
    ensures ScopeComesTo(c, fs, id, folder, force, c', out) <==> (c', out) == RepinConnection(c, fs, id, folder, force)
  {
    Admission.SharedWithCounts(c.seen, "");
    var (c1, out1) := RepinFrom(c, fs, "", true, folder, SessionStart, Live, force);
    RepinDecided(c, fs, "", true, folder, SessionStart, Live, force, c1, out1);
    OrientResolves(c1.(refused := c1.refused - {id}), fs, id, c');
    hide RepinFrom;
    hide RepinComesTo;
    hide Resolves;
    hide Orient;
    if ScopeComesTo(c, fs, id, folder, force, c', out) && !(id == "" && Shares(c, "")) {
      var c2 :| RepinComesTo(c, fs, "", true, folder, SessionStart, Live, force, c2, out) &&
        if out == Failed || id == "" then c' == c2 else Resolves(c2.(refused := c2.refused - {id}), fs, id, c');
      RepinDecided(c, fs, "", true, folder, SessionStart, Live, force, c2, out);
    }
  }

  // ---- the client's folders -------------------------------------------------------------------

  /** Some folder the client reports still leads to the root the connection is at. */
  ghost predicate StillHome(c: Conn, fs: Fs, folders: seq<Path>) {
    exists folder, lang :: folder in folders && folder != "" && folder != "/" && c.pin.root != "" &&
      Finds(fs, folder, false, Target(c.pin.root, lang))
  }

  /**
   The client changed its folders. A connection that still has one of them as its home, or whose root was declared,
   stays as it is, whatever their order; another moves to where the first folder leads, if that is anywhere. One
   that was attached nowhere takes the first folder's project.
   */
  ghost predicate RootsComeTo(c: Conn, fs: Fs, folders: seq<Path>, c': Conn) {
    if folders == [] then c' == c
    else if c.pin.root == "" then
      var project := Project(fs, folders[0]);
      if May(fs, project, Roots) then PinnedAt(c, PinAt(fs, project.value, Roots), c') else c' == c
    else if StillHome(c, fs, folders) || c.pin.origin == SessionStart then c' == c
    else
      ((forall t :: !Leads(fs, folders[0], Roots, Live, t)) ==> c' == c) &&
      (forall t :: Leads(fs, folders[0], Roots, Live, t) ==> MovedTo(c, "", PinAt(fs, t, Roots), Live, c'))
  }

  lemma StillReportedHome(c: Conn, fs: Fs, folders: seq<Path>)
    requires c.pin.root != ""
    ensures StillReported(c, fs, folders) <==> StillHome(c, fs, folders)
  {
    if StillReported(c, fs, folders) {
      var i :| 0 <= i < |folders| && LeadsTo(fs, folders[i], c.pin.root);
      var lang := if fs.detect(folders[i]).Some? then fs.detect(folders[i]).value.lang else "";
      assert folders[i] in folders && Finds(fs, folders[i], false, Target(c.pin.root, lang));
    }
    if StillHome(c, fs, folders) {
      var folder, lang :| folder in folders && folder != "" && folder != "/" &&
        Finds(fs, folder, false, Target(c.pin.root, lang));
      var i :| 0 <= i < |folders| && folders[i] == folder;
      assert LeadsTo(fs, folders[i], c.pin.root);
    }
  }

  lemma LeadsHome(c: Conn, fs: Fs, folders: seq<Path>, t: Target)
    requires folders != [] && Leads(fs, folders[0], Roots, Live, t) && t.root == c.pin.root
    ensures StillHome(c, fs, folders)
  {
    assert folders[0] in folders && Finds(fs, folders[0], false, Target(c.pin.root, t.lang));
  }

  /** A folder change that takes a connection elsewhere. */
  lemma RootsMove(c: Conn, fs: Fs, folders: seq<Path>)
    requires folders != [] && c.pin.root != "" && !StillHome(c, fs, folders) && c.pin.origin != SessionStart
    ensures RootsComeTo(c, fs, folders, RootsChangedStep(c, fs, folders))
  {
    StillReportedHome(c, fs, folders);
    var c' := RepinFrom(c, fs, "", false, folders[0], Roots, Live, false).0;
    Repins(c, fs, "", false, folders[0], Roots, Live, false);
    hide RepinFrom;
    hide MovedTo;
    forall t | Leads(fs, folders[0], Roots, Live, t) ensures MovedTo(c, "", PinAt(fs, t, Roots), Live, c') {
      if t.root == c.pin.root {
        LeadsHome(c, fs, folders, t);
      }
    }
  }

  lemma RootsComeToThis(c: Conn, fs: Fs, folders: seq<Path>)
    ensures RootsComeTo(c, fs, folders, RootsChangedStep(c, fs, folders))
  {
    if folders != [] && c.pin.root == "" {
      Attaches(c, fs, DetectedFolder(fs, folders[0]), Roots, RootsChangedStep(c, fs, folders));
    } else if folders != [] && !StillHome(c, fs, folders) && c.pin.origin != SessionStart {
      RootsMove(c, fs, folders);
    } else if folders != [] {
      StillReportedHome(c, fs, folders);
    }
  }

  /** A folder change comes to exactly this. */
  lemma RootsDecided(c: Conn, fs: Fs, folders: seq<Path>, c': Conn)
    ensures RootsComeTo(c, fs, folders, c') <==> c' == RootsChangedStep(c, fs, folders)
  {
    RootsComeToThis(c, fs, folders);
    hide RootsChangedStep;
    var c2 := RootsChangedStep(c, fs, folders);
    if folders != [] && RootsComeTo(c, fs, folders, c') {
      if t :| Leads(fs, folders[0], Roots, Live, t) && MovedTo(c, "", PinAt(fs, t, Roots), Live, c') &&
              MovedTo(c, "", PinAt(fs, t, Roots), Live, c2) {
        MovedOnce(c, "", PinAt(fs, t, Roots), Live, c', c2);
      }
    }
  }
}
