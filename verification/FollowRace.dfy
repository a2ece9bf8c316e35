/**
 The connection's move and the follow that re-seeds its shards are critical sections of their own, and other
 agents run between them, and between the shards a follow visits. Here every one of those sections is a step:
 any number of follows may be pending, one at a time loops over the table, and shard creation, per-agent re-pins
 and parent follows interleave with all of it.
 */
module FollowRace {
  import opened Ids
  import opened ConnSpec
  import opened Options

  /** A follow that has read the connection's view but does not hold the table yet. */
  datatype Reader = Reader(prevRoot: Path, view: Pin)

  /** The follow has asked whether the shard's conversation chose, and is about to take the shard's own lock. */
  datatype Asked = Asked(id: Id, parentChose: bool)

  /** A follow in its loop: it holds the table, not the shards. */
  datatype Loop = Loop(reader: Reader, todo: set<Id>, asked: Option<Asked>)

  /** A shard being built: its seed is fixed, it is not in the table yet, and the table is locked. */
  datatype Build = Build(id: Id, shard: Shard)

  datatype Race = Race(
    conn: Conn,
    waiting: multiset<Path>,
    reading: multiset<Reader>,
    looping: Option<Loop>,
    building: Option<Build>)

  datatype Action =
    | LaneMove(caller: Id, authorised: bool, target: Target, origin: Origin, trigger: Trigger, force: bool)
    | ReadView(prevRoot: Path)
    | BeginFollow(reader: Reader)
    | AskParent(id: Id)
    | VisitShard
    | EndFollow
    | BeginShard(id: Id)
    | InsertShard
    | AgentMoves(id: Id, pin: Pin)
    | AgentConfirms(id: Id, root: Path, lang: Lang, origin: Origin)
    | CarryChild(id: Id, pin: Pin)

  predicate TableFree(s: Race) {
    s.looping == None && s.building == None
  }

  /** The view shows no move to follow, so the follow returns before it takes the table. */
  predicate Idle(reader: Reader) {
    reader.view.root == "" || reader.view.root == reader.prevRoot
  }

  predicate Enabled(s: Race, a: Action) {
    match a
    case LaneMove(_, _, _, _, _, _) => true
    case ReadView(prevRoot) => prevRoot in s.waiting
    case BeginFollow(reader) => reader in s.reading && (Idle(reader) || TableFree(s))
    case AskParent(id) => s.looping.Some? && s.looping.value.asked == None && id in s.looping.value.todo && id in s.conn.shards
    case VisitShard => s.looping.Some? && s.looping.value.asked.Some? && s.looping.value.asked.value.id in s.conn.shards
    case EndFollow => s.looping.Some? && s.looping.value.asked == None && s.looping.value.todo == {}
    case BeginShard(id) => TableFree(s) && id !in s.conn.shards
    case InsertShard => s.building.Some?
    case AgentMoves(id, _) => id in s.conn.shards
    case AgentConfirms(id, _, _, _) => id in s.conn.shards
    case CarryChild(id, _) => TableFree(s) && id in s.conn.shards && !Chose(s.conn.shards[id]) && ParentChose(s.conn.shards, id)
  }

  /** What the follow does to a shard it takes along. */
  function DragOne(c: Conn, id: Id, view: Pin): Conn
    requires id in c.shards
  {
    c.(shards := c.shards[id := c.shards[id].(pin := view)],
       refused := if id in c.refused && c.refused[id].requested == view.root then c.refused - {id} else c.refused,
       store := if c.persist then c.store.(agentPins := c.store.agentPins - {id}) else c.store)
  }

  /** The shard's own flags, under its own lock, beside the answer about its conversation. */
  predicate Takes(sh: Shard, parentChose: bool, prevRoot: Path) {
    !sh.selfPinned && !sh.restored && !sh.parentSeeded && !parentChose && sh.pin.root == prevRoot
  }

  function Visit(s: Race): Race
    requires Enabled(s, VisitShard)
  {
    var l := s.looping.value;
    var id := l.asked.value.id;
    s.(conn := if Takes(s.conn.shards[id], l.asked.value.parentChose, l.reader.prevRoot)
         then DragOne(s.conn, id, l.reader.view) else s.conn,
       looping := Some(Loop(l.reader, l.todo - {id}, None)))
  }

  function Act(s: Race, fs: Fs, a: Action): Race
    requires Enabled(s, a)
  {
    match a
    case LaneMove(caller, authorised, target, origin, trigger, force) =>
      var (c, moved) := AttachOrRepin(s.conn, fs, caller, authorised, target, origin, trigger, force);
      s.(conn := c, waiting := if moved == ConnMoved then s.waiting + multiset{s.conn.pin.root} else s.waiting)
    case ReadView(prevRoot) =>
      s.(waiting := s.waiting - multiset{prevRoot},
         reading := s.reading + multiset{Reader(prevRoot, s.conn.pin)})
    case BeginFollow(reader) =>
      s.(reading := s.reading - multiset{reader},
         looping := if Idle(reader) then s.looping else Some(Loop(reader, s.conn.shards.Keys, None)))
    case AskParent(id) =>
      s.(looping := Some(s.looping.value.(asked := Some(Asked(id, ParentChose(s.conn.shards, id))))))
    case VisitShard => Visit(s)
    case EndFollow => s.(looping := None)
    case BeginShard(id) => s.(building := Some(Build(id, SeedShard(s.conn, fs, id))))
    case InsertShard =>
      s.(conn := s.conn.(shards := s.conn.shards[s.building.value.id := s.building.value.shard]), building := None)
    case AgentMoves(id, pin) => s.(conn := MoveShard(s.conn, id, pin))
    case AgentConfirms(id, root, lang, origin) => s.(conn := ConfirmShardPin(s.conn, id, root, lang, origin))
    case CarryChild(id, pin) => s.(conn := s.conn.(shards := s.conn.shards[id := s.conn.shards[id].(pin := pin)]))
  }

  // ---- the invariant ----------------------------------------------------------------------------

  /** Some follow still to begin will look for shards at root. */
  predicate Awaited(s: Race, root: Path) {
    root in s.waiting || exists reader :: reader in s.reading && reader.prevRoot == root
  }

  predicate AtOrAwaited(s: Race, root: Path) {
    root == s.conn.pin.root || Awaited(s, root)
  }

  /** The follow in its loop has yet to come to this shard, and will take it along. */
  predicate InTheWay(s: Race, id: Id, root: Path) {
    s.looping.Some? && id in s.looping.value.todo && root == s.looping.value.reader.prevRoot
  }

  predicate Follower(s: Race, id: Id) {
    id in s.conn.shards && FollowsConnection(s.conn.shards, id)
  }

  /** Where the shard being built will land, if it is to follow the connection at all. */
  predicate BuildSound(s: Race) {
    s.building.Some? ==>
      var b := s.building.value;
      s.looping == None && b.id !in s.conn.shards &&
      (!Chose(b.shard) && !b.shard.parentSeeded && !ParentChose(s.conn.shards, b.id) ==> AtOrAwaited(s, b.shard.pin.root))
  }

  /** The loop's own bookkeeping; an answer about a conversation can only have come true since. */
  predicate LoopSound(s: Race) {
    s.looping.Some? ==>
      var l := s.looping.value;
      !Idle(l.reader) && l.todo <= s.conn.shards.Keys &&
      (l.asked.Some? ==> l.asked.value.id in l.todo) &&
      (l.asked.Some? && l.asked.value.parentChose ==> ParentChose(s.conn.shards, l.asked.value.id))
  }

  /** Every follower sits at the connection's root, or where a follow still to come will fetch it. */
  predicate Tracked(s: Race) {
    s.conn.pin.root != "" && (forall reader :: reader in s.reading ==> reader.view.root != "") &&
    (forall id :: id in s.conn.shards && Follower(s, id) ==>
       AtOrAwaited(s, s.conn.shards[id].pin.root) || InTheWay(s, id, s.conn.shards[id].pin.root)) &&
    BuildSound(s) && LoopSound(s)
  }

  // ---- each step --------------------------------------------------------------------------------

  /** Every follower of the new table already followed, from the same root. */
  predicate FollowersOnlyLeave(c: Conn, c': Conn) {
    c'.pin.root == c.pin.root && c'.shards.Keys == c.shards.Keys &&
    (forall id :: id in c.shards && Chose(c.shards[id]) ==> Chose(c'.shards[id])) &&
    (forall id :: id in c.shards && FollowsConnection(c'.shards, id) ==>
       FollowsConnection(c.shards, id) && c'.shards[id].pin.root == c.shards[id].pin.root)
  }

  lemma LeaversTracked(s: Race, s': Race)
    requires Tracked(s) && FollowersOnlyLeave(s.conn, s'.conn) && s' == s.(conn := s'.conn)
    ensures Tracked(s')
  {
    forall root ensures AtOrAwaited(s', root) == AtOrAwaited(s, root) {
    }
    forall id | Follower(s', id)
      ensures AtOrAwaited(s', s'.conn.shards[id].pin.root) || InTheWay(s', id, s'.conn.shards[id].pin.root)
    {
      assert Follower(s, id);
    }
  }

  lemma MoveOnlyLeaves(c: Conn, id: Id, pin: Pin)
    requires id in c.shards
    ensures FollowersOnlyLeave(c, MoveShard(c, id, pin))
  {
  }

  lemma ConfirmOnlyLeaves(c: Conn, id: Id, root: Path, lang: Lang, origin: Origin)
    requires id in c.shards
    ensures FollowersOnlyLeave(c, ConfirmShardPin(c, id, root, lang, origin))
  {
  }

  lemma CarryOnlyLeaves(c: Conn, id: Id, pin: Pin)
    requires id in c.shards && ParentChose(c.shards, id)
    ensures FollowersOnlyLeave(c, c.(shards := c.shards[id := c.shards[id].(pin := pin)]))
  {
  }

  lemma LaneMoveTracked(s: Race, fs: Fs, a: Action)
    requires Tracked(s) && a.LaneMove?
    ensures Tracked(Act(s, fs, a))
  {
    var s' := Act(s, fs, a);
    assert s'.conn.shards == s.conn.shards && s'.reading == s.reading && s'.looping == s.looping;
    assert s'.conn.pin.root == s.conn.pin.root || s.conn.pin.root in s'.waiting;
    forall root | AtOrAwaited(s, root) ensures AtOrAwaited(s', root) {
    }
    forall id | Follower(s', id)
      ensures AtOrAwaited(s', s'.conn.shards[id].pin.root) || InTheWay(s', id, s'.conn.shards[id].pin.root)
    {
      assert Follower(s, id);
    }
  }

  lemma ReadViewTracked(s: Race, fs: Fs, prevRoot: Path)
    requires Tracked(s) && prevRoot in s.waiting
    ensures Tracked(Act(s, fs, ReadView(prevRoot)))
  {
    var s' := Act(s, fs, ReadView(prevRoot));
    assert Reader(prevRoot, s.conn.pin) in s'.reading;
    forall root | AtOrAwaited(s, root) ensures AtOrAwaited(s', root) {
    }
    forall id | Follower(s', id)
      ensures AtOrAwaited(s', s'.conn.shards[id].pin.root) || InTheWay(s', id, s'.conn.shards[id].pin.root)
    {
      assert Follower(s, id);
    }
  }

  /** Taking the table, a follow has everybody it was awaited by in its way. */
  lemma BeginTracked(s: Race, fs: Fs, reader: Reader)
    requires Tracked(s) && Enabled(s, BeginFollow(reader)) && !Idle(reader)
    ensures Tracked(Act(s, fs, BeginFollow(reader)))
  {
    var s' := Act(s, fs, BeginFollow(reader));
    forall root | AtOrAwaited(s, root) && root != reader.prevRoot ensures AtOrAwaited(s', root) {
    }
    forall id | Follower(s', id)
      ensures AtOrAwaited(s', s'.conn.shards[id].pin.root) || InTheWay(s', id, s'.conn.shards[id].pin.root)
    {
      assert Follower(s, id);
    }
  }

  lemma AskTracked(s: Race, fs: Fs, id: Id)
    requires Tracked(s) && Enabled(s, AskParent(id))
    ensures Tracked(Act(s, fs, AskParent(id)))
  {
    var s' := Act(s, fs, AskParent(id));
    forall root ensures AtOrAwaited(s', root) == AtOrAwaited(s, root) {
    }
    forall x | Follower(s', x)
      ensures AtOrAwaited(s', s'.conn.shards[x].pin.root) || InTheWay(s', x, s'.conn.shards[x].pin.root)
    {
      assert Follower(s, x);
    }
  }

  lemma EndTracked(s: Race, fs: Fs)
    requires Tracked(s) && Enabled(s, EndFollow)
    ensures Tracked(Act(s, fs, EndFollow))
  {
    var s' := Act(s, fs, EndFollow);
    forall root ensures AtOrAwaited(s', root) == AtOrAwaited(s, root) {
    }
    forall x | Follower(s', x) ensures AtOrAwaited(s', s'.conn.shards[x].pin.root) {
      assert Follower(s, x);
    }
  }

  lemma BeginShardTracked(s: Race, fs: Fs, id: Id)
    requires Tracked(s) && Enabled(s, BeginShard(id))
    ensures Tracked(Act(s, fs, BeginShard(id)))
  {
    var s' := Act(s, fs, BeginShard(id));
    forall root ensures AtOrAwaited(s', root) == AtOrAwaited(s, root) {
    }
    forall x | Follower(s', x) ensures AtOrAwaited(s', s'.conn.shards[x].pin.root) {
      assert Follower(s, x);
    }
  }

  lemma InsertShardTracked(s: Race, fs: Fs)
    requires Tracked(s) && s.building.Some?
    ensures Tracked(Act(s, fs, InsertShard))
  {
    var s' := Act(s, fs, InsertShard);
    var b := s.building.value;
    forall root ensures AtOrAwaited(s', root) == AtOrAwaited(s, root) {
    }
    forall x | Follower(s', x) ensures AtOrAwaited(s', s'.conn.shards[x].pin.root) {
      if x != b.id {
        assert Follower(s, x);
      }
    }
  }
  // ---- the two steps that need the view to be timely --------------------------------------------

  /** A follow that finds no move forgets where it was to look; nobody may be left there. */
  predicate MissesNobody(s: Race, reader: Reader) {
    AtOrAwaited(s.(reading := s.reading - multiset{reader}), reader.prevRoot) ||
    (!BuildsFollowerAt(s, reader.prevRoot) &&
     forall id :: id in s.conn.shards && Follower(s, id) && s.conn.shards[id].pin.root == reader.prevRoot ==>
       InTheWay(s, id, reader.prevRoot))
  }

  /** The shard being built will be a follower, and sits at root. */
  predicate BuildsFollowerAt(s: Race, root: Path) {
    s.building.Some? &&
    var b := s.building.value;
    !Chose(b.shard) && !b.shard.parentSeeded && !ParentChose(s.conn.shards, b.id) && b.shard.pin.root == root
  }

  /** The view the loop works from is where the connection is, or where another follow will look. */
  predicate TimelyView(s: Race)
    requires s.looping.Some?
  {
    AtOrAwaited(s, s.looping.value.reader.view.root)
  }

  /** The visit takes a follower along. */
  predicate FetchesFollower(s: Race)
    requires Enabled(s, VisitShard)
  {
    var l := s.looping.value;
    var id := l.asked.value.id;
    Takes(s.conn.shards[id], l.asked.value.parentChose, l.reader.prevRoot) && Follower(s, id)
  }

  /** The actions after which every follower is still tracked. */
  predicate KeepsTrack(s: Race, a: Action)
    requires Enabled(s, a)
  {
    match a
    case VisitShard => FetchesFollower(s) ==> TimelyView(s)
    case BeginFollow(reader) => Idle(reader) ==> MissesNobody(s, reader)
    case _ => true
  }

  lemma IdleTracked(s: Race, fs: Fs, reader: Reader)
    requires Tracked(s) && Enabled(s, BeginFollow(reader)) && Idle(reader)
    ensures Tracked(Act(s, fs, BeginFollow(reader))) <==> MissesNobody(s, reader)
  {
    var s' := Act(s, fs, BeginFollow(reader));
    forall root ensures AtOrAwaited(s', root) == AtOrAwaited(s.(reading := s.reading - multiset{reader}), root) {
    }
    forall root | AtOrAwaited(s, root) && root != reader.prevRoot ensures AtOrAwaited(s', root) {
    }
    forall id ensures Follower(s', id) == Follower(s, id) {
    }
    if MissesNobody(s, reader) {
      forall id | Follower(s', id)
        ensures AtOrAwaited(s', s'.conn.shards[id].pin.root) || InTheWay(s', id, s'.conn.shards[id].pin.root)
      {
        assert Follower(s, id);
      }
      assert BuildSound(s');
    }
  }

  lemma VisitShape(s: Race)
    requires Enabled(s, VisitShard)
    ensures var s' := Visit(s); var l := s.looping.value; var id := l.asked.value.id;
      s'.conn.shards.Keys == s.conn.shards.Keys && s'.conn.pin == s.conn.pin &&
      (forall x :: x in s.conn.shards && x != id ==> s'.conn.shards[x] == s.conn.shards[x]) &&
      s'.conn.shards[id] ==
        (if Takes(s.conn.shards[id], l.asked.value.parentChose, l.reader.prevRoot)
         then s.conn.shards[id].(pin := l.reader.view) else s.conn.shards[id]) &&
      (forall x :: x in s.conn.shards ==> FollowsConnection(s'.conn.shards, x) == FollowsConnection(s.conn.shards, x))
  {
  }

  /** One visit of the loop keeps every follower tracked exactly when it fetches none, or its view is timely. */
  lemma VisitTracked(s: Race, fs: Fs)
    requires Tracked(s) && Enabled(s, VisitShard)
    ensures Tracked(Act(s, fs, VisitShard)) <==> KeepsTrack(s, VisitShard)
  {
    var s' := Visit(s);
    var id := s.looping.value.asked.value.id;
    VisitShape(s);
    forall root ensures AtOrAwaited(s', root) == AtOrAwaited(s, root) {
    }
    if KeepsTrack(s, VisitShard) {
      forall x | Follower(s', x)
        ensures AtOrAwaited(s', s'.conn.shards[x].pin.root) || InTheWay(s', x, s'.conn.shards[x].pin.root)
      {
        assert Follower(s, x);
      }
    } else {
      assert Follower(s', id) && !InTheWay(s', id, s'.conn.shards[id].pin.root);
    }
  }

  /** Every action keeps the followers tracked, but for a follow that works from a view no longer timely. */
  lemma ActTracked(s: Race, fs: Fs, a: Action)
    requires Tracked(s) && Enabled(s, a)
    ensures Tracked(Act(s, fs, a)) <==> KeepsTrack(s, a)
  {
    match a
    case LaneMove(_, _, _, _, _, _) => LaneMoveTracked(s, fs, a);
    case ReadView(prevRoot) => ReadViewTracked(s, fs, prevRoot);
    case BeginFollow(reader) =>
      if Idle(reader) {
        IdleTracked(s, fs, reader);
      } else {
        BeginTracked(s, fs, reader);
      }
    case AskParent(id) => AskTracked(s, fs, id);
    case VisitShard => VisitTracked(s, fs);
    case EndFollow => EndTracked(s, fs);
    case BeginShard(id) => BeginShardTracked(s, fs, id);
    case InsertShard => InsertShardTracked(s, fs);
    case AgentMoves(id, pin) =>
      MoveOnlyLeaves(s.conn, id, pin);
      LeaversTracked(s, Act(s, fs, a));
    case AgentConfirms(id, root, lang, origin) =>
      ConfirmOnlyLeaves(s.conn, id, root, lang, origin);
      LeaversTracked(s, Act(s, fs, a));
    case CarryChild(id, pin) =>
      CarryOnlyLeaves(s.conn, id, pin);
      LeaversTracked(s, Act(s, fs, a));
  }
  // ---- interleavings ----------------------------------------------------------------------------

  /** The state after an interleaving, or None when some action of it could not run. */
  function Play(s: Race, fs: Fs, trace: seq<Action>): Option<Race>
    decreases |trace|
  {
    if trace == [] then Some(s)
    else if !Enabled(s, trace[0]) then None
    else Play(Act(s, fs, trace[0]), fs, trace[1..])
  }

  /** Every follow of the interleaving works from a view still timely, wherever it matters. */
  predicate TimelyTrace(s: Race, fs: Fs, trace: seq<Action>)
    decreases |trace|
  {
    trace != [] && Enabled(s, trace[0]) ==> KeepsTrack(s, trace[0]) && TimelyTrace(Act(s, fs, trace[0]), fs, trace[1..])
  }

  lemma {:induction false} TraceTracked(s: Race, fs: Fs, trace: seq<Action>)
    requires Tracked(s) && TimelyTrace(s, fs, trace) && Play(s, fs, trace).Some?
    ensures Tracked(Play(s, fs, trace).value)
    decreases |trace|
  {
    if trace == [] {
    } else {
      ActTracked(s, fs, trace[0]);
      TraceTracked(Act(s, fs, trace[0]), fs, trace[1..]);
    }
  }

  predicate Quiescent(s: Race) {
    s.waiting == multiset{} && s.reading == multiset{} && TableFree(s)
  }

  predicate FollowersAtHome(s: Race) {
    forall id :: id in s.conn.shards && FollowsConnection(s.conn.shards, id) ==>
      s.conn.shards[id].pin.root == s.conn.pin.root
  }

  /**
   Follow convergence: from a quiescent attached connection whose followers are at home, every interleaving
   whose follows work from timely views leaves the followers at home once it is quiescent again.
   */
  lemma FollowersConverge(s: Race, fs: Fs, trace: seq<Action>)
    requires s.conn.pin.root != "" && Quiescent(s) && FollowersAtHome(s)
    requires TimelyTrace(s, fs, trace) && Play(s, fs, trace).Some? && Quiescent(Play(s, fs, trace).value)
    ensures FollowersAtHome(Play(s, fs, trace).value)
  {
    assert Tracked(s);
    TraceTracked(s, fs, trace);
    var end := Play(s, fs, trace).value;
    forall id | id in end.conn.shards && FollowsConnection(end.conn.shards, id)
      ensures end.conn.shards[id].pin.root == end.conn.pin.root
    {
      assert Follower(end, id);
    }
  }

  // ---- follows that are not overtaken -----------------------------------------------------------

  /** No move of the connection lands between a follow's read of the view and the end of its loop. */
  predicate PromptTrace(s: Race, fs: Fs, trace: seq<Action>)
    decreases |trace|
  {
    trace != [] && Enabled(s, trace[0]) ==>
      (trace[0].LaneMove? ==> s.reading == multiset{} && s.looping == None) &&
      PromptTrace(Act(s, fs, trace[0]), fs, trace[1..])
  }

  /** Every view read is the connection's present pin. */
  predicate Current(s: Race) {
    s.conn.pin.root != "" && (forall reader :: reader in s.reading ==> reader.view == s.conn.pin) &&
    (s.looping.Some? ==> s.looping.value.reader.view == s.conn.pin)
  }

  lemma CurrentKeepsTrack(s: Race, a: Action)
    requires Current(s) && Enabled(s, a)
    ensures KeepsTrack(s, a)
  {
  }

  /** Only the lane moves the connection's pin. */
  lemma PinStays(s: Race, fs: Fs, a: Action)
    requires Enabled(s, a) && !a.LaneMove?
    ensures Act(s, fs, a).conn.pin == s.conn.pin
  {
  }

  lemma CurrentStays(s: Race, fs: Fs, a: Action)
    requires Current(s) && Enabled(s, a) && (a.LaneMove? ==> s.reading == multiset{} && s.looping == None)
    ensures Current(Act(s, fs, a))
  {
    if a.LaneMove? {
      LaneStays(s, fs, a);
    } else {
      PinStays(s, fs, a);
    }
  }

  lemma LaneStays(s: Race, fs: Fs, a: Action)
    requires Current(s) && a.LaneMove? && s.reading == multiset{} && s.looping == None
    ensures Current(Act(s, fs, a))
  {
  }

  /** Such an interleaving is timely throughout: its follows never need to care what else runs beside them. */
  lemma {:induction false} PromptIsTimely(s: Race, fs: Fs, trace: seq<Action>)
    requires Current(s) && PromptTrace(s, fs, trace)
    ensures TimelyTrace(s, fs, trace)
    decreases |trace|
  {
    if trace != [] && Enabled(s, trace[0]) {
      CurrentKeepsTrack(s, trace[0]);
      CurrentStays(s, fs, trace[0]);
      PromptIsTimely(Act(s, fs, trace[0]), fs, trace[1..]);
    }
  }

  // ---- a loop nobody interrupts -----------------------------------------------------------------

  /** The follow's work on the shards in done, on the view it read; the connection keeps the pin it has by now. */
  function Done(c: Conn, reader: Reader, done: set<Id>): Conn {
    c.(shards := map id | id in c.shards ::
         if id in done && Dragged(c, id, reader.prevRoot) then c.shards[id].(pin := reader.view) else c.shards[id],
       refused := map id | id in c.refused &&
         !(id in done && Dragged(c, id, reader.prevRoot) && c.refused[id].requested == reader.view.root) :: c.refused[id],
       store := if c.persist
         then c.store.(agentPins := map id | id in c.store.agentPins && !(id in done && Dragged(c, id, reader.prevRoot)) ::
                         c.store.agentPins[id])
         else c.store)
  }

  lemma DoneShards(c: Conn, reader: Reader, done: set<Id>, id: Id)
    requires id in c.shards && id !in done
    ensures Done(c, reader, done).shards[id] == c.shards[id]
    ensures ParentChose(Done(c, reader, done).shards, id) == ParentChose(c.shards, id)
  {
  }

  lemma DoneMoreShards(c: Conn, reader: Reader, done: set<Id>, id: Id)
    requires id in c.shards && id !in done
    ensures Done(c, reader, done + {id}).shards ==
      if Dragged(c, id, reader.prevRoot) then Done(c, reader, done).shards[id := c.shards[id].(pin := reader.view)]
      else Done(c, reader, done).shards
  {
  }

  lemma DoneMoreMarkers(c: Conn, reader: Reader, done: set<Id>, id: Id)
    requires id in c.shards && id !in done
    ensures Done(c, reader, done + {id}).refused ==
      var refused := Done(c, reader, done).refused;
      if Dragged(c, id, reader.prevRoot) && id in refused && refused[id].requested == reader.view.root
      then refused - {id} else refused
  {
  }

  lemma DoneMoreRows(c: Conn, reader: Reader, done: set<Id>, id: Id)
    requires id in c.shards && id !in done
    ensures Done(c, reader, done + {id}).store ==
      var store := Done(c, reader, done).store;
      if Dragged(c, id, reader.prevRoot) && c.persist then store.(agentPins := store.agentPins - {id}) else store
  {
    if c.persist {
      var store := Done(c, reader, done).store;
      assert Done(c, reader, done + {id}).store.agentPins ==
        if Dragged(c, id, reader.prevRoot) then store.agentPins - {id} else store.agentPins;
    }
  }

  /** One more shard, visited as the loop visits it. */
  lemma DoneMore(c: Conn, reader: Reader, done: set<Id>, id: Id)
    requires id in c.shards && id !in done
    ensures var d := Done(c, reader, done);
      Done(c, reader, done + {id}) ==
        if Takes(d.shards[id], ParentChose(d.shards, id), reader.prevRoot) then DragOne(d, id, reader.view) else d
  {
    DoneShards(c, reader, done, id);
    DoneMoreShards(c, reader, done, id);
    DoneMoreMarkers(c, reader, done, id);
    DoneMoreRows(c, reader, done, id);
  }

  lemma DoneAll(c: Conn, reader: Reader)
    requires !Idle(reader)
    ensures Done(c, reader, c.shards.Keys) == FollowConnection(c.(pin := reader.view), reader.prevRoot).(pin := c.pin)
  {
  }

  lemma DoneNone(c: Conn, reader: Reader)
    ensures Done(c, reader, {}) == c
  {
  }
  /** Two actions in a row, both enabled. */
  predicate Pair(s: Race, fs: Fs, a: Action, b: Action, s': Race) {
    Enabled(s, a) && Enabled(Act(s, fs, a), b) && s' == Act(Act(s, fs, a), fs, b)
  }

  lemma PlayPair(s: Race, s': Race, fs: Fs, a: Action, b: Action, rest: seq<Action>)
    requires Pair(s, fs, a, b, s')
    ensures Play(s, fs, [a, b] + rest) == Play(s', fs, rest)
  {
  }

  lemma {:induction false} PlayAppend(s: Race, fs: Fs, trace: seq<Action>, rest: seq<Action>)
    requires Play(s, fs, trace).Some?
    ensures Play(s, fs, trace + rest) == Play(Play(s, fs, trace).value, fs, rest)
    decreases |trace|
  {
    if trace == [] {
      assert trace + rest == rest;
    } else {
      assert (trace + rest)[1..] == trace[1..] + rest;
      PlayAppend(Act(s, fs, trace[0]), fs, trace[1..], rest);
    }
  }

  /** The loop over what is left of the table, nobody interrupting. */
  lemma {:induction false} LoopRest(s: Race, fs: Fs, c: Conn, reader: Reader, todo: set<Id>) returns (trace: seq<Action>)
    requires s.looping == Some(Loop(reader, todo, None)) && todo <= c.shards.Keys
    requires s.conn == Done(c, reader, c.shards.Keys - todo)
    ensures Play(s, fs, trace) == Some(s.(conn := Done(c, reader, c.shards.Keys), looping := None))
    decreases todo
  {
    if todo == {} {
      trace := [EndFollow];
      assert c.shards.Keys - todo == c.shards.Keys;
      assert trace[1..] == [];
    } else {
      var id :| id in todo;
      var s1 := s.(conn := Done(c, reader, c.shards.Keys - (todo - {id})), looping := Some(Loop(reader, todo - {id}, None)));
      DoneMore(c, reader, c.shards.Keys - todo, id);
      assert c.shards.Keys - todo + {id} == c.shards.Keys - (todo - {id});
      var rest := LoopRest(s1, fs, c, reader, todo - {id});
      trace := [AskParent(id), VisitShard] + rest;
      assert Pair(s, fs, AskParent(id), VisitShard, s1);
      PlayPair(s, s1, fs, AskParent(id), VisitShard, rest);
    }
  }

  /** A follow that nobody interrupts does to the table, in any order, what the one-step follow does. */
  lemma LoopIsFollow(s: Race, fs: Fs, reader: Reader) returns (trace: seq<Action>)
    requires reader in s.reading && TableFree(s) && !Idle(reader)
    ensures var c := FollowConnection(s.conn.(pin := reader.view), reader.prevRoot).(pin := s.conn.pin);
      Play(s, fs, trace) == Some(s.(conn := c, reading := s.reading - multiset{reader}))
  {
    var s1 := Act(s, fs, BeginFollow(reader));
    DoneNone(s.conn, reader);
    assert s.conn.shards.Keys - s.conn.shards.Keys == {};
    var rest := LoopRest(s1, fs, s.conn, reader, s.conn.shards.Keys);
    DoneAll(s.conn, reader);
    trace := [BeginFollow(reader)] + rest;
    assert trace[1..] == rest;
  }

  // ---- follows that are overtaken ---------------------------------------------------------------

  /** Nothing is pending, and a follower sits at root. */
  predicate Stranded(s: Race, id: Id, root: Path) {
    Quiescent(s) && Follower(s, id) && s.conn.shards[id].pin.root == root
  }

  /** A forced move of the connection, and the follow of it reading the view it left. */
  lemma MoveAndRead(s: Race, fs: Fs, t: Target) returns (s': Race)
    requires s.conn.pin.root != "" && t.root != s.conn.pin.root && s.waiting == multiset{}
    ensures Pair(s, fs, LaneMove("", true, t, SessionStart, Live, true), ReadView(s.conn.pin.root), s')
    ensures s'.conn.pin == Pin(t.root, fs.acquire(t.root, t.lang), SessionStart) && s'.conn.shards == s.conn.shards
    ensures s'.waiting == multiset{} && s'.building == s.building && s'.looping == s.looping
    ensures s'.reading == s.reading + multiset{Reader(s.conn.pin.root, s'.conn.pin)}
  {
    var s1 := Act(s, fs, LaneMove("", true, t, SessionStart, Live, true));
    assert s1.waiting == multiset{s.conn.pin.root};
    s' := Act(s1, fs, ReadView(s.conn.pin.root));
  }

  /** What a whole follow does to one follower. */
  lemma FollowOne(c: Conn, reader: Reader, id: Id)
    requires id in c.shards && FollowsConnection(c.shards, id) && !Idle(reader)
    ensures var c' := FollowConnection(c.(pin := reader.view), reader.prevRoot).(pin := c.pin);
      id in c'.shards && FollowsConnection(c'.shards, id) &&
      c'.shards[id].pin.root == if c.shards[id].pin.root == reader.prevRoot then reader.view.root else c.shards[id].pin.root
  {
  }

  /** The two follows loop in the opposite order from the one they read their views in. */
  lemma LoopsReversed(s: Race, fs: Fs, id: Id, early: Reader, late: Reader) returns (trace: seq<Action>, end: Race)
    requires s.waiting == multiset{} && TableFree(s) && s.reading == multiset{early} + multiset{late} && early != late
    requires !Idle(early) && !Idle(late) && late.prevRoot == early.view.root
    requires Follower(s, id) && s.conn.shards[id].pin.root == early.prevRoot
    ensures Play(s, fs, trace) == Some(end) && Stranded(end, id, early.view.root) && end.conn.pin == s.conn.pin
  {
    var first := LoopIsFollow(s, fs, late);
    FollowOne(s.conn, late, id);
    var s1 := Play(s, fs, first).value;
    assert s1.reading == multiset{early};
    var second := LoopIsFollow(s1, fs, early);
    FollowOne(s1.conn, early, id);
    end := Play(s1, fs, second).value;
    assert s1.reading - multiset{early} == multiset{};
    PlayAppend(s, fs, first, second);
    trace := first + second;
  }

  /**
   The condition on views is not an artefact: from any quiescent state, two moves whose follows loop in the
   opposite order strand any follower of the connection at the first of the two roots.
   */
  lemma LateFollowStrands(s: Race, fs: Fs, id: Id, first: Target, second: Target) returns (trace: seq<Action>, end: Race)
    requires s.conn.pin.root != "" && Quiescent(s) && FollowersAtHome(s) && Follower(s, id)
    requires first.root != s.conn.pin.root && second.root != first.root && second.root != s.conn.pin.root
    ensures Play(s, fs, trace) == Some(end) && Stranded(end, id, first.root) && end.conn.pin.root == second.root
  {
    var home := s.conn.pin.root;
    var s2 := MoveAndRead(s, fs, first);
    assert s2.reading == multiset{Reader(home, s2.conn.pin)};
    var s4 := MoveAndRead(s2, fs, second);
    var loops: seq<Action>;
    loops, end := LoopsReversed(s4, fs, id, Reader(home, s2.conn.pin), Reader(first.root, s4.conn.pin));
    var secondMove := [LaneMove("", true, second, SessionStart, Live, true), ReadView(first.root)];
    PlayPair(s2, s4, fs, secondMove[0], secondMove[1], loops);
    PlayPair(s, s2, fs, LaneMove("", true, first, SessionStart, Live, true), ReadView(home), secondMove + loops);
    trace := [LaneMove("", true, first, SessionStart, Live, true), ReadView(home)] + (secondMove + loops);
  }
}
