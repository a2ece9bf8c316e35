/**
 The shared connection as a state machine on values: one connection's pin, the per-agent shards
 multiplexed over it, the identities it has seen, and what survives a daemon restart.

 Every function here is one critical section of the daemon, with the branches in the order the daemon
 takes them. ConnSession.dfy updates the same state in place and is proved against these functions;
 the run-level theorems are proved about them in Ownership, Decisions, Shelter, NonInterference, RootLeak,
 Durable, Containment and Admission, and stated of the object in SessionRuns.
 */
module ConnSpec {
  import opened Ids
  import opened Options

  type Lang = string

  /** Who set a pin. Only SessionStart is sticky; Unknown is an incidental attach and is never persisted. */
  datatype Origin = Unknown | Roots | SessionStart

  /** A live request, or the replay of an earlier pin after a daemon restart. */
  datatype Trigger = Live | Restore

  datatype Pin = Pin(root: Path, lang: Lang, origin: Origin)

  /** A resolved workspace root is never empty. */
  type Root = r: Path | r != "" witness "/"

  datatype Target = Target(root: Root, lang: Lang)

  /** One logical agent's copy of the workspace facts. */
  datatype Shard = Shard(pin: Pin, selfPinned: bool, restored: bool, parentSeeded: bool)

  /** An agent's refused declaration: what it asked for and where its shard still sits. */
  datatype Refusal = Refusal(requested: Path, sittingOn: Path)

  /** The durable rows filed under the connection's proxy session. */
  datatype Store = Store(connPin: Option<Pin>, agentPins: map<Id, Pin>, declared: set<Id>, linkage: Id)

  datatype Conn = Conn(
    pin: Pin,
    shards: map<Id, Shard>,
    refused: map<Id, Refusal>,
    seen: set<Id>,
    declared: set<Id>,
    priorShared: bool,
    linked: Id,
    persist: bool,
    hint: Path,
    store: Store)

  /** The filesystem and language questions the daemon asks; nothing about the answers is decided here. */
  datatype Fs = Fs(
    isDir: Path -> bool,
    detect: Path -> Option<Target>,
    synthesise: (Path, bool) -> Path,
    wide: Path -> bool,
    acquire: (Path, Lang) -> Lang,
    seedRoot: (Path, bool) -> Option<Target>)

  const NoPin := Pin("", "", Unknown)

  // ---- resolving a folder -------------------------------------------------------------------

  predicate NamesNoFolder(folder: Path) {
    folder == "" || folder == "/"
  }

  predicate IsAbs(folder: Path) {
    folder != "" && folder[0] == '/'
  }

  /** The workspace a folder names: the detected project, else the folder itself as a synthetic root. */
  function Resolve(fs: Fs, folder: Path, origin: Origin): Option<Target> {
    match fs.detect(folder)
    case Some(t) => Some(t)
    case None =>
      var root := fs.synthesise(folder, origin == SessionStart);
      if root == "" then None else Some(Target(root, ""))
  }

  /** A stored root still resolves to exactly itself. */
  predicate RestoreRootIntact(fs: Fs, root: Path) {
    fs.isDir(root) &&
    match fs.detect(root)
    case Some(t) => t.root == root
    case None => fs.synthesise(root, true) == root && root != ""
  }

  /** A root that is or contains a home directory needs a declaration. */
  predicate UndeclaredWideRoot(fs: Fs, root: Path, origin: Origin) {
    origin != SessionStart && fs.wide(root)
  }

  // ---- identities ---------------------------------------------------------------------------

  /** Shared once the caller of this request is counted. */
  predicate SharedWith(seen: set<Id>, id: Id) {
    if |seen| > 1 then true
    else if id == "" then false
    else if id in seen then false
    else |seen| == 1
  }

  predicate OneConversation(seen: set<Id>, linkage: Id) {
    forall id :: id in seen ==> LinkageOf(id) == linkage
  }

  predicate SoleConversationIs(seen: set<Id>, linkage: Id) {
    linkage != "" && |seen| > 0 && OneConversation(seen, linkage)
  }

  datatype RefusalKind = NotRefused | RefusedAnonymous | RefusedUndeclared

  /** The fail-closed ceiling in front of a state-changing call. */
  function RefusalOf(c: Conn, callId: Id): RefusalKind {
    if !SharedWith(c.seen, callId) then NotRefused
    else if callId == "" then RefusedAnonymous
    else if LinkageOf(callId) in c.declared then NotRefused
    else if OneConversation(c.seen, LinkageOf(callId)) then NotRefused
    else RefusedUndeclared
  }

  function RecordAgent(c: Conn, id: Id): Conn {
    if id == "" then c else c.(seen := c.seen + {id})
  }

  function Declare(c: Conn, id: Id): Conn {
    var linkage := LinkageOf(id);
    if linkage == "" then c
    else c.(declared := c.declared + {linkage},
            store := if c.persist then c.store.(declared := c.store.declared + {linkage}) else c.store)
  }

  function RecordAttach(c: Conn, id: Id): Conn {
    RecordAgent(Declare(c, id), id)
  }

  function RelinkTo(c: Conn, externalId: Id): Conn {
    var linkage := LinkageOf(externalId);
    var c1 := RecordAttach(c.(linked := linkage), externalId);
    if c1.persist then c1.(store := c1.store.(linkage := linkage)) else c1
  }

  predicate KeepsLinkageFor(c: Conn, stamp: Id, linkage: Id) {
    linkage != "" && stamp != "" && c.linked != "" && c.linked != linkage
  }

  /** session_start's external-ID linker. */
  function LinkExternal(c: Conn, stamp: Id, externalId: Id): Conn {
    if KeepsLinkageFor(c, stamp, LinkageOf(externalId)) then RecordAttach(c, externalId)
    else RelinkTo(c, externalId)
  }

  /** Whether a call stamped `stamp`, with a live /clear marker or none, takes the connection over. */
  predicate HandsOver(c: Conn, stamp: Id, marker: bool) {
    stamp != "" && '/' !in stamp && marker && stamp !in c.seen && SoleConversationIs(c.seen, c.linked)
  }

  /** What runs in front of every admitted call. */
  function BeforeTool(c: Conn, stamp: Id, marker: bool): Conn {
    RecordAgent(if HandsOver(c, stamp, marker) then RelinkTo(c, stamp) else c, stamp)
  }

  // ---- durable rows -------------------------------------------------------------------------

  function PersistConnPin(c: Conn, pin: Pin): Conn {
    if pin.origin == Unknown || !c.persist || pin.root == "" then c
    else c.(store := c.store.(connPin := Some(pin)))
  }

  function PersistAgentPin(c: Conn, id: Id, pin: Pin): Conn {
    if id == "" || pin.origin == Unknown || !c.persist || pin.root == "" then c
    else c.(store := c.store.(agentPins := c.store.agentPins[id := pin]))
  }

  function LoadConnPin(c: Conn): Option<Pin> {
    if c.persist && c.store.connPin.Some? && c.store.connPin.value.root != "" then c.store.connPin else None
  }

  /** A row whose origin is Roots was written for a shard that was merely dragged, and is skipped. */
  function LoadAgentPin(c: Conn, id: Id): Option<Pin> {
    if c.persist && id in c.store.agentPins &&
       c.store.agentPins[id].root != "" && c.store.agentPins[id].origin != Roots
    then Some(c.store.agentPins[id]) else None
  }

  /** The row an agent would be restored from. */
  function Restorable(c: Conn, fs: Fs, id: Id): Option<Pin> {
    match LoadAgentPin(c, id)
    case None => None
    case Some(pin) => if RestoreRootIntact(fs, pin.root) then Some(pin) else None
  }

  // ---- shards -------------------------------------------------------------------------------

  /** The shard's agent chose its root: in this life, or in an earlier one by its own row. */
  predicate Chose(sh: Shard) {
    sh.selfPinned || sh.restored
  }

  predicate ParentChose(shards: map<Id, Shard>, id: Id) {
    var linkage := LinkageOf(id);
    linkage != id && linkage in shards && Chose(shards[linkage])
  }

  /** A move of the connection's pin takes this shard with it. */
  predicate FollowsConnection(shards: map<Id, Shard>, id: Id)
    requires id in shards
  {
    !shards[id].selfPinned && !shards[id].restored && !shards[id].parentSeeded && !ParentChose(shards, id)
  }

  function SeedFromParent(c: Conn, fs: Fs, id: Id, sh: Shard): Shard {
    var linkage := LinkageOf(id);
    if linkage == id || linkage == "" then sh
    else if linkage in c.shards then
      if Chose(c.shards[linkage]) then sh.(pin := c.shards[linkage].pin) else sh
    else
      match Restorable(c, fs, linkage)
      case None => sh
      case Some(pin) => sh.(pin := pin, parentSeeded := true)
  }

  /** Where a new shard starts: the connection, then its conversation, then its own row. */
  function SeedShard(c: Conn, fs: Fs, id: Id): Shard {
    var sh := SeedFromParent(c, fs, id, Shard(c.pin, false, false, false));
    match Restorable(c, fs, id)
    case None => sh
    case Some(pin) => sh.(pin := pin, restored := true)
  }

  function ShardOf(c: Conn, fs: Fs, id: Id): Conn {
    if id in c.shards then c else c.(shards := c.shards[id := SeedShard(c, fs, id)])
  }

  /** The call is served by a shard of its own rather than by the connection. */
  predicate Routed(c: Conn, id: Id) {
    id != "" && (SharedWith(c.seen, id) || c.priorShared)
  }

  function ShardFor(c: Conn, fs: Fs, id: Id): Conn {
    if Routed(c, id) then ShardOf(c, fs, id) else c
  }

  predicate CorrectsSeededRoot(selfPinned: bool, prev: Path, root: Path) {
    !selfPinned && (WithinRoot(root, prev) || WithinRoot(prev, root))
  }

  function MarkRefused(c: Conn, id: Id, requested: Path, sittingOn: Path): Conn {
    if id == "" || requested == "" then c else c.(refused := c.refused[id := Refusal(requested, sittingOn)])
  }

  function ClearRefused(c: Conn, id: Id): Conn {
    if id == "" then c else c.(refused := c.refused - {id})
  }

  /** A call by id finds a refused declaration: its own, or its conversation's if it chose no root itself. */
  predicate PendingForCall(c: Conn, id: Id) {
    id != "" &&
    (id in c.refused ||
     (LinkageOf(id) != id && LinkageOf(id) != "" && LinkageOf(id) in c.refused &&
      !(id in c.shards && Chose(c.shards[id]))))
  }

  function ConfirmShardPin(c: Conn, id: Id, root: Path, lang: Lang, origin: Origin): Conn
    requires id in c.shards
  {
    var sh := c.shards[id];
    if origin != SessionStart || sh.selfPinned then c
    else
      var sh' := sh.(selfPinned := true, pin := sh.pin.(origin := origin));
      PersistAgentPin(c.(shards := c.shards[id := sh']), id, Pin(root, lang, origin))
  }

  /** After a conversation moved: every subagent of it that chose no root goes with it. */
  function FollowedParent(shards: map<Id, Shard>, parent: Id): (m: map<Id, Shard>)
    requires parent in shards
    ensures m.Keys == shards.Keys
  {
    map id | id in shards ::
      if id != parent && LinkageOf(id) == parent && !Chose(shards[id])
      then shards[id].(pin := shards[parent].pin) else shards[id]
  }

  function FollowParent(c: Conn, parent: Id, prevRoot: Path): Conn {
    if prevRoot == "" || LinkageOf(parent) != parent || parent !in c.shards then c
    else c.(shards := FollowedParent(c.shards, parent))
  }

  /** The shard takes a pin its agent chose, and the choice is written down. */
  function MoveShard(c: Conn, id: Id, pin: Pin): Conn
    requires id in c.shards
  {
    PersistAgentPin(c.(shards := c.shards[id := c.shards[id].(pin := pin, selfPinned := true)]), id, pin)
  }

  datatype AgentMove = AgentRefused | AgentKept | AgentMoved

  predicate AgentMoveRefused(sh: Shard, root: Path, force: bool) {
    !force && sh.pin.root != "" && root != sh.pin.root &&
    !CorrectsSeededRoot(sh.selfPinned, sh.pin.root, root) && sh.pin.origin == SessionStart
  }

  /** The per-agent half of a re-pin: only this agent's shard moves, and its own subagents after it. */
  function RepinAgent(c: Conn, id: Id, t: Target, origin: Origin, force: bool): (Conn, AgentMove)
    requires id in c.shards
  {
    var sh := c.shards[id];
    var prev := sh.pin.root;
    if AgentMoveRefused(sh, t.root, force) then
      (if !sh.selfPinned && !sh.restored then MarkRefused(c, id, t.root, prev) else c, AgentRefused)
    else if t.root == prev && t.lang == sh.pin.lang then
      (ConfirmShardPin(c, id, t.root, t.lang, origin), AgentKept)
    else
      var c1 := MoveShard(c, id, Pin(t.root, t.lang, origin));
      (if t.root != prev then FollowParent(c1, id, prev) else c1, AgentMoved)
  }

  // ---- the connection's own pin -------------------------------------------------------------

  predicate Dragged(c: Conn, id: Id, prevRoot: Path) {
    id in c.shards && FollowsConnection(c.shards, id) && c.shards[id].pin.root == prevRoot
  }

  /** Re-seeds every shard whose agent chose nothing from the connection's new pin. */
  function FollowConnection(c: Conn, prevRoot: Path): Conn {
    if c.pin.root == "" || c.pin.root == prevRoot then c
    else
      c.(shards := map id | id in c.shards ::
           if Dragged(c, id, prevRoot) then c.shards[id].(pin := c.pin) else c.shards[id],
         refused := map id | id in c.refused &&
           !(Dragged(c, id, prevRoot) && c.refused[id].requested == c.pin.root) :: c.refused[id],
         store := if c.persist
           then c.store.(agentPins := map id | id in c.store.agentPins && !Dragged(c, id, prevRoot) ::
                           c.store.agentPins[id])
           else c.store)
  }

  datatype ConnMove = ConnRefused | ConnKept | ConnMoved

  predicate RefusesAnonymousForcedMove(c: Conn, id: Id, authorised: bool, root: Path, trigger: Trigger, force: bool) {
    force && trigger == Live && c.pin.root != "" && root != c.pin.root &&
    id == "" && !authorised && SharedWith(c.seen, "")
  }

  predicate StickyPinHolds(c: Conn, root: Path, trigger: Trigger, force: bool) {
    !force && trigger == Live && c.pin.root != "" && root != c.pin.root && c.pin.origin == SessionStart
  }

  function AttachOrRepin(c: Conn, fs: Fs, id: Id, authorised: bool, t: Target, origin: Origin,
                         trigger: Trigger, force: bool): (Conn, ConnMove) {
    if RefusesAnonymousForcedMove(c, id, authorised, t.root, trigger, force) then (c, ConnRefused)
    else if StickyPinHolds(c, t.root, trigger, force) then
      (c, if origin == SessionStart then ConnRefused else ConnKept)
    else if t.root == c.pin.root then
      if origin == SessionStart then
        (PersistConnPin(c.(pin := c.pin.(origin := origin)), c.pin.(origin := origin)), ConnKept)
      else (c, ConnKept)
    else
      var pin := Pin(t.root, fs.acquire(t.root, t.lang), origin);
      (PersistConnPin(c.(pin := pin), pin), ConnMoved)
  }

  function AttributeConnectionPin(c: Conn, id: Id, root: Path, origin: Origin, trigger: Trigger): Conn {
    if trigger != Live || origin != SessionStart then c
    else PersistAgentPin(c, id, Pin(root, c.pin.lang, origin))
  }

  datatype Outcome = Failed | AgentScope(root: Path) | ConnScope(root: Path)

  /** The target a re-pin would move to, or None when the request fails before touching any pin. */
  function RepinTarget(fs: Fs, folder: Path, origin: Origin, trigger: Trigger): Option<Target> {
    if NamesNoFolder(folder) || !IsAbs(folder) then None
    else
      match Resolve(fs, folder, origin)
      case None => None
      case Some(t) =>
        if trigger == Restore && t.root != folder then None
        else if UndeclaredWideRoot(fs, t.root, origin) then None
        else Some(t)
  }

  /** The re-pin of a caller that has a shard. */
  function RepinOnAgent(c: Conn, fs: Fs, id: Id, t: Target, origin: Origin, force: bool): (Conn, Outcome) {
    var (c1, moved) := RepinAgent(ShardOf(c, fs, id), id, t, origin, force);
    if moved == AgentRefused then (c1, Failed) else (ClearRefused(c1, id), AgentScope(t.root))
  }

  /** The connection's accepted move, and the shards it takes along. */
  function SettleConnection(c: Conn, id: Id, prevRoot: Path, t: Target, origin: Origin, trigger: Trigger,
                            moved: bool): Conn {
    var c1 := AttributeConnectionPin(c, id, t.root, origin, trigger);
    ClearRefused(if moved then FollowConnection(c1, prevRoot) else c1, id)
  }

  /** The re-pin of a caller that has none. */
  function RepinOnConnection(c: Conn, fs: Fs, id: Id, authorised: bool, t: Target, origin: Origin,
                             trigger: Trigger, force: bool): (Conn, Outcome) {
    var (c1, moved) := AttachOrRepin(c, fs, id, authorised, t, origin, trigger, force);
    if moved == ConnRefused then (c1, Failed)
    else (SettleConnection(c1, id, c.pin.root, t, origin, trigger, moved == ConnMoved), ConnScope(t.root))
  }

  /** A re-pin lands on the caller's shard when it has one, else on the connection. */
  function RepinFrom(c: Conn, fs: Fs, id: Id, authorised: bool, folder: Path, origin: Origin,
                     trigger: Trigger, force: bool): (Conn, Outcome) {
    match RepinTarget(fs, folder, origin, trigger)
    case None => (c, Failed)
    case Some(t) =>
      if Routed(c, id) then RepinOnAgent(c, fs, id, t, origin, force)
      else RepinOnConnection(c, fs, id, authorised, t, origin, trigger, force)
  }

  /** Which shard a call resolves through; a call holding a refused declaration resolves through none. */
  function Orient(c: Conn, fs: Fs, id: Id): Conn {
    if PendingForCall(c, id) then c else ShardFor(c, fs, id)
  }

  /** session_start with scope "connection": the identity is checked, then stripped. */
  function RepinConnection(c: Conn, fs: Fs, id: Id, folder: Path, force: bool): (Conn, Outcome) {
    if id == "" && SharedWith(c.seen, "") then (c, Failed)
    else
      var (c1, out) := RepinFrom(c, fs, "", true, folder, SessionStart, Live, force);
      if out == Failed || id == "" then (c1, out)
      else (Orient(ClearRefused(c1, id), fs, id), out)
  }

  // ---- first attach -------------------------------------------------------------------------

  /** First-wins attach of an unattached connection. No shard follows it. */
  function FirstAttach(c: Conn, fs: Fs, target: Option<Target>, origin: Origin): Conn {
    if c.pin.root != "" || target.None? || UndeclaredWideRoot(fs, target.value.root, origin) then c
    else
      var pin := Pin(target.value.root, fs.acquire(target.value.root, target.value.lang), origin);
      PersistConnPin(c.(pin := pin), pin)
  }

  function DetectedFolder(fs: Fs, folder: Path): Option<Target> {
    if NamesNoFolder(folder) then None else fs.detect(folder)
  }

  function DropPin(c: Conn, root: Path): Conn {
    if c.persist && c.store.connPin.Some? && c.store.connPin.value.root == root
    then c.(store := c.store.(connPin := None)) else c
  }

  /** Restores the persisted pin on an unattached connection, refusing a root that drifted. */
  function RehydratePin(c: Conn, fs: Fs): Conn {
    match LoadConnPin(c)
    case None => c
    case Some(pin) =>
      if !RestoreRootIntact(fs, pin.root) then DropPin(c, pin.root)
      else
        match Resolve(fs, pin.root, pin.origin)
        case None => c
        case Some(t) => if t.root != pin.root then c else FirstAttach(c, fs, Some(t), pin.origin)
  }

  /** An unattached connection's first call: the sticky pin, the hint, then the path the call names. */
  function SeedFromCall(c: Conn, fs: Fs, seed: Path): Conn {
    if c.pin.root != "" then c
    else
      var c1 := RehydratePin(c, fs);
      var c2 := if c1.pin.root == "" then FirstAttach(c1, fs, DetectedFolder(fs, c1.hint), Unknown) else c1;
      if c2.pin.root != "" || seed == "" || !IsAbs(seed) then c2
      else FirstAttach(c2, fs, fs.seedRoot(seed, false), Unknown)
  }

  /** A workspace argument pins an unattached connection on the spot, unless its caller is identified. */
  function AttachDeclared(c: Conn, fs: Fs, caller: Id, workspace: Path): Conn {
    if c.pin.root != "" || caller != "" || !IsAbs(workspace) then c
    else FirstAttach(c, fs, fs.seedRoot(workspace, true), SessionStart)
  }

  function AttachReplayedPin(c: Conn, fs: Fs, root: Path, origin: Origin): Conn {
    if root == "" then c
    else if !RestoreRootIntact(fs, root) then DropPin(c, root)
    else RepinFrom(c, fs, "", false, root, origin, Restore, false).0
  }

  /** The attach ladder of a newly initialised connection; the first rung that resolves a root wins. */
  function AttachOnInit(c: Conn, fs: Fs, replayed: Path, roots: Path): Conn {
    var row := LoadConnPin(c);
    var c1 := if replayed == "" || fs.wide(replayed) then c else AttachReplayedPin(c, fs, replayed, SessionStart);
    var c2 := if c1.pin.root == "" && row.Some? && row.value.origin == SessionStart
              then AttachReplayedPin(c1, fs, row.value.root, row.value.origin) else c1;
    var c3 := FirstAttach(c2, fs, DetectedFolder(fs, roots), Roots);
    var c4 := if c3.pin.root == "" && row.Some?
              then AttachReplayedPin(c3, fs, row.value.root, row.value.origin) else c3;
    FirstAttach(c4, fs, DetectedFolder(fs, c4.hint), Unknown)
  }

  // ---- the events of a run ------------------------------------------------------------------

  datatype Event =
    | SessionStartCall(stamp: Id, sessionId: Id, workspace: Path, force: bool, connScope: bool,
                       marker: bool, valid: bool)
    | ToolCall(stamp: Id, mutating: bool, marker: bool, seed: Path, explicit: bool, resolves: bool, identifies: bool)
    | RootsChanged(folders: seq<Path>)
    | Restart(replayed: Path, roots: Path, hint: Path, recentlyShared: bool, keptDeclared: set<Id>)

  /** The identity session_start runs under: the stamp, else the session_id it declares. */
  function CallerOf(e: Event): Id
    requires e.SessionStartCall?
  {
    if e.stamp != "" then e.stamp else e.sessionId
  }

  /** What precedes Execute: identity bookkeeping, and attaching an unattached connection. */
  function BeforeSessionStart(c: Conn, fs: Fs, e: Event): Conn
    requires e.SessionStartCall?
  {
    var c1 := BeforeTool(c, e.stamp, e.marker);
    if c1.pin.root != "" then c1
    else if e.workspace == "" then SeedFromCall(c1, fs, "")
    else AttachDeclared(c1, fs, CallerOf(e), e.workspace)
  }

  /** The workspace half of session_start. */
  function RepinWorkspace(c: Conn, fs: Fs, e: Event): (Conn, Outcome)
    requires e.SessionStartCall?
  {
    if e.workspace == "" then (c, AgentScope(""))
    else if e.connScope then RepinConnection(c, fs, CallerOf(e), e.workspace, e.force)
    else RepinFrom(c, fs, CallerOf(e), false, e.workspace, SessionStart, Live, e.force)
  }

  /** The state session_start leaves before it commits an identity, and what its re-pin came to. */
  function Repinned(c: Conn, fs: Fs, e: Event): (Conn, Outcome)
    requires e.SessionStartCall?
  {
    RepinWorkspace(Orient(BeforeSessionStart(c, fs, e), fs, CallerOf(e)), fs, e)
  }

  /** Linking and declaring are commitments, made only by a call that succeeds. */
  function CommitIdentity(c: Conn, e: Event): Conn
    requires e.SessionStartCall?
  {
    var c1 := if e.sessionId != "" then LinkExternal(c, e.stamp, e.sessionId) else c;
    if e.stamp != "" then Declare(c1, e.stamp) else c1
  }

  predicate Succeeds(c: Conn, fs: Fs, e: Event)
    requires e.SessionStartCall?
  {
    e.valid && Repinned(c, fs, e).1 != Failed
  }

  function SessionStartStep(c: Conn, fs: Fs, e: Event): Conn
    requires e.SessionStartCall?
  {
    var c1 := Repinned(c, fs, e).0;
    if Succeeds(c, fs, e) then CommitIdentity(c1, e) else c1
  }

  predicate RefusedCall(c: Conn, e: Event)
    requires e.ToolCall?
  {
    e.mutating && RefusalOf(c, e.stamp) != NotRefused
  }

  /** The identity accessors give a subagent alone on its conversation's connection a shard to hold its identity. */
  function Identify(c: Conn, fs: Fs, id: Id): Conn {
    if Routed(c, id) then ShardOf(c, fs, id)
    else if id != "" && '/' in id && c.linked != "" && LinkageOf(id) == c.linked then ShardOf(c, fs, id)
    else c
  }

  /** The seed of a tool call is its workspace argument, or a path it merely touches. */
  function AttachForCall(c: Conn, fs: Fs, e: Event): Conn
    requires e.ToolCall?
  {
    if e.explicit then AttachDeclared(c, fs, e.stamp, e.seed) else SeedFromCall(c, fs, e.seed)
  }

  function ToolCallStep(c: Conn, fs: Fs, e: Event): Conn
    requires e.ToolCall?
  {
    if RefusedCall(c, e) then c
    else
      var c1 := AttachForCall(BeforeTool(c, e.stamp, e.marker), fs, e);
      var c2 := if e.resolves then Orient(c1, fs, e.stamp) else c1;
      if e.identifies then Identify(c2, fs, e.stamp) else c2
  }

  /** A client-reported folder that still leads to the pinned root. */
  predicate StillReported(c: Conn, fs: Fs, roots: seq<Path>) {
    exists i :: 0 <= i < |roots| && LeadsTo(fs, roots[i], c.pin.root)
  }

  predicate LeadsTo(fs: Fs, folder: Path, root: Path) {
    !NamesNoFolder(folder) &&
    match fs.detect(folder)
    case Some(t) => t.root == root
    case None => fs.synthesise(folder, false) == root
  }

  function RootsChangedStep(c: Conn, fs: Fs, roots: seq<Path>): Conn {
    if roots == [] then c
    else if c.pin.root == "" then FirstAttach(c, fs, DetectedFolder(fs, roots[0]), Roots)
    else if StillReported(c, fs, roots) || c.pin.origin == SessionStart || NamesNoFolder(roots[0]) then c
    else RepinFrom(c, fs, "", false, roots[0], Roots, Live, false).0
  }

  /** What a reconnecting connection holds before the attach ladder runs. */
  function Reconnected(c: Conn, e: Event): Conn
    requires e.Restart?
  {
    Conn(NoPin, map[], map[], {},
         if c.persist then (set l | l in c.store.declared && l in e.keptDeclared :: LinkageOf(l)) + {LinkageOf(c.store.linkage)} - {""} else {},
         c.persist && e.recentlyShared,
         if c.persist then c.store.linkage else "",
         c.persist, e.hint, c.store)
  }

  function RestartStep(c: Conn, fs: Fs, e: Event): Conn
    requires e.Restart?
  {
    AttachOnInit(Reconnected(c, e), fs, e.replayed, e.roots)
  }

  function Step(c: Conn, fs: Fs, e: Event): Conn {
    match e
    case SessionStartCall(_, _, _, _, _, _, _) => SessionStartStep(c, fs, e)
    case ToolCall(_, _, _, _, _, _, _) => ToolCallStep(c, fs, e)
    case RootsChanged(folders) => RootsChangedStep(c, fs, folders)
    case Restart(_, _, _, _, _) => RestartStep(c, fs, e)
  }

  /** The state after a whole run. */
  function Exec(c: Conn, fs: Fs, run: seq<Event>): Conn {
    if run == [] then c else Step(Exec(c, fs, run[..|run| - 1]), fs, run[|run| - 1])
  }

  /** The root a call by id resolves against: nothing while a declaration is refused, else its shard or the connection. */
  function WorkspaceFor(c: Conn, fs: Fs, id: Id): Path {
    if PendingForCall(c, id) then ""
    else if !Routed(c, id) then c.pin.root
    else if id in c.shards then c.shards[id].pin.root
    else SeedShard(c, fs, id).pin.root
  }
}
