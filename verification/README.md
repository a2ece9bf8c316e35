# plumb, verified

A Dafny model of the parts of plumb where many steps, calls or goroutines must keep one promise, and proofs
of those promises over every run or every interleaving.

* **The shared connection.** One MCP connection carries many agents. `ConnSpec` is the connection as a state
  machine on values: its pin, the per-agent shards, the identities it has seen and declared, the refused
  declarations, and the rows that survive a daemon restart; its events are session_start (agent or connection
  scope, forced or not), tool calls, roots changes and restarts. `ConnSession` is the same connection as the
  daemon runs it, an object whose critical sections update its fields, its shard table and the shards in
  place; every method is proved to do to the object what `ConnSpec` does to the value it stands for, and
  `SessionRuns` drives such an object through whole runs and states the run-level guarantees of its fields.
  Those guarantees are proved about the value: `Ownership`, `Decisions` and `Standing` (where an agent stands,
  in memory or on file), `Convergence`, `Shelter` and `ConvergenceGap`, `NonInterference` (with `Projection`
  and `Leaks`), `RootShield` and `RootLeak`, `Durable`, `Containment` and `Admission`. `FollowRace` lets the
  connection's move, the follow of it and every shard the follow visits interleave as separate steps.
  What each event comes to is said a second time, of the fields alone: `Outcomes` (where a shard starts and a call
  resolves), `AttachOutcomes` (first calls and restarts), `RepinOutcomes` (re-pins and folder changes) and
  `CallOutcomes` (identities and whole calls) name no function that produces the state, and are proved to leave
  it no other value; the object's methods promise them too.
  `PinContest`, `ClearMarkers` and `Linkage` cover the displacement history, the /clear marker table and who a
  connection is linked to.
* **Reference protocols.** `WatchRefs` (project-config watchers), `BudgetRefs` (write budgets) and
  `CollabPool` (single-flight opens) are concurrent protocols as steps of threads, any number of them, beside
  the lock-protected objects the steps run on. `Counting` holds what reference counts need, and `Options`, like `Ids`, a shared type.
* **The language-server cache.** `ShardCache` (sharded TTL/LRU cache), `Invalidator`, `Waiters`, `MergeDedup`
  and `Uris` (push and pull diagnostics; the pull side follows "Pull Diagnostics" of the Language Server
  Protocol 3.17).
* **Two algorithms.** `CoCall` (the co-call rule's greedy stack) and `TuiVideo`/`TuiCompose` (the colour
  rewrite that carries unfinished escape sequences across events; control sequences as in section 5.4 of
  ECMA-48, SGR as in its section 8.3.117).

Filesystem questions (`Detect`, `SynthesiseRoot`, directory checks, wide roots), language acquisition and the
colour inversion are function parameters about which nothing is assumed. Clocks are parameters; where a
theorem needs a clock that does not run backwards it says so.

Where a promise did not hold of the code as first stated, the code is kept as it is, the failing input is a
lemma, and the promise is proved under the condition that separates the two:

* Subagent convergence survives a call exactly if the call leaves no orphan: a subagent's first word, typed in
  session_id alone on a connection that has seen its conversation and nobody else, and turned away
  (`Shelter.StepSheltered`, `ConvergenceGap.ConvergesIffNoOrphan`).
* Non-interference holds of all conversations exactly if two of them are already on the connection
  (`Leaks.ShieldedIffTwoConversations`); once two identities are, it holds of one conversation exactly if two
  conversations are or this one is declared (`Leaks.ShieldedForIffGuarded`). A caller that names another,
  undeclared conversation as its session_id declares it, which is visible (`Leaks.ImpersonationIsSeen`).
* Roots and markers alone, whoever is admitted, are shielded exactly if two conversations are seen, or two
  identities are, the pin is a session_start's, and no agent of an undeclared conversation decided on file alone
  under a conversation that has not decided (`RootLeak.RootShieldedIff`).
* A lone agent's accepted session_start is its own decision exactly if it has no shard yet
  (`Decisions.AnsweredDecides`).
* A key of the pool never has two live handles while the pool is open, and whatever state a shutdown left, later
  calls can open two at once (`CollabPool.SingleUntilShut`).
* An action of the follow race keeps the followers tracked exactly if it does not fetch one with a view that is
  no longer timely (`FollowRace.ActTracked`); overtaken follows do strand them (`FollowRace.LateFollowStrands`).
* A restart returns to the held root exactly when the stored root still verifies and is not `/`
  (`Durable.RestartHolds`), and to an agent's decision exactly when rows are kept and its root still verifies
  (`Decisions.RestartDecision`).

## Model

| member | source | states |
|---|---|---|
| Ids.LinkageIsConversation | internal/cli/conn_logical_agent.go:131-140 | a conversation is its own linkage, and only ids without a slash are: identities form two levels |
| ConnSession.Session.NewShard | internal/cli/conn_agent_shard.go:131-200 | a new shard starts on the connection, then its conversation, then its own intact row |
| ConnSession.Session.SeedFromConversation | internal/cli/conn_agent_shard_parent.go:26-64 | a subagent's shard starts where its conversation chose, in memory or, if it has no shard, in its row |
| ConnSession.Session.EnsureShard | internal/cli/conn_agent_shard.go:131-168 | one shard per identity, created once and never shared by two identities |
| ConnSession.Session.RouteToShard | internal/cli/conn_agent_shard.go:100-125 | only an identified caller on a shared, or recently shared, connection is routed to a shard |
| ConnSession.Session.PendingDeclarationForCall | internal/cli/conn_agent_shard_parent.go:128-157 | the call's own refused declaration, or its conversation's if it chose no root itself, in both directions (Outcomes.Silenced) |
| ConnSession.Session.WorkspaceForCall | internal/cli/conn_agent_shard.go:249-265 | the root a call resolves against, none while a declaration is refused, and the one shard it may create (Outcomes.Answers, Resolves) |
| ConnSession.Session.FirstCallRoot | internal/cli/conn_agent_shard.go:207-220 | what a hook is told is where the agent's first call resolves, and asking creates nothing |
| ConnSession.Session.ConfirmPin | internal/cli/conn_declaration_gate.go:113-124 | naming the root already held is a choice: the shard is pinned and its row written, once |
| ConnSession.Session.FollowParentShard | internal/cli/conn_agent_shard_parent.go:66-101 | every subagent that chose no root takes its conversation's pin; no other shard changes |
| ConnSession.Session.RepinShard | internal/cli/conn_agent_shard.go:366-495 | refused, kept or moved exactly as the sticky rule says, with the marker, the row and the subagents that go with each |
| ConnSession.Session.FollowConnectionShards | internal/cli/conn_agent_shard_follow.go:43-112 | exactly the shards that chose nothing and sat on the previous root move, lose their rows, and lose a marker the move has answered |
| ConnSession.Session.FollowsHome | internal/cli/conn_agent_shard_follow.go:121-123 | who follows the connection |
| ConnSession.Session.AttachOrRepinTo | internal/cli/conn_repin.go:322-462 | the lane's verdict and the pin and row it leaves |
| ConnSession.Session.RepinWorkspaceFrom | internal/cli/conn_repin.go:129-256 | a re-pin lands on the caller's shard if it has one, else on the connection, or fails touching nothing: everything it leaves, said of the fields (RepinOutcomes.RepinComesTo) |
| ConnSession.Session.RepinConnectionScope | internal/cli/conn_repin_scope.go:52-107 | connection scope strips the identity after checking it, settles the caller's refusal on success and builds its shard (RepinOutcomes.ScopeComesTo) |
| ConnSession.Session.Rehydrate | internal/cli/conn_persist.go:389-444 | restores an intact pin under its own origin, and drops one that drifted |
| ConnSession.Session.AttachFromCall | internal/cli/conn_attach.go:210-315 | an unattached connection's first call: its row under its own origin, else the hint, else the path the call names, neither filed (AttachOutcomes.SeededBy) |
| ConnSession.Session.ReplayPin | internal/cli/conn_attach_oninit.go:183-196 | a replayed pin is verified before it is restored |
| ConnSession.Session.AttachAtInit | internal/cli/conn_attach_oninit.go:35-126 | of a connection with no pin and no shards: the handed-back declaration wins, else a declared row, else the client's roots, filed, else another row under its own origin, else the hint, unfiled, else nothing; a row whose root is gone goes (AttachOutcomes.Settles) |
| ConnSession.Session.Reconnect | internal/cli/conn_attach_oninit.go:35-126 | what a connection is after a daemon restart, field by field (AttachOutcomes.RestartComesTo) |
| ConnSession.Session.OnSessionStart | internal/cli/conn_repin.go:93-110 | a whole session_start: bookkeeping, attach, orientation, re-pin, and commitment only on success, each said of the fields (CallOutcomes.SessionStartComesTo) |
| ConnSession.Session.AttachForToolCall | internal/cli/conn_attach.go:210-315 | a tool call attaches an unattached connection by its workspace argument, stickily unless its caller is identified, else by the sticky pin, the hint or the path it names |
| ConnSession.Session.OnToolCall | internal/cli/conn_attach.go:210-315 | a whole tool call, turned away without a trace or admitted, said of the fields (CallOutcomes.ToolCallComesTo) |
| ConnSession.Session.OnRootsChanged | internal/cli/conn_roots.go:172-208 | a connection that still has one of the folders as its home, in whatever order, or whose root was declared, stays as it is; another moves to where the first folder leads with origin roots, its followers with it; an unattached one takes the first folder's project (RepinOutcomes.RootsComeTo) |
| ConnSession.Session.RootStillReported | internal/cli/conn_roots.go:215-231 | whether any reported folder still leads to the pinned root |
| Outcomes.IntactStands | internal/cli/conn_persist.go:459-507 | a stored root is intact if and only if it is a directory that still leads to itself |
| Outcomes.SeedStarts | internal/cli/conn_agent_shard.go:131-200 | a shard is the one seeded if and only if it starts from its own row, else its conversation's choice or row, else the connection, with just the flags that say so |
| Outcomes.OrientResolves | internal/cli/conn_agent_shard.go:100-168 | a call builds its caller's shard if and only if the caller is named, shares the connection and is not silenced, and changes nothing else |
| Outcomes.WorkspaceAnswers | internal/cli/conn_agent_shard.go:249-265 | the one root that answers a call: none while silenced, its shard's, or the connection's |
| Outcomes.IdentifyIdentifies | internal/cli/conn_agent_identity.go:55-79 | asking who a call is gives a shard to a sharing caller and to a lone subagent of the linked conversation, and to nobody else |
| AttachOutcomes.Rehydrates | internal/cli/conn_persist.go:389-444 | a row whose root stands, and may be held by its origin, comes back under that origin; one whose root is gone is forgotten |
| AttachOutcomes.CallSeeds | internal/cli/conn_attach.go:210-315 | what the first call of an unattached connection leaves, by which of row, hint and path can be attached to |
| AttachOutcomes.CallDeclares | internal/cli/conn_attach.go:210-315 | a workspace argument attaches if and only if the connection is unattached, its caller names no agent and the path is absolute |
| AttachOutcomes.LadderReattaches | internal/cli/conn_attach_oninit.go:35-126 | the pin and the row the ladder leaves, by which authorities could attach, not by the order they are tried in |
| AttachOutcomes.RestartDecided | internal/cli/conn_attach_oninit.go:35-126 | a state is what a restart leaves if and only if its pin, its row, the linkages it vouches for and everything else are as said |
| RepinOutcomes.AgentRepins | internal/cli/conn_agent_shard.go:366-495 | a re-pin of the caller's shard: refused exactly where it would leave a declared root it holds, with the marker naming what was asked and where it sits; else its pin, its row, its settled refusal and the undecided subagents that go along |
| RepinOutcomes.ConnRepins | internal/cli/conn_repin.go:322-462 | a re-pin of the connection: refused or passed over exactly where it is stuck, confirmed where it is, else moved, with every row that writes or drops |
| RepinOutcomes.MoveDrags | internal/cli/conn_agent_shard_follow.go:43-112 | the move takes exactly the shards at the old root whose agent and conversation decided nothing, with their rows and answered refusals |
| RepinOutcomes.RepinDecided | internal/cli/conn_repin.go:129-256 | a state and an answer are a re-pin's if and only if they are as said for where its folder leads |
| RepinOutcomes.ScopeDecided | internal/cli/conn_repin_scope.go:52-107 | the same of connection scope: the caller's refusal is gone and its call resolves |
| RepinOutcomes.RootsDecided | internal/cli/conn_roots.go:172-208 | the same of a change of the client's folders |
| CallOutcomes.PrecedesDecided | internal/cli/conn_clear_handover.go:75-93 | who is counted before a call, and exactly when its caller succeeds to the connection |
| CallOutcomes.CommitsDecided | internal/cli/conn_link_external.go:84-154 | what an accepted session_start commits: seen, declared, linked and filed, exactly |
| CallOutcomes.RefusedTurnedAway | internal/cli/conn_logical_agent.go:251-281 | a state-changing call is turned away if and only if the connection is shared and nobody vouches for its caller |
| CallOutcomes.EventDecided | internal/cli/conn_repin.go:93-110 | every event comes to what these say of the fields before and after, and to nothing else |
| SessionRuns.DriveOwned | internal/cli/conn_agent_shard.go:408-495 | after any run in one daemon lifetime the session object still holds an agent's self-pinned shard, sticky and non-empty, at the root it had unless that agent forced a move |
| SessionRuns.DriveHeld | internal/cli/conn_attach_oninit.go:35-126 | after any run with restarts the session object and its row are on the last accepted session_start root |
| SessionRuns.DriveConverged | internal/cli/conn_agent_shard_parent.go:66-119 | after any orderly run every undecided shard object sits with its conversation's, if that chose, or on the connection |
| SessionRuns.DriveThenAdmit | internal/cli/conn_logical_agent.go:251-281 | a state-changing call the session then admits while shared is of a conversation declared over the run, or every identity is of its own |
| Ownership.StepOwnership | internal/cli/conn_agent_shard.go:408-495 | a chosen shard is moved by its own agent's agent-scoped session_start alone: by force, or within its tree if only restored; nothing else touches it |
| Ownership.RunOwnership | internal/cli/conn_agent_shard_follow.go:114-123 | over a run, a self-pinned shard stays pinned, non-empty and sticky, and has moved only if its agent forced it |
| Ownership.RunSound | internal/cli/conn_declaration_gate.go:91-124 | over any run with restarts, every chosen root is non-empty with session_start origin |
| Standing.ResolvesWhereItStands | internal/cli/conn_agent_shard.go:131-265 | a routed call resolves at its agent's decision, else its conversation's, else the connection's root, however its shard came to be; nowhere while a declaration is pending |
| Decisions.RunDecision | internal/cli/conn_agent_shard_persist.go:36-94 | over any run with restarts, an agent's decision stays on its root while the agent makes no agent-scoped session_start itself |
| Decisions.RestartDecision | internal/cli/conn_agent_shard_persist.go:84-94 | a restart brings a decision back if and only if rows are kept and its root still resolves to itself |
| Decisions.ShardedDecides | internal/cli/conn_agent_shard.go:408-495 | an accepted session_start of a routed agent is its decision, in memory and on file |
| Decisions.AnsweredDecides | internal/cli/conn_repin.go:287-292 | one the connection answers for is filed as its caller's decision, effective exactly if the caller has no shard yet |
| Decisions.RefusalSilences | internal/cli/conn_declaration_gate.go:36-62 | a refused declaration takes the root from its agent and its undecided subagents alone, and clearing it restores them |
| Convergence.StepConverges | internal/cli/conn_agent_shard_parent.go:26-101 | every event of a sheltered connection keeps each undecided shard with its conversation, or else with the connection |
| Shelter.StepSheltered | internal/cli/conn_agent_shard.go:100-168 | an event keeps an attached connection sheltered if and only if it leaves no orphan |
| Shelter.SubagentsConverge | internal/cli/conn_agent_shard_parent.go:66-119 | over any run that leaves no orphan, restarts included, an undecided subagent holds its conversation's root, and every follower the connection's |
| ConvergenceGap.ConvergesIffNoOrphan | internal/cli/conn_agent_shard_parent.go:26-101 | every orderly continuation converges after a call if and only if the call leaves no orphan |
| NonInterference.ErasingOthersChangesNothing | internal/cli/conn_agent_shard.go:100-200 | on a connection two conversations share, or two identities if this conversation is declared, erasing other conversations' agent-scoped session_starts from any run changes no root, marker or admission of this one's agents |
| NonInterference.ForeignUnseen | internal/cli/conn_agent_shard.go:366-495 | such a session_start leaves the conversation's whole projection of the state unchanged |
| Leaks.ShieldedForIffGuarded | internal/cli/conn_logical_agent.go:251-281 | once two identities share the connection, one conversation is shielded that way if and only if two conversations share it or it is declared |
| Leaks.ShieldedIffTwoConversations | internal/cli/conn_clear_handover.go:56-93 | all conversations are, on any attached connection, if and only if two share it |
| Leaks.ImpersonationIsSeen | internal/cli/conn_link_external.go:84-90 | naming another conversation as session_id declares it |
| RootShield.ErasingOthersMovesNobody | internal/cli/conn_agent_shard.go:131-200 | on a session_start's pin with two identities of any conversations, the erasure moves no root and no marker, whoever is admitted, if no agent of the conversation is latent |
| RootShield.RunMarkers | internal/cli/conn_declaration_gate.go:36-62 | over any run with restarts, a refused declaration is held only by an agent with a shard that has not decided |
| RootLeak.RootShieldedIff | internal/cli/conn_agent_shard.go:100-200 | exactly when roots and markers are shielded from the other conversations' session_starts |
| RootLeak.FewLeak | internal/cli/conn_repin.go:322-462 | with one identity or none, others' arrival stops the anonymous move that would have carried a newcomer |
| RootLeak.UnconfirmedLeak | internal/cli/conn_agent_shard.go:408-437 | on a pin no session_start confirmed, another's arrival decides whether a newcomer's session_start is refused |
| RootLeak.LatentLeak | internal/cli/conn_agent_shard_parent.go:128-157 | another's arrival keeps a filed decision unread, so its conversation's refusal silences the agent |
| Durable.RunHolds | internal/cli/conn_attach_oninit.go:35-126 | over any run with restarts, the connection sits on the last accepted session_start root after every step |
| Durable.RestartHolds | internal/cli/conn_persist.go:459-507 | a restart comes back to the held root if and only if it still verifies |
| Durable.AcceptedHolds | internal/cli/conn_persist.go:345-355 | an accepted session_start takes hold, in memory and in its row |
| Durable.AcceptedMoveIsForced | internal/cli/conn_repin_scope.go:151-228 | moving a held connection takes force and, when shared, an identified connection-scoped call |
| Containment.RunContained | internal/cli/conn_attach.go:44-175 | over any run with restarts, a root that is or contains a home directory is held by the connection or a shard only as a session_start's |
| Admission.SharedWithCounts | internal/cli/conn_logical_agent.go:178-200 | shared means more than one identity, counting the caller |
| Admission.AdmittedExactly | internal/cli/conn_logical_agent.go:251-281 | the ceiling admits a call exactly if at most one identity is counted, or the caller is identified and its conversation is declared or the only one seen |
| Admission.SuccessDeclares | internal/cli/conn_link_external.go:84-154 | a session_start that succeeds declares the conversation it names and the one it is stamped with |
| Admission.DeclarationLasts | internal/cli/conn_logical_agent_declared.go:26-50 | from then on every agent of that conversation is admitted, over any run whose restarts find it on file |
| Admission.RestartDeclares | internal/cli/conn_logical_agent_declared.go:44-50 | a restart keeps a declaration exactly if rows are kept and it is on file unpruned or is the linkage's own |
| Admission.AdmittedIsVouched | internal/cli/conn_logical_agent.go:251-281 | over any run, a state-changing call admitted on a shared connection has a declared conversation, or every identity is of its own |
| Admission.RefusalIsInertAndStaysArmed | internal/cli/conn_logical_agent.go:407-418 | a refused call changes nothing, and anonymous refusal stays armed |
| FollowRace.ActTracked | internal/cli/conn_agent_shard_follow.go:43-112 | with every lock section a step of its own, an action keeps each follower at the connection's root or in a follow's way exactly if it does not fetch one with an outdated view |
| FollowRace.FollowersConverge | internal/cli/conn_repin.go:239-256 | moves, follows shard by shard, creations, re-pins and parent follows interleaved: at quiescence every follower is at the connection's root, if follows worked from timely views |
| FollowRace.PromptIsTimely | internal/cli/conn_agent_shard_follow.go:43-48 | they do in every interleaving in which no move of the connection lands between a follow's read of the view and the end of its loop |
| FollowRace.LoopIsFollow | internal/cli/conn_agent_shard_follow.go:43-112 | a loop nobody interrupts does, in any order of the shards, what the one-step follow does |
| FollowRace.LateFollowStrands | internal/cli/conn_agent_shard_follow.go:43-48 | from any quiescent state, two moves whose follows loop out of order strand any follower |
| PinContest.ContestedRing | internal/cli/conn_pin_contest.go:140-153 | true exactly when two in-window entries name different destinations |
| PinContest.RingSeesEnough | internal/cli/conn_pin_contest.go:83-98 | with a forward clock, eight entries decide what the whole history would |
| PinContest.WindowEdge | internal/cli/conn_pin_contest.go:140-153 | two displacements to different roots are a fight if and only if no more than half an hour apart |
| PinContest.PinContestState.Record | internal/cli/conn_pin_contest.go:83-98 | the flag latches with the history's verdict, and true is returned for the displacement that latches it, once |
| PinContest.PinContestState.RecordForcedDisplacement | internal/cli/conn_pin_contest.go:177-185 | records exactly the forced moves off a declared root, and keeps the flag equal to the verdict on all of them |
| ClearMarkers.MarkerTable.MarkCleared | internal/cli/conn_clear_markers.go:84-113 | files one marker per valid id in a table never over 256, and mirrors the table's size |
| ClearMarkers.TrimsSpaces | internal/cli/conn_clear_markers.go:92-98 | only white space is trimmed from an id, and all of it at either end |
| ClearMarkers.MarkableIds | internal/cli/conn_clear_markers.go:80-90 | of plain ids, exactly the conversations of up to 128 visible characters can be marked, so no subagent |
| ClearMarkers.MarkerTable.EvictOldest | internal/cli/conn_clear_markers.go:116-125 | evicts the marker closest to expiry |
| ClearMarkers.EvictionSound | internal/cli/conn_clear_markers.go:92-125 | an evicted marker had 256 rivals announced no earlier |
| ClearMarkers.MarkerTable.Take | internal/cli/conn_clear_markers.go:136-149 | yes only for a live untaken marker; no to one within its day only if it was crowded out |
| Linkage.LinkageOwnership | internal/cli/conn_link_external.go:84-154 | a linked connection changes hands only by an unstamped session_start or by a /clear consumed on a first call while one conversation was seen |
| Linkage.HandoverLinks | internal/cli/conn_clear_handover.go:75-93 | a handover leaves the connection linked to its caller |
| Linkage.HandoversMatched | internal/cli/conn_clear_markers.go:92-149 | many connections, one table: handovers match announcements one to one, each within the TTL |
| Linkage.KeysApart | internal/cli/hooks_namespace.go:70-81 | no conversation's marker key spells another's, of its namespace or any other |
| Linkage.LinkageMovesAccounted | internal/cli/conn_clear_handover.go:75-93 | every change of linkage in such a run is an unstamped session_start or a matched handover |
| Linkage.AnnounceClear | internal/cli/conn_clear_markers.go:92-113 | an announcement goes into the marker table and the run alike |
| Linkage.TakeClear | internal/cli/conn_clear_handover.go:75-93 | a call that takes the table's answer for its marker is one such a run allows, and the table still backs the run after it |
| WatchRefs.WatchManager.Acquire | internal/cli/config_project_watcher.go:150-188 | one more reference on this root and on no other, none once the manager has closed, and no entry without a reference |
| WatchRefs.WatchManager.Release | internal/cli/config_project_watcher.go:193-205 | one reference fewer on this root if it had any, none elsewhere, and no entry without a reference |
| WatchRefs.ReleaseUndoesAcquire | internal/cli/config_project_watcher.go:150-205 | a release undoes the acquisition before it |
| WatchRefs.WatchManager.Close | internal/cli/config_project_watcher.go:227-235 | every watch is dropped and none is taken again |
| WatchRefs.TrackSettles | internal/cli/conn_project_reload.go:23-74 | each step of a track call: it leaves the way to publishing only for an ended session or a root already published, and owes what it displaced |
| WatchRefs.RefsBalance | internal/cli/conn_project_reload.go:23-74 | in every interleaving a root's count is the sessions publishing it plus the releases still owed, and every release finds its reference |
| WatchRefs.NothingLeaks | internal/cli/conn.go:533-571 | at quiescence the count is the sessions publishing the root, and nothing after every close |
| BudgetRefs.SharedBudgets.Acquire | internal/cli/shared_budgets.go:50-67 | one holder more of this key's budget alone, capped as asked, on the limiter it had or on a new one (BudgetRefs.Adopts) |
| BudgetRefs.SharedBudgets.Release | internal/cli/shared_budgets.go:86-103 | one fewer holder of this key's budget alone, limiter and cap kept, and the entry goes with the last (BudgetRefs.Drops) |
| BudgetRefs.SharedBudgets.SetLimit | internal/cli/shared_budgets.go:72-81 | caps this key's budget alone, if it has one |
| BudgetRefs.CallSettles | internal/cli/conn_config.go:529-577 | each step of a bind or a close: what it publishes, caps and owes, and that a bind of an ended session does nothing |
| BudgetRefs.BudgetsBalance | internal/cli/conn_config.go:529-577 | counts balance; until its close has run a session whose limiter has a parent is bound, and a bound one draws on the live budget it published; sessions share one exactly when they share a key |
| BudgetRefs.NothingLeaks | internal/cli/conn.go:533-571 | after every close no budget is left |
| CollabPool.CollabStores.LookOrLead | internal/cli/collab_pool.go:117-138 | hit, wait for the key's flight, or lead it |
| CollabPool.CollabStores.FinishOpen | internal/cli/collab_pool.go:141-164 | the flight ends, and the store is published unless the pool has closed |
| CollabPool.CollabStores.CloseAll | internal/cli/collab_pool.go:286-299 | every published store, the daemon-level one too, is closed |
| CollabPool.OneLiveHandle | internal/cli/collab_pool.go:117-184 | at most one live handle per key, save those the shutdown has doomed, and none is doomed before it |
| CollabPool.SingleUntilShut | internal/cli/collab_pool.go:117-164 | from any reached state, every continuation short of another shutdown keeps at most one live handle of a key if and only if the pool has not been shut |
| CollabPool.PublishedOrClosed | internal/cli/collab_pool.go:141-164 | a handle whose opener has returned is published or closed |
| CollabPool.ReturnsPublished | internal/cli/collab_pool.go:117-164 | the store a call returns is published under its key as it returns |
| CollabPool.CreatorNeverAbsent | internal/cli/collab_pool.go:117-138 | a creating caller is never told there is no store |
| CollabPool.ToldAsFound | internal/cli/collab_pool.go:117-164 | a call is told there is no store exactly when its own open said so, an error exactly when that failed or the pool had shut, and a store exactly when it was published or taken |
| CollabPool.FindsWhatOpens | internal/cli/collab_pool.go:141-184 | an open yields a handle nobody had, nothing, a failure or a panic, and holds nothing but that handle |
| CollabPool.NothingLeftOpen | internal/cli/collab_pool.go:286-299 | after the shutdown and quiescence no handle is open |
| CollabPool.NobodyWedged | internal/cli/collab_pool.go:141-152 | a waiting call always waits for one that can go on, through failed and panicking opens too |
| ShardCache.ShardIndex | internal/cache/cache.go:260-266 | 32-bit wrap-around never moves a key to another shard |
| ShardCache.Shard.OldestKey | internal/cache/cache.go:147-161 | the least recently used key other than the one being stored |
| ShardCache.Shard.EnforceBudget | internal/cache/cache.go:122-141 | nothing goes while there is room for the key; otherwise the expired entries go, and live ones, least recently used first, only down to the budget |
| ShardCache.Shard.Store | internal/cache/cache.go:101-120 | the entry is stored, all others kept are as they were, and no more was dropped than had to be (ShardCache.Stored) |
| ShardCache.Cache.constructor | internal/cache/cache.go:65-80 | shard budgets cover the configured size and no more than one shard's rounding above it |
| ShardCache.Cache.Get | internal/cache/cache.go:83-95 | it hits exactly when the key's shard holds the key unexpired and only stamps what it hit; every hit is the unbounded table's answer, and so is every miss when there is no capacity |
| ShardCache.Cache.Set | internal/cache/cache.go:101-120 | the table gains the entry; its shard drops nothing while it has room, else the expired, and live entries, least recently used first, only until exactly the budget remains; no other shard changes |
| ShardCache.Cache.Delete | internal/cache/cache.go:164-169 | removes the key from the table and from its shard, and nothing else |
| ShardCache.Cache.InvalidateByPath | internal/cache/cache.go:174-188 | removes exactly the keys that contain the URI, from the table and every shard, and counts what it removed |
| ShardCache.ContainsSplits | internal/cache/cache.go:174-188 | a key contains the URI if and only if it is something before it and something after it |
| ShardCache.Cache.Clear | internal/cache/cache.go:191-198 | empties the table |
| ShardCache.Cache.EvictAllExpired | internal/cache/cache.go:245-256 | exactly the expired entries go, and nothing anybody could be served changes |
| Waiters.WaiterTable.Subscribe | internal/cache/invalidator.go:209-214 | a new channel, waiting for its key |
| Waiters.WaiterTable.WakeSubscribers | internal/cache/invalidator.go:98-106 | everyone waiting for the key is woken and holds its one token, nobody else is touched, none dropped, and the list is gone |
| Waiters.WaiterTable.Publish | internal/cache/invalidator.go:71-93 | a publish wakes exactly those waiting for the document and for any, each with one token |
| Waiters.WaiterTable.Unsubscribe | internal/cache/invalidator.go:218-231 | a waiter leaves its list and nobody else does |
| Waiters.WaitsInOneList | internal/cache/invalidator.go:209-231 | until it is woken a channel is in its own list exactly once and in no other |
| Waiters.SettledForGood | internal/cache/invalidator.go:98-106 | afterwards it is in no list and no publish touches it |
| MergeDedup.MergeDedup | internal/cache/invalidator_pull.go:290-316 | the indexed loop is the first-occurrence union, newest write winning per key |
| MergeDedup.UnionExact | internal/cache/invalidator_pull.go:278-316 | every key either channel reported, once, and nothing else |
| MergeDedup.UnionNewest | internal/cache/invalidator_pull.go:278-316 | the entry kept for a key is the first one of the snapshot written last of those that have it, the pushed one on a tie |
| MergeDedup.UnionOrder | internal/cache/invalidator_pull.go:278-316 | entries stand in the order their keys first occur, pushed before pulled |
| Uris.SortedUris | internal/cache/invalidator_pull.go:195-202 | a sorted listing of exactly the set |
| Uris.BeforeIs | internal/cache/invalidator_pull.go:195-202 | the order listed in: at the first place two URIs differ the smaller character, or the end, comes first |
| Uris.ListingUnique | internal/cache/invalidator_pull.go:195-202 | there is only one, so the listing is deterministic |
| Invalidator.Invalidator.Handle | internal/cache/invalidator.go:71-93 | replaces the pushed snapshot and wakes exactly its waiters |
| Invalidator.Invalidator.RecordPullFull | internal/cache/invalidator_pull.go:57-65 | replaces the snapshot, and knows a result ID only if one was given |
| Invalidator.Invalidator.RecordPullUnchanged | internal/cache/invalidator_pull.go:86-93 | a mismatch changes nothing |
| Invalidator.Invalidator.RecordPullResult | internal/cache/invalidator_pull.go:123-184 | applied and unresolved are sorted, disjoint and exactly the report's URIs; a full part is held as it came, an unchanged one is applied exactly if it names the ID held and then changes nothing but the time, an unrecognised one is unresolved, and a document reported twice goes part by part |
| Invalidator.Invalidator.RecordPullResultAt | internal/cache/invalidator_pull.go:104-116 | with a generation captured before the request, no snapshot of an earlier generation is ever stored, and a current report is recorded part by part |
| Invalidator.ReportRecorded | internal/cache/invalidator_pull.go:123-184 | what a whole report does to each document, said of its own parts and of the snapshot and ID held before |
| Invalidator.Invalidator.ClearPullState | internal/cache/invalidator_pull.go:236-243 | nothing pulled is left, and the generation moves on |
| Invalidator.Invalidator.Diagnostics | internal/cache/invalidator_pull.go:267-281 | one channel's snapshot as it is, or the union of both |
| Invalidator.Invalidator.AllDiagnostics | internal/cache/invalidator.go:255-268 | exactly the documents either channel reported |
| Invalidator.Invalidator.AllDiagnosticTimes | internal/cache/invalidator.go:274-284 | the later of the two channels' times |
| Invalidator.Invalidator.BeginWait | internal/cache/invalidator.go:124-140 | a tracked document is served at once, any other registers a waiter |
| CoCall.InspectFuncDecl | internal/arch/cocall.go:214-246 | triggered exactly when some position of the body's tree is a trigger; satisfied exactly when every one can be given a Requires call of its own that the walk meets later; else the first trigger no later Requires call reaches, by name and line |
| CoCall.CallWalk | internal/arch/cocall.go:225-239 | the walk meets every call of the tree once, each before whatever lies below it and earlier children first |
| CoCall.CallOrder | internal/arch/cocall.go:225-239 | a call's own position comes before its function's and its arguments', the function's before the arguments', those in turn |
| CoCall.WalkUnique | internal/arch/cocall.go:225-239 | there is one such walk and one reading of its calls |
| CoCall.CallsShow | internal/arch/cocall.go:230-236 | what the rule sees at each call: whether it names the Requires function, and which trigger it is, by the form of the node alone |
| CoCall.WaitsIffNeverReached | internal/arch/cocall.go:230-244 | a trigger is left waiting if and only if no later Requires call reaches down to it |
| CoCall.NoneWaitsIffMatched | internal/arch/cocall.go:205-213 | the stack ends empty if and only if a complete matching exists |
| CoCall.GreedyIsOptimal | internal/arch/cocall.go:205-213 | no matching settles more triggers than the stack |
| CoCall.NoneWaitsIffNoDeficit | internal/arch/cocall.go:205-213 | equivalently, from every call on there are at least as many later Requires calls as triggers |
| CoCall.OldestStartsDeficit | internal/arch/cocall.go:240-244 | the reported trigger starts a suffix short by exactly the number left waiting |
| TuiVideo.WriteV2 | scripts/build-tui-video.py:146-161 | however the stream is split into events, the texts put out are together the rewrite of the whole, and nothing is left pending |
| TuiVideo.SubSplits | scripts/build-tui-video.py:51-51 | the rewrite distributes over any cut no sequence can straddle |
| TuiVideo.CutIsSafe | scripts/build-tui-video.py:88-105 | what the carry lets out never ends inside a sequence |
| TuiVideo.TrailingIncomplete | scripts/build-tui-video.py:88-105 | where the last, unfinished escape sequence begins |
| TuiVideo.UnfinishedIsNotWhole | scripts/build-tui-video.py:88-105 | what begins at the last escape character is kept back if and only if no whole sequence begins there |
| TuiVideo.FixSgrLoop | scripts/build-tui-video.py:72-85 | the index loop inverts exactly the colour triples and keeps every other parameter |
| TuiCompose.InvertsColours | scripts/build-tui-video.py:72-85 | a foreground or a background colour of three numbers is inverted |
| TuiCompose.KeepsOthers | scripts/build-tui-video.py:72-85 | a parameter that starts no such colour is kept |
| TuiCompose.SplitsAtSemicolons | scripts/build-tui-video.py:72-85 | the parameters are what stands between the semicolons, and joined again they are the sequence's |
| TuiCompose.MatchesSequences | scripts/build-tui-video.py:51-51 | exactly the SGR sequences are matched, each to its end |
| TuiCompose.RewritesSequences | scripts/build-tui-video.py:146-161 | the stream is rewritten from its head on, a sequence by its own rewrite, any other character kept |
| TuiCompose.SubComposes | scripts/build-tui-video.py:58-85 | rewriting twice is rewriting once with the composed colour maps |

## Left out

- Shelter.SubagentsConverge: from an attached connection, and each restart must come back attached, because first-attach paths do not call the follow step.
- ConvergenceGap.ConvergesIffNoOrphan: the diverging half is stated of filesystems with two other workspaces to move to.
- NonInterference.ErasingOthersChangesNothing: runs without a restart, since a restart empties the identities and with them the sharing the promise is about; the same goes for RootShield and RootLeak.
- RootLeak.RootShieldedIff: of converged connections whose refused declarations are held as RootShield.RunMarkers says, and of filesystems with two unrelated workspaces.
- Durable.RunHolds: restarts replay no other pin and the directory still verifies, as the daemon itself requires.
- FollowRace.FollowersConverge: a parent's follow is one step a child and may carry any pin, which is more than the daemon does.
- ConnSession.Session.OnSessionStart: the tool's own reply, hints and argument checks are one validity bit, and its language argument is not modelled; the shard its reply may give a lone subagent is the one an identifying tool call right after it gives.
- ConnSession.Session.OnToolCall: a session_id argument on any other tool does not defer its workspace argument here.
- Admission.SuccessDeclares: identities come without surrounding white space, which the daemon trims.
- Linkage.HandoversMatched: credential resume, which can also restore a linkage, is not modelled.
- ShardCache.Cache.Get: the read of the entry and the later stamp of its last use are one step.
- Invalidator.Invalidator.Handle: the eviction of cached results it starts with is ShardCache.Cache.InvalidateByPath; JSON decoding and the method filter come before it.
- CollabPool.OneLiveHandle: an open that returns both a handle and an error is not modelled.
- TuiCompose.SubComposes: a law of the rewrite, not a step of the script, which rewrites a stream once.
- Language overrides in session_start, boundary policies, provenance labels, health marks, logging and error texts.
- Read, write and undo trackers and their rehydration, rate limits, language-server acquisition and release, quality runner and topology.
- Failures of the durable store, and the closing of a connection in the middle of one of its own calls.
- Idle draining of pools and session files; the retry of a failed watch and its poll fallback.
- FuncDeclKey and the walk over files that feed the co-call rule.
- Reading a recording, rendering and video encoding.
