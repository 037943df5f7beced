# KAS link source, joint contract and physics child, in Dafny

This project models three pieces of the Kerbal Attachment System (KAS).

1. **The link source.** `KASLinkSourceBase` is the part module that starts a linking session. It links to a target, or cancels, and it breaks links. Its state machine is modelled. So are the process-wide "start linking" / "stop linking" events that move every other source between Available and RejectingLinks. The model also covers the legality check that gathers every reason a link cannot be made, and the order of the logical and physical steps of linking and unlinking.
2. **The joint contract.** `ILinkJoint` defines what a limit of zero means, the length and angle checks, and the joint lifecycle: create, drop (safe in any state) and adjust.
3. **The physics child.** `KASModulePhysicChild` hands a child object to the physics engine and takes it back. It keeps it frozen while the part is packed and re-aligns it one physics frame later.

Layout:

| File | Module | What it contains |
|---|---|---|
| `wrappers.dfy` | `Wrappers` | `Option` |
| `link_states.dfy` | `LinkStates` | States, actors, modes, legality errors, the transition table, and lemmas about any run of states |
| `joint_contract.dfy` | `JointContract` | The limit checks as functions over `real`; the `LinkJoint` class |
| `link_conditions.dfy` | `LinkConditions` | `CheckBasicLinkConditions` and `CheckCanLinkTo` as functions of what they read |
| `link_protocol.dfy` | `LinkProtocol` | The link invariant of one source, each operation as a step function, and the bus reactions |
| `link_sources.dfy` | `LinkSources` | The classes: `Session` (the event bus and a trace of what was fired), `LinkTarget`, `LinkRenderer` and `LinkSource` |
| `physic_child.dfy` | `PhysicChild` | The module state, each handler as a step function, and the `KASModulePhysicChild` class proved to follow them |

The protocol operations of the source class (StartLinking, CancelLinking, LinkToTarget, BreakCurrentLink, OnPartDie, OnVesselWillDestroyGameEvent) and every handler of the physics child are proved against a step function on values. For example, `View() == LinkProtocol.StartLinking(old(View()))`. The properties are proved on the step functions and their runs. The remaining methods (SetLinkState, LogicalLink, LogicalUnlink, LinkToTargetByActor, LinkOrCancel, CheckSettingsConsistency and the bus) state their new state directly. The event bus is the `Session` class:
- a source is subscribed to OnStartLinking exactly while it is Available;
- it is subscribed to OnStopLinking exactly while it is RejectingLinks;
- it is subscribed to the vessel-destruction event exactly while it is Linked;
- firing an event runs the handler of every subscriber;
- every fire, every joint creation or drop, and every notification is appended to `Session.trace`, so the order of effects is part of each method's contract.

## Model

| member | source | states |
|---|---|---|
| LinkStates.AllowedTransitions | Source/modules/KASLinkSourceBase.cs:284-304 | The transition table. No state switches to itself and nothing switches to AcceptingLinks. Linked is reachable only from Linking, and Linking only from Available. Available is reachable from every other source state. Locked is reachable only from Available or RejectingLinks, and RejectingLinks and NodeIsBlocked only from Available |
| LinkStates.EveryLinkHasItsOwnSession | Source/modules/KASLinkSourceBase.cs:284-304 | Along any run allowed by the table that does not start Linked, each entry into Linked uses up its own entry into Linking (counting a session still open at the end) |
| LinkStates.RelinkPassesThroughAvailableAndLinking | Source/modules/KASLinkSourceBase.cs:284-304 | Between two Linked states of an allowed run, the source passes through Available and then Linking |
| JointContract.CheckLengthLimit | Source/api_v1/ILinkJoint.cs:82-86 | Error iff the length is outside the limits; a minimum or maximum of 0 is never the cause; the error names the violated bound |
| JointContract.CheckAngleLimitAtSource | Source/api_v1/ILinkJoint.cs:88-92 | Error iff the source limit is non-zero and the source angle exceeds it; independent of the target side |
| JointContract.CheckAngleLimitAtTarget | Source/api_v1/ILinkJoint.cs:94-98 | Error iff the target limit is non-zero and the target angle exceeds it; independent of the source side |
| JointContract.ErrorList | Source/api_v1/ILinkJoint.cs:85 | A null result becomes no error; an error becomes a one-element list |
| JointContract.CheckConstraints | Source/modules/KASLinkSourceBase.cs:588 | No error iff every enforced limit holds. Each of the three checks reports on its own: a length error iff the length is out of limits, and an angle error iff that angle is over its limit |
| JointContract.LinkJoint.constructor | Source/api_v1/ILinkJoint.cs:17-48 | A new joint is not linked, breakable and not coupling, with the given limits |
| JointContract.LinkJoint.CreateJoint | Source/api_v1/ILinkJoint.cs:50-65 | Links the joint between the two given ends, with no precondition on them |
| JointContract.LinkJoint.DropJoint | Source/api_v1/ILinkJoint.cs:67-72 | From any state, even an inconsistent one, ends with a valid unlinked joint |
| JointContract.LinkJoint.AdjustJoint | Source/api_v1/ILinkJoint.cs:74-80 | Sets only breakability; the default argument makes the joint breakable |
| JointContract.LinkJoint.SetCoupleOnLinkMode | Source/modules/KASLinkSourceBase.cs:414 | Records whether the link couples the vessels |
| LinkConditions.CheckBasicLinkConditions | Source/modules/KASLinkSourceBase.cs:690-710 | Each of the four errors appears iff its condition holds. "Source not available" needs the state checks on and the source neither Available nor Linking, or locked. "Target doesn't accept" needs the state checks on and a target not Available (source Available), a target not AcceptingLinks (source Linking), or a locked target. "Incompatible type" appears iff the link types differ. "Cannot couple" appears iff AlwaysCoupled and the target has no couple node. Nothing else appears |
| LinkConditions.CollisionErrors | Source/modules/KASLinkSourceBase.cs:587 | One collider error per hit, in order |
| LinkConditions.LinkErrors | Source/modules/KASLinkSourceBase.cs:584-588 | The concatenation of the basic, collider and joint errors, with no short-circuit: the length is the sum, and every error of every group is present |
| LinkConditions.CheckCanLinkTo | Source/modules/KASLinkSourceBase.cs:582-601 | True iff the source is available (when checked), the target accepts (when checked), the types match, coupling is possible, there is no collider hit and every joint limit holds |
| LinkProtocol.AfterStartLinkingEvent | Source/modules/KASLinkSourceBase.cs:719-721 | A start event leaves a source rejecting iff it was Available (listening) or already rejecting; any source not Available is untouched |
| LinkProtocol.AfterStopLinkingEvent | Source/modules/KASLinkSourceBase.cs:728-732 | A stop event leaves a source Available iff it already was, or it was rejecting and not locked; any source not rejecting is untouched |
| LinkProtocol.StartLinking | Source/modules/KASLinkSourceBase.cs:512-525 | Enters Linking exactly from Available; in any other state the source is unchanged |
| LinkProtocol.CancelLinkingAsWritten | Source/modules/KASLinkSourceBase.cs:528-535 | As written: ends Available from every state a source uses, Linked and Locked included, and changes nothing but the state (see Findings) |
| LinkProtocol.CancelLinking | Source/modules/KASLinkSourceBase.cs:528-535 | Corrected: Available exactly from Linking (or already Available); in any other state the source is unchanged |
| LinkProtocol.LinkToTarget | Source/modules/KASLinkSourceBase.cs:538-558 | From Linking with a passing check: Linked, with a peer, a joint and a drawing. In every other case the source is unchanged, so it ends Linked iff it already was or that case applied |
| LinkProtocol.BreakCurrentLink | Source/modules/KASLinkSourceBase.cs:572-579 | A linked source ends Available with no peer, joint or drawing; any other source is unchanged |
| LinkProtocol.Step | Source/modules/KASLinkSourceBase.cs:512-579 | Each operation and each bus event keeps the link invariant (Linked iff a peer iff a joint iff drawn) |
| LinkProtocol.Run | Source/modules/KASLinkSourceBase.cs:512-579 | Any sequence of operations and bus events keeps the link invariant |
| LinkProtocol.CancelLinkingAsWrittenBreaksTheLink | Source/modules/KASLinkSourceBase.cs:528-535 | The written guard admits a linked source. It then reports Available while its peer, joint and drawing remain, which breaks the invariant. It also admits a Locked source, which it unlocks |
| LinkProtocol.CancelLinkingAgreesWhileLinking | Source/modules/KASLinkSourceBase.cs:528-535 | In a linking session, the corrected and written versions agree |
| LinkProtocol.StartThenStopRestoresListeners | Source/modules/KASLinkSourceBase.cs:719-732 | A start event and then a stop event give a listener back its state, unless it was already rejecting or is an Available source that is locked |
| LinkSources.Session.FireStartLinking | Source/modules/KASLinkSourceBase.cs:305-308 | Every subscribed (Available) source switches to RejectingLinks; no other source changes; the subscription invariant holds; one fire is recorded |
| LinkSources.Session.FireStopLinking | Source/modules/KASLinkSourceBase.cs:309-312 | Every subscribed (RejectingLinks) source that is not locked becomes Available; no other source changes; one fire is recorded |
| LinkSources.LinkSource.constructor | Source/modules/KASLinkSourceBase.cs:305-308 | A new source is Available and unlinked, registered with its session, and listening for starts |
| LinkSources.LinkSource.SetLinkState | Source/modules/KASLinkSourceBase.cs:284-324 | Only allowed transitions. Leaving or entering Available, RejectingLinks or Linked drops or takes exactly the matching subscription |
| LinkSources.LinkSource.OnStartLinkingKASEvent | Source/modules/KASLinkSourceBase.cs:719-721 | A listening source switches to RejectingLinks and stops listening for starts |
| LinkSources.LinkSource.OnStopLinkingKASEvent | Source/modules/KASLinkSourceBase.cs:728-732 | A listening source becomes Available unless it is locked |
| LinkSources.LinkSource.StartLinking | Source/modules/KASLinkSourceBase.cs:512-525 | True iff the source was Available. Then mode and actor are recorded, the source is Linking, the start is fired once, and every other Available source is rejecting. Otherwise nothing changes and nothing is fired |
| LinkSources.LinkSource.CancelLinking | Source/modules/KASLinkSourceBase.cs:528-535 | From Linking: Available, then the stop fired once, and every other rejecting, unlocked source is released. In any other state nothing changes (corrected guard) |
| LinkSources.LinkSource.LinkToTarget | Source/modules/KASLinkSourceBase.cs:538-558 | True iff Linking and the check passed; otherwise nothing changes. On success the couple mode is set as configured, the peer is set both ways, and the joint joins source and target. The trace is: linked notification, stop fired, link created, joint created |
| LinkSources.LinkSource.LinkToTargetByActor | Source/modules/KASLinkSourceBase.cs:561-569 | True iff the source was Available and the check, taken in Linking, passed. On failure the source is as before, never left in Linking |
| LinkSources.LinkSource.LinkOrCancel | Source/modules/KASLinkSourceBase.cs:563-567 | From Linking: linked to the target if the check passes, otherwise cancelled back to Available and unlinked |
| LinkSources.LinkSource.LogicalLink | Source/modules/KASLinkSourceBase.cs:631-642 | Peer both ways, Linked, renderer on; then the notification, the stop and the link-created event, in that order; no joint yet |
| LinkSources.LinkSource.PhysicalLink | Source/modules/KASLinkSourceBase.cs:667-669 | The joint joins this source and its peer; recorded once |
| LinkSources.LinkSource.LogicalUnlink | Source/modules/KASLinkSourceBase.cs:649-663 | Renderer off, Available, peer released both ways, actor None. The link-broken event carries the given actor, then the unlinked notification |
| LinkSources.LinkSource.PhysicalUnlink | Source/modules/KASLinkSourceBase.cs:673-675 | The joint is dropped, in any state; recorded once |
| LinkSources.LinkSource.BreakCurrentLink | Source/modules/KASLinkSourceBase.cs:572-579 | Not linked: nothing changes. Linked: the joint is dropped before the logical unlink, the source ends Available with no peer, the old target no longer points back, the actor is None, and exactly one link-broken event carries the actor |
| LinkSources.LinkSource.CheckSettingsConsistency | Source/modules/KASLinkSourceBase.cs:404-419 | Afterwards AlwaysCoupled implies coupling allowed, and no coupling is allowed implies no couple-on-link; the new values are given exactly; on settings that were already consistent nothing changes (idempotent) |
| LinkSources.LinkSource.OnPartDie | Source/modules/KASLinkSourceBase.cs:475-480 | A linked source breaks its link with the physics as actor: the joint is dropped first, the source ends Available with no peer, the old target no longer points back, the actor is None and one link-broken event carries Physics. Otherwise nothing changes. The joint's breakability and couple mode are kept in both cases |
| LinkSources.LinkSource.OnVesselWillDestroyGameEvent | Source/modules/KASLinkSourceBase.cs:739-746 | Breaks the link (physics actor) iff linked, the two ends are on different vessels, and one of those is destroyed. Then the source is unlinked and Available, the old target no longer points back, the actor is None and the trace holds the drop and the broken event. Otherwise nothing changes: the same peer, which still points back, the same actor, joint and renderer |
| PhysicChild.Initial | Plugins/Source/KASModulePhysicChild.cs:8-13 | A fresh module is off, with the child on the part and no body, and has the given mass setting |
| PhysicChild.Started | Plugins/Source/KASModulePhysicChild.cs:18-31 | From off: a non-kinematic body with the module's current mass setting, no gravity, the part's velocities; the child leaves the part. When already on, nothing changes. The invariant is kept |
| PhysicChild.Stopped | Plugins/Source/KASModulePhysicChild.cs:35-44 | Off, no body, child on the part; when already off, nothing else changes |
| PhysicChild.Packed | Plugins/Source/KASModulePhysicChild.cs:48-57 | When on: the pose relative to the part is recorded, the body is frozen with its velocities, the child is on the part, and a resync is pending. When off, nothing changes |
| PhysicChild.Unpacked | Plugins/Source/KASModulePhysicChild.cs:61-73 | Only when on and frozen: the child leaves the part, is put back at the recorded pose and unfrozen, and a resync is pending. Otherwise nothing changes |
| PhysicChild.Resynced | Plugins/Source/KASModulePhysicChild.cs:97-109 | A pending resync re-applies the recorded pose. A simulated body takes the part's velocities; a frozen body keeps its own |
| PhysicChild.AfterFixedUpdate | Plugins/Source/KASModulePhysicChild.cs:84-91 | Gravity is applied only to a simulated body of an active module; nothing else changes |
| PhysicChild.Destroyed | Plugins/Source/KASModulePhysicChild.cs:76-81 | No body remains and physics is off |
| PhysicChild.Step | Plugins/Source/KASModulePhysicChild.cs:18-109 | Every handler, and an assignment to the public mass, keeps the invariant: on iff a body, a body without built-in gravity, child on the part iff not simulated |
| PhysicChild.Run | Plugins/Source/KASModulePhysicChild.cs:18-109 | Any sequence of handlers keeps the invariant |
| PhysicChild.NoBodyWithoutStart | Plugins/Source/KASModulePhysicChild.cs:18-109 | Without StartPhysics, an inactive module never gets a body and its child stays on the part |
| PhysicChild.StartThenStopRestores | Plugins/Source/KASModulePhysicChild.cs:18-44 | StopPhysics after StartPhysics returns an inactive module to exactly its previous state |
| PhysicChild.StartAndStopAreIdempotent | Plugins/Source/KASModulePhysicChild.cs:18-44 | Calling StartPhysics or StopPhysics twice equals calling it once |
| PhysicChild.PackUnpackResyncRestores | Plugins/Source/KASModulePhysicChild.cs:48-109 | Pack, unpack and the resync put a simulated child back at its pose relative to the part, simulated, with the part's current velocities and its applied accelerations kept |
| PhysicChild.ResyncWhilePackedKeepsVelocities | Plugins/Source/KASModulePhysicChild.cs:48-109 | A resync while packed keeps the frozen body, its velocities and the child on the part |
| PhysicChild.KASModulePhysicChild.constructor | Plugins/Source/KASModulePhysicChild.cs:8-13 | A new module is in the initial state; its mass setting is the given one, 0.01 by default, and stays assignable |
| PhysicChild.KASModulePhysicChild.StartPhysics | Plugins/Source/KASModulePhysicChild.cs:18-31 | The new state is `Started` of the old state and the part's motion |
| PhysicChild.KASModulePhysicChild.StopPhysics | Plugins/Source/KASModulePhysicChild.cs:35-44 | The new state is `Stopped` of the old state |
| PhysicChild.KASModulePhysicChild.OnPartPack | Plugins/Source/KASModulePhysicChild.cs:48-57 | The new state is `Packed` of the old state |
| PhysicChild.KASModulePhysicChild.OnPartUnpack | Plugins/Source/KASModulePhysicChild.cs:61-73 | The new state is `Unpacked` of the old state |
| PhysicChild.KASModulePhysicChild.OnDestroy | Plugins/Source/KASModulePhysicChild.cs:76-81 | The new state is `Destroyed` of the old state |
| PhysicChild.KASModulePhysicChild.FixedUpdate | Plugins/Source/KASModulePhysicChild.cs:84-91 | The new state is `AfterFixedUpdate` of the old state and the vessel's gravity |
| PhysicChild.KASModulePhysicChild.WaitPhysicUpdate | Plugins/Source/KASModulePhysicChild.cs:97-98 | Scheduling the coroutine sets the pending-resync flag |
| PhysicChild.KASModulePhysicChild.ResyncAfterPhysicUpdate | Plugins/Source/KASModulePhysicChild.cs:99-108 | The new state is `Resynced` of the old state and the part's motion |

## Left out

- Source/api_v1/ILinkJoint.cs (the v1 interface) declares neither `CheckConstraints`, `coupleOnLinkMode` nor `SetCoupleOnLinkMode`, yet KASLinkSourceBase.cs calls all three. `CheckConstraints` is modelled as the length check followed by the two angle checks, each reported on its own. The couple mode is a plain flag on the joint.
- JointContract.CheckConstraints: the order of the three checks inside it is not fixed by ILinkJoint.cs; only which errors appear is meaningful.
- The legality check's order is basic errors, then collider hits, then joint constraints (Source/modules/KASLinkSourceBase.cs:584-588).
- Geometry: the link length, the two angles and the renderer's collider hits (`CheckColliderHits`) are inputs. The vector arithmetic that produces them runs in the game engine and is not part of this model.
- `AbstractLinkPeer` is not part of this model. `SetLinkState`, `SetOtherPeer`, `isLinked` and `CheckCanSwitchTo` are given minimal versions. `isLocked` is an independent flag, and `otherPeer` doubles as `linkTarget`.
- Targets are passive: the target module (`KASLinkTargetBase`) is not part of this model, so its own reactions to the linking events (Available to AcceptingLinks on a start, back on a stop) and to `linkSource` being set are not modelled. Two consequences follow.
- LinkSources.LinkSource.LinkToTargetByActor: with a target that is Available when called, it always returns false in the model. The start event that would turn such a target AcceptingLinks is not modelled, so the legality check, taken in Linking, sees a target that does not accept. The pre-attached coupling path of `CheckCoupleNode` (Source/modules/KASLinkSourceBase.cs:369-376) relies on that reaction.
- LinkSources.LinkSource.Valid: the link invariant is proved for each source on its own, not across a session. Nothing stops two Linking sources from linking the same target, because the target never leaves AcceptingLinks in the model. Afterwards the first source's peer points back to the second source.
- The `AsyncCall` end-of-frame deferrals and `CheckCoupleNode` (attach-node reconciliation through the game's part graph and `decouple()`) are left out; they are engine scheduling and game state.
- `RestoreOtherPeer`, `InitStartState` (discovery of the joint and renderer modules by type scan) and the collision-ignore setup are left out. The model takes the joint and the renderer as given.
- User-facing messages, sounds, localisation, `GetInfo`/`GetModuleTitle`, the context-menu injection in the Linked handlers, `UpdateContextMenu` and the debug-adjustables reload are left out: they are user interface only.
- The same-part `ILinkStateEventListener` notifications are one trace entry each (`LinkedStateNotified`), not a call per listener.
- The bus runs subscribers in an unspecified order. `Session.FireStartLinking` and `Session.FireStopLinking` prove the outcome for any order; the per-subscriber order of effects is not modelled.
- LinkSources.LinkSource.CancelLinking uses the corrected guard (see Findings); the written guard is `LinkProtocol.CancelLinkingAsWritten`.
- `ControllerWinchRemote` (an on-screen window), `KASEvents` (event channel declarations; the bus is `Session`) and `ILinkVesselInfo` (two property declarations) are not part of this model.
- KASModulePhysicChild: positions, rotations, velocities and gravity are copied values, and no arithmetic is done on them. The pose is kept relative to the part, and physics motion while the child is free is not modelled.
- PhysicChild.KASModulePhysicChild.WaitPhysicUpdate: the coroutine is one pending flag, so two resyncs scheduled before the next physics frame run as one. The velocity copy is skipped when the body no longer exists: there the source would dereference a destroyed component after re-applying the pose. Unity's deferred `Destroy` is also not modelled.
- The debug logging in every operation is left out.

## Findings

| source | as written | input that shows it | evidently intended | confidence | as-written member | corrected member |
|---|---|---|---|---|---|---|
| Source/modules/KASLinkSourceBase.cs:528-535 | `CancelLinking` proceeds whenever the state machine allows a switch to Available. That is every state except Available, Linked and Locked included | A Linked source on which `CancelLinking` is called: it becomes Available and fires the stop event, while its peer, the target's back-reference and the joint remain. A Locked source is unlocked the same way | Cancel only an open linking session (state Linking), as its name and the linking protocol say | medium, not executed | LinkProtocol.CancelLinkingAsWrittenBreaksTheLink | LinkSources.LinkSource.CancelLinking |
