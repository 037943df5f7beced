/**
 * The link source of Source/modules/KASLinkSourceBase.cs as a class, with the targets,
 * the renderer and the process-wide linking events it talks to.
 */
module LinkSources {
  import opened LinkStates
  import opened JointContract
  import LinkConditions
  import LinkProtocol

  /** KASEvents.LinkEvent: who linked or unlinked what, and why. */
  datatype LinkEvent = LinkEvent(source: LinkSource, target: LinkTarget?, actor: LinkActorType)

  /** What others can observe of a source, in the order it happens. */
  datatype Occurrence =
    | StartLinkingFired(initiator: LinkSource)
    | StopLinkingFired(initiator: LinkSource)
    | LinkCreatedFired(info: LinkEvent)
    | LinkBrokenFired(info: LinkEvent)
    | LinkedStateNotified(info: LinkEvent, isLinked: bool)
    | JointCreated(source: LinkSource, target: LinkTarget)
    | JointDropped(source: LinkSource)

  /**
   * The process-wide linking events. A source listens to OnStartLinking exactly while it
   * is Available, to OnStopLinking exactly while it is RejectingLinks, and to the game's
   * vessel-destruction event exactly while it is Linked. `sources` is the
   * registry of every source of the session; `trace` records what the sources do.
   */
  class Session {
    ghost var sources: set<LinkSource>
    var onStartLinking: set<LinkSource>
    var onStopLinking: set<LinkSource>
    var onVesselWillDestroy: set<LinkSource>
    var trace: seq<Occurrence>

    ghost predicate Valid()
      reads this, sources
    {
      && onStartLinking <= sources
      && onStopLinking <= sources
      && onVesselWillDestroy <= sources
      && (forall p :: p in sources ==> p.session == this)
      && (forall p :: p in sources ==> (p in onStartLinking <==> p.linkState == Available))
      && (forall p :: p in sources ==> (p in onStopLinking <==> p.linkState == RejectingLinks))
      && (forall p :: p in sources ==> (p in onVesselWillDestroy <==> p.linkState == Linked))
    }

    constructor ()
      ensures Valid() && sources == {} && trace == []
    {
      sources, onStartLinking, onStopLinking, onVesselWillDestroy, trace := {}, {}, {}, {}, [];
    }

    /** Appends one occurrence to the trace. */
    method Record(o: Occurrence)
      modifies this`trace
      ensures trace == old(trace) + [o]
    {
      trace := trace + [o];
    }

    /**
     * Fires OnStartLinking: every listening source switches to RejectingLinks, and no
     * other source changes.
     */
    method FireStartLinking(initiator: LinkSource)
      requires Valid()
      modifies this`onStartLinking, this`onStopLinking, this`onVesselWillDestroy, this`trace
      modifies sources`linkState
      ensures Valid()
      ensures trace == old(trace) + [StartLinkingFired(initiator)]
      ensures forall p :: p in sources ==>
        p.linkState == LinkProtocol.AfterStartLinkingEvent(old(p.linkState))
    {
      trace := trace + [StartLinkingFired(initiator)];
      var pending := onStartLinking;
      while pending != {}
        invariant Valid()
        invariant pending <= onStartLinking
        invariant trace == old(trace) + [StartLinkingFired(initiator)]
        invariant forall p :: p in sources ==>
          p.linkState == if p in pending then old(p.linkState)
                         else LinkProtocol.AfterStartLinkingEvent(old(p.linkState))
        decreases pending
      {
        var p :| p in pending;
        p.OnStartLinkingKASEvent(initiator);
        pending := pending - {p};
      }
    }

    /**
     * Fires OnStopLinking: every listening source that is not locked becomes Available,
     * and no other source changes.
     */
    method FireStopLinking(initiator: LinkSource)
      requires Valid()
      modifies this`onStartLinking, this`onStopLinking, this`onVesselWillDestroy, this`trace
      modifies sources`linkState
      ensures Valid()
      ensures trace == old(trace) + [StopLinkingFired(initiator)]
      ensures forall p :: p in sources ==>
        p.linkState == LinkProtocol.AfterStopLinkingEvent(old(p.linkState), p.isLocked)
    {
      trace := trace + [StopLinkingFired(initiator)];
      var pending := onStopLinking;
      while pending != {}
        invariant Valid()
        invariant pending <= sources
        invariant forall p :: p in pending ==> p.linkState == old(p.linkState) == RejectingLinks
        invariant trace == old(trace) + [StopLinkingFired(initiator)]
        invariant forall p :: p in sources ==>
          p.linkState == if p in pending then old(p.linkState)
                         else LinkProtocol.AfterStopLinkingEvent(old(p.linkState), p.isLocked)
        decreases pending
      {
        var p :| p in pending;
        p.OnStopLinkingKASEvent(initiator);
        pending := pending - {p};
      }
    }
  }

  /** A link target, reduced to what the source reads and writes of it. */
  class LinkTarget {
    var linkState: LinkState
    var isLocked: bool
    const cfgLinkType: string
    var hasCoupleNode: bool
    var vessel: int
    var linkSource: LinkSource?

    constructor (cfgLinkType: string, linkState: LinkState, hasCoupleNode: bool, vessel: int)
      ensures this.cfgLinkType == cfgLinkType && this.linkState == linkState
      ensures this.hasCoupleNode == hasCoupleNode && this.vessel == vessel
      ensures !isLocked && linkSource == null
    {
      this.cfgLinkType, this.linkState, this.hasCoupleNode := cfgLinkType, linkState, hasCoupleNode;
      this.vessel, isLocked, linkSource := vessel, false, null;
    }

    function Facts(): (facts: LinkConditions.TargetFacts)
      reads this
    {
      LinkConditions.TargetFacts(linkState, isLocked, cfgLinkType, hasCoupleNode)
    }
  }

  /** The renderer that draws the link: running or not. */
  class LinkRenderer {
    var isStarted: bool

    constructor ()
      ensures !isStarted
    {
      isStarted := false;
    }

    method StartRenderer()
      modifies this
      ensures isStarted
    {
      isStarted := true;
    }

    method StopRenderer()
      modifies this
      ensures !isStarted
    {
      isStarted := false;
    }
  }

  /** KASLinkSourceBase: the part module that starts, makes and breaks links. */
  class LinkSource {
    const session: Session
    const linkJoint: LinkJoint
    const linkRenderer: LinkRenderer
    const cfgLinkType: string
    const coupleMode: CoupleMode
    var allowCoupling: bool
    var coupleNode: CoupleNodeState
    var isLocked: bool
    var vessel: int
    var linkState: LinkState
    var guiLinkMode: GUILinkMode
    var linkActor: LinkActorType
    var otherPeer: LinkTarget?

    /**
     * The source is registered with its session, its joint is well formed, the link
     * invariant holds and a peer knows its source.
     */
    ghost predicate Valid()
      reads this, session, session.sources, linkJoint, linkRenderer, otherPeer
    {
      && session.Valid()
      && this in session.sources
      && linkJoint.Valid()
      && LinkProtocol.Consistent(View())
      && (otherPeer != null ==> otherPeer.linkSource == this)
    }

    /** The parts of the source that the link protocol is about. */
    function View(): (view: LinkProtocol.LinkView)
      reads this, linkJoint, linkRenderer
    {
      LinkProtocol.LinkView(linkState, otherPeer != null, linkJoint.isLinked, linkRenderer.isStarted)
    }

    /** What the legality check reads of the source. */
    function Facts(): (facts: LinkConditions.SourceFacts)
      reads this
    {
      LinkConditions.SourceFacts(linkState, isLocked, cfgLinkType, coupleMode)
    }

    /** CheckCanLinkTo with the state checks on, for this source and `target`. */
    function CanLinkTo(target: LinkTarget, colliderHits: seq<string>, geometry: LinkGeometry): (canLink: bool)
      reads this, target
    {
      LinkConditions.CheckCanLinkTo(
        Facts(), target.Facts(), colliderHits, linkJoint.limits, geometry, true)
    }

    predicate IsLinked()
      reads this
    {
      linkState == Linked
    }

    /** AlwaysCoupled implies coupling is allowed; no coupling when it is not allowed. */
    ghost predicate SettingsConsistent()
      reads this, linkJoint
    {
      && (coupleMode == AlwaysCoupled ==> allowCoupling)
      && (!allowCoupling ==> !linkJoint.coupleOnLinkMode)
    }

    /** A new source: Available, unlinked, registered with `session` and listening there. */
    constructor (session: Session, linkJoint: LinkJoint, linkRenderer: LinkRenderer,
                 cfgLinkType: string, coupleMode: CoupleMode, allowCoupling: bool,
                 coupleNode: CoupleNodeState, vessel: int)
      requires session.Valid() && linkJoint.Valid() && !linkJoint.isLinked
      requires !linkRenderer.isStarted
      modifies session`sources, session`onStartLinking
      ensures Valid() && linkState == Available && otherPeer == null && !isLocked
      ensures session.sources == old(session.sources) + {this}
      ensures this.session == session && this.linkJoint == linkJoint
      ensures this.linkRenderer == linkRenderer && this.cfgLinkType == cfgLinkType
      ensures this.coupleMode == coupleMode && this.allowCoupling == allowCoupling
      ensures this.coupleNode == coupleNode && this.vessel == vessel
    {
      this.session, this.linkJoint, this.linkRenderer := session, linkJoint, linkRenderer;
      this.cfgLinkType, this.coupleMode, this.allowCoupling := cfgLinkType, coupleMode, allowCoupling;
      this.coupleNode, this.vessel := coupleNode, vessel;
      isLocked, linkState, otherPeer := false, Available, null;
      guiLinkMode, linkActor := GUILinkMode.API, LinkActorType.None;
      new;
      session.sources := session.sources + {this};
      session.onStartLinking := session.onStartLinking + {this};
    }

    /**
     * SetLinkState: every state change goes through the transition table, and leaving or
     * entering Available and RejectingLinks drops or takes the matching subscription.
     */
    method SetLinkState(state: LinkState)
      requires session.Valid() && this in session.sources
      requires CanSwitchTo(linkState, state)
      modifies this`linkState, session`onStartLinking, session`onStopLinking, session`onVesselWillDestroy
      ensures linkState == state && session.Valid()
      ensures session.onStartLinking
              == if state == Available then old(session.onStartLinking) + {this}
                 else old(session.onStartLinking) - {this}
      ensures session.onStopLinking
              == if state == RejectingLinks then old(session.onStopLinking) + {this}
                 else old(session.onStopLinking) - {this}
      ensures session.onVesselWillDestroy
              == if state == Linked then old(session.onVesselWillDestroy) + {this}
                 else old(session.onVesselWillDestroy) - {this}
    {
      if linkState == Available {
        session.onStartLinking := session.onStartLinking - {this};
      } else if linkState == RejectingLinks {
        session.onStopLinking := session.onStopLinking - {this};
      } else if linkState == Linked {
        session.onVesselWillDestroy := session.onVesselWillDestroy - {this};
      }
      linkState := state;
      if state == Available {
        session.onStartLinking := session.onStartLinking + {this};
      } else if state == RejectingLinks {
        session.onStopLinking := session.onStopLinking + {this};
      } else if state == Linked {
        session.onVesselWillDestroy := session.onVesselWillDestroy + {this};
      }
    }

    /** OnStartLinkingKASEvent: another source started linking, so reject links. */
    method OnStartLinkingKASEvent(source: LinkSource)
      requires session.Valid() && this in session.onStartLinking
      modifies this`linkState, session`onStartLinking, session`onStopLinking, session`onVesselWillDestroy
      ensures session.Valid() && linkState == RejectingLinks
      ensures session.onStartLinking == old(session.onStartLinking) - {this}
    {
      SetLinkState(RejectingLinks);
    }

    /** OnStopLinkingKASEvent: linking is over, so accept links again unless locked. */
    method OnStopLinkingKASEvent(source: LinkSource)
      requires session.Valid() && this in session.onStopLinking
      modifies this`linkState, session`onStartLinking, session`onStopLinking, session`onVesselWillDestroy
      ensures session.Valid()
      ensures linkState == LinkProtocol.AfterStopLinkingEvent(old(linkState), isLocked)
    {
      if !isLocked {
        SetLinkState(Available);
      }
    }

    /**
     * StartLinking: from Available, records the mode and actor, enters Linking and fires
     * OnStartLinking, which turns every other Available source to RejectingLinks. This
     * source has already stopped listening, so the event leaves it alone. From any other
     * state nothing changes and the result is false.
     */
    method StartLinking(mode: GUILinkMode, actor: LinkActorType) returns (started: bool)
      requires Valid()
      modifies this`linkState, this`guiLinkMode, this`linkActor
      modifies session`onStartLinking, session`onStopLinking, session`onVesselWillDestroy, session`trace
      modifies session.sources`linkState
      ensures Valid()
      ensures started <==> old(linkState) == Available
      ensures View() == LinkProtocol.StartLinking(old(View()))
      ensures guiLinkMode == (if started then mode else old(guiLinkMode))
      ensures linkActor == (if started then actor else old(linkActor))
      ensures session.trace == old(session.trace) + (if started then [StartLinkingFired(this)] else [])
      ensures forall p :: p in session.sources && p != this ==>
        p.linkState == if started then LinkProtocol.AfterStartLinkingEvent(old(p.linkState))
                       else old(p.linkState)
    {
      if !CanSwitchTo(linkState, Linking) {
        return false;
      }
      guiLinkMode := mode;
      linkActor := actor;
      SetLinkState(Linking);
      session.FireStartLinking(this);
      return true;
    }

    /**
     * CancelLinking, with the guard the protocol intends (a linking session is open):
     * back to Available, then OnStopLinking releases every rejecting source that is not
     * locked. In any other state nothing changes.
     */
    method CancelLinking()
      requires Valid()
      modifies this`linkState, session`onStartLinking, session`onStopLinking, session`onVesselWillDestroy, session`trace
      modifies session.sources`linkState
      ensures Valid()
      ensures View() == LinkProtocol.CancelLinking(old(View()))
      ensures session.trace
              == old(session.trace) + (if old(linkState) == Linking then [StopLinkingFired(this)] else [])
      ensures forall p :: p in session.sources && p != this ==>
        p.linkState == if old(linkState) == Linking
                       then LinkProtocol.AfterStopLinkingEvent(old(p.linkState), p.isLocked)
                       else old(p.linkState)
    {
      if linkState != Linking {
        return;
      }
      SetLinkState(Available);
      session.FireStopLinking(this);
    }

    /**
     * LinkToTarget: only a Linking source whose legality check passes links. It first
     * sets the coupling mode, then links logically (peer both ways, Linked, renderer,
     * listeners, OnStopLinking, OnLinkCreated) and only then creates the joint. On
     * failure nothing changes.
     */
    method LinkToTarget(target: LinkTarget, colliderHits: seq<string>, geometry: LinkGeometry)
      returns (linked: bool)
      requires Valid()
      modifies this`linkState, this`otherPeer, target`linkSource, linkJoint, linkRenderer
      modifies session`onStartLinking, session`onStopLinking, session`onVesselWillDestroy, session`trace
      modifies session.sources`linkState
      ensures Valid()
      ensures linked <==> old(linkState) == Linking && old(CanLinkTo(target, colliderHits, geometry))
      ensures View() == LinkProtocol.LinkToTarget(old(View()), old(CanLinkTo(target, colliderHits, geometry)))
      ensures !linked ==>
        && otherPeer == old(otherPeer) && target.linkSource == old(target.linkSource)
        && unchanged(linkJoint) && session.trace == old(session.trace)
        && forall p :: p in session.sources ==> p.linkState == old(p.linkState)
      ensures linked ==>
        && otherPeer == target && target.linkSource == this
        && linkJoint.linkedSource == this && linkJoint.linkedTarget == target
        && linkJoint.isUnbreakable == old(linkJoint.isUnbreakable)
        && linkJoint.coupleOnLinkMode
           == (if coupleMode == AlwaysCoupled || coupleNode == OccupiedCoupleNode then true
               else if coupleMode == NeverCouple then false
               else old(linkJoint.coupleOnLinkMode))
      ensures linked ==>
        var info := LinkEvent(this, target, linkActor);
        session.trace == old(session.trace)
          + [LinkedStateNotified(info, true), StopLinkingFired(this), LinkCreatedFired(info),
             JointCreated(this, target)]
      ensures linked ==> forall p :: p in session.sources && p != this ==>
        p.linkState == LinkProtocol.AfterStopLinkingEvent(old(p.linkState), p.isLocked)
    {
      if !CanSwitchTo(linkState, Linked) {
        return false;
      }
      if !CanLinkTo(target, colliderHits, geometry) {
        return false;
      }
      if coupleMode == AlwaysCoupled || coupleNode == OccupiedCoupleNode {
        linkJoint.SetCoupleOnLinkMode(true);
      } else if coupleMode == NeverCouple {
        linkJoint.SetCoupleOnLinkMode(false);
      }
      LogicalLink(target);
      PhysicalLink();
      return true;
    }

    /**
     * LogicalLink: peer set both ways, Linked, renderer started, same-part listeners
     * told, then OnStopLinking and OnLinkCreated fired. The joint is not touched.
     */
    method LogicalLink(target: LinkTarget)
      requires Valid() && linkState == Linking
      modifies this`linkState, this`otherPeer, target`linkSource, linkRenderer
      modifies session`onStartLinking, session`onStopLinking, session`onVesselWillDestroy, session`trace
      modifies session.sources`linkState
      ensures session.Valid() && linkState == Linked && linkRenderer.isStarted
      ensures otherPeer == target && target.linkSource == this
      ensures var info := LinkEvent(this, target, linkActor);
        session.trace == old(session.trace)
          + [LinkedStateNotified(info, true), StopLinkingFired(this), LinkCreatedFired(info)]
      ensures forall p :: p in session.sources && p != this ==>
        p.linkState == LinkProtocol.AfterStopLinkingEvent(old(p.linkState), p.isLocked)
    {
      var info := LinkEvent(this, target, linkActor);
      otherPeer := target;
      target.linkSource := this;
      SetLinkState(Linked);
      linkRenderer.StartRenderer();
      session.Record(LinkedStateNotified(info, true));
      session.FireStopLinking(this);
      session.Record(LinkCreatedFired(info));
    }

    /** PhysicalLink: creates the joint between this source and its peer. */
    method PhysicalLink()
      requires otherPeer != null
      modifies linkJoint`isLinked, linkJoint`linkedSource, linkJoint`linkedTarget, session`trace
      ensures linkJoint.Valid() && linkJoint.isLinked
      ensures linkJoint.linkedSource == this && linkJoint.linkedTarget == otherPeer
      ensures session.trace == old(session.trace) + [JointCreated(this, otherPeer)]
    {
      linkJoint.CreateJoint(this, otherPeer);
      session.Record(JointCreated(this, otherPeer));
    }

    /**
     * PhysicalUnlink: drops the joint. Dropping is safe in any joint state, so there is
     * no precondition.
     */
    method PhysicalUnlink()
      modifies linkJoint`isLinked, linkJoint`linkedSource, linkJoint`linkedTarget, session`trace
      ensures linkJoint.Valid() && !linkJoint.isLinked
      ensures session.trace == old(session.trace) + [JointDropped(this)]
    {
      linkJoint.DropJoint();
      session.Record(JointDropped(this));
    }

    /**
     * LogicalUnlink: renderer stopped, Available, peer released on both sides, the actor
     * reset to None, then OnLinkBroken (carrying the given actor) and the same-part
     * listeners told.
     */
    method LogicalUnlink(actorType: LinkActorType)
      requires session.Valid() && this in session.sources && linkState == Linked
      modifies this`linkState, this`otherPeer, this`linkActor, linkRenderer
      modifies (if otherPeer != null then {otherPeer} else {})`linkSource
      modifies session`onStartLinking, session`onStopLinking, session`onVesselWillDestroy, session`trace
      ensures session.Valid() && linkState == Available && !linkRenderer.isStarted
      ensures otherPeer == null && linkActor == LinkActorType.None
      ensures old(otherPeer) != null ==> old(otherPeer).linkSource == null
      ensures var info := LinkEvent(this, old(otherPeer), actorType);
        session.trace == old(session.trace) + [LinkBrokenFired(info), LinkedStateNotified(info, false)]
    {
      linkActor := actorType;
      var info := LinkEvent(this, otherPeer, actorType);
      linkRenderer.StopRenderer();
      SetLinkState(Available);
      if otherPeer != null {
        otherPeer.linkSource := null;
        otherPeer := null;
      }
      linkActor := LinkActorType.None;
      session.Record(LinkBrokenFired(info));
      session.Record(LinkedStateNotified(info, false));
    }

    /**
     * BreakCurrentLink: only a linked source breaks its link. The joint is dropped first,
     * then the logical link: the source ends Available with no peer, the old target no
     * longer points back, the actor is None and exactly one OnLinkBroken carries
     * `actorType`. No other source changes state.
     */
    method BreakCurrentLink(actorType: LinkActorType)
      requires Valid()
      modifies this`linkState, this`otherPeer, this`linkActor, linkJoint, linkRenderer
      modifies (if otherPeer != null then {otherPeer} else {})`linkSource
      modifies session`onStartLinking, session`onStopLinking, session`onVesselWillDestroy, session`trace
      ensures Valid()
      ensures View() == LinkProtocol.BreakCurrentLink(old(View()))
      ensures old(linkState) != Linked ==>
        && otherPeer == old(otherPeer) && linkActor == old(linkActor)
        && unchanged(linkJoint) && session.trace == old(session.trace)
      ensures old(linkState) == Linked ==>
        && otherPeer == null && old(otherPeer).linkSource == null
        && linkActor == LinkActorType.None
        && var info := LinkEvent(this, old(otherPeer), actorType);
           session.trace == old(session.trace)
             + [JointDropped(this), LinkBrokenFired(info), LinkedStateNotified(info, false)]
      ensures linkJoint.isUnbreakable == old(linkJoint.isUnbreakable)
      ensures linkJoint.coupleOnLinkMode == old(linkJoint.coupleOnLinkMode)
    {
      if !IsLinked() {
        return;
      }
      PhysicalUnlink();
      LogicalUnlink(actorType);
    }

    /**
     * LinkToTarget with an actor: starts linking on behalf of `actor` and links to
     * `target`. It succeeds only when the source was Available and the legality check,
     * taken in Linking, passes; when linking fails after the start, the session is
     * cancelled, so the source never stays in Linking.
     */
    method LinkToTargetByActor(actor: LinkActorType, target: LinkTarget, colliderHits: seq<string>,
                               geometry: LinkGeometry)
      returns (linked: bool)
      requires Valid()
      modifies this`linkState, this`otherPeer, this`guiLinkMode, this`linkActor
      modifies target`linkSource, linkJoint, linkRenderer
      modifies session`onStartLinking, session`onStopLinking, session`onVesselWillDestroy, session`trace
      modifies session.sources`linkState
      ensures Valid()
      ensures linked <==>
        && old(linkState) == Available
        && LinkConditions.CheckCanLinkTo(old(Facts()).(linkState := Linking), old(target.Facts()),
                                         colliderHits, linkJoint.limits, geometry, true)
      ensures linked ==> linkState == Linked && otherPeer == target && target.linkSource == this
      ensures linked ==> linkJoint.linkedSource == this && linkJoint.linkedTarget == target
      ensures !linked ==> View() == old(View()) && otherPeer == old(otherPeer)
      ensures !linked ==> target.linkSource == old(target.linkSource)
      ensures old(linkState) == Available ==> guiLinkMode == GUILinkMode.API && linkActor == actor
    {
      var started := StartLinking(GUILinkMode.API, actor);
      if started {
        assert Facts() == old(Facts()).(linkState := Linking);
        linked := LinkOrCancel(target, colliderHits, geometry);
      } else {
        linked := false;
      }
    }

    /**
     * The second half of LinkToTarget with an actor: from Linking, link to `target`, or
     * cancel the session when that fails and end Available.
     */
    method LinkOrCancel(target: LinkTarget, colliderHits: seq<string>, geometry: LinkGeometry)
      returns (linked: bool)
      requires Valid() && linkState == Linking
      modifies this`linkState, this`otherPeer, target`linkSource, linkJoint, linkRenderer
      modifies session`onStartLinking, session`onStopLinking, session`onVesselWillDestroy, session`trace
      modifies session.sources`linkState
      ensures Valid()
      ensures linked <==> old(CanLinkTo(target, colliderHits, geometry))
      ensures linked ==> linkState == Linked && otherPeer == target && target.linkSource == this
      ensures linked ==> linkJoint.linkedSource == this && linkJoint.linkedTarget == target
      ensures !linked ==> View() == LinkProtocol.Unlinked(Available)
      ensures !linked ==> target.linkSource == old(target.linkSource)
    {
      linked := LinkToTarget(target, colliderHits, geometry);
      if !linked {
        CancelLinking();
      }
    }

    /**
     * CheckSettingsConsistency: AlwaysCoupled forces coupling to be allowed, and coupling
     * that is not allowed switches the joint's couple-on-link mode off. Afterwards the
     * settings are consistent, and on consistent settings it changes nothing.
     */
    method CheckSettingsConsistency()
      modifies this`allowCoupling, linkJoint`coupleOnLinkMode
      ensures SettingsConsistent()
      ensures allowCoupling == (old(allowCoupling) || coupleMode == AlwaysCoupled)
      ensures linkJoint.coupleOnLinkMode == (old(linkJoint.coupleOnLinkMode) && allowCoupling)
      ensures old(SettingsConsistent()) ==>
        allowCoupling == old(allowCoupling) && linkJoint.coupleOnLinkMode == old(linkJoint.coupleOnLinkMode)
    {
      if !allowCoupling && coupleMode == AlwaysCoupled {
        allowCoupling := true;
      }
      if !allowCoupling && linkJoint.coupleOnLinkMode {
        linkJoint.SetCoupleOnLinkMode(false);
      }
    }

    /** OnPartDie: a dying part breaks its link, with the physics as the actor. */
    method OnPartDie()
      requires Valid()
      modifies this`linkState, this`otherPeer, this`linkActor, linkJoint, linkRenderer
      modifies (if otherPeer != null then {otherPeer} else {})`linkSource
      modifies session`onStartLinking, session`onStopLinking, session`onVesselWillDestroy, session`trace
      ensures Valid()
      ensures View() == LinkProtocol.BreakCurrentLink(old(View()))
      ensures old(linkState) == Linked ==>
        var info := LinkEvent(this, old(otherPeer), LinkActorType.Physics);
        session.trace == old(session.trace)
          + [JointDropped(this), LinkBrokenFired(info), LinkedStateNotified(info, false)]
      ensures old(linkState) == Linked ==>
        && otherPeer == null && old(otherPeer).linkSource == null
        && linkActor == LinkActorType.None
      ensures old(linkState) != Linked ==>
        unchanged(this) && unchanged(linkJoint) && unchanged(linkRenderer) && unchanged(session)
      ensures linkJoint.isUnbreakable == old(linkJoint.isUnbreakable)
      ensures linkJoint.coupleOnLinkMode == old(linkJoint.coupleOnLinkMode)
    {
      if IsLinked() {
        BreakCurrentLink(LinkActorType.Physics);
      }
    }

    /**
     * OnVesselWillDestroyGameEvent: the link is broken, by the physics, when the source
     * and its target are on different vessels and one of those two vessels is destroyed.
     * Otherwise nothing changes.
     */
    method OnVesselWillDestroyGameEvent(targetVessel: int) returns (broken: bool)
      requires Valid()
      modifies this`linkState, this`otherPeer, this`linkActor, linkJoint, linkRenderer
      modifies (if otherPeer != null then {otherPeer} else {})`linkSource
      modifies session`onStartLinking, session`onStopLinking, session`onVesselWillDestroy, session`trace
      ensures Valid()
      ensures broken <==>
        && old(linkState) == Linked
        && vessel != old(otherPeer).vessel
        && (targetVessel == vessel || targetVessel == old(otherPeer).vessel)
      ensures broken ==> View() == LinkProtocol.Unlinked(Available)
      ensures broken ==>
        var info := LinkEvent(this, old(otherPeer), LinkActorType.Physics);
        session.trace == old(session.trace)
          + [JointDropped(this), LinkBrokenFired(info), LinkedStateNotified(info, false)]
      ensures broken ==>
        && otherPeer == null && old(otherPeer).linkSource == null
        && linkActor == LinkActorType.None
      ensures !broken ==>
        && unchanged(this) && unchanged(linkJoint) && unchanged(linkRenderer) && unchanged(session)
        && (old(otherPeer) != null ==> old(otherPeer).linkSource == this)
      ensures linkJoint.isUnbreakable == old(linkJoint.isUnbreakable)
      ensures linkJoint.coupleOnLinkMode == old(linkJoint.coupleOnLinkMode)
    {
      broken := IsLinked() && vessel != otherPeer.vessel
                && (targetVessel == vessel || targetVessel == otherPeer.vessel);
      if broken {
        BreakCurrentLink(LinkActorType.Physics);
      }
    }
  }
}
