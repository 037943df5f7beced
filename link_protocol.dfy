/**
 * The link protocol of one source, on values: what each operation of
 * Source/modules/KASLinkSourceBase.cs does to the source's state, its peer, its joint
 * and its renderer, and what the process-wide linking events do to a listening source.
 * The source class is proved to follow these functions step by step.
 */
module LinkProtocol {
  import opened LinkStates

  /**
   * The parts of a source that the link invariant ties together: its state, whether it
   * has a peer (otherPeer != null), whether its joint exists, whether its renderer runs.
   */
  datatype LinkView = LinkView(state: LinkState, hasPeer: bool, jointLinked: bool, rendering: bool)

  /** Linked iff there is a peer iff the joint exists iff the link is drawn. */
  predicate Consistent(v: LinkView) {
    && (v.state == Linked <==> v.hasPeer)
    && (v.hasPeer <==> v.jointLinked)
    && (v.jointLinked <==> v.rendering)
  }

  /** A source that is neither linked nor drawing a link, in state `s`. */
  function Unlinked(s: LinkState): (v: LinkView)
    ensures Consistent(v) <==> s != Linked
  {
    LinkView(s, false, false, false)
  }

  /**
   * OnStartLinkingKASEvent as seen by any source: only a source that is Available is
   * listening, and it starts rejecting links.
   */
  function AfterStartLinkingEvent(s: LinkState): (r: LinkState)
    ensures r == RejectingLinks <==> s == Available || s == RejectingLinks
    ensures s != Available ==> r == s
  {
    if s == Available then RejectingLinks else s
  }

  /**
   * OnStopLinkingKASEvent as seen by any source: only a source that is RejectingLinks is
   * listening, and it becomes Available again unless it is locked.
   */
  function AfterStopLinkingEvent(s: LinkState, isLocked: bool): (r: LinkState)
    ensures r == Available <==> s == Available || (s == RejectingLinks && !isLocked)
    ensures s != RejectingLinks ==> r == s
  {
    if s == RejectingLinks && !isLocked then Available else s
  }

  /** StartLinking: enters Linking when that is allowed, and does nothing otherwise. */
  function StartLinking(v: LinkView): (r: LinkView)
    ensures r.state == Linking <==> v.state == Available || v.state == Linking
    ensures v.state != Available ==> r == v
  {
    if CanSwitchTo(v.state, Linking) then v.(state := Linking) else v
  }

  /**
   * CancelLinking as the source writes it: it acts whenever Available is reachable, that
   * is in every state but Available, Linked included.
   */
  function CancelLinkingAsWritten(v: LinkView): (r: LinkView)
    ensures r.state == Available <==> v.state != AcceptingLinks
    ensures r == v.(state := r.state)
  {
    if CanSwitchTo(v.state, Available) then v.(state := Available) else v
  }

  /** CancelLinking as intended: it ends a linking session and does nothing otherwise. */
  function CancelLinking(v: LinkView): (r: LinkView)
    ensures r.state == Available <==> v.state == Linking || v.state == Available
    ensures v.state != Linking ==> r == v
  {
    if v.state == Linking then v.(state := Available) else v
  }

  /**
   * LinkToTarget: when Linked is reachable (the source is Linking) and the legality
   * check passes, the source is linked to a peer, the link is drawn and the joint
   * created; otherwise nothing changes.
   */
  function LinkToTarget(v: LinkView, canLink: bool): (r: LinkView)
    ensures r.state == Linked <==> v.state == Linked || (v.state == Linking && canLink)
    ensures v.state == Linking && canLink ==> r == LinkView(Linked, true, true, true)
    ensures !(v.state == Linking && canLink) ==> r == v
  {
    if CanSwitchTo(v.state, Linked) && canLink then LinkView(Linked, true, true, true) else v
  }

  /**
   * BreakCurrentLink: a linked source drops its joint, then its peer and its drawing, and
   * is Available again; a source that is not linked is left as it is.
   */
  function BreakCurrentLink(v: LinkView): (r: LinkView)
    ensures v.state == Linked ==> r == Unlinked(Available)
    ensures v.state != Linked ==> r == v
  {
    if v.state == Linked then Unlinked(Available) else v
  }

  /** One thing that can happen to a source: one of its own operations or a bus event. */
  datatype Event =
    | Start
    | Cancel
    | Link(canLink: bool)
    | Break
    | OtherSourceStarted
    | OtherSourceStopped(isLocked: bool)

  /** The source after one event. */
  function Step(v: LinkView, e: Event): (r: LinkView)
    ensures Consistent(v) ==> Consistent(r)
  {
    match e
    case Start => StartLinking(v)
    case Cancel => CancelLinking(v)
    case Link(canLink) => LinkToTarget(v, canLink)
    case Break => BreakCurrentLink(v)
    case OtherSourceStarted => v.(state := AfterStartLinkingEvent(v.state))
    case OtherSourceStopped(isLocked) => v.(state := AfterStopLinkingEvent(v.state, isLocked))
  }

  /**
   * The source after any sequence of events. Whatever the sequence, a consistent source
   * stays consistent: never linked without a peer and a joint, never the other way round.
   */
  function Run(v: LinkView, events: seq<Event>): (r: LinkView)
    ensures Consistent(v) ==> Consistent(r)
    decreases |events|
  {
    if events == [] then v else Run(Step(v, events[0]), events[1..])
  }

  /**
   * What the source's CancelLinking guard lets through: called on a linked source it
   * reports Available while the peer, the joint and the drawing stay; called on a locked
   * source it unlocks it.
   */
  lemma CancelLinkingAsWrittenBreaksTheLink()
    ensures Consistent(LinkView(Linked, true, true, true))
    ensures CancelLinkingAsWritten(LinkView(Linked, true, true, true))
            == LinkView(Available, true, true, true)
    ensures !Consistent(CancelLinkingAsWritten(LinkView(Linked, true, true, true)))
    ensures CancelLinkingAsWritten(Unlinked(Locked)).state == Available
  {
  }

  /** Where a linking session is open, the correction agrees with the source. */
  lemma CancelLinkingAgreesWhileLinking(v: LinkView)
    requires v.state == Linking
    ensures CancelLinking(v) == CancelLinkingAsWritten(v)
  {
  }

  /**
   * A start and a stop of linking by another source give every listening source back its
   * state, except a source that was already rejecting (it is released) and an Available
   * source that is locked (it stays rejecting).
   */
  lemma StartThenStopRestoresListeners(s: LinkState, isLocked: bool)
    requires s != RejectingLinks
    requires !(s == Available && isLocked)
    ensures AfterStopLinkingEvent(AfterStartLinkingEvent(s), isLocked) == s
  {
  }
}
