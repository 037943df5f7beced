/**
 * The legality check a link source runs before it links (CheckBasicLinkConditions and
 * CheckCanLinkTo in Source/modules/KASLinkSourceBase.cs). Both only read state, so
 * they are functions over what they read.
 */
module LinkConditions {
  import opened LinkStates
  import opened JointContract

  /** What the check reads of the source. */
  datatype SourceFacts = SourceFacts(
    linkState: LinkState, isLocked: bool, cfgLinkType: string, coupleMode: CoupleMode)

  /** What the check reads of the target (hasCoupleNode: coupleNode != null). */
  datatype TargetFacts = TargetFacts(
    linkState: LinkState, isLocked: bool, cfgLinkType: string, hasCoupleNode: bool)

  /** The source may start or finish a link: it is Available or Linking, and not locked. */
  predicate SourceAvailable(source: SourceFacts) {
    (source.linkState == Available || source.linkState == Linking) && !source.isLocked
  }

  /**
   * The target is in the state the source's state calls for (Available for a source
   * that is Available, AcceptingLinks for one that is Linking) and is not locked.
   */
  predicate TargetAccepts(source: SourceFacts, target: TargetFacts) {
    && (source.linkState == Available ==> target.linkState == Available)
    && (source.linkState == Linking ==> target.linkState == AcceptingLinks)
    && !target.isLocked
  }

  /** The target can take part in a coupled link if the source always couples. */
  predicate CanCouple(source: SourceFacts, target: TargetFacts) {
    source.coupleMode == AlwaysCoupled ==> target.hasCoupleNode
  }

  /**
   * CheckBasicLinkConditions: each error is reported iff its condition fails, whatever
   * the other conditions; the state errors only when states are checked.
   */
  function CheckBasicLinkConditions(source: SourceFacts, target: TargetFacts, checkStates: bool)
    : (errors: seq<LinkError>)
    ensures SourceNotAvailable in errors <==> checkStates && !SourceAvailable(source)
    ensures TargetDoesntAcceptLinks in errors <==> checkStates && !TargetAccepts(source, target)
    ensures IncompatibleTargetLinkType in errors <==> source.cfgLinkType != target.cfgLinkType
    ensures TargetCannotCouple in errors <==> !CanCouple(source, target)
    ensures forall e :: e in errors ==>
      e in {SourceNotAvailable, TargetDoesntAcceptLinks, IncompatibleTargetLinkType, TargetCannotCouple}
    ensures |errors| <= 4
  {
    var stateErrors :=
      if !checkStates then []
      else
        (if (source.linkState != Available && source.linkState != Linking) || source.isLocked
         then [SourceNotAvailable] else [])
        + (if (source.linkState == Available && target.linkState != Available)
              || (source.linkState == Linking && target.linkState != AcceptingLinks)
              || target.isLocked
           then [TargetDoesntAcceptLinks] else []);
    stateErrors
    + (if source.cfgLinkType != target.cfgLinkType then [IncompatibleTargetLinkType] else [])
    + (if source.coupleMode == AlwaysCoupled && !target.hasCoupleNode
       then [TargetCannotCouple] else [])
  }

  /** The renderer's collider hits, as link errors, one per hit and in the same order. */
  function CollisionErrors(hits: seq<string>): (errors: seq<LinkError>)
    ensures |errors| == |hits|
    ensures forall i :: 0 <= i < |hits| ==> errors[i] == ColliderHit(hits[i])
  {
    if hits == [] then [] else [ColliderHit(hits[0])] + CollisionErrors(hits[1..])
  }

  /**
   * Every legality error of a candidate link, in one list: the basic conditions, then
   * the renderer's collider hits, then the joint's constraints. No group stops another
   * from being checked, so every error of every group is in the list.
   */
  function LinkErrors(source: SourceFacts, target: TargetFacts, colliderHits: seq<string>,
                      limits: JointLimits, geometry: LinkGeometry, checkStates: bool)
    : (errors: seq<LinkError>)
    ensures |errors| == |CheckBasicLinkConditions(source, target, checkStates)|
                        + |colliderHits| + |CheckConstraints(limits, geometry)|
    ensures forall e :: e in CheckBasicLinkConditions(source, target, checkStates) ==> e in errors
    ensures forall h :: h in colliderHits ==> ColliderHit(h) in errors
    ensures forall e :: e in CheckConstraints(limits, geometry) ==> e in errors
  {
    var hitErrors := CollisionErrors(colliderHits);
    assert forall h :: h in colliderHits ==> ColliderHit(h) in hitErrors by {
      forall h | h in colliderHits ensures ColliderHit(h) in hitErrors {
        var i :| 0 <= i < |colliderHits| && colliderHits[i] == h;
        assert hitErrors[i] == ColliderHit(h);
      }
    }
    CheckBasicLinkConditions(source, target, checkStates) + hitErrors
    + CheckConstraints(limits, geometry)
  }

  /**
   * CheckCanLinkTo: true iff the error list is empty, that is iff every condition holds:
   * the states (when checked), the link type, coupling, no collider hit, joint limits.
   */
  function CheckCanLinkTo(source: SourceFacts, target: TargetFacts, colliderHits: seq<string>,
                          limits: JointLimits, geometry: LinkGeometry, checkStates: bool)
    : (canLink: bool)
    ensures canLink <==>
      && (checkStates ==> SourceAvailable(source) && TargetAccepts(source, target))
      && source.cfgLinkType == target.cfgLinkType
      && CanCouple(source, target)
      && colliderHits == []
      && WithinLimits(limits, geometry)
  {
    var errors := LinkErrors(source, target, colliderHits, limits, geometry, checkStates);
    assert errors == [] <==>
      CheckBasicLinkConditions(source, target, checkStates) == [] && colliderHits == []
      && CheckConstraints(limits, geometry) == [];
    errors == []
  }
}
