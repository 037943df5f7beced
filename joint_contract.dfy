/**
 * The contract of a link joint (Source/api_v1/ILinkJoint.cs): the limit queries, which
 * are pure, and the joint lifecycle, which changes the joint's state.
 */
module JointContract {
  import opened Wrappers
  import opened LinkStates

  /**
   * The joint's configured limits. A length or angle limit of zero is not enforced;
   * a break force or torque of zero is derived automatically by the joint.
   */
  datatype JointLimits = JointLimits(
    minLinkLength: real,
    maxLinkLength: real,
    linkBreakForce: real,
    linkBreakTorque: real,
    sourceLinkAngleLimit: int,
    targetLinkAngleLimit: int)

  /**
   * What the scene measures for a candidate link: the distance between the attach nodes
   * and, in degrees, the angle between each node's normal and the link.
   */
  datatype LinkGeometry = LinkGeometry(length: real, sourceAngle: real, targetAngle: real)

  /** The link length is within every limit that is enforced. */
  predicate LengthWithinLimits(limits: JointLimits, length: real) {
    && (limits.minLinkLength > 0.0 ==> length >= limits.minLinkLength)
    && (limits.maxLinkLength > 0.0 ==> length <= limits.maxLinkLength)
  }

  /** An angle is within its limit, or the limit is zero and so not checked. */
  predicate AngleWithinLimit(limit: int, angle: real) {
    limit > 0 ==> angle <= limit as real
  }

  /** Every enforced limit of the joint holds for the measured link. */
  predicate WithinLimits(limits: JointLimits, geometry: LinkGeometry) {
    && LengthWithinLimits(limits, geometry.length)
    && AngleWithinLimit(limits.sourceLinkAngleLimit, geometry.sourceAngle)
    && AngleWithinLimit(limits.targetLinkAngleLimit, geometry.targetAngle)
  }

  /**
   * CheckLengthLimit: an error iff the length is outside the limits, none otherwise.
   * A zero minimum or maximum is never the cause of an error.
   */
  function CheckLengthLimit(limits: JointLimits, length: real): (error: Option<LinkError>)
    ensures error.None? <==> LengthWithinLimits(limits, length)
    ensures error == Some(LinkTooShort) ==> limits.minLinkLength > 0.0 && length < limits.minLinkLength
    ensures error == Some(LinkTooLong) ==> limits.maxLinkLength > 0.0 && length > limits.maxLinkLength
    ensures error.Some? ==> error == Some(LinkTooShort) || error == Some(LinkTooLong)
  {
    if limits.minLinkLength > 0.0 && length < limits.minLinkLength then Some(LinkTooShort)
    else if limits.maxLinkLength > 0.0 && length > limits.maxLinkLength then Some(LinkTooLong)
    else Option.None
  }

  /**
   * CheckAngleLimitAtSource: an error iff the source limit is enforced and the angle at
   * the source exceeds it. Nothing about the target side takes part.
   */
  function CheckAngleLimitAtSource(limits: JointLimits, sourceAngle: real): (error: Option<LinkError>)
    ensures error.None? <==> AngleWithinLimit(limits.sourceLinkAngleLimit, sourceAngle)
    ensures error.Some? ==> error.value == SourceAngleOverLimit
  {
    if limits.sourceLinkAngleLimit > 0 && sourceAngle > limits.sourceLinkAngleLimit as real
    then Some(SourceAngleOverLimit)
    else Option.None
  }

  /**
   * CheckAngleLimitAtTarget: an error iff the target limit is enforced and the angle at
   * the target exceeds it. Nothing about the source side takes part.
   */
  function CheckAngleLimitAtTarget(limits: JointLimits, targetAngle: real): (error: Option<LinkError>)
    ensures error.None? <==> AngleWithinLimit(limits.targetLinkAngleLimit, targetAngle)
    ensures error.Some? ==> error.value == TargetAngleOverLimit
  {
    if limits.targetLinkAngleLimit > 0 && targetAngle > limits.targetLinkAngleLimit as real
    then Some(TargetAngleOverLimit)
    else Option.None
  }

  /** The errors of an optional check, as a list of at most one. */
  function ErrorList(error: Option<LinkError>): (errors: seq<LinkError>)
    ensures error.None? <==> errors == []
    ensures forall e :: e in errors <==> error == Some(e)
  {
    if error.Some? then [error.value] else []
  }

  /**
   * The joint's constraint check: the length, source angle and target angle checks, in
   * this order, each reported on its own (one failing check hides no other).
   */
  function CheckConstraints(limits: JointLimits, geometry: LinkGeometry): (errors: seq<LinkError>)
    ensures errors == [] <==> WithinLimits(limits, geometry)
    ensures |errors| <= 3
    ensures (LinkTooShort in errors || LinkTooLong in errors)
            <==> !LengthWithinLimits(limits, geometry.length)
    ensures SourceAngleOverLimit in errors
            <==> !AngleWithinLimit(limits.sourceLinkAngleLimit, geometry.sourceAngle)
    ensures TargetAngleOverLimit in errors
            <==> !AngleWithinLimit(limits.targetLinkAngleLimit, geometry.targetAngle)
  {
    ErrorList(CheckLengthLimit(limits, geometry.length))
    + ErrorList(CheckAngleLimitAtSource(limits, geometry.sourceAngle))
    + ErrorList(CheckAngleLimitAtTarget(limits, geometry.targetAngle))
  }

  /**
   * A joint as its source sees it: whether it is materialised (and between whom),
   * whether it is unbreakable and whether the link couples the vessels.
   */
  class LinkJoint {
    const limits: JointLimits
    var isLinked: bool
    var isUnbreakable: bool
    var coupleOnLinkMode: bool
    var linkedSource: object?
    var linkedTarget: object?

    /** A materialised joint knows both of its ends; a dropped one knows neither. */
    ghost predicate Valid()
      reads this
    {
      && (isLinked <==> linkedSource != null)
      && (linkedSource != null <==> linkedTarget != null)
    }

    constructor (limits: JointLimits)
      ensures Valid() && this.limits == limits
      ensures !isLinked && !isUnbreakable && !coupleOnLinkMode
    {
      this.limits := limits;
      isLinked, isUnbreakable, coupleOnLinkMode := false, false, false;
      linkedSource, linkedTarget := null, null;
    }

    /**
     * CreateJoint: materialises the joint between the two ends, replacing any joint
     * that exists. It demands nothing of the ends: they need not know each other yet.
     */
    method CreateJoint(source: object, target: object)
      modifies this`isLinked, this`linkedSource, this`linkedTarget
      ensures Valid() && isLinked
      ensures linkedSource == source && linkedTarget == target
    {
      isLinked := true;
      linkedSource, linkedTarget := source, target;
    }

    /** DropJoint: safe in any state, including a joint that is not valid; never fails. */
    method DropJoint()
      modifies this`isLinked, this`linkedSource, this`linkedTarget
      ensures Valid() && !isLinked
    {
      isLinked := false;
      linkedSource, linkedTarget := null, null;
    }

    /** AdjustJoint: only toggles breakability; a call without argument makes it breakable. */
    method AdjustJoint(isUnbreakable: bool := false)
      modifies this`isUnbreakable
      ensures this.isUnbreakable == isUnbreakable
    {
      this.isUnbreakable := isUnbreakable;
    }

    /** SetCoupleOnLinkMode: records whether the link couples the vessels. */
    method SetCoupleOnLinkMode(isCoupleOnLink: bool)
      modifies this`coupleOnLinkMode
      ensures coupleOnLinkMode == isCoupleOnLink
    {
      coupleOnLinkMode := isCoupleOnLink;
    }
  }
}
