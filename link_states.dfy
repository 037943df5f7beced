/**
 * Link states, actors and modes shared by link peers, and the transition table that
 * a link source installs in its state machine (Source/modules/KASLinkSourceBase.cs).
 */
module LinkStates {

  /** State of a link peer. A source uses every state except AcceptingLinks. */
  datatype LinkState =
    | Available
    | Linking
    | AcceptingLinks
    | RejectingLinks
    | Linked
    | Locked
    | NodeIsBlocked

  /** Who caused a change of the link state. */
  datatype LinkActorType = None | Player | API | Physics

  /** How a linking session was started. Only API is named by the modelled code. */
  datatype GUILinkMode = Interactive | Eva | API

  /** How (and whether) the parts are coupled into one vessel when linked. */
  datatype CoupleMode = SetViaGUI | AlwaysCoupled | NeverCouple

  /**
   * The peer's couple node: absent (coupleNode == null), present and free, or present
   * with a part attached (coupleNode.attachedPart != null).
   */
  datatype CoupleNodeState = NoCoupleNode | FreeCoupleNode | OccupiedCoupleNode

  /** The legality errors a link check may report, in place of the user-facing strings. */
  datatype LinkError =
    | SourceNotAvailable
    | TargetDoesntAcceptLinks
    | IncompatibleTargetLinkType
    | TargetCannotCouple
    | ColliderHit(message: string)
    | LinkTooShort
    | LinkTooLong
    | SourceAngleOverLimit
    | TargetAngleOverLimit

  /**
   * The states a source may switch to from `from` (SetupStateMachine). A state without
   * a constraint (AcceptingLinks, never entered by a source) allows nothing.
   */
  function AllowedTransitions(from: LinkState): (targets: set<LinkState>)
    ensures from !in targets
    ensures AcceptingLinks !in targets
    ensures Linked in targets <==> from == Linking
    ensures Linking in targets <==> from == Available
    ensures Available in targets <==> from != Available && from != AcceptingLinks
    ensures Locked in targets <==> from == Available || from == RejectingLinks
    ensures RejectingLinks in targets <==> from == Available
    ensures NodeIsBlocked in targets <==> from == Available
  {
    match from
    case Available => {Linking, RejectingLinks, NodeIsBlocked, Locked}
    case NodeIsBlocked => {Available}
    case Linking => {Available, Linked}
    case Linked => {Available}
    case Locked => {Available}
    case RejectingLinks => {Available, Locked}
    case AcceptingLinks => {}
  }

  /** linkStateMachine.CheckCanSwitchTo: `to` is in the allowed set of the current state. */
  predicate CanSwitchTo(from: LinkState, to: LinkState) {
    to in AllowedTransitions(from)
  }

  /** A sequence of states that a source can pass through, one allowed switch at a time. */
  ghost predicate IsRun(run: seq<LinkState>) {
    forall i :: 0 < i < |run| ==> CanSwitchTo(run[i - 1], run[i])
  }

  /** Number of positions of `run` that hold `s`. */
  function Count(run: seq<LinkState>, s: LinkState): (n: nat)
    ensures n <= |run|
    ensures s !in run ==> n == 0
  {
    if run == [] then 0
    else Count(run[..|run| - 1], s) + (if run[|run| - 1] == s then 1 else 0)
  }

  /**
   * Every entry into Linked consumes a linking session of its own: along any run that
   * does not start linked, the Linked entries, plus one for a session still open at the
   * end, never outnumber the Linking entries.
   */
  lemma {:induction false} EveryLinkHasItsOwnSession(run: seq<LinkState>)
    requires IsRun(run)
    requires run == [] || run[0] != Linked
    ensures Count(run, Linked) + (if run != [] && run[|run| - 1] == Linking then 1 else 0)
            <= Count(run, Linking)
  {
    if |run| > 1 {
      var prefix := run[..|run| - 1];
      assert IsRun(prefix) by {
        forall i | 0 < i < |prefix| ensures CanSwitchTo(prefix[i - 1], prefix[i]) {
          assert prefix[i - 1] == run[i - 1] && prefix[i] == run[i];
        }
      }
      assert prefix[0] == run[0];
      EveryLinkHasItsOwnSession(prefix);
      assert CanSwitchTo(run[|run| - 2], run[|run| - 1]);
      assert prefix[|prefix| - 1] == run[|run| - 2];
    }
  }

  /**
   * A linked source cannot link again directly: between two Linked states of a run the
   * source passes through Available and, after it, through Linking.
   */
  lemma {:induction false} RelinkPassesThroughAvailableAndLinking(run: seq<LinkState>)
    requires IsRun(run) && |run| >= 2
    requires run[0] == Linked && run[|run| - 1] == Linked
    ensures exists i, j :: 0 < i < j < |run| - 1 && run[i] == Available && run[j] == Linking
  {
    assert CanSwitchTo(run[0], run[1]);
    assert CanSwitchTo(run[|run| - 2], run[|run| - 1]);
    assert run[1] == Available && run[|run| - 2] == Linking;
  }
}
