// The rules a plan must obey, one add at a time and all at once.
module PhaseValidation {
  import opened Common

  datatype Shape = Trivial | Small | Standard | InvestigateThenFix | MultiPhase | MultiTrack

  datatype Phase = Investigate | Design | Implement | Test | Review

  datatype Rule =
    | RationaleTooShort
    | RationaleTooLong
    | PhaseCountOutOfBounds
    | FirstPhaseMismatch
    | LastPhaseMismatch
    | MultipleReviewPhases
    | TrivialShapeHasReview
    | MultiTrackTooFewImplements
    | InvestigateThenFixNoImplement
    | EmptyPhases

  const RATIONALE_MIN_LENGTH := 10
  const RATIONALE_MAX_LENGTH := 500

  function ExpectedFirst(shape: Shape): Phase {
    match shape
    case InvestigateThenFix => Investigate
    case MultiPhase => Design
    case _ => Implement
  }

  /** None: no constraint; a multi-track plan leaves the review to a second intent. */
  function ExpectedLast(shape: Shape): Option<Phase> {
    match shape
    case Trivial => Some(Implement)
    case MultiTrack => None
    case _ => Some(Review)
  }

  function MinCount(shape: Shape): nat {
    match shape
    case Trivial => 1
    case InvestigateThenFix => 3
    case MultiPhase => 3
    case _ => 2
  }

  function MaxCount(shape: Shape): nat {
    match shape
    case Trivial => 1
    case Small => 2
    case Standard => 2
    case InvestigateThenFix => 6
    case MultiPhase => 8
    case MultiTrack => 10
  }

  function CountOf(phases: seq<Phase>, p: Phase): nat {
    if phases == [] then 0
    else CountOf(phases[..|phases| - 1], p) + (if phases[|phases| - 1] == p then 1 else 0)
  }

  // ---------------------------------------------------------------- the two validators; None is acceptance

  function ValidateRationale(rationale: string): Option<Rule> {
    if |rationale| < RATIONALE_MIN_LENGTH then Some(RationaleTooShort)
    else if |rationale| > RATIONALE_MAX_LENGTH then Some(RationaleTooLong)
    else None
  }

  /** Before each add: only what is wrong right now. */
  function ValidateCumulative(shape: Shape, phases: seq<Phase>): Option<Rule> {
    if |phases| == 0 then Some(EmptyPhases)
    else if |phases| > MaxCount(shape) then Some(PhaseCountOutOfBounds)
    else if shape == Trivial && Review in phases then Some(TrivialShapeHasReview)
    else if CountOf(phases, Review) > 1 then Some(MultipleReviewPhases)
    else if phases[0] != ExpectedFirst(shape) then Some(FirstPhaseMismatch)
    else if ExpectedLast(shape).Some? && |phases| == MaxCount(shape) && phases[|phases| - 1] != ExpectedLast(shape).value then
      Some(LastPhaseMismatch)
    else if shape == MultiTrack && |phases| >= 2 && exists i :: 0 <= i < |phases| && phases[i] != Implement then
      Some(MultiTrackTooFewImplements)
    else None
  }

  /** On a whole plan: at a close, or at an atomic conversion. */
  function ValidateFinal(shape: Shape, phases: seq<Phase>, rationale: string): Option<Rule> {
    if ValidateRationale(rationale).Some? then ValidateRationale(rationale)
    else if shape == Trivial && Review in phases then Some(TrivialShapeHasReview)
    else if shape == MultiTrack && CountOf(phases, Implement) < 2 then Some(MultiTrackTooFewImplements)
    else if shape == InvestigateThenFix && CountOf(phases, Implement) < 1 then Some(InvestigateThenFixNoImplement)
    else if CountOf(phases, Review) > 1 then Some(MultipleReviewPhases)
    else if !(MinCount(shape) <= |phases| <= MaxCount(shape)) then Some(PhaseCountOutOfBounds)
    else if phases[0] != ExpectedFirst(shape) then Some(FirstPhaseMismatch)
    else if ExpectedLast(shape).Some? && phases[|phases| - 1] != ExpectedLast(shape).value then Some(LastPhaseMismatch)
    else None
  }

  // ---------------------------------------------------------------- what the atomic validator accepts

  /** Review is the last phase and no other. */
  ghost predicate ReviewedAtTheEnd(phases: seq<Phase>) {
    phases != [] && phases[|phases| - 1] == Review && forall i :: 0 <= i < |phases| - 1 ==> phases[i] != Review
  }

  /** The shape catalogue in plain terms. */
  ghost predicate InCatalogue(shape: Shape, phases: seq<Phase>) {
    match shape
    case Trivial => phases == [Implement]
    case Small => phases == [Implement, Review]
    case Standard => phases == [Implement, Review]
    case InvestigateThenFix =>
      3 <= |phases| <= 6 && phases[0] == Investigate && ReviewedAtTheEnd(phases) && Implement in phases
    case MultiPhase => 3 <= |phases| <= 8 && phases[0] == Design && ReviewedAtTheEnd(phases)
    case MultiTrack =>
      && 2 <= |phases| <= 10 && phases[0] == Implement
      && (exists i :: 1 <= i < |phases| && phases[i] == Implement)
      && (forall i, j :: 0 <= i < j < |phases| ==> !(phases[i] == Review && phases[j] == Review))
  }

  lemma {:induction false} CountZeroIff(phases: seq<Phase>, p: Phase)
    ensures CountOf(phases, p) == 0 <==> p !in phases
  {
    if phases != [] {
      CountZeroIff(phases[..|phases| - 1], p);
      assert phases == phases[..|phases| - 1] + [phases[|phases| - 1]];
    }
  }

  lemma {:induction false} CountBelowTwoIff(phases: seq<Phase>, p: Phase)
    ensures CountOf(phases, p) <= 1 <==> forall i, j :: 0 <= i < j < |phases| ==> !(phases[i] == p && phases[j] == p)
  {
    if phases != [] {
      var n := |phases| - 1;
      CountBelowTwoIff(phases[..n], p);
      CountZeroIff(phases[..n], p);
    }
  }

  /** The rules taken together accept exactly the catalogue. */
  lemma FinalIffInCatalogue(shape: Shape, phases: seq<Phase>, rationale: string)
    requires ValidateRationale(rationale).None?
    ensures ValidateFinal(shape, phases, rationale).None? <==> InCatalogue(shape, phases)
  {
    hide CountOf;
    CountZeroIff(phases, Implement);
    CountBelowTwoIff(phases, Implement);
    CountBelowTwoIff(phases, Review);
  }

  // ---------------------------------------------------------------- one add at a time

  /** Every step of the way was accepted. */
  ghost predicate Buildable(shape: Shape, phases: seq<Phase>) {
    forall n :: 1 <= n <= |phases| ==> ValidateCumulative(shape, phases[..n]).None?
  }

  lemma {:induction false} CountOfPrefix(phases: seq<Phase>, n: nat, p: Phase)
    requires n <= |phases|
    ensures CountOf(phases[..n], p) <= CountOf(phases, p)
    decreases |phases|
  {
    if n == |phases| {
      assert phases[..n] == phases;
    } else {
      CountOfPrefix(phases[..|phases| - 1], n, p);
      assert phases[..|phases| - 1][..n] == phases[..n];
    }
  }

  lemma AcceptedPrefix(shape: Shape, phases: seq<Phase>, rationale: string, n: nat)
    requires ValidateFinal(shape, phases, rationale).None? && 1 <= n <= |phases|
    requires shape != MultiTrack || forall i :: 0 <= i < |phases| ==> phases[i] == Implement
    ensures ValidateCumulative(shape, phases[..n]).None?
  {
    CountOfPrefix(phases, n, Review);
    if n == |phases| {
      assert phases[..n] == phases;
    }
  }

  /** Except for multi-track, the plans that can be built one accepted add at a time and then closed
      are exactly those the atomic validator accepts. */
  lemma IncrementalIffAtomic(shape: Shape, phases: seq<Phase>, rationale: string)
    requires shape != MultiTrack
    ensures Buildable(shape, phases) && ValidateFinal(shape, phases, rationale).None?
            <==> ValidateFinal(shape, phases, rationale).None?
  {
    if ValidateFinal(shape, phases, rationale).None? {
      forall n | 1 <= n <= |phases|
        ensures ValidateCumulative(shape, phases[..n]).None?
      {
        AcceptedPrefix(shape, phases, rationale, n);
      }
    }
  }

  lemma {:induction false} AllImplementCount(phases: seq<Phase>)
    requires forall i :: 0 <= i < |phases| ==> phases[i] == Implement
    ensures CountOf(phases, Implement) == |phases| && CountOf(phases, Review) == 0
  {
    if phases != [] {
      AllImplementCount(phases[..|phases| - 1]);
    }
  }

  /** For multi-track they are exactly two to ten implement phases. */
  lemma MultiTrackIncremental(phases: seq<Phase>, rationale: string)
    requires ValidateRationale(rationale).None?
    ensures Buildable(MultiTrack, phases) && ValidateFinal(MultiTrack, phases, rationale).None?
            <==> 2 <= |phases| <= 10 && forall i :: 0 <= i < |phases| ==> phases[i] == Implement
  {
    if 2 <= |phases| <= 10 && forall i :: 0 <= i < |phases| ==> phases[i] == Implement {
      AllImplementCount(phases);
      forall n | 1 <= n <= |phases|
        ensures ValidateCumulative(MultiTrack, phases[..n]).None?
      {
        AcceptedPrefix(MultiTrack, phases, rationale, n);
      }
    }
    if Buildable(MultiTrack, phases) && ValidateFinal(MultiTrack, phases, rationale).None? {
      assert phases[..|phases|] == phases;
    }
  }

  /** The two paths differ: a multi-track plan with a review is taken at once but not step by step. */
  lemma MultiTrackPathsDiffer(rationale: string)
    requires ValidateRationale(rationale).None?
    ensures ValidateFinal(MultiTrack, [Implement, Implement, Review], rationale).None?
    ensures !Buildable(MultiTrack, [Implement, Implement, Review])
  {
    var phases := [Implement, Implement, Review];
    FinalIffInCatalogue(MultiTrack, phases, rationale);
    assert phases[1] == Implement;
    assert phases[..3] == phases && phases[2] != Implement;
  }

  // ---------------------------------------------------------------- can a running list still be finished?

  ghost predicate Completable(shape: Shape, phases: seq<Phase>, rationale: string) {
    exists more :: Buildable(shape, phases + more) && ValidateFinal(shape, phases + more, rationale).None?
  }

  /** How many phases a list without a review still needs: the review, and the fix of an investigation. */
  function Missing(shape: Shape, phases: seq<Phase>): nat {
    match shape
    case Trivial => 0
    case MultiTrack => 0
    case InvestigateThenFix => if Implement in phases then 1 else 2
    case _ => 1
  }

  /** Implement phases up to the minimum, then the review the shape asks for. */
  function Filler(shape: Shape, phases: seq<Phase>): seq<Phase> {
    if shape == MultiTrack then Repeat(Implement, Max(0, 2 - |phases|))
    else Repeat(Implement, Max(if Missing(shape, phases) == 2 then 1 else 0, MinCount(shape) - |phases| - 1)) + [Review]
  }

  /** An accepted running list can still be finished exactly when it is finished already, or it has no review
      yet and room for what is missing. A review added too early is a dead end the check does not report. */
  lemma CompletableIff(shape: Shape, phases: seq<Phase>, rationale: string)
    requires ValidateRationale(rationale).None? && phases != [] && Buildable(shape, phases)
    ensures Completable(shape, phases, rationale) <==>
            ValidateFinal(shape, phases, rationale).None?
            || (Review !in phases && |phases| + Missing(shape, phases) <= MaxCount(shape))
  {
    assert phases[..|phases|] == phases;
    if ValidateFinal(shape, phases, rationale).None? {
      assert phases + [] == phases;
    } else if Review !in phases && |phases| + Missing(shape, phases) <= MaxCount(shape) {
      FillerFinishes(shape, phases, rationale);
    } else if Completable(shape, phases, rationale) {
      var more :| Buildable(shape, phases + more) && ValidateFinal(shape, phases + more, rationale).None?;
      FinishedHadRoom(shape, phases, more, rationale);
    }
  }

  lemma FillerFinishes(shape: Shape, phases: seq<Phase>, rationale: string)
    requires ValidateRationale(rationale).None? && phases != [] && Buildable(shape, phases)
    requires ValidateFinal(shape, phases, rationale).Some?
    requires Review !in phases && |phases| + Missing(shape, phases) <= MaxCount(shape)
    ensures Completable(shape, phases, rationale)
  {
    hide CountOf, ValidateFinal;
    assert phases[..|phases|] == phases && phases[..1] == [phases[0]];
    assert ValidateCumulative(shape, phases[..1]).None? && ValidateCumulative(shape, phases).None?;
    FinalIffInCatalogue(shape, phases, rationale);
    var more := Filler(shape, phases);
    var all := phases + more;
    FinalIffInCatalogue(shape, all, rationale);
    if shape == MultiTrack {
      assert all[1] == Implement;
      MultiTrackIncremental(all, rationale);
    } else {
      if Missing(shape, phases) == 2 {
        assert all[|phases|] == Implement;
      }
      IncrementalIffAtomic(shape, all, rationale);
    }
  }

  lemma FinishedHadRoom(shape: Shape, phases: seq<Phase>, more: seq<Phase>, rationale: string)
    requires ValidateRationale(rationale).None? && phases != []
    requires ValidateFinal(shape, phases, rationale).Some?
    requires ValidateFinal(shape, phases + more, rationale).None? && Buildable(shape, phases + more)
    ensures Review !in phases && |phases| + Missing(shape, phases) <= MaxCount(shape)
  {
    hide CountOf, ValidateFinal;
    var all := phases + more;
    FinalIffInCatalogue(shape, all, rationale);
    assert phases + [] == phases;
    assert more != [];
    if shape == MultiTrack {
      MultiTrackIncremental(all, rationale);
      assert forall i :: 0 <= i < |phases| ==> phases[i] == all[i];
    } else {
      assert forall i :: 0 <= i < |phases| ==> phases[i] == all[i];
      if shape == InvestigateThenFix && Implement !in phases {
        var k :| 0 <= k < |all| && all[k] == Implement;
        assert |phases| <= k < |all| - 1;
      }
    }
  }
}
