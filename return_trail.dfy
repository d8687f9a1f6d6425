/** The trail of past positions behind "gradual auto-return": a stack whose
    newest sample is popped, pruned when too close, to place the ghost marker
    or to step the object back towards its base. */
module ReturnTrail {
  import opened Base

  /** Distance oracle between two world positions. */
  type Dist = (Pos, Pos) -> real

  function Top(trail: seq<Pos>): Pos
    requires |trail| > 0
  {
    trail[|trail| - 1]
  }

  function Pop(trail: seq<Pos>): seq<Pos>
    requires |trail| > 0
  {
    trail[..|trail| - 1]
  }

  /** Popping a prefix of a trail leaves the next shorter prefix. */
  lemma PopPrefix(trail: seq<Pos>, m: nat)
    requires 0 < m <= |trail|
    ensures Top(trail[..m]) == trail[m - 1] && Pop(trail[..m]) == trail[..m - 1]
  {
  }

  /** Discards the newest sample when `at` lies closer than `minDist` to it. */
  function PruneNear(at: Pos, trail: seq<Pos>, dist: Dist, minDist: real): seq<Pos> {
    if |trail| > 0 && dist(at, Top(trail)) < minDist then Pop(trail) else trail
  }

  /** Outcome of the trail handling when the object is dropped. */
  datatype DropOutcome = DropOutcome(trail: seq<Pos>, ghostAt: Option<Pos>)

  /** On a drop at `at`: prune the newest sample if it is near, then pop the
      next one and put the ghost marker there (no marker when nothing is left). */
  function DropTrail(at: Pos, trail: seq<Pos>, dist: Dist, minDist: real): DropOutcome {
    var t := PruneNear(at, trail, dist, minDist);
    if |t| > 0 then DropOutcome(Pop(t), Some(Top(t))) else DropOutcome(t, None)
  }

  /** One step of gradual return: where the object goes, what is left of the
      trail, and where the ghost marker is then (None: the marker is cleared). */
  datatype Step = Step(loc: Pos, trail: seq<Pos>, ghostAt: Option<Pos>)

  /** A gradual return step from `at`. None means the trail is used up and the
      object must go all the way home. */
  function GradualStep(at: Pos, trail: seq<Pos>, dist: Dist, minDist: real): Option<Step> {
    var t1 := PruneNear(at, trail, dist, minDist);
    if |t1| == 0 then None
    else
      var loc := Top(t1);
      var t2 := PruneNear(loc, Pop(t1), dist, minDist);
      Some(Step(loc, t2, if |t2| > 0 then Some(Top(t2)) else None))
  }

  /** Samples are far apart: `at` is at least `minDist` from the newest
      sample, and so on down the trail, each sample at least `minDist` from
      the one recorded after it. */
  ghost predicate Spread(at: Pos, trail: seq<Pos>, dist: Dist, minDist: real)
    decreases |trail|
  {
    |trail| == 0 || (dist(at, Top(trail)) >= minDist && Spread(Top(trail), Pop(trail), dist, minDist))
  }


  /** A drop removes one or two samples from the top of the trail and no
      others, and the ghost marker goes at the last sample it removed. */
  lemma DropTrailPops(at: Pos, trail: seq<Pos>, dist: Dist, minDist: real)
    requires |trail| > 0
    ensures var d := DropTrail(at, trail, dist, minDist);
      && |trail| - 2 <= |d.trail| < |trail|
      && d.trail == trail[..|d.trail|]
      && (d.ghostAt.Some? <==> |trail| > 1 || dist(at, Top(trail)) >= minDist)
      && (d.ghostAt.Some? ==> d.ghostAt.value == trail[|d.trail|])
  {
  }

  /** A gradual step removes between one and three samples from the top of the
      trail, moves the object onto a removed sample, and leaves the ghost
      marker on the newest remaining sample when there is one. */
  lemma GradualStepPops(at: Pos, trail: seq<Pos>, dist: Dist, minDist: real)
    requires GradualStep(at, trail, dist, minDist).Some?
    ensures var s := GradualStep(at, trail, dist, minDist).value;
      && |trail| - 3 <= |s.trail| < |trail|
      && s.trail == trail[..|s.trail|]
      && s.loc in trail[|s.trail|..]
      && (s.ghostAt.Some? <==> |s.trail| > 0)
      && (|s.trail| > 0 ==> s.ghostAt.value == Top(s.trail))
  {
  }

  /** The trail is used up (the object goes home) only when at most one sample,
      too near to be worth a step, was left. */
  lemma GradualStepNone(at: Pos, trail: seq<Pos>, dist: Dist, minDist: real)
    requires GradualStep(at, trail, dist, minDist).None?
    ensures |trail| == 0 || (|trail| == 1 && dist(at, trail[0]) < minDist)
  {
  }

  /** On a spread trail a step pops exactly one sample: the object moves to the
      newest sample, the rest stays spread, and the ghost marker stands where
      the next step will move the object. */
  lemma SpreadStep(at: Pos, trail: seq<Pos>, dist: Dist, minDist: real)
    requires |trail| > 0 && Spread(at, trail, dist, minDist)
    ensures GradualStep(at, trail, dist, minDist)
         == Some(Step(Top(trail), Pop(trail), if |trail| > 1 then Some(Top(Pop(trail))) else None))
    ensures Spread(Top(trail), Pop(trail), dist, minDist)
  {
  }

  /** Number of gradual-return calls until the object goes home (the last call
      being the one that sends it home). */
  function CallsToHome(at: Pos, trail: seq<Pos>, dist: Dist, minDist: real): nat
    decreases |trail|
  {
    match GradualStep(at, trail, dist, minDist)
    case None => 1
    case Some(s) =>
      GradualStepPops(at, trail, dist, minDist);
      1 + CallsToHome(s.loc, s.trail, dist, minDist)
  }

  /** Gradual return always ends: a trail of N samples needs at most N + 1
      calls, and never fewer than one call per three samples. */
  lemma {:induction false} CallsToHomeBounds(at: Pos, trail: seq<Pos>, dist: Dist, minDist: real)
    ensures |trail| / 3 + 1 <= CallsToHome(at, trail, dist, minDist) <= |trail| + 1
    decreases |trail|
  {
    match GradualStep(at, trail, dist, minDist)
    case None =>
      GradualStepNone(at, trail, dist, minDist);
    case Some(s) =>
      GradualStepPops(at, trail, dist, minDist);
      CallsToHomeBounds(s.loc, s.trail, dist, minDist);
  }

  /** On a spread trail of N samples, exactly N + 1 calls bring the object home. */
  lemma {:induction false} CallsToHomeSpread(at: Pos, trail: seq<Pos>, dist: Dist, minDist: real)
    requires Spread(at, trail, dist, minDist)
    ensures CallsToHome(at, trail, dist, minDist) == |trail| + 1
    decreases |trail|
  {
    if |trail| > 0 {
      SpreadStep(at, trail, dist, minDist);
      CallsToHomeSpread(Top(trail), Pop(trail), dist, minDist);
    }
  }
}
