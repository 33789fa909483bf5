/** The work scheduler's view of the apply-buckets work item: reset it, then
    call `OnStart` whenever it is pending, `OnRun` and `OnSuccess` each
    round, until `OnSuccess` reports Success. A complete run is shown to end
    with every level as the reference cascade describes it. */
module Driver {
  import opened Options
  import opened Buckets
  import opened ApplyBucketsWork
  import opened Cascade

  /** Levels coarser than the cursor hold what the run commits to them; the
      cursor's level and every finer level are still as they were. */
  ghost predicate Committed(cfg: Config, orig: seq<BucketLevel>, carry: bool, s: State)
    requires |orig| == |cfg.target| && RunResolvable(cfg, orig, carry)
  {
    && |s.live| == |orig|
    && s.level < |orig|
    && (forall k :: 0 <= k <= s.level ==> s.live[k] == orig[k])
    && (forall k :: s.level < k < |orig| ==> s.live[k] == ExpectedLevel(cfg, orig, carry, k))
  }

  /** Nothing outside the engine's per-level work has moved since `base`. */
  ghost predicate Untouched(base: State, s: State) {
    s.failed == base.failed && s.head == base.head && s.installs == base.installs
  }

  /** The work item is pending at its cursor's level: nothing is in flight,
      and the flag and meters account for the coarser levels. */
  ghost predicate AtLevelStart(cfg: Config, orig: seq<BucketLevel>, carry: bool, base: State, s: State)
    requires |orig| == |cfg.target| && RunResolvable(cfg, orig, carry)
  {
    && Committed(cfg, orig, carry, s)
    && Untouched(base, s)
    && s.snap == None && s.curr == None
    && s.applying == (carry || CascadeFrom(orig, cfg.target, s.level + 1))
    && s.started == base.started + ReplacementsFrom(orig, cfg.target, carry, s.level + 1)
    && s.succeeded == base.succeeded + ReplacementsFrom(orig, cfg.target, carry, s.level + 1)
  }

  /** The work item is applying its cursor's level: it holds exactly the
      target buckets the reference replaces there. */
  ghost predicate InLevel(cfg: Config, orig: seq<BucketLevel>, carry: bool, base: State, s: State)
    requires |orig| == |cfg.target| && RunResolvable(cfg, orig, carry)
  {
    && Committed(cfg, orig, carry, s)
    && Untouched(base, s)
    && var i := s.level;
    && var t := cfg.target[i];
    && s.applying == (carry || CascadeFrom(orig, cfg.target, i))
    && s.started == base.started + ReplacementsFrom(orig, cfg.target, carry, i)
    && s.succeeded == base.succeeded + ReplacementsFrom(orig, cfg.target, carry, i + 1)
    && (s.snap.Some? <==> SnapReplaced(orig, cfg.target, carry, i))
    && (s.snap.Some? ==> s.snap.value.bucket == GetBucket(t.snap, cfg.pool, cfg.store))
    && (s.curr.Some? <==> CurrReplaced(orig, cfg.target, carry, i))
    && (s.curr.Some? ==> s.curr.value.bucket == GetBucket(t.curr, cfg.pool, cfg.store))
  }

  /** `OnStart` at a pending level creates exactly the applicators the
      reference replaces there. */
  lemma StartEntersLevel(cfg: Config, orig: seq<BucketLevel>, carry: bool, base: State, s: State)
    requires |orig| == |cfg.target| && RunResolvable(cfg, orig, carry)
    requires AtLevelStart(cfg, orig, carry, base, s)
    ensures CanStart(cfg, s)
    ensures InLevel(cfg, orig, carry, base, OnStart(cfg, s))
  {
  }

  /** `OnRun` keeps the engine inside its level. */
  lemma RunStaysInLevel(cfg: Config, orig: seq<BucketLevel>, carry: bool, base: State, s: State)
    requires |orig| == |cfg.target| && RunResolvable(cfg, orig, carry)
    requires InLevel(cfg, orig, carry, base, s)
    ensures InLevel(cfg, orig, carry, base, OnRun(s))
  {
  }

  /** `OnSuccess` on a finished level commits it as the reference says and
      either leaves the next finer level pending or, at level 0, completes. */
  lemma SuccessCommitsLevel(cfg: Config, orig: seq<BucketLevel>, carry: bool, base: State, s: State)
    requires |orig| == |cfg.target| && RunResolvable(cfg, orig, carry)
    requires InLevel(cfg, orig, carry, base, s) && !Busy(s)
    ensures var r := OnSuccess(cfg, s);
            && (r.1 == Pending ==> AtLevelStart(cfg, orig, carry, base, r.0))
            && (r.1 == Success ==> Finished(cfg, orig, carry, base, r.0))
  {
  }

  /** The state a complete run ends in. */
  ghost predicate Finished(cfg: Config, orig: seq<BucketLevel>, carry: bool, base: State, s: State)
    requires |orig| == |cfg.target| && RunResolvable(cfg, orig, carry)
  {
    && |s.live| == |orig|
    && (forall k :: 0 <= k < |orig| ==> s.live[k] == ExpectedLevel(cfg, orig, carry, k))
    && s.level == 0 && s.snap == None && s.curr == None
    && s.applying == (carry || CascadeFrom(orig, cfg.target, 0))
    && s.started == base.started + ReplacementsFrom(orig, cfg.target, carry, 0)
    && s.succeeded == base.succeeded + ReplacementsFrom(orig, cfg.target, carry, 0)
    && s.failed == base.failed
    && s.head == Some(cfg.target) && s.installs == base.installs + 1
  }

  /** What the loop knows between rounds, for each scheduler result. */
  ghost predicate LoopInvariant(cfg: Config, orig: seq<BucketLevel>, carry: bool, base: State, s: State, status: WorkState)
    requires |orig| == |cfg.target| && RunResolvable(cfg, orig, carry)
  {
    && (status == Pending ==> AtLevelStart(cfg, orig, carry, base, s))
    && (status == Running ==> InLevel(cfg, orig, carry, base, s) && Busy(s))
    && (status == Success ==> Finished(cfg, orig, carry, base, s))
  }

  /** 1 while the level is still to be started, 0 once it is under way. */
  function PhaseRank(status: WorkState): nat {
    if status == Pending then 1 else 0
  }

  /** One scheduler round: start the level if it is pending, write one chunk,
      then ask the work item how it stands. */
  function Round(cfg: Config, s: State, status: WorkState): (State, WorkState)
    requires s.level < |s.live| && s.level < |cfg.target|
    requires status == Pending ==> CanStart(cfg, s)
  {
    var started := if status == Pending then OnStart(cfg, s) else s;
    OnSuccess(cfg, OnRun(started))
  }

  /** A round keeps the loop invariant and makes progress: the level goes
      down, or the level leaves its pending phase, or a chunk is written. */
  lemma RoundKeepsInvariant(cfg: Config, orig: seq<BucketLevel>, carry: bool, base: State, s: State, status: WorkState)
    requires |orig| == |cfg.target| && RunResolvable(cfg, orig, carry)
    requires status != Success && LoopInvariant(cfg, orig, carry, base, s, status)
    ensures s.level < |s.live| && s.level < |cfg.target|
    ensures status == Pending ==> CanStart(cfg, s)
    ensures var r := Round(cfg, s, status);
            && LoopInvariant(cfg, orig, carry, base, r.0, r.1)
            && (r.0.level < s.level ||
                (r.0.level == s.level &&
                 (PhaseRank(r.1) < PhaseRank(status) ||
                  (PhaseRank(r.1) == PhaseRank(status) && Remaining(r.0) < Remaining(s)))))
  {
    var s1 := s;
    if status == Pending {
      StartEntersLevel(cfg, orig, carry, base, s);
      s1 := OnStart(cfg, s);
    }
    RunStaysInLevel(cfg, orig, carry, base, s1);
    var s2 := OnRun(s1);
    if !Busy(s2) {
      SuccessCommitsLevel(cfg, orig, carry, base, s2);
    }
  }

  /** Resetting any earlier state leaves the coarsest level pending, with
      nothing committed and nothing counted yet, and the flag clear. */
  lemma ResetStartsWalk(cfg: Config, s0: State)
    requires WellFormed(cfg, s0) && RunResolvable(cfg, s0.live, false)
    ensures LoopInvariant(cfg, s0.live, false, s0, OnReset(s0), Pending)
  {
  }

  /** The reset that keeps the flag leaves the coarsest level pending with
      the flag carried into the walk. */
  lemma RetryResetStartsWalk(cfg: Config, s0: State)
    requires WellFormed(cfg, s0) && RunResolvable(cfg, s0.live, s0.applying)
    ensures LoopInvariant(cfg, s0.live, s0.applying, s0, OnResetKeepingCascade(s0), Pending)
  {
  }

  /** The level walk: rounds from a pending coarsest level until `OnSuccess`
      reports Success. It always terminates, in the state the reference
      describes for the flag `carry` the walk began with. */
  method Walk(cfg: Config, orig: seq<BucketLevel>, carry: bool, base: State, s1: State) returns (s: State)
    requires |orig| == |cfg.target| && RunResolvable(cfg, orig, carry)
    requires LoopInvariant(cfg, orig, carry, base, s1, Pending)
    ensures Finished(cfg, orig, carry, base, s)
  {
    s := s1;
    var status := Pending;
    while status != Success
      invariant LoopInvariant(cfg, orig, carry, base, s, status)
      decreases s.level, PhaseRank(status), Remaining(s)
    {
      RoundKeepsInvariant(cfg, orig, carry, base, s, status);
      var r := Round(cfg, s, status);
      s, status := r.0, r.1;
    }
  }

  /** What a finished run from a plain reset promises beyond the reference
      levels: the cascade, the untouched matching list and, with content
      addressing, the target hashes everywhere. */
  lemma FinishedConsequences(cfg: Config, orig: seq<BucketLevel>, base: State, s: State)
    requires |orig| == |cfg.target| && RunResolvable(cfg, orig, false)
    requires Finished(cfg, orig, false, base, s)
    ensures forall i, j :: 0 <= i < j < |orig| && Mismatch(orig[j], cfg.target[j]) ==>
              Resolvable(cfg.target[i].snap, cfg.pool, cfg.store) &&
              Resolvable(cfg.target[i].curr, cfg.pool, cfg.store) &&
              s.live[i] == BucketLevel(GetBucket(cfg.target[i].snap, cfg.pool, cfg.store),
                                       GetBucket(cfg.target[i].curr, cfg.pool, cfg.store))
    ensures (forall k :: 0 <= k < |orig| ==> cfg.target[k] == HashPair(orig[k].snap.hash, orig[k].curr.hash)) ==>
              s.live == orig && s.started == base.started && s.succeeded == base.succeeded
    ensures ContentAddressed(cfg.pool) && ContentAddressed(cfg.store) ==>
              forall k :: 0 <= k < |s.live| ==> s.live[k].snap.hash == cfg.target[k].snap && s.live[k].curr.hash == cfg.target[k].curr
  {
    forall i, j | 0 <= i < j < |orig| && Mismatch(orig[j], cfg.target[j])
      ensures Resolvable(cfg.target[i].snap, cfg.pool, cfg.store)
      ensures Resolvable(cfg.target[i].curr, cfg.pool, cfg.store)
      ensures s.live[i] == BucketLevel(GetBucket(cfg.target[i].snap, cfg.pool, cfg.store),
                                       GetBucket(cfg.target[i].curr, cfg.pool, cfg.store))
    {
      CascadeReplacesFinerLevels(cfg, orig, false, j, i);
    }
    if forall k :: 0 <= k < |orig| ==> cfg.target[k] == HashPair(orig[k].snap.hash, orig[k].curr.hash) {
      MatchingListIsUntouched(cfg, orig, 0);
      assert s.live == orig;
    }
    if ContentAddressed(cfg.pool) && ContentAddressed(cfg.store) {
      forall k | 0 <= k < |s.live|
        ensures s.live[k].snap.hash == cfg.target[k].snap && s.live[k].curr.hash == cfg.target[k].curr
      {
        ExpectedLevelMatchesTarget(cfg, orig, false, k);
      }
    }
  }

  /** Drives the work item from any earlier state `s0` to completion, the way
      stellar-core's `ApplyBucketsWork` does: `onReset`, then the level walk
      from the coarsest level to level 0. The run always terminates; it
      commits every level as the reference cascade describes for the bucket
      list it starts from, records one start and one success event per
      replaced bucket, and calls `assumeState` with the target exactly once,
      at the end. */
  method Drive(cfg: Config, s0: State) returns (s: State)
    requires WellFormed(cfg, s0) && RunResolvable(cfg, s0.live, false)
    ensures |s.live| == |s0.live|
    ensures forall k :: 0 <= k < |s0.live| ==> s.live[k] == ExpectedLevel(cfg, s0.live, false, k)
    ensures s.level == 0 && s.snap == None && s.curr == None
    ensures s.applying == CascadeFrom(s0.live, cfg.target, 0)
    ensures s.started == s0.started + ReplacementsFrom(s0.live, cfg.target, false, 0)
    ensures s.succeeded == s0.succeeded + ReplacementsFrom(s0.live, cfg.target, false, 0)
    ensures s.failed == s0.failed
    ensures s.head == Some(cfg.target) && s.installs == s0.installs + 1
    ensures forall i, j :: 0 <= i < j < |s0.live| && Mismatch(s0.live[j], cfg.target[j]) ==>
              Resolvable(cfg.target[i].snap, cfg.pool, cfg.store) &&
              Resolvable(cfg.target[i].curr, cfg.pool, cfg.store) &&
              s.live[i] == BucketLevel(GetBucket(cfg.target[i].snap, cfg.pool, cfg.store),
                                       GetBucket(cfg.target[i].curr, cfg.pool, cfg.store))
    ensures (forall k :: 0 <= k < |s0.live| ==> cfg.target[k] == HashPair(s0.live[k].snap.hash, s0.live[k].curr.hash)) ==>
              s.live == s0.live && s.started == s0.started && s.succeeded == s0.succeeded
    ensures ContentAddressed(cfg.pool) && ContentAddressed(cfg.store) ==>
              forall k :: 0 <= k < |s.live| ==> s.live[k].snap.hash == cfg.target[k].snap && s.live[k].curr.hash == cfg.target[k].curr
  {
    ResetStartsWalk(cfg, s0);
    s := Walk(cfg, s0.live, false, s0, OnReset(s0));
    FinishedConsequences(cfg, s0.live, s0, s);
  }

  /** The corrected retry: `OnResetKeepingCascade`, then the same level walk.
      The run terminates in the state the reference describes with the flag
      of the failed attempt carried in; when that flag was set, every level
      ends with both target buckets, 2n of them replaced over `n` levels. */
  method DriveAfterRetry(cfg: Config, s0: State) returns (s: State)
    requires WellFormed(cfg, s0) && RunResolvable(cfg, s0.live, s0.applying)
    ensures |s.live| == |s0.live|
    ensures forall k :: 0 <= k < |s0.live| ==> s.live[k] == ExpectedLevel(cfg, s0.live, s0.applying, k)
    ensures s.level == 0 && s.snap == None && s.curr == None
    ensures s.applying == (s0.applying || CascadeFrom(s0.live, cfg.target, 0))
    ensures s.started == s0.started + ReplacementsFrom(s0.live, cfg.target, s0.applying, 0)
    ensures s.succeeded == s0.succeeded + ReplacementsFrom(s0.live, cfg.target, s0.applying, 0)
    ensures s.failed == s0.failed
    ensures s.head == Some(cfg.target) && s.installs == s0.installs + 1
    ensures s0.applying ==>
              s.started == s0.started + 2 * |s0.live| && s.succeeded == s0.succeeded + 2 * |s0.live| &&
              forall k :: 0 <= k < |s0.live| ==>
                Resolvable(cfg.target[k].snap, cfg.pool, cfg.store) &&
                Resolvable(cfg.target[k].curr, cfg.pool, cfg.store) &&
                s.live[k] == BucketLevel(GetBucket(cfg.target[k].snap, cfg.pool, cfg.store),
                                         GetBucket(cfg.target[k].curr, cfg.pool, cfg.store))
  {
    RetryResetStartsWalk(cfg, s0);
    s := Walk(cfg, s0.live, s0.applying, s0, OnResetKeepingCascade(s0));
    if s0.applying {
      CarriedFlagReplacesAll(cfg, s0.live, 0);
    }
  }

  /** With the flag clear on entry to the cursor's level, no level coarser
      than the cursor differed from the target, so nothing was committed and
      the bucket list is still the one the walk began with. */
  lemma {:induction false} UnflaggedWalkKeepsList(cfg: Config, orig: seq<BucketLevel>, s: State)
    requires |orig| == |cfg.target| && RunResolvable(cfg, orig, false)
    requires Committed(cfg, orig, false, s)
    requires !CascadeFrom(orig, cfg.target, s.level + 1)
    ensures s.live == orig
  {
    forall k | s.level < k < |orig|
      ensures s.live[k] == orig[k]
    {
      NoCascadeKeepsLevels(cfg, orig, s.level + 1, k);
    }
  }

  /** At any point of a walk from a plain reset, either the flag is set or
      the bucket list is still the one the walk began with. Hence a reset
      that keeps the flag makes the retry replace at least every bucket the
      interrupted walk would still have replaced at the cursor's level and
      below. */
  lemma RetryCoversInterruptedWalk(cfg: Config, orig: seq<BucketLevel>, base: State, s: State)
    requires |orig| == |cfg.target| && RunResolvable(cfg, orig, false)
    requires AtLevelStart(cfg, orig, false, base, s) || InLevel(cfg, orig, false, base, s)
    ensures |s.live| == |orig|
    ensures !s.applying ==> s.live == orig
    ensures forall k :: 0 <= k <= s.level ==>
              (SnapReplaced(orig, cfg.target, false, k) ==> SnapReplaced(s.live, cfg.target, s.applying, k)) &&
              (CurrReplaced(orig, cfg.target, false, k) ==> CurrReplaced(s.live, cfg.target, s.applying, k))
  {
    assert Committed(cfg, orig, false, s);
    if !s.applying {
      assert !CascadeFrom(orig, cfg.target, s.level + 1);
      UnflaggedWalkKeepsList(cfg, orig, s);
    }
  }

  /** The three-level run: only the coarsest level's curr differs, and the
      machine itself records five starts and five successes, not one. */
  method ThreeLevelRun() returns (s: State)
    ensures s.started == 5 && s.succeeded == 5
    ensures s.installs == 1 && s.level == 0
    ensures |s.live| == 3
    ensures forall k :: 0 <= k < 3 ==> s.live[k].snap.hash == ZeroHash
    ensures s.live[2].curr.hash == Digest(2) && s.live[1].curr.hash == s.live[0].curr.hash == ZeroHash
  {
    var e := Bucket(ZeroHash, 0);
    var a := Bucket(Digest(1), 4);
    var live := [BucketLevel(e, e), BucketLevel(e, e), BucketLevel(e, a)];
    var target := [HashPair(ZeroHash, ZeroHash), HashPair(ZeroHash, ZeroHash), HashPair(ZeroHash, Digest(2))];
    var cfg := Config(map[Digest(2) := Bucket(Digest(2), 3)], map[], target);
    ThreeLevelExample();
    assert ContentAddressed(cfg.pool) && ContentAddressed(cfg.store);
    s := Drive(cfg, Initial(live));
  }

  /** The first attempt of the three-level run, interrupted: level 2's curr
      bucket is applied and committed, level 1 is started (the flag is set,
      so both of its buckets get applicators), and then the attempt fails. */
  method InterruptedAttempt() returns (cfg: Config, s: State)
    ensures cfg == Config(map[Digest(2) := Bucket(Digest(2), 1)], map[],
                          [HashPair(ZeroHash, ZeroHash), HashPair(ZeroHash, ZeroHash), HashPair(ZeroHash, Digest(2))])
    ensures WellFormed(cfg, s) && s.applying && s.level == 1
    ensures s.live == [BucketLevel(EmptyBucket, EmptyBucket), BucketLevel(EmptyBucket, EmptyBucket),
                       BucketLevel(EmptyBucket, Bucket(Digest(2), 1))]
    ensures s.started == 3 && s.succeeded == 1 && s.failed == 1
    ensures s.installs == 0
  {
    var e := EmptyBucket;
    var live := [BucketLevel(e, e), BucketLevel(e, e), BucketLevel(e, Bucket(Digest(1), 4))];
    var target := [HashPair(ZeroHash, ZeroHash), HashPair(ZeroHash, ZeroHash), HashPair(ZeroHash, Digest(2))];
    cfg := Config(map[Digest(2) := Bucket(Digest(2), 1)], map[], target);
    s := OnReset(Initial(live));
    s := OnStart(cfg, s);
    s := OnRun(s);
    var r := OnSuccess(cfg, s);
    s := r.0;
    s := OnStart(cfg, s);
    s := OnFailure(s);
  }

  /** As written: retrying the interrupted attempt with `onReset` clears the
      flag, so levels 1 and 0, whose own hashes already match, are never
      applied after level 2's bucket. Three starts and one success in total,
      where the uninterrupted run records five of each. */
  method ResetAfterCommitDropsCascade() returns (s: State)
    ensures s.started == 3 && s.succeeded == 1
    ensures s.installs == 1 && s.level == 0
  {
    var cfg, mid := InterruptedAttempt();
    MatchingListIsUntouched(cfg, mid.live, 0);
    s := Drive(cfg, mid);
  }

  /** Corrected: retrying the interrupted attempt with
      `OnResetKeepingCascade` re-applies both buckets of all three levels,
      so levels 1 and 0 are applied after level 2's bucket, as in the
      uninterrupted run. */
  method RetryKeepingCascadeReappliesAll() returns (s: State)
    ensures s.started == 3 + 6 && s.succeeded == 1 + 6
    ensures s.installs == 1 && s.level == 0
    ensures s.live == [BucketLevel(EmptyBucket, EmptyBucket), BucketLevel(EmptyBucket, EmptyBucket),
                       BucketLevel(EmptyBucket, Bucket(Digest(2), 1))]
  {
    var cfg, mid := InterruptedAttempt();
    assert forall k :: 0 <= k < 3 ==>
             Resolvable(cfg.target[k].snap, cfg.pool, cfg.store) && Resolvable(cfg.target[k].curr, cfg.pool, cfg.store);
    s := DriveAfterRetry(cfg, mid);
    assert GetBucket(ZeroHash, cfg.pool, cfg.store) == EmptyBucket;
    assert GetBucket(Digest(2), cfg.pool, cfg.store) == Bucket(Digest(2), 1);
  }
}
