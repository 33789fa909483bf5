/** A reference description of what a complete apply run does to each level,
    stated over the bucket list as it was when the run began, without the
    level cursor or the sticky flag: a level is rebuilt when it, or any
    coarser level, differs from the target. `carry` is the cascade flag as
    the walk enters the coarsest level: false for a run from a plain reset,
    true when a retry keeps a flag an earlier attempt had raised. */
module Cascade {
  import opened Buckets
  import opened ApplyBucketsWork

  /** The level's live hashes differ from the target pair somewhere. */
  predicate Mismatch(lv: BucketLevel, t: HashPair) {
    t.snap != lv.snap.hash || t.curr != lv.curr.hash
  }

  /** Some level `i` or coarser differs from the target. */
  predicate CascadeFrom(live: seq<BucketLevel>, target: seq<HashPair>, i: nat)
    requires |live| == |target|
    decreases |live| - i
  {
    i < |live| && (Mismatch(live[i], target[i]) || CascadeFrom(live, target, i + 1))
  }

  /** Level `i`'s snap is replaced: the flag was carried in, a coarser level
      differs, or its own snap hash does. */
  predicate SnapReplaced(live: seq<BucketLevel>, target: seq<HashPair>, carry: bool, i: nat)
    requires i < |live| == |target|
  {
    carry || CascadeFrom(live, target, i + 1) || target[i].snap != live[i].snap.hash
  }

  /** Level `i`'s curr is replaced: the flag was carried in, or it or a
      coarser level differs. */
  predicate CurrReplaced(live: seq<BucketLevel>, target: seq<HashPair>, carry: bool, i: nat)
    requires i < |live| == |target|
  {
    carry || CascadeFrom(live, target, i)
  }

  /** Every bucket a run over `live` replaces can be resolved. */
  predicate RunResolvable(cfg: Config, live: seq<BucketLevel>, carry: bool)
    requires |live| == |cfg.target|
  {
    forall i :: 0 <= i < |live| ==>
      (SnapReplaced(live, cfg.target, carry, i) ==> Resolvable(cfg.target[i].snap, cfg.pool, cfg.store)) &&
      (CurrReplaced(live, cfg.target, carry, i) ==> Resolvable(cfg.target[i].curr, cfg.pool, cfg.store))
  }

  /** What level `i` holds once a run over `live` has committed it. */
  function ExpectedLevel(cfg: Config, live: seq<BucketLevel>, carry: bool, i: nat): BucketLevel
    requires i < |live| == |cfg.target|
    requires RunResolvable(cfg, live, carry)
  {
    var t := cfg.target[i];
    BucketLevel(
      if SnapReplaced(live, cfg.target, carry, i) then GetBucket(t.snap, cfg.pool, cfg.store) else live[i].snap,
      if CurrReplaced(live, cfg.target, carry, i) then GetBucket(t.curr, cfg.pool, cfg.store) else live[i].curr)
  }

  /** Number of buckets replaced at level `i`. */
  function Replacements(live: seq<BucketLevel>, target: seq<HashPair>, carry: bool, i: nat): nat
    requires i < |live| == |target|
  {
    (if SnapReplaced(live, target, carry, i) then 1 else 0) + (if CurrReplaced(live, target, carry, i) then 1 else 0)
  }

  /** Number of buckets replaced at levels `i` and coarser. */
  function ReplacementsFrom(live: seq<BucketLevel>, target: seq<HashPair>, carry: bool, i: nat): nat
    requires i <= |live| == |target|
    decreases |live| - i
  {
    if i == |live| then 0 else Replacements(live, target, carry, i) + ReplacementsFrom(live, target, carry, i + 1)
  }

  /** The recursive flag means exactly "some level from `i` up differs". */
  lemma {:induction false} CascadeFromIsSomeMismatch(live: seq<BucketLevel>, target: seq<HashPair>, i: nat)
    requires |live| == |target|
    ensures CascadeFrom(live, target, i) <==> exists j :: i <= j < |live| && Mismatch(live[j], target[j])
    decreases |live| - i
  {
    if i < |live| {
      CascadeFromIsSomeMismatch(live, target, i + 1);
      if CascadeFrom(live, target, i + 1) {
        var j :| i + 1 <= j < |live| && Mismatch(live[j], target[j]);
        assert i <= j;
      }
      if exists j :: i <= j < |live| && Mismatch(live[j], target[j]) {
        var j :| i <= j < |live| && Mismatch(live[j], target[j]);
        if j != i {
          assert i + 1 <= j;
        }
      }
    }
  }

  /** The cascade: once level `j` differs from the target, every finer level
      has both of its buckets replaced by the target buckets, whether or not
      its own hashes already match. */
  lemma CascadeReplacesFinerLevels(cfg: Config, live: seq<BucketLevel>, carry: bool, j: nat, i: nat)
    requires j < |live| == |cfg.target| && RunResolvable(cfg, live, carry)
    requires Mismatch(live[j], cfg.target[j])
    requires i < j
    ensures SnapReplaced(live, cfg.target, carry, i) && CurrReplaced(live, cfg.target, carry, i)
    ensures ExpectedLevel(cfg, live, carry, i) ==
              BucketLevel(GetBucket(cfg.target[i].snap, cfg.pool, cfg.store),
                          GetBucket(cfg.target[i].curr, cfg.pool, cfg.store))
    ensures Replacements(live, cfg.target, carry, i) == 2
  {
    CascadeFromIsSomeMismatch(live, cfg.target, i + 1);
  }

  /** With content-addressed pool and store, every level a run commits
      carries exactly the target hashes. */
  lemma ExpectedLevelMatchesTarget(cfg: Config, live: seq<BucketLevel>, carry: bool, i: nat)
    requires i < |live| == |cfg.target| && RunResolvable(cfg, live, carry)
    requires ContentAddressed(cfg.pool) && ContentAddressed(cfg.store)
    ensures ExpectedLevel(cfg, live, carry, i).snap.hash == cfg.target[i].snap
    ensures ExpectedLevel(cfg, live, carry, i).curr.hash == cfg.target[i].curr
  {
  }

  /** With no cascade from `i` up, no level from `i` up differs, and each of
      them keeps what it holds. */
  lemma {:induction false} NoCascadeKeepsLevels(cfg: Config, live: seq<BucketLevel>, i: nat, k: nat)
    requires |live| == |cfg.target| && i <= k < |live|
    requires !CascadeFrom(live, cfg.target, i)
    ensures !Mismatch(live[k], cfg.target[k])
    ensures !SnapReplaced(live, cfg.target, false, k) && !CurrReplaced(live, cfg.target, false, k)
    ensures RunResolvable(cfg, live, false) ==> ExpectedLevel(cfg, live, false, k) == live[k]
    decreases k - i
  {
    if i < k {
      NoCascadeKeepsLevels(cfg, live, i + 1, k);
    }
  }

  /** A bucket list that already matches the target everywhere is left
      untouched by a run from a plain reset, with no bucket replaced. */
  lemma {:induction false} MatchingListIsUntouched(cfg: Config, live: seq<BucketLevel>, i: nat)
    requires i <= |live| == |cfg.target|
    requires forall k :: 0 <= k < |live| ==> cfg.target[k] == HashPair(live[k].snap.hash, live[k].curr.hash)
    ensures RunResolvable(cfg, live, false)
    ensures !CascadeFrom(live, cfg.target, i)
    ensures ReplacementsFrom(live, cfg.target, false, i) == 0
    ensures forall k :: i <= k < |live| ==> ExpectedLevel(cfg, live, false, k) == live[k]
    decreases |live| - i
  {
    forall k | 0 <= k <= |live|
      ensures !CascadeFrom(live, cfg.target, k)
    {
      CascadeFromIsSomeMismatch(live, cfg.target, k);
    }
    if i < |live| {
      MatchingListIsUntouched(cfg, live, i + 1);
    }
  }

  /** When only the coarsest level's curr hash differs, every finer level is
      rebuilt in full: a run over `n` levels from a plain reset replaces
      2n - 1 buckets, not 1. */
  lemma {:induction false} CoarsestCurrMismatchCascades(live: seq<BucketLevel>, target: seq<HashPair>, i: nat)
    requires 1 <= |live| == |target| && i < |live|
    requires Mismatch(live[|live| - 1], target[|live| - 1])
    requires target[|live| - 1].snap == live[|live| - 1].snap.hash
    ensures ReplacementsFrom(live, target, false, i) == 2 * (|live| - 1 - i) + 1
    decreases |live| - i
  {
    var n := |live|;
    assert !CascadeFrom(live, target, n);
    assert CascadeFrom(live, target, n - 1);
    if i < n - 1 {
      CascadeFromIsSomeMismatch(live, target, i + 1);
      assert Replacements(live, target, false, i) == 2;
      CoarsestCurrMismatchCascades(live, target, i + 1);
    } else {
      assert Replacements(live, target, false, i) == 1;
    }
  }

  /** A carried flag rebuilds every level in full: each level ends with
      both target buckets, and a run over `n` levels replaces 2n buckets,
      whatever the live hashes are. */
  lemma {:induction false} CarriedFlagReplacesAll(cfg: Config, live: seq<BucketLevel>, i: nat)
    requires i <= |live| == |cfg.target| && RunResolvable(cfg, live, true)
    ensures forall k :: i <= k < |live| ==>
              Resolvable(cfg.target[k].snap, cfg.pool, cfg.store) &&
              Resolvable(cfg.target[k].curr, cfg.pool, cfg.store) &&
              ExpectedLevel(cfg, live, true, k) ==
                BucketLevel(GetBucket(cfg.target[k].snap, cfg.pool, cfg.store),
                            GetBucket(cfg.target[k].curr, cfg.pool, cfg.store))
    ensures ReplacementsFrom(live, cfg.target, true, i) == 2 * (|live| - i)
    decreases |live| - i
  {
    if i < |live| {
      assert SnapReplaced(live, cfg.target, true, i) && CurrReplaced(live, cfg.target, true, i);
      CarriedFlagReplacesAll(cfg, live, i + 1);
    }
  }

  /** The three-level example: the coarsest level's curr differs, the rest
      match, and five buckets are replaced. */
  lemma ThreeLevelExample()
    ensures var e := Bucket(ZeroHash, 0);
            var a := Bucket(Digest(1), 4);
            var live := [BucketLevel(e, e), BucketLevel(e, e), BucketLevel(e, a)];
            var target := [HashPair(ZeroHash, ZeroHash), HashPair(ZeroHash, ZeroHash), HashPair(ZeroHash, Digest(2))];
            ReplacementsFrom(live, target, false, 0) == 5
  {
    var e := Bucket(ZeroHash, 0);
    var a := Bucket(Digest(1), 4);
    var live := [BucketLevel(e, e), BucketLevel(e, e), BucketLevel(e, a)];
    var target := [HashPair(ZeroHash, ZeroHash), HashPair(ZeroHash, ZeroHash), HashPair(ZeroHash, Digest(2))];
    CoarsestCurrMismatchCascades(live, target, 0);
  }
}
