/** The catch-up "apply buckets" work item: a state machine that rebuilds the
    live bucket list level by level, from the coarsest level down to level 0,
    and finally installs the target state as the bucket list's head.

    The lifecycle hooks of the work item are pure transition functions over an
    immutable `State`. */
module ApplyBucketsWork {
  import opened Options
  import opened Buckets

  /** What the work item is constructed with, plus the bucket manager's store:
      `pool` is the map of already-fetched buckets, `target` the per-level
      hashes of the history-archive state to apply (level 0 first). */
  datatype Config = Config(pool: BucketMap, store: BucketMap, target: seq<HashPair>)

  /** A resolved bucket together with the applicator writing it: `remaining`
      is the number of chunks the applicator has yet to write. stellar-core's
      `ApplyBucketsWork` creates and discards the bucket and its applicator
      together, so one value stands for both. */
  datatype Job = Job(bucket: Bucket, remaining: nat) {

    /** The applicator is truthy: some entries are still unwritten. */
    predicate Active() {
      remaining > 0
    }

    /** Writes one bounded chunk of entries. */
    function Advance(): (j: Job)
      requires Active()
      ensures j.bucket == bucket && j.remaining + 1 == remaining
    {
      Job(bucket, remaining - 1)
    }
  }

  /** A fresh applicator for `b`, positioned before its first entry. */
  function NewJob(b: Bucket): (j: Job)
    ensures j.bucket == b && j.remaining == b.chunks
    ensures j.Active() <==> b.chunks > 0
  {
    Job(b, b.chunks)
  }

  /** The result a hook reports to the work scheduler. */
  datatype WorkState = Running | Pending | Success

  /** The engine's own fields together with the parts of the world it writes.
      - `level`, `applying`, `snap`, `curr`: the level cursor, the sticky
        cascade flag and the in-flight bucket/applicator pairs;
      - `started`, `succeeded`, `failed`: the three event meters, as counts;
      - `live`: the bucket manager's live bucket list, level 0 first;
      - `head`: the state last handed to the bucket manager's `assumeState`,
        and `installs` how many times it was called. */
  datatype State = State(
    level: nat,
    applying: bool,
    snap: Option<Job>,
    curr: Option<Job>,
    started: nat,
    succeeded: nat,
    failed: nat,
    live: seq<BucketLevel>,
    head: Option<seq<HashPair>>,
    installs: nat)

  /** The bucket list and the target describe the same number of levels, at
      least one. */
  predicate WellFormed(cfg: Config, s: State) {
    1 <= |s.live| && |s.live| == |cfg.target|
  }

  /** The state the work item is constructed in, over the bucket list `live`. */
  function Initial(live: seq<BucketLevel>): (s: State)
    requires 1 <= |live|
    ensures s.level == |live| - 1 && !s.applying
    ensures s.snap == None && s.curr == None
    ensures s.started == s.succeeded == s.failed == 0
    ensures s.live == live && s.head == None && s.installs == 0
  {
    State(|live| - 1, false, None, None, 0, 0, 0, live, None, 0)
  }

  /** Some in-flight applicator still has entries to write. */
  predicate SnapBusy(s: State) {
    s.snap.Some? && s.snap.value.Active()
  }

  predicate CurrBusy(s: State) {
    s.curr.Some? && s.curr.value.Active()
  }

  predicate Busy(s: State) {
    SnapBusy(s) || CurrBusy(s)
  }

  /** Chunks left to write at the current level. */
  function JobRemaining(j: Option<Job>): nat {
    if j.Some? then j.value.remaining else 0
  }

  function Remaining(s: State): (n: nat)
    ensures n > 0 <==> Busy(s)
  {
    JobRemaining(s.snap) + JobRemaining(s.curr)
  }

  /** 1 when a bucket is held for commit, 0 otherwise. */
  function Held(j: Option<Job>): nat {
    if j.Some? then 1 else 0
  }

  /** `onReset`: back to the construction-time cursor, flag and empty
      per-level state. Committed levels, the head and the meters are kept. */
  function OnReset(s: State): (r: State)
    requires 1 <= |s.live|
    ensures r.(started := 0, succeeded := 0, failed := 0, head := None, installs := 0) == Initial(s.live)
    ensures r.live == s.live && r.head == s.head && r.installs == s.installs
    ensures r.started == s.started && r.succeeded == s.succeeded && r.failed == s.failed
  {
    s.(level := |s.live| - 1, applying := false, snap := None, curr := None)
  }

  /** A reset that keeps the cascade flag once an earlier attempt raised it.
      A coarser level committed before the failure has already written its
      older entries over the finer levels' entries, so every finer level
      must be re-applied on the retry; `OnReset` forgets that. Otherwise it
      is `OnReset`. */
  function OnResetKeepingCascade(s: State): (r: State)
    requires 1 <= |s.live|
    ensures r.applying == s.applying
    ensures r.(applying := false) == OnReset(s)
    ensures !s.applying ==> r == OnReset(s)
  {
    s.(level := |s.live| - 1, snap := None, curr := None)
  }

  /** The lookups `OnStart` performs at level `s.level` can all succeed. */
  predicate CanStart(cfg: Config, s: State)
    requires s.level < |s.live| && s.level < |cfg.target|
  {
    var t := cfg.target[s.level];
    var lv := s.live[s.level];
    (s.applying || t.snap != lv.snap.hash ==> Resolvable(t.snap, cfg.pool, cfg.store)) &&
    (s.applying || t.snap != lv.snap.hash || t.curr != lv.curr.hash ==> Resolvable(t.curr, cfg.pool, cfg.store))
  }

  /** First half of `onStart`: the snap bucket. */
  function StartSnap(cfg: Config, s: State): State
    requires s.level < |s.live| && s.level < |cfg.target|
    requires s.applying || cfg.target[s.level].snap != s.live[s.level].snap.hash ==>
               Resolvable(cfg.target[s.level].snap, cfg.pool, cfg.store)
  {
    var t := cfg.target[s.level];
    if s.applying || t.snap != s.live[s.level].snap.hash then
      s.(snap := Some(NewJob(GetBucket(t.snap, cfg.pool, cfg.store))), applying := true, started := s.started + 1)
    else
      s
  }

  /** Second half of `onStart`: the curr bucket, seeing the flag as the snap
      half left it. */
  function StartCurr(cfg: Config, s: State): State
    requires s.level < |s.live| && s.level < |cfg.target|
    requires s.applying || cfg.target[s.level].curr != s.live[s.level].curr.hash ==>
               Resolvable(cfg.target[s.level].curr, cfg.pool, cfg.store)
  {
    var t := cfg.target[s.level];
    if s.applying || t.curr != s.live[s.level].curr.hash then
      s.(curr := Some(NewJob(GetBucket(t.curr, cfg.pool, cfg.store))), applying := true, started := s.started + 1)
    else
      s
  }

  /** `onStart`: decides which buckets of the current level are replaced.
      With the cascade flag already set, or a differing snap hash, both
      buckets get an applicator; with only the curr hash differing, only curr
      does; with both hashes matching and the flag unset, nothing happens.
      Any replacement sets the flag for every finer level. One start event is
      recorded per applicator created, and nothing else changes. */
  function OnStart(cfg: Config, s: State): (r: State)
    requires s.level < |s.live| && s.level < |cfg.target|
    requires CanStart(cfg, s)
    ensures r.(applying := s.applying, snap := s.snap, curr := s.curr, started := s.started) == s
    ensures var t := cfg.target[s.level];
            var lv := s.live[s.level];
            r.applying == (s.applying || t.snap != lv.snap.hash || t.curr != lv.curr.hash)
    ensures var t := cfg.target[s.level];
            var lv := s.live[s.level];
            s.applying || t.snap != lv.snap.hash ==>
              r.snap == Some(NewJob(GetBucket(t.snap, cfg.pool, cfg.store))) &&
              r.curr == Some(NewJob(GetBucket(t.curr, cfg.pool, cfg.store))) &&
              r.started == s.started + 2
    ensures var t := cfg.target[s.level];
            var lv := s.live[s.level];
            !s.applying && t.snap == lv.snap.hash && t.curr != lv.curr.hash ==>
              r.snap == s.snap &&
              r.curr == Some(NewJob(GetBucket(t.curr, cfg.pool, cfg.store))) &&
              r.started == s.started + 1
    ensures var t := cfg.target[s.level];
            var lv := s.live[s.level];
            !s.applying && t.snap == lv.snap.hash && t.curr == lv.curr.hash ==> r == s
  {
    StartCurr(cfg, StartSnap(cfg, s))
  }

  /** `onRun`: writes one chunk of the snap applicator while it has entries
      left, otherwise one chunk of the curr applicator, otherwise nothing.
      It never touches the bucket list or anything but the two applicators. */
  function OnRun(s: State): (r: State)
    ensures r.(snap := s.snap, curr := s.curr) == s
    ensures Busy(s) ==> Remaining(r) + 1 == Remaining(s)
    ensures !Busy(s) ==> r == s
    ensures r.snap == s.snap || r.curr == s.curr
    ensures SnapBusy(s) ==> r.curr == s.curr
    ensures r.snap.Some? == s.snap.Some? && (r.snap.Some? ==> r.snap.value.bucket == s.snap.value.bucket)
    ensures r.curr.Some? == s.curr.Some? && (r.curr.Some? ==> r.curr.value.bucket == s.curr.value.bucket)
  {
    if SnapBusy(s) then
      s.(snap := Some(s.snap.value.Advance()))
    else if CurrBusy(s) then
      s.(curr := Some(s.curr.value.Advance()))
    else
      s
  }

  /** The level the current one becomes on commit: each held bucket replaces
      the live one, the other stays. */
  function CommitLevel(lv: BucketLevel, snap: Option<Job>, curr: Option<Job>): BucketLevel {
    BucketLevel(
      if snap.Some? then snap.value.bucket else lv.snap,
      if curr.Some? then curr.value.bucket else lv.curr)
  }

  /** `onSuccess`: while an applicator has entries left, stays Running and
      changes nothing. Otherwise commits the held buckets into the current
      level (one success event each), drops the per-level state, and then
      either steps to the next finer level (Pending) or, at level 0, hands
      the target state to `assumeState` and finishes (Success). */
  function OnSuccess(cfg: Config, s: State): (r: (State, WorkState))
    requires s.level < |s.live|
    ensures Busy(s) ==> r == (s, Running)
    ensures !Busy(s) ==> r.1 != Running && r.0.snap == None && r.0.curr == None
    ensures !Busy(s) ==> (
              && |r.0.live| == |s.live|
              && (forall k :: 0 <= k < |s.live| && k != s.level ==> r.0.live[k] == s.live[k])
              && (s.snap.Some? ==> r.0.live[s.level].snap == s.snap.value.bucket)
              && (s.snap.None? ==> r.0.live[s.level].snap == s.live[s.level].snap)
              && (s.curr.Some? ==> r.0.live[s.level].curr == s.curr.value.bucket)
              && (s.curr.None? ==> r.0.live[s.level].curr == s.live[s.level].curr))
    ensures !Busy(s) ==> r.0.succeeded == s.succeeded + Held(s.snap) + Held(s.curr)
    ensures r.0.applying == s.applying && r.0.started == s.started && r.0.failed == s.failed
    ensures r.1 == Pending <==> !Busy(s) && s.level != 0
    ensures r.1 == Pending ==> r.0.level + 1 == s.level
    ensures r.1 != Pending ==> r.0.level == s.level
    ensures r.1 == Success <==> !Busy(s) && s.level == 0
    ensures r.1 == Success ==> r.0.head == Some(cfg.target) && r.0.installs == s.installs + 1
    ensures r.1 != Success ==> r.0.head == s.head && r.0.installs == s.installs
  {
    if Busy(s) then
      (s, Running)
    else
      var committed := s.(
        live := s.live[s.level := CommitLevel(s.live[s.level], s.snap, s.curr)],
        succeeded := s.succeeded + Held(s.snap) + Held(s.curr),
        snap := None,
        curr := None);
      if s.level != 0 then
        (committed.(level := s.level - 1), Pending)
      else
        (committed.(head := Some(cfg.target), installs := s.installs + 1), Success)
  }

  /** `onFailureRetry` and `onFailureRaise`: both record one failure event
      and leave the retry-or-raise decision to the scheduler. */
  function OnFailure(s: State): (r: State)
    ensures r.failed == s.failed + 1
    ensures r.(failed := s.failed) == s
  {
    s.(failed := s.failed + 1)
  }

  /** The cascade flag is sticky: no hook but `OnReset` ever clears it. */
  lemma ApplyingIsSticky(cfg: Config, s: State)
    requires s.applying
    requires s.level < |s.live| && s.level < |cfg.target| && CanStart(cfg, s)
    ensures OnStart(cfg, s).applying && OnRun(s).applying
    ensures OnSuccess(cfg, s).0.applying && OnFailure(s).applying
    ensures 1 <= |s.live| ==> !OnReset(s).applying
  {
  }

  /** Resetting is idempotent and, from a freshly constructed work item,
      changes nothing. */
  lemma ResetIsIdempotent(s: State, live: seq<BucketLevel>)
    requires 1 <= |s.live| && 1 <= |live|
    ensures OnReset(OnReset(s)) == OnReset(s)
    ensures OnReset(Initial(live)) == Initial(live)
  {
  }

  /** The three meters never steer the machine: two states that differ only
      in their counters go through every hook to states that differ only in
      their counters, with the same scheduler result. */
  lemma CountersDoNotSteer(cfg: Config, s: State, s': State)
    requires s' == s.(started := s'.started, succeeded := s'.succeeded, failed := s'.failed)
    requires s.level < |s.live| && s.level < |cfg.target| && CanStart(cfg, s)
    ensures CanStart(cfg, s')
    ensures OnStart(cfg, s') == OnStart(cfg, s).(started := OnStart(cfg, s').started,
                                                   succeeded := s'.succeeded, failed := s'.failed)
    ensures OnRun(s') == OnRun(s).(started := s'.started, succeeded := s'.succeeded, failed := s'.failed)
    ensures OnSuccess(cfg, s').1 == OnSuccess(cfg, s).1
    ensures OnSuccess(cfg, s').0 == OnSuccess(cfg, s).0.(started := s'.started, failed := s'.failed,
                                                         succeeded := OnSuccess(cfg, s').0.succeeded)
  {
  }

  /** A level that is already correct, with the flag unset, goes through
      start, one run and success without creating an applicator, recording an
      event or changing the bucket list; the cursor still moves on (or the
      head is installed at level 0). */
  lemma MatchingLevelIsNoOp(cfg: Config, s: State)
    requires s.level < |s.live| && s.level < |cfg.target|
    requires !s.applying && s.snap == None && s.curr == None
    requires cfg.target[s.level] == HashPair(s.live[s.level].snap.hash, s.live[s.level].curr.hash)
    ensures CanStart(cfg, s)
    ensures var r := OnSuccess(cfg, OnRun(OnStart(cfg, s)));
            r.0.live == s.live && r.0.started == s.started && r.0.succeeded == s.succeeded &&
            !r.0.applying && r.1 != Running &&
            (s.level != 0 ==> r.0.level + 1 == s.level)
  {
  }
}
