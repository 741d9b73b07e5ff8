/**
 * The lockout window (packages/auth/src/auth/lockout.service.ts): per identifier a sorted
 * set of failure times, pruned on every failure and expiring with the window, and a lock
 * key with its own time to live; and the order in which login checks and records
 * (packages/auth/src/auth/auth.service.ts). Redis and the service stay up, their clocks agree
 * and never run backwards, and member names are unique. Times are in milliseconds.
 */
module Lockout {
  import opened Prelude

  type Member = nat

  datatype Config = Config(
    threshold: int,
    windowMs: int,
    durationMs: int,
    liveAtDeadline: bool)  // whether a key still answers at the very millisecond it expires

  predicate Sensible(cfg: Config) {
    cfg.threshold >= 1 && 0 < cfg.windowMs <= cfg.durationMs
  }

  predicate Alive(cfg: Config, deadline: int, now: int) {
    now < deadline || (cfg.liveAtDeadline && now == deadline)
  }

  /** lockout:attempts:<id> (members with their scores) and lockout:locked:<id>. */
  datatype Attempts = Attempts(scores: map<Member, int>, deadline: int)

  datatype Keys = Keys(attempts: Option<Attempts>, lock: Option<int>)

  const NO_KEYS := Keys(None, None)

  predicate Locked(cfg: Config, k: Keys, now: int) {
    k.lock.Some? && Alive(cfg, k.lock.value, now)
  }

  function Scores(cfg: Config, k: Keys, now: int): map<Member, int> {
    if k.attempts.Some? && Alive(cfg, k.attempts.value.deadline, now) then k.attempts.value.scores else map[]
  }

  /** zremrangebyscore -inf .. bound. */
  function Pruned(scores: map<Member, int>, bound: int): map<Member, int> {
    map m | m in scores && bound < scores[m] :: scores[m]
  }

  /** The keys after the failure pipeline, and whether its count promotes to a lockout. */
  function Tallied(cfg: Config, k: Keys, now: int, member: Member): (Keys, bool) {
    var kept := Pruned(Scores(cfg, k, now)[member := now], now - cfg.windowMs);
    (Keys(Some(Attempts(kept, now + cfg.windowMs)), k.lock), |kept| >= cfg.threshold)
  }

  /** The SET of the lock key, which follows in a statement of its own. */
  function LockSet(cfg: Config, k: Keys, now: int): Keys {
    k.(lock := Some(now + cfg.durationMs))
  }

  /** A failure recorded without interruption. */
  function Recorded(cfg: Config, k: Keys, now: int, member: Member): (Keys, bool) {
    var (tallied, promoted) := Tallied(cfg, k, now, member);
    (if promoted then LockSet(cfg, tallied, now) else tallied, promoted)
  }

  // ---------------------------------------------------------------------------
  // The plain history
  // ---------------------------------------------------------------------------

  /** What happened to one identifier: failures recorded, and resets on a good login. */
  datatype Entry = Failure(time: int, member: Member) | Reset(time: int)

  type Log = seq<Entry>

  predicate Monotone(log: Log) {
    forall i, j :: 0 <= i < j < |log| ==> log[i].time <= log[j].time
  }

  predicate DistinctMembers(log: Log) {
    forall i, j :: 0 <= i < j < |log| && log[i].Failure? && log[j].Failure? ==> log[i].member != log[j].member
  }

  /** The clock has not run backwards since the log, and the entry's member name is new. */
  predicate Follows(log: Log, e: Entry) {
    && (log != [] ==> log[|log| - 1].time <= e.time)
    && (e.Failure? ==> forall i :: 0 <= i < |log| && log[i].Failure? ==> log[i].member != e.member)
  }

  /** Each entry followed the ones before it. */
  predicate Proper(log: Log) {
    log == [] || (Proper(log[..|log| - 1]) && Follows(log[..|log| - 1], log[|log| - 1]))
  }

  /** That is: times never decrease, and member names are unique. */
  lemma {:induction false} ProperIsInOrder(log: Log)
    ensures Proper(log) <==> Monotone(log) && DistinctMembers(log)
  {
    if log != [] {
      var front, e := log[..|log| - 1], log[|log| - 1];
      ProperIsInOrder(front);
      assert forall i :: 0 <= i < |front| ==> front[i] == log[i];
      if Monotone(log) && DistinctMembers(log) {
        assert Monotone(front) && DistinctMembers(front) && Follows(front, e);
      }
      if Proper(log) && front != [] {
        assert forall i :: 0 <= i < |front| ==> log[i].time <= front[|front| - 1].time <= e.time;
      }
    }
  }

  lemma ProperExtends(log: Log, e: Entry)
    requires Proper(log) && Follows(log, e)
    ensures Proper(log + [e])
  {
    assert (log + [e])[..|log|] == log;
  }

  /** Position just after the last reset. */
  function SinceReset(log: Log): (i: nat)
    ensures i <= |log|
    ensures forall j :: i <= j < |log| ==> log[j].Failure?
    ensures i > 0 ==> log[i - 1].Reset?
  {
    if log == [] || log[|log| - 1].Reset? then |log| else SinceReset(log[..|log| - 1])
  }

  /** Failures since the last reset with a time after `after`. */
  function Counted(log: Log, after: int): nat {
    if log == [] || log[|log| - 1].Reset? then 0
    else Counted(log[..|log| - 1], after) + if log[|log| - 1].time > after then 1 else 0
  }

  /** The failures Counted counts: those after the last reset, and after that time. */
  function CountedAt(log: Log, after: int): set<nat> {
    set i | SinceReset(log) <= i < |log| && log[i].time > after
  }

  lemma {:induction false} CountedIsSinceReset(log: Log, after: int)
    ensures Counted(log, after) == |CountedAt(log, after)|
  {
    if log == [] || log[|log| - 1].Reset? {
      assert CountedAt(log, after) == {};
    } else {
      var front, last := log[..|log| - 1], |log| - 1;
      CountedIsSinceReset(front, after);
      assert SinceReset(log) == SinceReset(front);
      if log[last].time > after {
        assert CountedAt(log, after) == CountedAt(front, after) + {last};
      } else {
        assert CountedAt(log, after) == CountedAt(front, after);
      }
    }
  }

  function Replay(cfg: Config, log: Log): Keys {
    if log == [] then NO_KEYS
    else
      var k := Replay(cfg, log[..|log| - 1]);
      match log[|log| - 1]
      case Failure(t, m) => Recorded(cfg, k, t, m).0
      case Reset(_) => NO_KEYS
  }

  // ---------------------------------------------------------------------------
  // Refinement: the pruned, expiring set counts what the history counts
  // ---------------------------------------------------------------------------

  function Recent(log: Log, after: int): map<Member, int> {
    if log == [] || log[|log| - 1].Reset? then map[]
    else
      var e := log[|log| - 1];
      var rest := Recent(log[..|log| - 1], after);
      if e.time > after then rest[e.member := e.time] else rest
  }

  lemma {:induction false} RecentIsCounted(log: Log, after: int)
    requires Proper(log)
    ensures |Recent(log, after)| == Counted(log, after)
    ensures forall m :: m in Recent(log, after) ==>
      exists i :: 0 <= i < |log| && log[i] == Failure(Recent(log, after)[m], m)
    ensures forall m :: m in Recent(log, after) ==> Recent(log, after)[m] > after
  {
    if log != [] && log[|log| - 1].Failure? {
      var front, e := log[..|log| - 1], log[|log| - 1];
      RecentIsCounted(front, after);
      assert forall i :: 0 <= i < |front| ==> log[i] == front[i];
      assert log[|log| - 1] == Failure(e.time, e.member);
      assert e.member !in Recent(front, after);
    }
  }

  lemma {:induction false} RecentNarrows(log: Log, after: int, later: int)
    requires after <= later && Proper(log)
    ensures Recent(log, later) == Pruned(Recent(log, after), later)
  {
    if log != [] && log[|log| - 1].Failure? {
      var front := log[..|log| - 1];
      RecentNarrows(front, after, later);
      RecentIsCounted(front, after);
      assert forall i :: 0 <= i < |front| ==> log[i] == front[i];
    }
  }

  lemma {:induction false} RecentEmpty(log: Log, after: int)
    requires Proper(log) && (log != [] ==> log[|log| - 1].time <= after)
    ensures Recent(log, after) == map[]
  {
    if log != [] && log[|log| - 1].Failure? {
      RecentEmpty(log[..|log| - 1], after);
    }
  }

  /** The set a failure leaves behind, when what it found agreed with the history. */
  lemma RecordedIsRecent(cfg: Config, front: Log, k: Keys, now: int, member: Member)
    requires cfg.windowMs > 0
    requires Pruned(Scores(cfg, k, now), now - cfg.windowMs) == Recent(front, now - cfg.windowMs)
    ensures
      var log := front + [Failure(now, member)];
      Recorded(cfg, k, now, member).0.attempts == Some(Attempts(Recent(log, now - cfg.windowMs), now + cfg.windowMs))
  {
    var log := front + [Failure(now, member)];
    assert log[..|front|] == front;
    var bound := now - cfg.windowMs;
    assert Pruned(Scores(cfg, k, now)[member := now], bound) == Pruned(Scores(cfg, k, now), bound)[member := now];
  }

  /** Left alone, the set goes on agreeing with the history until its key expires, and then too. */
  lemma StoreAges(cfg: Config, k: Keys, log: Log, last: int, now: int)
    requires cfg.windowMs > 0 && Proper(log)
    requires log != [] && log[|log| - 1].time == last <= now
    requires k.attempts == Some(Attempts(Recent(log, last - cfg.windowMs), last + cfg.windowMs))
    ensures Pruned(Scores(cfg, k, now), now - cfg.windowMs) == Recent(log, now - cfg.windowMs)
  {
    if Alive(cfg, last + cfg.windowMs, now) {
      RecentNarrows(log, last - cfg.windowMs, now - cfg.windowMs);
    } else {
      RecentEmpty(log, now - cfg.windowMs);
    }
  }

  /**
   * At every moment after the log, what a failure would find in Redis once pruned is exactly
   * the failures of the window since the last reset: neither earlier pruning nor expiry of
   * the key ever lost one of them.
   */
  lemma {:induction false} StoreIsTheWindow(cfg: Config, log: Log, now: int)
    requires cfg.windowMs > 0 && Proper(log)
    requires log != [] ==> log[|log| - 1].time <= now
    ensures Pruned(Scores(cfg, Replay(cfg, log), now), now - cfg.windowMs) == Recent(log, now - cfg.windowMs)
  {
    if log != [] && log[|log| - 1].Failure? {
      var front, e := log[..|log| - 1], log[|log| - 1];
      StoreIsTheWindow(cfg, front, e.time);
      StoreStep(cfg, log, now);
    } else {
      assert Scores(cfg, Replay(cfg, log), now) == map[];
    }
  }

  lemma StoreStep(cfg: Config, log: Log, now: int)
    requires cfg.windowMs > 0 && log != [] && log[|log| - 1].Failure?
    requires Proper(log) && log[|log| - 1].time <= now
    requires
      var front, at := log[..|log| - 1], log[|log| - 1].time;
      Pruned(Scores(cfg, Replay(cfg, front), at), at - cfg.windowMs) == Recent(front, at - cfg.windowMs)
    ensures Pruned(Scores(cfg, Replay(cfg, log), now), now - cfg.windowMs) == Recent(log, now - cfg.windowMs)
  {
    LastFailureLeaves(cfg, log);
    StoreAges(cfg, Replay(cfg, log), log, log[|log| - 1].time, now);
  }

  /** What the last failure left in Redis, when it found what the history says. */
  lemma LastFailureLeaves(cfg: Config, log: Log)
    requires cfg.windowMs > 0 && log != [] && log[|log| - 1].Failure?
    requires
      var front, at := log[..|log| - 1], log[|log| - 1].time;
      Pruned(Scores(cfg, Replay(cfg, front), at), at - cfg.windowMs) == Recent(front, at - cfg.windowMs)
    ensures
      var at := log[|log| - 1].time;
      Replay(cfg, log).attempts == Some(Attempts(Recent(log, at - cfg.windowMs), at + cfg.windowMs))
  {
    var front, e := log[..|log| - 1], log[|log| - 1];
    RecordedIsRecent(cfg, front, Replay(cfg, front), e.time, e.member);
    assert log == front + [Failure(e.time, e.member)];
  }

  lemma PromotionIsByTheSet(cfg: Config, front: Log, k: Keys, now: int, member: Member)
    requires cfg.windowMs > 0
    requires Pruned(Scores(cfg, k, now), now - cfg.windowMs) == Recent(front, now - cfg.windowMs)
    ensures
      Recorded(cfg, k, now, member).1 <==>
        |Recent(front + [Failure(now, member)], now - cfg.windowMs)| >= cfg.threshold
  {
    RecordedIsRecent(cfg, front, k, now, member);
    var (after, promoted) := Recorded(cfg, k, now, member);
    assert promoted <==> |after.attempts.value.scores| >= cfg.threshold;
  }

  lemma PromotionIsByCount(cfg: Config, front: Log, k: Keys, now: int, member: Member)
    requires cfg.windowMs > 0 && Proper(front) && Follows(front, Failure(now, member))
    requires Pruned(Scores(cfg, k, now), now - cfg.windowMs) == Recent(front, now - cfg.windowMs)
    ensures
      Recorded(cfg, k, now, member).1 <==>
        Counted(front + [Failure(now, member)], now - cfg.windowMs) >= cfg.threshold
  {
    PromotionIsByTheSet(cfg, front, k, now, member);
    ProperExtends(front, Failure(now, member));
    RecentIsCounted(front + [Failure(now, member)], now - cfg.windowMs);
  }

  /** So a failure promotes exactly when the history holds `threshold` failures in its window. */
  lemma PromotionIsByHistory(cfg: Config, log: Log, now: int, member: Member)
    requires cfg.windowMs > 0 && Proper(log) && Follows(log, Failure(now, member))
    ensures
      Recorded(cfg, Replay(cfg, log), now, member).1 <==>
        Counted(log + [Failure(now, member)], now - cfg.windowMs) >= cfg.threshold
  {
    StoreIsTheWindow(cfg, log, now);
    PromotionIsByCount(cfg, log, Replay(cfg, log), now, member);
  }

  // ---------------------------------------------------------------------------
  // How long a lockout lasts
  // ---------------------------------------------------------------------------

  /** When the last failure since the last reset came that filled its window up to the threshold. */
  function LastPromotion(cfg: Config, log: Log): Option<int> {
    if log == [] || log[|log| - 1].Reset? then None
    else if Counted(log, log[|log| - 1].time - cfg.windowMs) >= cfg.threshold then Some(log[|log| - 1].time)
    else LastPromotion(cfg, log[..|log| - 1])
  }

  /** That failure is less than the duration old; at the very millisecond the store decides. */
  predicate LockedOut(cfg: Config, log: Log, now: int) {
    && LastPromotion(cfg, log).Some?
    && var age := now - LastPromotion(cfg, log).value;
       age < cfg.durationMs || (age == cfg.durationMs && cfg.liveAtDeadline)
  }

  lemma LockOfTheLast(cfg: Config, front: Log, now: int, member: Member)
    requires cfg.windowMs > 0 && Proper(front) && Follows(front, Failure(now, member))
    ensures
      Replay(cfg, front + [Failure(now, member)]).lock ==
        if Counted(front + [Failure(now, member)], now - cfg.windowMs) >= cfg.threshold then Some(now + cfg.durationMs)
        else Replay(cfg, front).lock
  {
    PromotionIsByHistory(cfg, front, now, member);
    assert (front + [Failure(now, member)])[..|front|] == front;
  }

  lemma {:induction false} LockIsByHistory(cfg: Config, log: Log)
    requires cfg.windowMs > 0 && Proper(log)
    ensures
      Replay(cfg, log).lock ==
        if LastPromotion(cfg, log).None? then None else Some(LastPromotion(cfg, log).value + cfg.durationMs)
  {
    if log != [] && log[|log| - 1].Failure? {
      var front, e := log[..|log| - 1], log[|log| - 1];
      LockIsByHistory(cfg, front);
      assert front + [Failure(e.time, e.member)] == log;
      LockOfTheLast(cfg, front, e.time, e.member);
    }
  }

  /**
   * A lockout ends. At any moment after the log the identifier is locked out exactly while the
   * last failure since the last reset that promoted is less than the duration old.
   */
  lemma LockoutEnds(cfg: Config, log: Log, now: int)
    requires cfg.windowMs > 0 && Proper(log)
    ensures Locked(cfg, Replay(cfg, log), now) <==> LockedOut(cfg, log, now)
  {
    LockIsByHistory(cfg, log);
  }

  // ---------------------------------------------------------------------------
  // The bound
  // ---------------------------------------------------------------------------

  /**
   * One identifier under load. A login first checks the lock, then verifies the password,
   * then resets, or tallies a failure and, when its count promotes, sets the lock key in a
   * step of its own, at its own time. Pending counts the logins between check and reset or
   * tally, promoting those between tally and SET.
   */
  datatype Gate = Gate(keys: Keys, pending: nat, promoting: nat)

  datatype Step =
    | Check(now: int)
    | Fail(now: int, member: Member)
    | SetLock(now: int)
    | Succeed(now: int)

  function Advance(cfg: Config, g: Gate, s: Step): Gate {
    match s
    case Check(now) => if Locked(cfg, g.keys, now) then g else g.(pending := g.pending + 1)
    case Fail(now, m) =>
      if g.pending == 0 then g
      else
        var (keys, promoted) := Tallied(cfg, g.keys, now, m);
        Gate(keys, g.pending - 1, g.promoting + if promoted then 1 else 0)
    case SetLock(now) =>
      if g.promoting == 0 then g else Gate(LockSet(cfg, g.keys, now), g.pending, g.promoting - 1)
    case Succeed(_) => if g.pending == 0 then g else Gate(NO_KEYS, g.pending - 1, g.promoting)
  }

  /** A good login wipes the slate: nobody is locked out after it, and the set is empty. */
  lemma SuccessUnlocks(cfg: Config, g: Gate, at: int, now: int)
    requires g.pending > 0
    ensures
      var g' := Advance(cfg, g, Succeed(at));
      Held(g'.keys) == map[] && Advance(cfg, g', Check(now)).pending == g'.pending + 1
  {
  }

  /** Failures that reach the set in a run. */
  function Failures(cfg: Config, g: Gate, steps: seq<Step>): nat
    decreases |steps|
  {
    if steps == [] then 0
    else
      (if steps[0].Fail? && g.pending > 0 then 1 else 0) + Failures(cfg, Advance(cfg, g, steps[0]), steps[1..])
  }

  /** At most `limit` logins of this identifier are at work at a time, from check to SET or reset. */
  predicate Limited(cfg: Config, g: Gate, steps: seq<Step>, limit: nat)
    decreases |steps|
  {
    && g.pending + g.promoting <= limit
    && (steps != [] ==> Limited(cfg, Advance(cfg, g, steps[0]), steps[1..], limit))
  }

  predicate Within(steps: seq<Step>, from: int, to: int) {
    && (forall i :: 0 <= i < |steps| ==> from <= steps[i].now < to)
    && (forall i, j :: 0 <= i < j < |steps| ==> steps[i].now <= steps[j].now)
  }

  predicate NoSuccess(steps: seq<Step>) {
    forall i :: 0 <= i < |steps| ==> !steps[i].Succeed?
  }

  predicate NewMembers(steps: seq<Step>, scores: map<Member, int>) {
    && (forall i :: 0 <= i < |steps| && steps[i].Fail? ==> steps[i].member !in scores)
    && (forall i, j :: 0 <= i < j < |steps| && steps[i].Fail? && steps[j].Fail? ==> steps[i].member != steps[j].member)
  }

  function Held(k: Keys): map<Member, int> {
    if k.attempts.Some? then k.attempts.value.scores else map[]
  }

  /** Once locked past the end of the interval, only logins already under way can still fail. */
  lemma {:induction false} OnlyPendingFail(cfg: Config, g: Gate, steps: seq<Step>, from: int, to: int)
    requires Sensible(cfg) && to <= from + cfg.windowMs
    requires Within(steps, from, to) && NoSuccess(steps)
    requires g.keys.lock.Some? && g.keys.lock.value >= to
    ensures Failures(cfg, g, steps) <= g.pending
    decreases |steps|
  {
    if steps != [] {
      assert from <= steps[0].now < to;
      OnlyPendingFail(cfg, Advance(cfg, g, steps[0]), steps[1..], from, to);
    }
  }

  /** The failures of the interval that are in the set. */
  function Inside(k: Keys, from: int): set<Member> {
    set m | m in Held(k) && Held(k)[m] >= from
  }

  /** What is in the set from the interval is still alive throughout it. */
  predicate Lasting(k: Keys, from: int, to: int) {
    Inside(k, from) != {} ==> k.attempts.value.deadline >= to
  }

  lemma FailureIsKept(cfg: Config, k: Keys, now: int, member: Member, from: int, to: int)
    requires Sensible(cfg) && to <= from + cfg.windowMs && from <= now < to
    requires Lasting(k, from, to) && member !in Held(k)
    ensures
      var (k', promoted) := Tallied(cfg, k, now, member);
      && Inside(k', from) == Inside(k, from) + {member}
      && |Inside(k', from)| == |Inside(k, from)| + 1
      && Lasting(k', from, to)
      && (!promoted ==> |Inside(k', from)| < cfg.threshold)
      && (forall m :: m in Held(k') ==> m in Held(k) || m == member)
  {
    var (k', promoted) := Tallied(cfg, k, now, member);
    var kept := Held(k');
    if Inside(k, from) != {} {
      assert Scores(cfg, k, now) == Held(k);
    }
    assert Inside(k', from) == Inside(k, from) + {member};
    SubsetSize(Inside(k', from), kept.Keys);
  }

  lemma SubsetSize<T>(a: set<T>, b: set<T>)
    requires a <= b
    ensures |a| <= |b|
  {
    assert b == a + (b - a);
  }

  /** What is left of the interval after its first step. */
  lemma RestOf(steps: seq<Step>, from: int, to: int)
    requires steps != [] && Within(steps, from, to) && NoSuccess(steps)
    ensures from <= steps[0].now < to && !steps[0].Succeed?
    ensures Within(steps[1..], from, to) && NoSuccess(steps[1..])
  {
  }

  lemma RestIsNew(steps: seq<Step>, known: map<Member, int>, more: map<Member, int>)
    requires steps != [] && NewMembers(steps, known)
    requires forall m :: m in more ==> m in known || (steps[0].Fail? && m == steps[0].member)
    ensures NewMembers(steps[1..], more)
  {
    assert forall i :: 0 <= i < |steps[1..]| ==> steps[1..][i] == steps[i + 1];
  }

  /**
   * What may still fail. Once the set holds the threshold, every failure promotes, and its
   * login keeps its place among the `limit` until it has set the lock.
   */
  function Room(cfg: Config, g: Gate, from: int, limit: nat): int {
    if |Inside(g.keys, from)| < cfg.threshold then cfg.threshold - |Inside(g.keys, from)| + limit - 1
    else limit - g.promoting
  }

  /** A failure takes up room, and nothing else makes any, until a lock is set. */
  lemma RoomIsUsed(cfg: Config, g: Gate, s: Step, from: int, to: int, limit: nat)
    requires Sensible(cfg) && to <= from + cfg.windowMs && from <= s.now < to && !s.Succeed?
    requires Lasting(g.keys, from, to) && g.pending + g.promoting <= limit
    requires s.Fail? ==> s.member !in Held(g.keys)
    requires s.SetLock? ==> g.promoting == 0
    ensures
      var g' := Advance(cfg, g, s);
      && Room(cfg, g', from, limit) + (if s.Fail? && g.pending > 0 then 1 else 0) <= Room(cfg, g, from, limit)
      && Lasting(g'.keys, from, to)
      && (forall m :: m in Held(g'.keys) ==> m in Held(g.keys) || (s.Fail? && m == s.member))
  {
    if s.Fail? && g.pending > 0 {
      FailureIsKept(cfg, g.keys, s.now, s.member, from, to);
      assert Advance(cfg, g, s).keys == Tallied(cfg, g.keys, s.now, s.member).0;
    } else {
      assert Advance(cfg, g, s).keys == g.keys && Advance(cfg, g, s).promoting == g.promoting;
    }
  }

  lemma {:induction false} BoundFrom(cfg: Config, g: Gate, steps: seq<Step>, from: int, to: int, limit: nat)
    requires Sensible(cfg) && to <= from + cfg.windowMs
    requires Within(steps, from, to) && NoSuccess(steps) && Limited(cfg, g, steps, limit)
    requires NewMembers(steps, Held(g.keys)) && Lasting(g.keys, from, to)
    ensures Failures(cfg, g, steps) <= Room(cfg, g, from, limit)
    decreases |steps|
  {
    if steps != [] {
      var s, rest := steps[0], steps[1..];
      var g' := Advance(cfg, g, s);
      RestOf(steps, from, to);
      if s.SetLock? && g.promoting > 0 {
        OnlyPendingFail(cfg, g', rest, from, to);
      } else {
        RoomIsUsed(cfg, g, s, from, to, limit);
        RestIsNew(steps, Held(g.keys), Held(g'.keys));
        BoundFrom(cfg, g', rest, from, to, limit);
      }
    }
  }

  function AdvanceAll(cfg: Config, g: Gate, steps: seq<Step>): Gate
    decreases |steps|
  {
    if steps == [] then g else AdvanceAll(cfg, Advance(cfg, g, steps[0]), steps[1..])
  }

  /** After steps that all precede `from`, so do the failures in the set; and names are known. */
  lemma {:induction false} HeldIsPast(cfg: Config, g: Gate, steps: seq<Step>, from: int, names: set<Member>)
    requires forall i :: 0 <= i < |steps| ==> steps[i].now < from
    requires forall i :: 0 <= i < |steps| && steps[i].Fail? ==> steps[i].member in names
    requires forall m :: m in Held(g.keys) ==> Held(g.keys)[m] < from && m in names
    ensures forall m :: m in Held(AdvanceAll(cfg, g, steps).keys) ==>
      Held(AdvanceAll(cfg, g, steps).keys)[m] < from && m in names
    decreases |steps|
  {
    if steps != [] {
      var g' := Advance(cfg, g, steps[0]);
      assert steps[0].now < from;
      assert forall m :: m in Held(g'.keys) ==>
        (m in Held(g.keys) && Held(g'.keys)[m] == Held(g.keys)[m]) ||
        (steps[0].Fail? && m == steps[0].member && Held(g'.keys)[m] == steps[0].now);
      HeldIsPast(cfg, g', steps[1..], from, names);
    }
  }

  const FRESH_GATE := Gate(NO_KEYS, 0, 0)

  function MemberNames(steps: seq<Step>): set<Member> {
    set i | 0 <= i < |steps| && steps[i].Fail? :: steps[i].member
  }

  /**
   * The bound, over all runs. However the run begins, an interval of window length without a
   * successful login records at most threshold + limit - 1 failures, where limit bounds the
   * logins of the identifier that are at work at a time, each until its reset or, when it
   * promotes, its SET. Taken one at a time, that is the threshold.
   */
  lemma LockoutBound(cfg: Config, before: seq<Step>, during: seq<Step>, from: int, limit: nat)
    requires Sensible(cfg)
    requires forall i :: 0 <= i < |before| ==> before[i].now < from
    requires Within(during, from, from + cfg.windowMs) && NoSuccess(during)
    requires forall i :: 0 <= i < |during| && during[i].Fail? ==> during[i].member !in MemberNames(before)
    requires NewMembers(during, map[])
    requires Limited(cfg, AdvanceAll(cfg, FRESH_GATE, before), during, limit)
    ensures Failures(cfg, AdvanceAll(cfg, FRESH_GATE, before), during) <= cfg.threshold + limit - 1
    ensures limit == 1 ==> Failures(cfg, AdvanceAll(cfg, FRESH_GATE, before), during) <= cfg.threshold
  {
    var g := AdvanceAll(cfg, FRESH_GATE, before);
    HeldIsPast(cfg, FRESH_GATE, before, from, MemberNames(before));
    assert Inside(g.keys, from) == {};
    BoundFrom(cfg, g, during, from, from + cfg.windowMs, limit);
  }

  // The bound is sharp: logins that check together all record, lock or no lock.

  lemma {:induction false} RunAppend(cfg: Config, g: Gate, a: seq<Step>, b: seq<Step>, limit: nat)
    ensures AdvanceAll(cfg, g, a + b) == AdvanceAll(cfg, AdvanceAll(cfg, g, a), b)
    ensures Failures(cfg, g, a + b) == Failures(cfg, g, a) + Failures(cfg, AdvanceAll(cfg, g, a), b)
    ensures Limited(cfg, g, a + b, limit) <==>
      Limited(cfg, g, a, limit) && Limited(cfg, AdvanceAll(cfg, g, a), b, limit)
    decreases |a|
  {
    if a == [] {
      assert a + b == b;
    } else {
      assert (a + b)[1..] == a[1..] + b;
      RunAppend(cfg, Advance(cfg, g, a[0]), a[1..], b, limit);
    }
  }

  /** i failures at time 0, one login after another. */
  function OneByOne(i: nat): seq<Step> {
    if i == 0 then [] else OneByOne(i - 1) + [Check(0), Fail(0, i - 1)]
  }

  function Checks(c: nat): seq<Step> {
    if c == 0 then [] else [Check(0)] + Checks(c - 1)
  }

  function Fails(m: Member, c: nat): seq<Step>
    decreases c
  {
    if c == 0 then [] else [Fail(0, m)] + Fails(m + 1, c - 1)
  }

  function FirstMembers(i: nat): map<Member, int> {
    if i == 0 then map[] else FirstMembers(i - 1)[i - 1 := 0]
  }

  function Warm(cfg: Config, i: nat): Gate {
    Gate(if i == 0 then NO_KEYS else Keys(Some(Attempts(FirstMembers(i), cfg.windowMs)), None), 0, 0)
  }

  lemma {:induction false} FirstMembersSize(i: nat)
    ensures |FirstMembers(i)| == i && forall m: Member :: m in FirstMembers(i) <==> m < i
    ensures forall m :: m in FirstMembers(i) ==> FirstMembers(i)[m] == 0
  {
    if i > 0 { FirstMembersSize(i - 1); }
  }

  lemma {:induction false} OneByOneFails(cfg: Config, i: nat, limit: nat)
    requires Sensible(cfg) && i < cfg.threshold && limit >= 1
    ensures AdvanceAll(cfg, FRESH_GATE, OneByOne(i)) == Warm(cfg, i)
    ensures Failures(cfg, FRESH_GATE, OneByOne(i)) == i
    ensures Limited(cfg, FRESH_GATE, OneByOne(i), limit)
  {
    if i > 0 {
      OneByOneFails(cfg, i - 1, limit);
      OneMoreFails(cfg, i, limit);
      RunAppend(cfg, FRESH_GATE, OneByOne(i - 1), [Check(0), Fail(0, i - 1)], limit);
    }
  }

  lemma WarmsUp(cfg: Config, i: nat)
    requires Sensible(cfg) && 0 < i < cfg.threshold
    ensures Advance(cfg, Warm(cfg, i - 1), Check(0)) == Warm(cfg, i - 1).(pending := 1)
    ensures Advance(cfg, Warm(cfg, i - 1).(pending := 1), Fail(0, i - 1)) == Warm(cfg, i)
  {
    FirstMembersSize(i - 1);
    FirstMembersSize(i);
    assert Scores(cfg, Warm(cfg, i - 1).keys, 0) == FirstMembers(i - 1);
    assert Pruned(FirstMembers(i), 0 - cfg.windowMs) == FirstMembers(i);
  }

  lemma OneMoreFails(cfg: Config, i: nat, limit: nat)
    requires Sensible(cfg) && 0 < i < cfg.threshold && limit >= 1
    ensures
      var g, pair := Warm(cfg, i - 1), [Check(0), Fail(0, i - 1)];
      AdvanceAll(cfg, g, pair) == Warm(cfg, i) && Failures(cfg, g, pair) == 1 && Limited(cfg, g, pair, limit)
  {
    WarmsUp(cfg, i);
    var g := Warm(cfg, i - 1);
    var pair, last := [Check(0), Fail(0, i - 1)], [Fail(0, i - 1)];
    assert pair[1..] == last && last[1..] == [];
    assert AdvanceAll(cfg, g, pair) == AdvanceAll(cfg, g.(pending := 1), last) == AdvanceAll(cfg, Warm(cfg, i), []);
    assert Failures(cfg, g, pair) == Failures(cfg, g.(pending := 1), last) == 1 + Failures(cfg, Warm(cfg, i), []);
    assert Limited(cfg, Warm(cfg, i), [], limit) && Limited(cfg, g.(pending := 1), last, limit);
  }

  lemma {:induction false} ChecksPass(cfg: Config, g: Gate, c: nat, limit: nat)
    requires !Locked(cfg, g.keys, 0) && g.pending + g.promoting + c <= limit
    ensures AdvanceAll(cfg, g, Checks(c)) == g.(pending := g.pending + c)
    ensures Failures(cfg, g, Checks(c)) == 0 && Limited(cfg, g, Checks(c), limit)
    decreases c
  {
    if c > 0 {
      assert Checks(c)[1..] == Checks(c - 1);
      ChecksPass(cfg, g.(pending := g.pending + 1), c - 1, limit);
    }
  }

  lemma {:induction false} FailsAllRecord(cfg: Config, g: Gate, m: Member, c: nat, limit: nat)
    requires g.pending == c && c + g.promoting <= limit
    ensures Failures(cfg, g, Fails(m, c)) == c && Limited(cfg, g, Fails(m, c), limit)
    decreases c
  {
    if c > 0 {
      assert Fails(m, c)[1..] == Fails(m + 1, c - 1);
      FailsAllRecord(cfg, Advance(cfg, g, Fail(0, m)), m + 1, c - 1, limit);
    }
  }

  function Race(cfg: Config, limit: nat): seq<Step>
    requires Sensible(cfg)
  {
    OneByOne(cfg.threshold - 1) + (Checks(limit) + Fails(cfg.threshold - 1, limit))
  }

  /** At one moment, without success, failures under names that go up from lo to hi. */
  predicate InOrder(steps: seq<Step>, lo: nat, hi: nat) {
    && (forall i :: 0 <= i < |steps| ==> steps[i].now == 0 && !steps[i].Succeed?)
    && (forall i :: 0 <= i < |steps| && steps[i].Fail? ==> lo <= steps[i].member < hi)
    && (forall i, j :: 0 <= i < j < |steps| && steps[i].Fail? && steps[j].Fail? ==> steps[i].member < steps[j].member)
  }

  lemma InOrderConcat(a: seq<Step>, b: seq<Step>, lo: nat, mid: nat, hi: nat)
    requires InOrder(a, lo, mid) && InOrder(b, mid, hi) && lo <= mid <= hi
    ensures InOrder(a + b, lo, hi)
  {
  }

  lemma {:induction false} OneByOneInOrder(i: nat)
    ensures InOrder(OneByOne(i), 0, i)
  {
    if i > 0 {
      OneByOneInOrder(i - 1);
      InOrderConcat(OneByOne(i - 1), [Check(0), Fail(0, i - 1)], 0, i - 1, i);
    }
  }

  lemma {:induction false} ChecksInOrder(c: nat, m: nat)
    ensures InOrder(Checks(c), m, m)
  {
    if c > 0 {
      ChecksInOrder(c - 1, m);
      InOrderConcat([Check(0)], Checks(c - 1), m, m, m);
    }
  }

  lemma {:induction false} FailsInOrder(m: nat, c: nat)
    ensures InOrder(Fails(m, c), m, m + c)
    decreases c
  {
    if c > 0 {
      FailsInOrder(m + 1, c - 1);
      InOrderConcat([Fail(0, m)], Fails(m + 1, c - 1), m, m + 1, m + c);
    }
  }

  lemma RaceInOrder(cfg: Config, limit: nat)
    requires Sensible(cfg)
    ensures InOrder(Race(cfg, limit), 0, cfg.threshold - 1 + limit)
  {
    var i := cfg.threshold - 1;
    OneByOneInOrder(i);
    ChecksInOrder(limit, i);
    FailsInOrder(i, limit);
    InOrderConcat(Checks(limit), Fails(i, limit), i, i, i + limit);
    InOrderConcat(OneByOne(i), Checks(limit) + Fails(i, limit), 0, i, i + limit);
  }

  lemma RaceFails(cfg: Config, limit: nat)
    requires Sensible(cfg) && limit >= 1
    ensures Limited(cfg, FRESH_GATE, Race(cfg, limit), limit)
    ensures Failures(cfg, FRESH_GATE, Race(cfg, limit)) == cfg.threshold + limit - 1
  {
    var i := cfg.threshold - 1;
    var g := Warm(cfg, i);
    OneByOneFails(cfg, i, limit);
    assert !Locked(cfg, g.keys, 0) && g.pending == g.promoting == 0;
    LastChecksFail(cfg, g, i, limit);
    RunAppend(cfg, FRESH_GATE, OneByOne(i), Checks(limit) + Fails(i, limit), limit);
  }

  lemma LastChecksFail(cfg: Config, g: Gate, m: Member, limit: nat)
    requires !Locked(cfg, g.keys, 0) && g.pending == g.promoting == 0
    ensures Failures(cfg, g, Checks(limit) + Fails(m, limit)) == limit
    ensures Limited(cfg, g, Checks(limit) + Fails(m, limit), limit)
  {
    ChecksPass(cfg, g, limit, limit);
    FailsAllRecord(cfg, g.(pending := limit), m, limit, limit);
    RunAppend(cfg, g, Checks(limit), Fails(m, limit), limit);
  }

  /** The run meets every premise of the bound, and reaches it. */
  lemma BoundIsReached(cfg: Config, limit: nat)
    requires Sensible(cfg) && limit >= 1
    ensures Within(Race(cfg, limit), 0, cfg.windowMs) && NoSuccess(Race(cfg, limit)) &&
      NewMembers(Race(cfg, limit), map[])
    ensures Limited(cfg, FRESH_GATE, Race(cfg, limit), limit)
    ensures Failures(cfg, FRESH_GATE, Race(cfg, limit)) == cfg.threshold + limit - 1
  {
    RaceFails(cfg, limit);
    RaceInOrder(cfg, limit);
    InOrderMeets(cfg, Race(cfg, limit), 0, cfg.threshold - 1 + limit);
  }

  lemma InOrderMeets(cfg: Config, steps: seq<Step>, lo: nat, hi: nat)
    requires Sensible(cfg) && InOrder(steps, lo, hi)
    ensures Within(steps, 0, cfg.windowMs) && NoSuccess(steps) && NewMembers(steps, map[])
  {
  }

  // ---------------------------------------------------------------------------
  // The service
  // ---------------------------------------------------------------------------

  /** ceil(ms / 1000) for a positive number of milliseconds. */
  function CeilSec(ms: int): int {
    (ms + 999) / 1000
  }

  function KeysAt(attempts: map<string, Attempts>, locked: map<string, int>, identifier: string): Keys {
    Keys(if identifier in attempts then Some(attempts[identifier]) else None,
         if identifier in locked then Some(locked[identifier]) else None)
  }

  function LogAt(logs: map<string, Log>, identifier: string): Log {
    if identifier in logs then logs[identifier] else []
  }

  ghost predicate Tracks(cfg: Config, k: Keys, log: Log) {
    k == Replay(cfg, log) && Proper(log)
  }

  lemma FailureTracks(cfg: Config, k: Keys, log: Log, now: int, member: Member)
    requires cfg.windowMs > 0 && Tracks(cfg, k, log) && Follows(log, Failure(now, member))
    ensures
      var (after, promoted) := Recorded(cfg, k, now, member);
      && Tracks(cfg, after, log + [Failure(now, member)])
      && (promoted <==> Counted(log + [Failure(now, member)], now - cfg.windowMs) >= cfg.threshold)
  {
    assert (log + [Failure(now, member)])[..|log|] == log;
    PromotionIsByHistory(cfg, log, now, member);
  }

  lemma ResetTracks(cfg: Config, log: Log, now: int)
    requires Proper(log) && Follows(log, Reset(now))
    ensures Tracks(cfg, NO_KEYS, log + [Reset(now)])
  {
    assert (log + [Reset(now)])[..|log|] == log;
  }

  /** The two Redis keys of every identifier are what its own history left there. */
  ghost predicate AllTrack(cfg: Config, attempts: map<string, Attempts>, locked: map<string, int>,
                           logs: map<string, Log>)
  {
    forall identifier {:trigger Tracks(cfg, KeysAt(attempts, locked, identifier), LogAt(logs, identifier))} ::
      Tracks(cfg, KeysAt(attempts, locked, identifier), LogAt(logs, identifier))
  }

  /** A change to the keys and history of one identifier is invisible to all the others. */
  lemma OthersTrack(cfg: Config, a: map<string, Attempts>, l: map<string, int>, logs: map<string, Log>,
                    a': map<string, Attempts>, l': map<string, int>, logs': map<string, Log>, identifier: string)
    requires AllTrack(cfg, a, l, logs)
    requires forall other :: other != identifier ==>
      KeysAt(a', l', other) == KeysAt(a, l, other) && LogAt(logs', other) == LogAt(logs, other)
    requires Tracks(cfg, KeysAt(a', l', identifier), LogAt(logs', identifier))
    ensures AllTrack(cfg, a', l', logs')
  {
    forall other ensures Tracks(cfg, KeysAt(a', l', other), LogAt(logs', other)) {
      assert Tracks(cfg, KeysAt(a, l, other), LogAt(logs, other));
    }
  }

  /** The pipeline, and the SET when its count promotes: the keys of a recorded failure. */
  lemma CallsRecord(cfg: Config, a: map<string, Attempts>, l: map<string, int>, identifier: string,
                    now: int, member: Member, kept: map<Member, int>)
    requires kept == Pruned(Scores(cfg, KeysAt(a, l, identifier), now)[member := now], now - cfg.windowMs)
    ensures
      var l' := if |kept| >= cfg.threshold then l[identifier := now + cfg.durationMs] else l;
      (KeysAt(a[identifier := Attempts(kept, now + cfg.windowMs)], l', identifier), |kept| >= cfg.threshold) ==
        Recorded(cfg, KeysAt(a, l, identifier), now, member)
  {
  }

  /** One request's calls of Redis, one after the other, add one failure to one history. */
  lemma RecordTracks(cfg: Config, a: map<string, Attempts>, l: map<string, int>, logs: map<string, Log>,
                     identifier: string, now: int, member: Member, kept: map<Member, int>)
    requires Sensible(cfg) && AllTrack(cfg, a, l, logs)
    requires Follows(LogAt(logs, identifier), Failure(now, member))
    requires kept == Pruned(Scores(cfg, KeysAt(a, l, identifier), now)[member := now], now - cfg.windowMs)
    ensures
      var log := LogAt(logs, identifier) + [Failure(now, member)];
      && AllTrack(cfg, a[identifier := Attempts(kept, now + cfg.windowMs)],
                  if |kept| >= cfg.threshold then l[identifier := now + cfg.durationMs] else l,
                  logs[identifier := log])
      && (|kept| >= cfg.threshold <==> Counted(log, now - cfg.windowMs) >= cfg.threshold)
      && (|kept| >= cfg.threshold ==> Alive(cfg, now + cfg.durationMs, now))
  {
    var k, log := KeysAt(a, l, identifier), LogAt(logs, identifier);
    assert Tracks(cfg, k, log);
    FailureTracks(cfg, k, log, now, member);
    CallsRecord(cfg, a, l, identifier, now, member, kept);
    var l' := if |kept| >= cfg.threshold then l[identifier := now + cfg.durationMs] else l;
    OthersTrack(cfg, a, l, logs, a[identifier := Attempts(kept, now + cfg.windowMs)], l',
                logs[identifier := log + [Failure(now, member)]], identifier);
  }

  class LockoutService {
    const cfg: Config
    var attempts: map<string, Attempts>
    var locked: map<string, int>
    ghost var logs: map<string, Log>

    ghost predicate Valid()
      reads this
    {
      Sensible(cfg) && AllTrack(cfg, attempts, locked, logs)
    }

    constructor (cfg: Config)
      requires Sensible(cfg)
      ensures Valid() && this.cfg == cfg && logs == map[]
    {
      this.cfg := cfg;
      attempts, locked, logs := map[], map[], map[];
    }

    method CheckLockout(identifier: string, now: int) returns (retryAfterSec: Option<int>)
      requires Valid()
      ensures retryAfterSec.Some? <==>
        identifier in locked && (now < locked[identifier] || (now == locked[identifier] && cfg.liveAtDeadline))
      ensures retryAfterSec.Some? <==> LockedOut(cfg, LogAt(logs, identifier), now)
      ensures retryAfterSec.Some? && now < locked[identifier] ==>
        1 <= retryAfterSec.value &&
          1000 * (retryAfterSec.value - 1) < locked[identifier] - now <= 1000 * retryAfterSec.value
      ensures retryAfterSec.Some? && now == locked[identifier] ==> retryAfterSec.value == CeilSec(cfg.durationMs)
    {
      assert Tracks(cfg, KeysAt(attempts, locked, identifier), LogAt(logs, identifier));
      LockoutEnds(cfg, LogAt(logs, identifier), now);
      if identifier !in locked || !Alive(cfg, locked[identifier], now) {
        return None;
      }
      var pttl := locked[identifier] - now;
      retryAfterSec := Some(if pttl > 0 then CeilSec(pttl) else CeilSec(cfg.durationMs));
    }

    /** ZADD, ZREMRANGEBYSCORE, ZCARD, PEXPIRE; the key may have expired before. */
    method Pipeline(identifier: string, now: int, member: Member) returns (count: nat)
      modifies this`attempts
      ensures attempts == old(attempts)[identifier :=
        Attempts(Pruned(Scores(cfg, KeysAt(old(attempts), locked, identifier), now)[member := now], now - cfg.windowMs),
                 now + cfg.windowMs)]
      ensures count == |attempts[identifier].scores|
    {
      var scores: map<Member, int> := map[];
      if identifier in attempts && Alive(cfg, attempts[identifier].deadline, now) {
        scores := attempts[identifier].scores;
      }
      scores := scores[member := now];
      scores := Pruned(scores, now - cfg.windowMs);
      count := |scores|;
      attempts := attempts[identifier := Attempts(scores, now + cfg.windowMs)];
    }

    /** The two calls: the pipeline, and the SET when its count promotes. */
    method TallyThenLock(identifier: string, now: int, member: Member) returns (promoted: bool)
      modifies this`attempts, this`locked
      ensures
        var kept := Pruned(Scores(cfg, KeysAt(old(attempts), old(locked), identifier), now)[member := now],
                           now - cfg.windowMs);
        && attempts == old(attempts)[identifier := Attempts(kept, now + cfg.windowMs)]
        && promoted == (|kept| >= cfg.threshold)
        && locked == if promoted then old(locked)[identifier := now + cfg.durationMs] else old(locked)
    {
      var count := Pipeline(identifier, now, member);
      promoted := count >= cfg.threshold;
      if promoted {
        locked := locked[identifier := now + cfg.durationMs];
      }
    }

    method RecordFailedAttempt(identifier: string, now: int, member: Member) returns (promotedToLockout: bool)
      requires Valid()
      requires Follows(LogAt(logs, identifier), Failure(now, member))
      modifies this
      ensures Valid()
      ensures logs == old(logs)[identifier := LogAt(old(logs), identifier) + [Failure(now, member)]]
      ensures promotedToLockout <==> Counted(logs[identifier], now - cfg.windowMs) >= cfg.threshold
      ensures promotedToLockout ==> identifier in locked && locked[identifier] == now + cfg.durationMs
      ensures !promotedToLockout ==> locked == old(locked)
    {
      ghost var log := LogAt(logs, identifier) + [Failure(now, member)];
      ghost var kept := Pruned(Scores(cfg, KeysAt(attempts, locked, identifier), now)[member := now],
                               now - cfg.windowMs);
      RecordTracks(cfg, attempts, locked, logs, identifier, now, member, kept);
      promotedToLockout := TallyThenLock(identifier, now, member);
      logs := logs[identifier := log];
    }

    method ResetAttempts(identifier: string, ghost now: int)
      requires Valid()
      requires Follows(LogAt(logs, identifier), Reset(now))
      modifies this
      ensures Valid()
      ensures logs == old(logs)[identifier := LogAt(old(logs), identifier) + [Reset(now)]]
      ensures KeysAt(attempts, locked, identifier) == NO_KEYS
    {
      ghost var log := LogAt(logs, identifier);
      assert Tracks(cfg, KeysAt(attempts, locked, identifier), log);
      ResetTracks(cfg, log, now);
      attempts := attempts - {identifier};
      locked := locked - {identifier};
      logs := logs[identifier := log + [Reset(now)]];
      OthersTrack(cfg, old(attempts), old(locked), old(logs), attempts, locked, logs, identifier);
    }
  }
}
