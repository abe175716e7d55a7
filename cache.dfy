/**
 * `cacheWithLock`: cache-aside with a lease lock over the shared store.
 *
 * One call reads the value under `key`; on a miss it races for the lock entry
 * "lock:" + key with SET NX PX. The winner runs the producer, publishes its
 * result with SET EX and deletes the lock whatever happened; a loser polls the
 * value until `lockMs` has passed and then starts over from the read.
 *
 * The store's operations take no time. The producer takes `duration` ticks, and
 * every poll sleep lets other clients run one batch of commands against the
 * store. `Protocol` is the call as a function of the store it starts from and
 * reports the call's own store operations as a trace; `CacheWithLock` runs the
 * same steps on a `Store` object.
 */
module Cache {
  import opened Wrappers
  import opened Json
  import opened KvStore

  const DefaultLockMs := 10000
  const DefaultPollMs := 100

  /** Node's setTimeout runs delays below 1 or above this after 1 ms. */
  const TimeoutMax := 2147483647

  /** What the producer `work` would do if called: its outcome and how long it runs. */
  datatype Producer<D, E> = Producer(outcome: Result<D, E>, duration: nat)

  /** Why a call throws: the producer threw, a stored string failed to parse, or Redis refused an expire time. */
  datatype CacheError<E> = WorkFailed(error: E) | CorruptEntry | StoreRejected

  /** The operations one call performs, in order. */
  datatype Event<D> =
    | GetCall(key: string)
    | SetNxCall(key: string, px: int)
    | SetExCall(key: string, text: Text<D>, ex: int)
    | DelCall(key: string)
    | SleepCall(ticks: nat)
    | WorkCall

  datatype Run<D, E> = Run(result: Result<D, CacheError<E>>, after: State<D>, trace: seq<Event<D>>)

  /** How a loser's poll loop ended: the string it saw (None at the deadline), the store, the unused batches. */
  datatype Polled<D> = Polled(seen: Option<Text<D>>, after: State<D>, rest: seq<seq<Command<D>>>, trace: seq<Event<D>>)

  function LockKey(key: string): string {
    "lock:" + key
  }

  function LockMarker<D>(): Text<D> {
    Other("1")
  }

  function SleepTicks(ms: int): nat {
    if 1 <= ms <= TimeoutMax then ms else 1
  }

  function Decode<D, E>(t: Text<D>): Result<D, CacheError<E>> {
    match Parse(t)
    case Some(d) => Success(d)
    case None => Failure(CorruptEntry)
  }

  /** True when GET returned a string the code treats as a hit. */
  predicate IsHit<D>(raw: Option<Text<D>>) {
    raw.Some? && Truthy(raw.value)
  }

  /** Ticks left on the live entry at k, or 0. */
  function LeaseLeft<D>(s: State<D>, k: string): nat {
    if Live(s, k) then s.entries[k].expiresAt - s.now else 0
  }

  function Prefixed<D, E>(pre: seq<Event<D>>, r: Run<D, E>): Run<D, E> {
    Run(r.result, r.after, pre + r.trace)
  }

  function PolledAfter<D>(pre: seq<Event<D>>, p: Polled<D>): Polled<D> {
    Polled(p.seen, p.after, p.rest, pre + p.trace)
  }

  /**
   * The loser's loop: while the clock is before `deadline`, GET the key and
   * return what a hit shows, else sleep `pollMs`, during which the next batch
   * of other clients' commands runs.
   */
  function Poll<D>(s: State<D>, key: string, deadline: int, pollMs: int, peers: seq<seq<Command<D>>>): (p: Polled<D>)
    ensures p.seen.Some? ==> p.after.now < deadline && IsHit(p.seen) && Read(p.after, key) == p.seen
    ensures p.seen.None? ==> p.after.now >= deadline
    ensures p.after.now >= s.now && |p.rest| <= |peers|
    ensures s.now < deadline && p.seen.None? ==> p.after.now > s.now && (peers != [] ==> |p.rest| < |peers|)
    ensures peers == [] ==> p.rest == [] && p.after.entries == s.entries
    ensures forall e :: e in p.trace ==> e == GetCall(key) || e.SleepCall?
    ensures s.now < deadline && IsHit(Read(s, key)) ==> p == Polled(Read(s, key), s, peers, [GetCall(key)])
    decreases deadline - s.now
  {
    if s.now < deadline then
      var raw := Read(s, key);
      if IsHit(raw) then Polled(raw, s, peers, [GetCall(key)])
      else
        var slept := Elapse(s, SleepTicks(pollMs));
        var woke := if peers == [] then slept else ExecAll(slept, peers[0]);
        var p := Poll(woke, key, deadline, pollMs, if peers == [] then [] else peers[1..]);
        PolledAfter([GetCall(key), SleepCall(SleepTicks(pollMs))], p)
    else Polled(None, s, peers, [])
  }

  /**
   * The winner's `try`/`finally`: run the producer, publish its value with the
   * TTL, and delete the lock on every exit.
   */
  function Winner<D, E>(s: State<D>, key: string, ttlSeconds: int, work: Producer<D, E>): (r: Run<D, E>)
    ensures |r.trace| >= 2 && r.trace[0] == WorkCall && r.trace[|r.trace| - 1] == DelCall(LockKey(key))
    ensures LockKey(key) !in r.after.entries
    ensures r.after.now == s.now + work.duration
    ensures r.result.Success? <==> work.outcome.Success? && ttlSeconds > 0
    ensures r.result.Success? ==>
              r.result.value == work.outcome.value && Read(r.after, key) == Some(Stringify(r.result.value))
              && r.after.entries[key].expiresAt == r.after.now + ttlSeconds * MsPerSecond
    ensures work.outcome.Failure? ==>
              r.result == Failure(WorkFailed(work.outcome.error))
              && Unpublished(r.trace) && r.after.entries == s.entries - {LockKey(key)}
    ensures work.outcome.Success? && ttlSeconds > 0 ==>
              r.after.entries == s.entries[key := Entry(Stringify(work.outcome.value), r.after.now + ttlSeconds * MsPerSecond)]
                                 - {LockKey(key)}
    ensures work.outcome.Success? && ttlSeconds <= 0 ==>
              r.result == Failure(StoreRejected) && r.after.entries == s.entries - {LockKey(key)}
  {
    var lockKey := LockKey(key);
    assert |lockKey| == |key| + 5;
    var started := Elapse(s, work.duration);
    match work.outcome
    case Failure(e) =>
      Run(Failure(WorkFailed(e)), Remove(started, lockKey), [WorkCall, DelCall(lockKey)])
    case Success(v) =>
      var w := Put(started, key, Stringify(v), ttlSeconds);
      Run(if w.reply then Success(v) else Failure(StoreRejected), Remove(w.after, lockKey),
          [WorkCall, SetExCall(key, Stringify(v), ttlSeconds), DelCall(lockKey)])
  }

  /** One call of `cacheWithLock(key, ttlSeconds, work, lockMs, pollMs)`. */
  function Protocol<D, E>(s: State<D>, key: string, ttlSeconds: int, work: Producer<D, E>, lockMs: int, pollMs: int,
                          peers: seq<seq<Command<D>>>): (r: Run<D, E>)
    ensures r.trace != [] && r.trace[0] == GetCall(key)
    ensures r.after.now >= s.now
    decreases |peers|, LeaseLeft(s, LockKey(key))
  {
    var hit := Read(s, key);
    if IsHit(hit) then Run(Decode(hit.value), s, [GetCall(key)])
    else
      var race := PutIfAbsent(s, LockKey(key), LockMarker(), lockMs);
      var pre := [GetCall(key), SetNxCall(LockKey(key), lockMs)];
      match race.reply
      case InvalidExpire => Run(Failure(StoreRejected), race.after, pre)
      case Acquired => Prefixed(pre, Winner(race.after, key, ttlSeconds, work))
      case Held =>
        var p := Poll(race.after, key, race.after.now + lockMs, pollMs, peers);
        if p.seen.Some? then Run(Decode(p.seen.value), p.after, pre + p.trace)
        else Prefixed(pre + p.trace, Protocol(p.after, key, ttlSeconds, work, lockMs, pollMs, p.rest))
  }

  /** The lock lives under "lock:" + key: never the value's own key, and distinct keys get distinct locks. */
  lemma LockKeySeparate(key: string, other: string)
    ensures LockKey(key) != key
    ensures LockKey(key) == LockKey(other) ==> key == other
  {
    assert |LockKey(key)| == |key| + 5;
    if LockKey(key) == LockKey(other) {
      assert key == LockKey(key)[5..] == LockKey(other)[5..] == other;
    }
  }

  /** A hit returns the parsed string after one GET, without the producer or the lock, and changes nothing. */
  lemma HitServed<D, E>(s: State<D>, key: string, ttlSeconds: int, work: Producer<D, E>, lockMs: int, pollMs: int,
                        peers: seq<seq<Command<D>>>)
    requires IsHit(Read(s, key))
    ensures var r := Protocol(s, key, ttlSeconds, work, lockMs, pollMs, peers);
            r.trace == [GetCall(key)] && r.after == s
            && r.result == (if s.entries[key].text.Doc? then Success(s.entries[key].text.doc) else Failure(CorruptEntry))
  {
  }

  /**
   * Every operation of a call touches only `key` or its lock: GETs and the
   * published value go to `key`, SET NX and DEL go to "lock:" + key, and the
   * only value ever published is the producer's, with the caller's TTL.
   */
  lemma {:induction false} OnlyKeyAndLockTouched<D, E>(s: State<D>, key: string, ttlSeconds: int, work: Producer<D, E>,
                                                       lockMs: int, pollMs: int, peers: seq<seq<Command<D>>>)
    ensures forall e :: e in Protocol(s, key, ttlSeconds, work, lockMs, pollMs, peers).trace ==>
              match e
              case GetCall(k) => k == key
              case SetNxCall(k, px) => k == LockKey(key) && px == lockMs
              case SetExCall(k, t, ex) => k == key && work.outcome.Success? && t == Stringify(work.outcome.value) && ex == ttlSeconds
              case DelCall(k) => k == LockKey(key)
              case SleepCall(n) => n == SleepTicks(pollMs)
              case WorkCall => true
    decreases |peers|, LeaseLeft(s, LockKey(key))
  {
    if !IsHit(Read(s, key)) {
      var race := PutIfAbsent(s, LockKey(key), LockMarker(), lockMs);
      if race.reply == Held {
        var p := Poll(race.after, key, race.after.now + lockMs, pollMs, peers);
        PollSleepsPollMs(race.after, key, race.after.now + lockMs, pollMs, peers);
        if p.seen.None? {
          OnlyKeyAndLockTouched(p.after, key, ttlSeconds, work, lockMs, pollMs, p.rest);
        }
      }
    }
  }

  lemma {:induction false} PollSleepsPollMs<D>(s: State<D>, key: string, deadline: int, pollMs: int, peers: seq<seq<Command<D>>>)
    ensures forall e :: e in Poll(s, key, deadline, pollMs, peers).trace ==> e == GetCall(key) || e == SleepCall(SleepTicks(pollMs))
    decreases deadline - s.now
  {
    if s.now < deadline && !IsHit(Read(s, key)) {
      var slept := Elapse(s, SleepTicks(pollMs));
      var woke := if peers == [] then slept else ExecAll(slept, peers[0]);
      PollSleepsPollMs(woke, key, deadline, pollMs, if peers == [] then [] else peers[1..]);
    }
  }

  /**
   * The producer runs at most once per call, only after this call's SET NX
   * returned "OK", and a call that ran it ends with DEL of the lock, after which
   * the store holds no lock entry for `key`.
   */
  lemma {:induction false} WorkOnceAndLockReleased<D, E>(s: State<D>, key: string, ttlSeconds: int, work: Producer<D, E>,
                                                        lockMs: int, pollMs: int, peers: seq<seq<Command<D>>>)
    ensures ReleasedAfterWork(Protocol(s, key, ttlSeconds, work, lockMs, pollMs, peers), key)
    decreases |peers|, LeaseLeft(s, LockKey(key))
  {
    var race := PutIfAbsent(s, LockKey(key), LockMarker(), lockMs);
    if IsHit(Read(s, key)) || race.reply == InvalidExpire {
      ShortRoundReleases(s, key, ttlSeconds, work, lockMs, pollMs, peers);
    } else if race.reply == Acquired {
      WonRoundReleases(s, key, ttlSeconds, work, lockMs, pollMs, peers);
    } else {
      var p := Poll(race.after, key, s.now + lockMs, pollMs, peers);
      if p.seen.None? {
        WorkOnceAndLockReleased(p.after, key, ttlSeconds, work, lockMs, pollMs, p.rest);
      }
      LostRoundReleases(s, key, ttlSeconds, work, lockMs, pollMs, peers);
    }
  }

  /** A hit, or a SET NX the store rejects, ends the call without the producer. */
  lemma ShortRoundReleases<D, E>(s: State<D>, key: string, ttlSeconds: int, work: Producer<D, E>, lockMs: int,
                                 pollMs: int, peers: seq<seq<Command<D>>>)
    requires IsHit(Read(s, key)) || PutIfAbsent(s, LockKey(key), LockMarker(), lockMs).reply == InvalidExpire
    ensures ReleasedAfterWork(Protocol(s, key, ttlSeconds, work, lockMs, pollMs, peers), key)
  {
    ReleasedWithoutWork(Protocol(s, key, ttlSeconds, work, lockMs, pollMs, peers), key);
  }

  lemma WonRoundReleases<D, E>(s: State<D>, key: string, ttlSeconds: int, work: Producer<D, E>, lockMs: int,
                               pollMs: int, peers: seq<seq<Command<D>>>)
    requires !IsHit(Read(s, key)) && PutIfAbsent(s, LockKey(key), LockMarker(), lockMs).reply == Acquired
    ensures ReleasedAfterWork(Protocol(s, key, ttlSeconds, work, lockMs, pollMs, peers), key)
  {
    RoundWon(s, key, ttlSeconds, work, lockMs, pollMs, peers);
    var race := PutIfAbsent(s, LockKey(key), LockMarker(), lockMs);
    WinnerReleases(race.after, key, ttlSeconds, work);
    ReleasedAfterPrefix([GetCall(key), SetNxCall(LockKey(key), lockMs)], Winner(race.after, key, ttlSeconds, work), key);
  }

  /** A lost round adds only GETs, the SET NX and sleeps in front of the next round. */
  lemma LostRoundReleases<D, E>(s: State<D>, key: string, ttlSeconds: int, work: Producer<D, E>, lockMs: int,
                                pollMs: int, peers: seq<seq<Command<D>>>)
    requires !IsHit(Read(s, key)) && PutIfAbsent(s, LockKey(key), LockMarker(), lockMs).reply == Held
    requires var p := Poll(PutIfAbsent(s, LockKey(key), LockMarker(), lockMs).after, key, s.now + lockMs, pollMs, peers);
             p.seen.None? ==> ReleasedAfterWork(Protocol(p.after, key, ttlSeconds, work, lockMs, pollMs, p.rest), key)
    ensures ReleasedAfterWork(Protocol(s, key, ttlSeconds, work, lockMs, pollMs, peers), key)
  {
    RoundPolled(s, key, ttlSeconds, work, lockMs, pollMs, peers);
    var p := Poll(PutIfAbsent(s, LockKey(key), LockMarker(), lockMs).after, key, s.now + lockMs, pollMs, peers);
    var waited := [GetCall(key), SetNxCall(LockKey(key), lockMs)] + p.trace;
    assert WorkCall !in waited;
    if p.seen.Some? {
      ReleasedWithoutWork(Protocol(s, key, ttlSeconds, work, lockMs, pollMs, peers), key);
    } else {
      ReleasedAfterPrefix(waited, Protocol(p.after, key, ttlSeconds, work, lockMs, pollMs, p.rest), key);
    }
  }

  /** The producer ran at most once, and if it ran, the last operation deleted the lock and no lock entry is left. */
  ghost predicate ReleasedAfterWork<D, E>(r: Run<D, E>, key: string) {
    multiset(r.trace)[WorkCall] <= 1
    && (WorkCall in r.trace ==>
          |r.trace| >= 2 && r.trace[|r.trace| - 1] == DelCall(LockKey(key)) && LockKey(key) !in r.after.entries)
  }

  lemma ReleasedWithoutWork<D, E>(r: Run<D, E>, key: string)
    requires WorkCall !in r.trace
    ensures ReleasedAfterWork(r, key)
  {
    assert multiset(r.trace)[WorkCall] == 0;
  }

  lemma ReleasedAfterPrefix<D, E>(pre: seq<Event<D>>, r: Run<D, E>, key: string)
    requires WorkCall !in pre
    requires ReleasedAfterWork(r, key)
    ensures ReleasedAfterWork(Prefixed(pre, r), key)
  {
    NoWorkBefore(pre, r.trace);
  }

  lemma WinnerReleases<D, E>(s: State<D>, key: string, ttlSeconds: int, work: Producer<D, E>)
    ensures ReleasedAfterWork(Winner(s, key, ttlSeconds, work), key)
  {
    var w := Winner(s, key, ttlSeconds, work);
    assert w.trace == [WorkCall] + w.trace[1..];
    assert WorkCall !in w.trace[1..];
    NoWorkBefore(w.trace[1..], [WorkCall]);
    assert multiset(w.trace) == multiset([WorkCall] + w.trace[1..]);
  }

  /** Prepending operations that include no producer call keeps the count and the last operation. */
  lemma NoWorkBefore<D>(pre: seq<Event<D>>, t: seq<Event<D>>)
    requires WorkCall !in pre
    ensures multiset(pre + t)[WorkCall] == multiset(t)[WorkCall]
    ensures WorkCall in pre + t <==> WorkCall in t
    ensures |t| > 0 ==> (pre + t)[|pre + t| - 1] == t[|t| - 1]
  {
    assert multiset(pre + t) == multiset(pre) + multiset(t);
  }

  /** No operation of the trace publishes a value. */
  predicate Unpublished<D>(trace: seq<Event<D>>) {
    forall i :: 0 <= i < |trace| ==> !trace[i].SetExCall?
  }

  lemma UnpublishedJoin<D>(a: seq<Event<D>>, b: seq<Event<D>>)
    requires Unpublished(a) && Unpublished(b)
    ensures Unpublished(a + b)
  {
  }

  /** A call throws the producer's error exactly when it ran the producer and the producer failed. */
  lemma FailureIsTheProducers<D, E>(s: State<D>, key: string, ttlSeconds: int, work: Producer<D, E>,
                                    lockMs: int, pollMs: int, peers: seq<seq<Command<D>>>)
    ensures var r := Protocol(s, key, ttlSeconds, work, lockMs, pollMs, peers);
            (r.result.Failure? && r.result.error.WorkFailed?) <==> (WorkCall in r.trace && work.outcome.Failure?)
    ensures var r := Protocol(s, key, ttlSeconds, work, lockMs, pollMs, peers);
            r.result.Failure? && r.result.error.WorkFailed? ==> r.result.error.error == work.outcome.error
  {
    FailurePropagates(s, key, ttlSeconds, work, lockMs, pollMs, peers);
  }

  /** A call that throws the producer's error published nothing. */
  lemma FailurePublishesNothing<D, E>(s: State<D>, key: string, ttlSeconds: int, work: Producer<D, E>,
                                      lockMs: int, pollMs: int, peers: seq<seq<Command<D>>>)
    ensures var r := Protocol(s, key, ttlSeconds, work, lockMs, pollMs, peers);
            r.result.Failure? && r.result.error.WorkFailed? ==> Unpublished(r.trace)
  {
    FailurePropagates(s, key, ttlSeconds, work, lockMs, pollMs, peers);
  }

  /**
   * The call fails with the producer's error exactly when it ran a failing
   * producer; it then throws that error and has published nothing.
   */
  ghost predicate FailedAsProducer<D, E>(r: Run<D, E>, work: Producer<D, E>) {
    ((r.result.Failure? && r.result.error.WorkFailed?) <==> (WorkCall in r.trace && work.outcome.Failure?))
    && (r.result.Failure? && r.result.error.WorkFailed? ==>
          r.result.error.error == work.outcome.error && Unpublished(r.trace))
  }

  lemma {:induction false} FailurePropagates<D, E>(s: State<D>, key: string, ttlSeconds: int, work: Producer<D, E>,
                                                  lockMs: int, pollMs: int, peers: seq<seq<Command<D>>>)
    ensures FailedAsProducer(Protocol(s, key, ttlSeconds, work, lockMs, pollMs, peers), work)
    decreases |peers|, LeaseLeft(s, LockKey(key))
  {
    var race := PutIfAbsent(s, LockKey(key), LockMarker(), lockMs);
    if IsHit(Read(s, key)) || race.reply == InvalidExpire {
      assert WorkCall !in Protocol(s, key, ttlSeconds, work, lockMs, pollMs, peers).trace;
    } else if race.reply == Acquired {
      WonRoundFails(s, key, ttlSeconds, work, lockMs, pollMs, peers);
    } else {
      var p := Poll(race.after, key, s.now + lockMs, pollMs, peers);
      if p.seen.None? {
        FailurePropagates(p.after, key, ttlSeconds, work, lockMs, pollMs, p.rest);
      }
      LostRoundFails(s, key, ttlSeconds, work, lockMs, pollMs, peers);
    }
  }

  lemma WonRoundFails<D, E>(s: State<D>, key: string, ttlSeconds: int, work: Producer<D, E>, lockMs: int,
                            pollMs: int, peers: seq<seq<Command<D>>>)
    requires !IsHit(Read(s, key)) && PutIfAbsent(s, LockKey(key), LockMarker(), lockMs).reply == Acquired
    ensures FailedAsProducer(Protocol(s, key, ttlSeconds, work, lockMs, pollMs, peers), work)
  {
    RoundWon(s, key, ttlSeconds, work, lockMs, pollMs, peers);
    var pre := [GetCall(key), SetNxCall(LockKey(key), lockMs)];
    var w := Winner(PutIfAbsent(s, LockKey(key), LockMarker(), lockMs).after, key, ttlSeconds, work);
    assert WorkCall in pre + w.trace by { assert (pre + w.trace)[2] == WorkCall; }
    if work.outcome.Failure? {
      UnpublishedJoin(pre, w.trace);
    }
  }

  lemma LostRoundFails<D, E>(s: State<D>, key: string, ttlSeconds: int, work: Producer<D, E>, lockMs: int,
                             pollMs: int, peers: seq<seq<Command<D>>>)
    requires !IsHit(Read(s, key)) && PutIfAbsent(s, LockKey(key), LockMarker(), lockMs).reply == Held
    requires var p := Poll(PutIfAbsent(s, LockKey(key), LockMarker(), lockMs).after, key, s.now + lockMs, pollMs, peers);
             p.seen.None? ==> FailedAsProducer(Protocol(p.after, key, ttlSeconds, work, lockMs, pollMs, p.rest), work)
    ensures FailedAsProducer(Protocol(s, key, ttlSeconds, work, lockMs, pollMs, peers), work)
  {
    RoundPolled(s, key, ttlSeconds, work, lockMs, pollMs, peers);
    var p := Poll(PutIfAbsent(s, LockKey(key), LockMarker(), lockMs).after, key, s.now + lockMs, pollMs, peers);
    var waited := [GetCall(key), SetNxCall(LockKey(key), lockMs)] + p.trace;
    assert WorkCall !in waited;
    if p.seen.None? {
      var next := Protocol(p.after, key, ttlSeconds, work, lockMs, pollMs, p.rest);
      if next.result.Failure? && next.result.error.WorkFailed? {
        assert Unpublished(waited) by {
          forall i | 0 <= i < |waited| ensures !waited[i].SetExCall? {
            assert waited[i] in waited;
          }
        }
        UnpublishedJoin(waited, next.trace);
      }
    }
  }

  /**
   * Whatever a call returns is the document the store holds under `key` when
   * the call returns: a hit or a loser returns what it read, the winner what it
   * published. A winner returns exactly what the producer gave.
   */
  lemma {:induction false} ReturnedValueIsStored<D, E>(s: State<D>, key: string, ttlSeconds: int, work: Producer<D, E>,
                                                      lockMs: int, pollMs: int, peers: seq<seq<Command<D>>>)
    ensures var r := Protocol(s, key, ttlSeconds, work, lockMs, pollMs, peers);
            r.result.Success? ==> Read(r.after, key) == Some(Stringify(r.result.value))
    ensures var r := Protocol(s, key, ttlSeconds, work, lockMs, pollMs, peers);
            r.result.Success? && WorkCall in r.trace ==> work.outcome == Success(r.result.value)
    decreases |peers|, LeaseLeft(s, LockKey(key))
  {
    if !IsHit(Read(s, key)) {
      var race := PutIfAbsent(s, LockKey(key), LockMarker(), lockMs);
      var pre := [GetCall(key), SetNxCall(LockKey(key), lockMs)];
      if race.reply == Held {
        var p := Poll(race.after, key, race.after.now + lockMs, pollMs, peers);
        assert WorkCall !in pre + p.trace;
        if p.seen.None? {
          ReturnedValueIsStored(p.after, key, ttlSeconds, work, lockMs, pollMs, p.rest);
        }
      }
    }
  }

  /**
   * Crash recovery: when no other client writes while this call waits, a miss
   * always ends with this call running the producer itself, however long a
   * dead winner's lock still has to live.
   */
  lemma {:induction false} QuietStoreRecovers<D, E>(s: State<D>, key: string, ttlSeconds: int, work: Producer<D, E>,
                                                   lockMs: int, pollMs: int)
    requires lockMs > 0
    requires !IsHit(Read(s, key))
    ensures WorkCall in Protocol(s, key, ttlSeconds, work, lockMs, pollMs, []).trace
    decreases LeaseLeft(s, LockKey(key))
  {
    var race := PutIfAbsent(s, LockKey(key), LockMarker(), lockMs);
    var pre := [GetCall(key), SetNxCall(LockKey(key), lockMs)];
    if race.reply == Acquired {
      var w := Winner(race.after, key, ttlSeconds, work);
      assert (pre + w.trace)[2] == WorkCall;
    } else {
      var p := Poll(race.after, key, race.after.now + lockMs, pollMs, []);
      StaysMissed(s, p.after, key);
      assert p.seen.None?;
      QuietStoreRecovers(p.after, key, ttlSeconds, work, lockMs, pollMs);
    }
  }

  /**
   * Bounded crash recovery: when no other client writes and the lock left by
   * a dead holder has at most `lockMs` to live, a miss runs the producer
   * within one lease and one poll interval, plus the producer's own run time.
   */
  lemma QuietStoreRecoversInTime<D, E>(s: State<D>, key: string, ttlSeconds: int, work: Producer<D, E>,
                                       lockMs: int, pollMs: int)
    requires lockMs > 0 && 1 <= pollMs <= TimeoutMax
    requires !IsHit(Read(s, key))
    requires LeaseLeft(s, LockKey(key)) <= lockMs
    ensures var r := Protocol(s, key, ttlSeconds, work, lockMs, pollMs, []);
            WorkCall in r.trace && r.after.now < s.now + lockMs + pollMs + work.duration
  {
    var race := PutIfAbsent(s, LockKey(key), LockMarker(), lockMs);
    var pre := [GetCall(key), SetNxCall(LockKey(key), lockMs)];
    if race.reply == Acquired {
      RoundWon(s, key, ttlSeconds, work, lockMs, pollMs, []);
      var w := Winner(race.after, key, ttlSeconds, work);
      assert (pre + w.trace)[2] == WorkCall;
    } else {
      RoundPolled(s, key, ttlSeconds, work, lockMs, pollMs, []);
      var p := Poll(race.after, key, s.now + lockMs, pollMs, []);
      PollEndsWithinOneSleep(race.after, key, s.now + lockMs, pollMs);
      StaysMissed(s, p.after, key);
      assert !Live(p.after, LockKey(key));
      RoundWon(p.after, key, ttlSeconds, work, lockMs, pollMs, []);
      var w := Winner(PutIfAbsent(p.after, LockKey(key), LockMarker(), lockMs).after, key, ttlSeconds, work);
      var waited := pre + p.trace;
      assert (waited + (pre + w.trace))[|waited| + 2] == WorkCall;
    }
  }

  /** With no other client, a poll loop that starts before the deadline ends less than one sleep after it. */
  lemma {:induction false} PollEndsWithinOneSleep<D>(s: State<D>, key: string, deadline: int, pollMs: int)
    requires 1 <= pollMs <= TimeoutMax
    requires s.now < deadline
    ensures Poll(s, key, deadline, pollMs, []).after.now < deadline + pollMs
    decreases deadline - s.now
  {
    if !IsHit(Read(s, key)) {
      var slept := Elapse(s, SleepTicks(pollMs));
      if slept.now < deadline {
        PollEndsWithinOneSleep(slept, key, deadline, pollMs);
      }
    }
  }

  /**
   * A loser sees other clients' writes: when the batch run during its first
   * sleep publishes a value before the deadline, the loop returns that value.
   */
  lemma PollSeesPublished<D>(s: State<D>, key: string, deadline: int, pollMs: int, peers: seq<seq<Command<D>>>)
    requires s.now < deadline && !IsHit(Read(s, key)) && peers != []
    requires var woke := ExecAll(Elapse(s, SleepTicks(pollMs)), peers[0]);
             woke.now < deadline && IsHit(Read(woke, key))
    ensures var woke := ExecAll(Elapse(s, SleepTicks(pollMs)), peers[0]);
            Poll(s, key, deadline, pollMs, peers).seen == Read(woke, key)
            && Poll(s, key, deadline, pollMs, peers).after == woke
  {
    PollMisses(s, key, deadline, pollMs, peers);
  }

  /** With the entries untouched and the clock moved forward, a miss stays a miss. */
  lemma StaysMissed<D>(s: State<D>, s': State<D>, key: string)
    requires !IsHit(Read(s, key))
    requires s'.entries == s.entries && s'.now >= s.now
    ensures !IsHit(Read(s', key))
  {
  }

  /**
   * A loser whose wait reaches the deadline without a hit returns nothing from
   * that round and throws nothing: the call continues as a fresh call, from the
   * GET, on the store as the wait left it.
   */
  lemma ExpiredPollRestarts<D, E>(s: State<D>, key: string, ttlSeconds: int, work: Producer<D, E>, lockMs: int, pollMs: int,
                                  peers: seq<seq<Command<D>>>)
    requires !IsHit(Read(s, key)) && PutIfAbsent(s, LockKey(key), LockMarker(), lockMs).reply == Held
    requires Poll(s, key, s.now + lockMs, pollMs, peers).seen.None?
    ensures var p := Poll(s, key, s.now + lockMs, pollMs, peers);
            p.after.now >= s.now + lockMs
            && Protocol(s, key, ttlSeconds, work, lockMs, pollMs, peers)
               == Prefixed([GetCall(key), SetNxCall(LockKey(key), lockMs)] + p.trace,
                           Protocol(p.after, key, ttlSeconds, work, lockMs, pollMs, p.rest))
  {
  }

  /*
   * Two callers and a late third, on key "k1" with a 5 s TTL, a 1000 ms lease
   * and 50 ms polls, where the producer returns {"v": 1} after 200 ms.
   */

  function ScenarioValue(): map<string, int> {
    map["v" := 1]
  }

  /** What the store holds once A has published: {"v": 1} until 200 + 5000 ms, and no lock. */
  function ScenarioPublished(now: int): State<map<string, int>> {
    State(map["k1" := Entry(Stringify(ScenarioValue()), 5200)], now)
  }

  /** A finds the store empty, wins the race, runs the producer once, publishes and releases. */
  lemma ScenarioWinner()
    ensures var a := Protocol<map<string, int>, string>(State(map[], 0), "k1", 5, Producer(Success(ScenarioValue()), 200), 1000, 50, []);
            a.result == Success(ScenarioValue())
            && a.trace == [GetCall("k1"), SetNxCall("lock:k1", 1000), WorkCall, SetExCall("k1", Stringify(ScenarioValue()), 5), DelCall("lock:k1")]
            && a.after == ScenarioPublished(200)
  {
    var s0: State<map<string, int>> := State(map[], 0);
    assert LockKey("k1") == "lock:k1";
    assert !IsHit(Read(s0, "k1"));
    assert PutIfAbsent(s0, LockKey("k1"), LockMarker(), 1000).reply == Acquired;
    var held := PutIfAbsent(s0, "lock:k1", LockMarker(), 1000).after;
    assert held.entries.Keys == {"lock:k1"};
    assert (held.entries - {"lock:k1"})["k1" := Entry(Stringify(ScenarioValue()), 5200)] == ScenarioPublished(200).entries;
  }

  function ScenarioHeld(): State<map<string, int>> {
    State(map["lock:k1" := Entry(LockMarker(), 1000)], 0)
  }

  /** A's SET and DEL, run by the store during B's fourth sleep. */
  function ScenarioPeers(): seq<seq<Command<map<string, int>>>> {
    [[], [], [], [SetEx("k1", Stringify(ScenarioValue()), 5), Del("lock:k1")]]
  }

  /**
   * B arrives at 0 ms while A holds the lock; A's SET and DEL run during B's
   * fourth sleep. B returns A's value at 200 ms without running its own
   * producer, although that one would have returned {"v": 2}.
   */
  lemma ScenarioFollower()
    ensures var b := Protocol<map<string, int>, string>(ScenarioHeld(), "k1", 5, Producer(Success(map["v" := 2]), 200), 1000, 50,
                                                        ScenarioPeers());
            b.result == Success(ScenarioValue()) && WorkCall !in b.trace && b.after == ScenarioPublished(200)
  {
    assert LockKey("k1") == "lock:k1";
    assert !IsHit(Read(ScenarioHeld(), "k1"));
    assert PutIfAbsent(ScenarioHeld(), LockKey("k1"), LockMarker(), 1000).reply == Held;
    RoundPolled<map<string, int>, string>(ScenarioHeld(), "k1", 5, Producer(Success(map["v" := 2]), 200), 1000, 50, ScenarioPeers());
    ScenarioFollowerPolls();
  }

  lemma ScenarioFollowerPolls()
    ensures var p := Poll(ScenarioHeld(), "k1", 1000, 50, ScenarioPeers());
            p.seen == Some(Stringify(ScenarioValue())) && p.after == ScenarioPublished(200)
  {
    var peers := ScenarioPeers();
    var held := ScenarioHeld().entries;
    ScenarioPublishes();
    assert Poll(ScenarioPublished(200), "k1", 1000, 50, []).seen == Some(Stringify(ScenarioValue()));
    PollMisses(State(held, 150), "k1", 1000, 50, peers[3..]);
    PollMisses(State(held, 100), "k1", 1000, 50, peers[2..]);
    PollMisses(State(held, 50), "k1", 1000, 50, peers[1..]);
    PollMisses(State(held, 0), "k1", 1000, 50, peers);
  }

  /** Before the deadline, a GET that misses is followed by one sleep and the rest of the loop. */
  lemma PollMisses<D>(s: State<D>, key: string, deadline: int, pollMs: int, peers: seq<seq<Command<D>>>)
    requires s.now < deadline && !IsHit(Read(s, key))
    ensures var woke := if peers == [] then Elapse(s, SleepTicks(pollMs)) else ExecAll(Elapse(s, SleepTicks(pollMs)), peers[0]);
            var p := Poll(woke, key, deadline, pollMs, if peers == [] then [] else peers[1..]);
            Poll(s, key, deadline, pollMs, peers).seen == p.seen && Poll(s, key, deadline, pollMs, peers).after == p.after
  {
  }

  /** A's batch, run at 200 ms, leaves the published value and no lock. */
  lemma ScenarioPublishes()
    ensures ExecAll(State(ScenarioHeld().entries, 200), ScenarioPeers()[3]) == ScenarioPublished(200)
  {
    var woke := State(ScenarioHeld().entries, 200);
    var batch := ScenarioPeers()[3];
    assert batch[..1][..0] == [];
    assert ExecAll(woke, batch[..1]) == Exec(woke, batch[0]);
    var published := Exec(woke, batch[0]);
    assert published.entries == map["lock:k1" := Entry(LockMarker(), 1000), "k1" := Entry(Stringify(ScenarioValue()), 5200)];
    assert batch[..2][..1] == batch[..1] && batch[..2] == batch;
    assert ExecAll(woke, batch) == Exec(published, batch[1]);
    assert published.entries - {"lock:k1"} == ScenarioPublished(200).entries;
  }

  /** C comes at 6000 ms, after the TTL: the value has expired, so C runs the producer again. */
  lemma ScenarioAfterTtl()
    ensures var c := Protocol<map<string, int>, string>(ScenarioPublished(6000), "k1", 5, Producer(Success(ScenarioValue()), 200), 1000, 50, []);
            WorkCall in c.trace && c.result == Success(ScenarioValue())
  {
    var s := ScenarioPublished(6000);
    assert LockKey("k1") == "lock:k1";
    assert !IsHit(Read(s, "k1"));
    assert PutIfAbsent(s, LockKey("k1"), LockMarker(), 1000).reply == Acquired;
  }

  /**
   * `cacheWithLock` on a live store: the unbounded retry is the outer loop and
   * the poll is the inner loop. `peers` are the other clients' batches, one
   * run per sleep. The call does exactly what `Protocol` describes.
   */
  method CacheWithLock<D, E>(store: Store<D>, key: string, ttlSeconds: int, work: Producer<D, E>, lockMs: int, pollMs: int,
                             peers: seq<seq<Command<D>>>)
    returns (result: Result<D, CacheError<E>>, ghost trace: seq<Event<D>>)
    modifies store
    ensures Protocol(old(store.Snapshot()), key, ttlSeconds, work, lockMs, pollMs, peers) == Run(result, store.Snapshot(), trace)
  {
    var pending := peers;
    trace := [];
    while true
      invariant Protocol(old(store.Snapshot()), key, ttlSeconds, work, lockMs, pollMs, peers)
                == Prefixed(trace, Protocol(store.Snapshot(), key, ttlSeconds, work, lockMs, pollMs, pending))
      decreases |pending|, LeaseLeft(store.Snapshot(), LockKey(key))
    {
      ghost var before := trace;
      var outcome, rest;
      ghost var tail;
      outcome, rest, tail := Attempt(store, key, ttlSeconds, work, lockMs, pollMs, pending);
      trace := trace + tail;
      if outcome.Some? {
        result := outcome.value;
        RoundEnds(before, Run(result, store.Snapshot(), tail), result, store.Snapshot(), tail);
        return;
      }
      RoundRetries(before, tail, Protocol(store.Snapshot(), key, ttlSeconds, work, lockMs, pollMs, rest));
      pending := rest;
    }
  }

  /**
   * One pass of `cacheWithLock`, up to the recursive call: either the call
   * ends with the result in `outcome`, or a loser reached the deadline
   * (`None`) and the protocol starts over on the store as it is now, with the
   * batches still to come.
   */
  method Attempt<D, E>(store: Store<D>, key: string, ttlSeconds: int, work: Producer<D, E>, lockMs: int, pollMs: int,
                       pending: seq<seq<Command<D>>>)
    returns (outcome: Option<Result<D, CacheError<E>>>, rest: seq<seq<Command<D>>>, ghost tail: seq<Event<D>>)
    modifies store
    ensures outcome.Some? ==> Protocol(old(store.Snapshot()), key, ttlSeconds, work, lockMs, pollMs, pending)
                              == Run(outcome.value, store.Snapshot(), tail)
    ensures outcome.None? ==> Protocol(old(store.Snapshot()), key, ttlSeconds, work, lockMs, pollMs, pending)
                              == Prefixed(tail, Protocol(store.Snapshot(), key, ttlSeconds, work, lockMs, pollMs, rest))
    ensures outcome.None? ==> |rest| < |pending|
                              || (|rest| == |pending|
                                  && LeaseLeft(store.Snapshot(), LockKey(key)) < LeaseLeft(old(store.Snapshot()), LockKey(key)))
  {
    ghost var round := store.Snapshot();
    rest := pending;
    var hit := store.Get(key);
    if hit.Some? && Truthy(hit.value) {
      outcome, tail := Some(Decode(hit.value)), [GetCall(key)];
      return;
    }
    var lockKey := LockKey(key);
    var reply := store.SetIfAbsent(lockKey, LockMarker(), lockMs);
    ghost var pre := [GetCall(key), SetNxCall(lockKey, lockMs)];
    if reply == InvalidExpire {
      outcome, tail := Some(Failure(StoreRejected)), pre;
      return;
    }
    if reply == Acquired {
      var result;
      ghost var won;
      result, won := RunWinner(store, key, ttlSeconds, work);
      outcome, tail := Some(result), pre + won;
      RoundWon(round, key, ttlSeconds, work, lockMs, pollMs, pending);
      return;
    }
    var seen;
    ghost var waited;
    seen, rest, waited := PollForValue(store, key, store.now + lockMs, pollMs, pending);
    RoundPolled(round, key, ttlSeconds, work, lockMs, pollMs, pending);
    tail := pre + waited;
    outcome := if seen.Some? then Some(Decode(seen.value)) else None;
  }

  lemma RoundEnds<D, E>(before: seq<Event<D>>, round: Run<D, E>, result: Result<D, CacheError<E>>, after: State<D>,
                        tail: seq<Event<D>>)
    requires round == Run(result, after, tail)
    ensures Prefixed(before, round) == Run(result, after, before + tail)
  {
  }

  lemma RoundRetries<D, E>(before: seq<Event<D>>, waited: seq<Event<D>>, next: Run<D, E>)
    ensures Prefixed(before, Prefixed(waited, next)) == Prefixed(before + waited, next)
  {
    assert before + (waited + next.trace) == before + waited + next.trace;
  }

  /** A round that wins the race is the winner branch after the GET and the SET NX. */
  lemma RoundWon<D, E>(s: State<D>, key: string, ttlSeconds: int, work: Producer<D, E>, lockMs: int, pollMs: int,
                       peers: seq<seq<Command<D>>>)
    requires !IsHit(Read(s, key)) && PutIfAbsent(s, LockKey(key), LockMarker(), lockMs).reply == Acquired
    ensures Protocol(s, key, ttlSeconds, work, lockMs, pollMs, peers)
            == Prefixed([GetCall(key), SetNxCall(LockKey(key), lockMs)],
                        Winner(PutIfAbsent(s, LockKey(key), LockMarker(), lockMs).after, key, ttlSeconds, work))
  {
  }

  /** A round that loses the race is the poll loop, then either the value it saw or the next round. */
  lemma RoundPolled<D, E>(s: State<D>, key: string, ttlSeconds: int, work: Producer<D, E>, lockMs: int, pollMs: int,
                          peers: seq<seq<Command<D>>>)
    requires !IsHit(Read(s, key)) && PutIfAbsent(s, LockKey(key), LockMarker(), lockMs).reply == Held
    ensures var pre := [GetCall(key), SetNxCall(LockKey(key), lockMs)];
            var p := Poll(PutIfAbsent(s, LockKey(key), LockMarker(), lockMs).after, key, s.now + lockMs, pollMs, peers);
            Protocol(s, key, ttlSeconds, work, lockMs, pollMs, peers)
            == if p.seen.Some? then Run(Decode(p.seen.value), p.after, pre + p.trace)
               else Prefixed(pre + p.trace, Protocol(p.after, key, ttlSeconds, work, lockMs, pollMs, p.rest))
  {
  }

  /** The winner branch: `try { value = await work(); SET key EX } finally { DEL lockKey }`. */
  method RunWinner<D, E>(store: Store<D>, key: string, ttlSeconds: int, work: Producer<D, E>)
    returns (result: Result<D, CacheError<E>>, ghost trace: seq<Event<D>>)
    modifies store
    ensures Winner(old(store.Snapshot()), key, ttlSeconds, work) == Run(result, store.Snapshot(), trace)
  {
    var lockKey := LockKey(key);
    store.Tick(work.duration);
    match work.outcome {
      case Failure(e) =>
        result := Failure(WorkFailed(e));
        trace := [WorkCall];
      case Success(v) =>
        var ok := store.SetWithTtl(key, Stringify(v), ttlSeconds);
        result := if ok then Success(v) else Failure(StoreRejected);
        trace := [WorkCall, SetExCall(key, Stringify(v), ttlSeconds)];
    }
    store.Del(lockKey);
    trace := trace + [DelCall(lockKey)];
  }

  /** The loser's `while (Date.now() < deadline)` loop. */
  method PollForValue<D>(store: Store<D>, key: string, deadline: int, pollMs: int, peers: seq<seq<Command<D>>>)
    returns (seen: Option<Text<D>>, rest: seq<seq<Command<D>>>, ghost trace: seq<Event<D>>)
    modifies store
    ensures Poll(old(store.Snapshot()), key, deadline, pollMs, peers) == Polled(seen, store.Snapshot(), rest, trace)
  {
    rest := peers;
    trace := [];
    while store.now < deadline
      invariant Poll(old(store.Snapshot()), key, deadline, pollMs, peers)
                == PolledAfter(trace, Poll(store.Snapshot(), key, deadline, pollMs, rest))
      decreases deadline - store.now
    {
      ghost var before := store.Snapshot();
      var raw := store.Get(key);
      if raw.Some? && Truthy(raw.value) {
        seen := raw;
        PollStepHits(before, key, deadline, pollMs, rest, trace);
        trace := trace + [GetCall(key)];
        return;
      }
      store.Tick(SleepTicks(pollMs));
      if rest != [] {
        store.Perform(rest[0]);
      }
      PollStepMisses(before, key, deadline, pollMs, rest, trace, store.Snapshot());
      if rest != [] {
        rest := rest[1..];
      }
      trace := trace + [GetCall(key), SleepCall(SleepTicks(pollMs))];
    }
    seen := None;
  }

  /** A GET that hits ends the poll loop with that string. */
  lemma PollStepHits<D>(s: State<D>, key: string, deadline: int, pollMs: int, peers: seq<seq<Command<D>>>,
                    done: seq<Event<D>>)
    requires s.now < deadline && IsHit(Read(s, key))
    ensures PolledAfter(done, Poll(s, key, deadline, pollMs, peers)) == Polled(Read(s, key), s, peers, done + [GetCall(key)])
  {
  }

  /** A GET that misses is followed by a sleep, the next batch of other clients' commands, and the rest of the loop. */
  lemma PollStepMisses<D>(s: State<D>, key: string, deadline: int, pollMs: int, peers: seq<seq<Command<D>>>,
                      done: seq<Event<D>>, woke: State<D>)
    requires s.now < deadline && !IsHit(Read(s, key))
    requires woke == (if peers == [] then Elapse(s, SleepTicks(pollMs)) else ExecAll(Elapse(s, SleepTicks(pollMs)), peers[0]))
    ensures PolledAfter(done, Poll(s, key, deadline, pollMs, peers))
            == PolledAfter(done + [GetCall(key), SleepCall(SleepTicks(pollMs))],
                           Poll(woke, key, deadline, pollMs, if peers == [] then [] else peers[1..]))
  {
    var p := Poll(woke, key, deadline, pollMs, if peers == [] then [] else peers[1..]);
    assert done + ([GetCall(key), SleepCall(SleepTicks(pollMs))] + p.trace)
           == done + [GetCall(key), SleepCall(SleepTicks(pollMs))] + p.trace;
  }
}
