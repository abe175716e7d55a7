/**
 * The Redis keyspace the cache runs against, reduced to what the protocol uses:
 * GET, SET with NX and PX, SET with EX, DEL, and expiry by the clock. Value
 * entries and lock entries share one keyspace. The clock counts milliseconds.
 */
module KvStore {
  import opened Wrappers
  import opened Json

  const MsPerSecond := 1000

  /** A stored string and the tick at which the store drops it. */
  datatype Entry<D> = Entry(text: Text<D>, expiresAt: int)

  datatype State<D> = State(entries: map<string, Entry<D>>, now: int)

  /** A key is visible while the clock is before its expiry tick. */
  predicate Live<D>(s: State<D>, k: string) {
    k in s.entries && s.now < s.entries[k].expiresAt
  }

  /** GET k: the stored string, or nil once absent or expired. */
  function Read<D>(s: State<D>, k: string): Option<Text<D>> {
    if Live(s, k) then Some(s.entries[k].text) else None
  }

  /** Reply of SET ... NX PX: "OK", nil, or the error Redis raises for a non-positive expire time. */
  datatype NxReply = Acquired | Held | InvalidExpire

  datatype Written<R, D> = Written(reply: R, after: State<D>)

  /** SET k t NX PX px: writes only when no live entry holds k. */
  function PutIfAbsent<D>(s: State<D>, k: string, t: Text<D>, px: int): Written<NxReply, D> {
    if px <= 0 then Written(InvalidExpire, s)
    else if Live(s, k) then Written(Held, s)
    else Written(Acquired, State(s.entries[k := Entry(t, s.now + px)], s.now))
  }

  /** SET k t EX ex: overwrites unconditionally; false stands for the invalid-expire error. */
  function Put<D>(s: State<D>, k: string, t: Text<D>, ex: int): Written<bool, D> {
    if ex <= 0 then Written(false, s)
    else Written(true, State(s.entries[k := Entry(t, s.now + ex * MsPerSecond)], s.now))
  }

  /** DEL k. */
  function Remove<D>(s: State<D>, k: string): State<D> {
    State(s.entries - {k}, s.now)
  }

  function Elapse<D>(s: State<D>, ticks: nat): State<D> {
    State(s.entries, s.now + ticks)
  }

  /** A write issued by another client of the same store. */
  datatype Command<D> =
    | SetEx(key: string, text: Text<D>, ex: int)
    | SetNx(key: string, text: Text<D>, px: int)
    | Del(key: string)

  function Exec<D>(s: State<D>, c: Command<D>): State<D> {
    match c
    case SetEx(k, t, ex) => Put(s, k, t, ex).after
    case SetNx(k, t, px) => PutIfAbsent(s, k, t, px).after
    case Del(k) => Remove(s, k)
  }

  /** A batch of commands, executed in order; commands take no time. */
  function ExecAll<D>(s: State<D>, cs: seq<Command<D>>): (r: State<D>)
    ensures r.now == s.now
  {
    if cs == [] then s else Exec(ExecAll(s, cs[..|cs| - 1]), cs[|cs| - 1])
  }

  /** Commands by any clients, interleaved with the passing of time. */
  datatype Step<D> = Issue(cmd: Command<D>) | Pass(ticks: nat)

  function Advance<D>(s: State<D>, st: Step<D>): State<D> {
    match st
    case Issue(c) => Exec(s, c)
    case Pass(n) => Elapse(s, n)
  }

  function Replay<D>(s: State<D>, steps: seq<Step<D>>): (r: State<D>)
    ensures r.now >= s.now
    decreases |steps|
  {
    if steps == [] then s else Replay(Advance(s, steps[0]), steps[1..])
  }

  /** The step replaces or deletes whatever k holds (SET NX never does so over a live entry). */
  predicate Overwrites<D>(st: Step<D>, k: string) {
    st.Issue? && st.cmd.key == k && !st.cmd.SetNx?
  }

  /** The step is a SET NX on k that the store answers with "OK". */
  predicate Acquires<D>(s: State<D>, st: Step<D>, k: string) {
    st.Issue? && st.cmd.SetNx? && st.cmd.key == k && PutIfAbsent(s, k, st.cmd.text, st.cmd.px).reply == Acquired
  }

  function Acquisitions<D>(s: State<D>, k: string, steps: seq<Step<D>>): nat
    decreases |steps|
  {
    if steps == [] then 0
    else (if Acquires(s, steps[0], k) then 1 else 0) + Acquisitions(Advance(s, steps[0]), k, steps[1..])
  }

  /**
   * A live entry survives any commands that neither delete nor overwrite it,
   * for as long as the clock stays before its expiry.
   */
  lemma {:induction false} LeaseHolds<D>(s: State<D>, k: string, steps: seq<Step<D>>)
    requires Live(s, k)
    requires forall i :: 0 <= i < |steps| ==> !Overwrites(steps[i], k)
    requires Replay(s, steps).now < s.entries[k].expiresAt
    ensures Live(Replay(s, steps), k) && Replay(s, steps).entries[k] == s.entries[k]
    ensures Acquisitions(s, k, steps) == 0
    decreases |steps|
  {
    if steps != [] {
      var s1 := Advance(s, steps[0]);
      assert !Overwrites(steps[0], k);
      assert Replay(s, steps) == Replay(s1, steps[1..]);
      assert s1.now <= Replay(s1, steps[1..]).now;
      assert k in s1.entries && s1.entries[k] == s.entries[k];
      LeaseHolds(s1, k, steps[1..]);
    }
  }

  /**
   * After SET NX has answered "OK", a later SET NX on the same key fails until
   * the lease expires or someone deletes or overwrites the entry.
   */
  lemma SecondAcquireFails<D>(s: State<D>, k: string, t: Text<D>, px: int, steps: seq<Step<D>>, t2: Text<D>, px2: int)
    requires PutIfAbsent(s, k, t, px).reply == Acquired
    requires forall i :: 0 <= i < |steps| ==> !Overwrites(steps[i], k)
    requires Replay(PutIfAbsent(s, k, t, px).after, steps).now < s.now + px
    ensures PutIfAbsent(Replay(PutIfAbsent(s, k, t, px).after, steps), k, t2, px2).reply != Acquired
  {
    LeaseHolds(PutIfAbsent(s, k, t, px).after, k, steps);
  }

  /**
   * Among any interleaving of commands that never delete or overwrite k, at most
   * one SET NX on k wins, provided every lease asked for outlasts the whole
   * interleaving; when k starts free and the first step is a valid SET NX on k,
   * exactly one wins.
   */
  lemma {:induction false} AtMostOneWinner<D>(s: State<D>, k: string, steps: seq<Step<D>>)
    requires forall i :: 0 <= i < |steps| ==> !Overwrites(steps[i], k)
    requires forall i :: 0 <= i < |steps| && steps[i].Issue? && steps[i].cmd.SetNx? && steps[i].cmd.key == k ==>
               steps[i].cmd.px > Replay(s, steps).now - s.now
    ensures Acquisitions(s, k, steps) <= 1
    ensures !Live(s, k) && steps != [] && steps[0].Issue? && steps[0].cmd.SetNx? && steps[0].cmd.key == k ==>
              Acquisitions(s, k, steps) == 1
    decreases |steps|
  {
    if steps != [] {
      var s1 := Advance(s, steps[0]);
      assert Replay(s, steps) == Replay(s1, steps[1..]);
      assert s1.now >= s.now;
      if Acquires(s, steps[0], k) {
        assert Live(s1, k) && s1.entries[k].expiresAt == s.now + steps[0].cmd.px;
        assert forall i :: 0 <= i < |steps[1..]| ==> steps[1..][i] == steps[i + 1];
        LeaseHolds(s1, k, steps[1..]);
      } else {
        forall i | 0 <= i < |steps[1..]| && steps[1..][i].Issue? && steps[1..][i].cmd.SetNx? && steps[1..][i].cmd.key == k
          ensures steps[1..][i].cmd.px > Replay(s1, steps[1..]).now - s1.now
        {
          assert steps[1..][i] == steps[i + 1];
        }
        AtMostOneWinner(s1, k, steps[1..]);
      }
    }
  }

  /** The Redis connection, as a mutable object owned by the caller. */
  class Store<D> {
    var entries: map<string, Entry<D>>
    var now: int

    function Snapshot(): State<D>
      reads this
    {
      State(entries, now)
    }

    constructor (initial: State<D>)
      ensures Snapshot() == initial
    {
      entries := initial.entries;
      now := initial.now;
    }

    method Get(k: string) returns (r: Option<Text<D>>)
      ensures r == Read(Snapshot(), k)
    {
      if k in entries && now < entries[k].expiresAt {
        r := Some(entries[k].text);
      } else {
        r := None;
      }
    }

    method SetIfAbsent(k: string, t: Text<D>, px: int) returns (reply: NxReply)
      modifies this
      ensures Written(reply, Snapshot()) == PutIfAbsent(old(Snapshot()), k, t, px)
    {
      if px <= 0 {
        reply := InvalidExpire;
      } else if k in entries && now < entries[k].expiresAt {
        reply := Held;
      } else {
        entries := entries[k := Entry(t, now + px)];
        reply := Acquired;
      }
    }

    method SetWithTtl(k: string, t: Text<D>, ex: int) returns (ok: bool)
      modifies this
      ensures Written(ok, Snapshot()) == Put(old(Snapshot()), k, t, ex)
    {
      ok := ex > 0;
      if ok {
        entries := entries[k := Entry(t, now + ex * MsPerSecond)];
      }
    }

    method Del(k: string)
      modifies this
      ensures Snapshot() == Remove(old(Snapshot()), k)
    {
      entries := entries - {k};
    }

    method Tick(ticks: nat)
      modifies this
      ensures Snapshot() == Elapse(old(Snapshot()), ticks)
    {
      now := now + ticks;
    }

    /** Other clients' writes, applied in order. */
    method Perform(cs: seq<Command<D>>)
      modifies this
      ensures Snapshot() == ExecAll(old(Snapshot()), cs)
    {
      for i := 0 to |cs|
        invariant Snapshot() == ExecAll(old(Snapshot()), cs[..i])
      {
        assert cs[..i + 1][..i] == cs[..i];
        match cs[i]
        case SetEx(k, t, ex) =>
          var _ := SetWithTtl(k, t, ex);
        case SetNx(k, t, px) =>
          var _ := SetIfAbsent(k, t, px);
        case Del(k) =>
          Del(k);
      }
      assert cs[..|cs|] == cs;
    }
  }
}
