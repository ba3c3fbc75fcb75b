/**
 * The per-bucket request rate limiter of `src/util/ratelimits.ts`.
 *
 * Work items wait in a FIFO queue per bucket key. A flush of a bucket takes
 * items from the head one at a time, first sleeping out the bucket's own
 * cooldown, the cooldown of the bucket's group record and the global
 * cooldown (each plus a 2000 ms margin), then runs the item, resolves it or
 * re-appends it when the response said it was rate limited, and copies the
 * response's limit information into the bucket records.
 *
 * Time is an integer number of milliseconds. A sleep of `d` milliseconds
 * advances the clock by `d` (by nothing when `d` is not positive). What
 * running an item produces, and how long it takes, is an oracle: a flush is
 * given the list of outcomes of its successive attempts.
 *
 * A callback may also throw (`fetch` rejects on a network failure). The
 * `await` at line 72 then throws out of `flushQueue`: the item has already
 * been shifted off the queue and is never resolved, the loop ends, and the
 * lock is never released.
 */
module RateLimits {
  import opened Values

  /** Milliseconds added to every advertised reset instant before retrying. */
  const SafetyMargin: int := 2000

  /** The optimistic `remaining` of a freshly created bucket record. */
  const DefaultRemaining: int := 999

  /** A bucket's accounting record. */
  datatype Record = Record(remaining: int, resetAt: int)

  /** What `limitBy` extracts from a result; absent fields are `None`. */
  datatype LimitInfo = LimitInfo(
    wasRateLimited: bool,
    remaining: Option<int>,
    resetAt: Option<int>,
    globalReset: Option<int>,
    groupBucket: Option<string>)

  /** A queued `{callback, resolve, limitBy}` triple, known by its identity. */
  datatype Item = Item(id: nat)

  /**
   * What one run of an item's callback gave, and how long it took: a result
   * with its classification by `limitBy`, or an exception.
   */
  datatype Outcome<R> =
    | Returned(result: R, limits: LimitInfo, latency: nat)
    | Threw(latency: nat)

  /** A result that the classification says was rate limited. */
  predicate Throttled<R>(o: Outcome<R>) {
    o.Returned? && o.limits.wasRateLimited
  }

  /** One attempt of a flush: which item ran, when, what it gave, and whether it was resolved. */
  datatype Attempt<R> = Attempt(item: Item, startedAt: int, outcome: Outcome<R>, resolved: bool)

  /**
   * The limiter's fields. `globalReset` is 0 when unset: the source treats an
   * undefined and a zero timestamp alike. A lock is held when its timestamp
   * is truthy (non-zero).
   */
  datatype Limiter = Limiter(
    buckets: map<string, Record>,
    queue: map<string, seq<Item>>,
    groupedBuckets: map<string, string>,
    queueLock: map<string, int>,
    globalReset: int)

  /**
   * The result of running some attempts: the new fields, the attempts, the
   * clock afterwards, and whether the last attempt threw out of the flush.
   */
  datatype Ran<R> = Ran(state: Limiter, log: seq<Attempt<R>>, clock: int, threw: bool)

  /** The queue of `bucket`, `[]` when it has none. */
  function QueueOf(q: map<string, seq<Item>>, bucket: string): seq<Item> {
    if bucket in q then q[bucket] else []
  }

  /** Lines 36-37 of `limit`: `item` appended to the queue of `bucket`, created if absent. */
  function Enqueue(q: map<string, seq<Item>>, bucket: string, item: Item): (r: map<string, seq<Item>>)
    ensures bucket in r && r[bucket] == QueueOf(q, bucket) + [item]
    ensures r.Keys == q.Keys + {bucket}
    ensures forall b :: b in q && b != bucket ==> r[b] == q[b]
  {
    q[bucket := QueueOf(q, bucket) + [item]]
  }

  /** `if(this.queueLock[bucket])`. */
  predicate Locked(st: Limiter, bucket: string) {
    bucket in st.queueLock && st.queueLock[bucket] != 0
  }

  /** The clock after `if(rec.remaining <= 0 && rec.resetAt > now) sleep(rec.resetAt - now + 2000)`. */
  function Cooldown(rec: Record, now: int): int {
    if rec.remaining <= 0 && rec.resetAt > now then rec.resetAt + SafetyMargin else now
  }

  /** The clock after `if(globalReset) sleep(globalReset - now + 2000)`. */
  function GlobalCooldown(globalReset: int, now: int): int {
    if globalReset != 0 then Max(now, globalReset + SafetyMargin) else now
  }

  /** A record after lines 86-87 (or 90-91): each reported field replaces the old one. */
  function Refresh(rec: Record, lim: LimitInfo): Record {
    Record(lim.remaining.GetOr(rec.remaining), lim.resetAt.GetOr(rec.resetAt))
  }

  /** What a flush's loop needs: the bucket's record and queue, and its group's record. */
  ghost predicate Ready(st: Limiter, bucket: string, group: Option<string>) {
    && bucket in st.buckets
    && bucket in st.queue
    && (group.Some? ==> group.value in st.buckets)
  }

  /**
   * Lines 56-59 of `flushQueue`, after taking the lock: the record of
   * `bucket` is created if absent, and the group record is looked up once.
   */
  function Begin(st: Limiter, bucket: string, now: int): (r: Limiter)
    ensures r.queueLock == st.queueLock[bucket := now]
    ensures bucket in r.buckets
    ensures bucket in st.buckets ==> r.buckets == st.buckets
    ensures bucket !in st.buckets ==> r.buckets == st.buckets[bucket := Record(DefaultRemaining, now)]
    ensures r.queue == st.queue && r.groupedBuckets == st.groupedBuckets && r.globalReset == st.globalReset
  {
    var locked := st.(queueLock := st.queueLock[bucket := now]);
    if bucket in locked.buckets then locked
    else locked.(buckets := locked.buckets[bucket := Record(DefaultRemaining, now)])
  }

  /**
   * `this.groupedBuckets[bucket] && this.buckets[this.groupedBuckets[bucket]]`:
   * the group's key, when the bucket is aliased to a group that has a record.
   */
  function GroupOf(st: Limiter, bucket: string): (g: Option<string>)
    ensures g.Some? <==> bucket in st.groupedBuckets && st.groupedBuckets[bucket] != "" && st.groupedBuckets[bucket] in st.buckets
    ensures g.Some? ==> g.value == st.groupedBuckets[bucket]
  {
    if bucket in st.groupedBuckets && st.groupedBuckets[bucket] != "" && st.groupedBuckets[bucket] in st.buckets
    then Some(st.groupedBuckets[bucket])
    else None
  }

  /**
   * The clock when the head item's callback starts: after the bucket's own
   * cooldown, then the group record's, then the global one (lines 62-69).
   */
  function Departure(st: Limiter, bucket: string, group: Option<string>, now: int): int
    requires Ready(st, bucket, group)
  {
    var t1 := Cooldown(st.buckets[bucket], now);
    var t2 := if group.Some? then Cooldown(st.buckets[group.value], t1) else t1;
    GlobalCooldown(st.globalReset, t2)
  }

  /** The queue after the head was shifted off, and pushed back when rate limited (lines 71, 81). */
  function Requeued(q: seq<Item>, rateLimited: bool): seq<Item>
    requires |q| > 0
  {
    if rateLimited then q[1..] + [q[0]] else q[1..]
  }

  /** The records after lines 86-92: the bucket's own record, then the group record, refreshed. */
  function Refreshed(buckets: map<string, Record>, bucket: string, group: Option<string>, lim: LimitInfo): map<string, Record>
    requires bucket in buckets && (group.Some? ==> group.value in buckets)
  {
    var own := buckets[bucket := Refresh(buckets[bucket], lim)];
    if group.Some? then own[group.value := Refresh(own[group.value], lim)] else own
  }

  /** The records after line 82 (`remaining = 0` on a rate-limited attempt) and lines 86-92. */
  function UpdatedBuckets(buckets: map<string, Record>, bucket: string, group: Option<string>, lim: LimitInfo): map<string, Record>
    requires bucket in buckets && (group.Some? ==> group.value in buckets)
  {
    var zeroed := if lim.wasRateLimited then buckets[bucket := buckets[bucket].(remaining := 0)] else buckets;
    Refreshed(zeroed, bucket, group, lim)
  }

  /**
   * `globalReset` after lines 94-95. By then the wait of lines 66-69 has
   * left it 0, so the max-merge is with 0.
   */
  function MergedGlobal(lim: LimitInfo): int {
    if lim.globalReset.Some? && lim.globalReset.value != 0 then Max(lim.globalReset.value, 0) else 0
  }

  /** `groupedBuckets` after lines 96-97: overwritten only by a truthy `groupBucket`. */
  function Regrouped(grouped: map<string, string>, bucket: string, lim: LimitInfo): map<string, string> {
    if lim.groupBucket.Some? && lim.groupBucket.value != "" then grouped[bucket := lim.groupBucket.value] else grouped
  }

  /**
   * One iteration of the loop of `flushQueue` (lines 62-97), starting at
   * clock `now`. When the callback throws, the iteration ends at line 72:
   * the head is gone, the cooldown waits have cleared the global reset, and
   * nothing else changes.
   */
  function Step<R>(st: Limiter, bucket: string, group: Option<string>, now: int, o: Outcome<R>): (r: Ran<R>)
    requires Ready(st, bucket, group) && |st.queue[bucket]| > 0
    ensures Ready(r.state, bucket, group)
    ensures |r.log| == 1
    ensures r.threw <==> o.Threw?
    ensures r.state.queueLock == st.queueLock
  {
    var q := st.queue[bucket];
    var start := Departure(st, bucket, group, now);
    match o
    case Threw(latency) =>
      Ran(st.(queue := st.queue[bucket := q[1..]], globalReset := 0),
          [Attempt(q[0], start, o, false)],
          start + latency,
          true)
    case Returned(_, lim, latency) =>
      Ran(Limiter(UpdatedBuckets(st.buckets, bucket, group, lim),
                  st.queue[bucket := Requeued(q, lim.wasRateLimited)],
                  Regrouped(st.groupedBuckets, bucket, lim),
                  st.queueLock,
                  MergedGlobal(lim)),
          [Attempt(q[0], start, o, !lim.wasRateLimited)],
          start + latency,
          false)
  }

  /**
   * The loop of `flushQueue` (line 61) run for at most `|outs|` iterations:
   * it stops when the queue of `bucket` is empty, when a callback throws,
   * or when the outcomes run out.
   */
  function Run<R>(st: Limiter, bucket: string, group: Option<string>, now: int, outs: seq<Outcome<R>>): (r: Ran<R>)
    requires Ready(st, bucket, group)
    ensures Ready(r.state, bucket, group)
    ensures |r.log| <= |outs|
    ensures |r.log| == |outs| || |r.state.queue[bucket]| == 0 || r.threw
    ensures r.state.queueLock == st.queueLock
    decreases |outs|
  {
    if |st.queue[bucket]| == 0 || |outs| == 0 then Ran(st, [], now, false)
    else
      var s := Step(st, bucket, group, now, outs[0]);
      if s.threw then s
      else
        var rest := Run(s.state, bucket, group, s.clock, outs[1..]);
        Ran(rest.state, s.log + rest.log, rest.clock, rest.threw)
  }

  /** Appending logs associates. */
  lemma AppendAssociates<R>(a: seq<Attempt<R>>, b: seq<Attempt<R>>, c: seq<Attempt<R>>)
    ensures (a + b) + c == a + (b + c)
  {
  }

  /**
   * `Run` performs `Step` first when there is an item and an outcome, and
   * stops right there when the callback threw.
   */
  lemma RunStep<R>(st: Limiter, bucket: string, group: Option<string>, now: int, outs: seq<Outcome<R>>)
    requires Ready(st, bucket, group) && |st.queue[bucket]| > 0 && |outs| > 0
    ensures var s := Step(st, bucket, group, now, outs[0]);
            var rest := Run(s.state, bucket, group, s.clock, outs[1..]);
            && (outs[0].Threw? ==> Run(st, bucket, group, now, outs) == s)
            && (outs[0].Returned? ==> Run(st, bucket, group, now, outs) == Ran(rest.state, s.log + rest.log, rest.clock, rest.threw))
  {
  }

  /**
   * `flushQueue(bucket)` started at clock `now`, with the given outcomes for
   * its attempts. While the bucket is locked it does nothing. Otherwise it
   * takes the lock, runs the loop, and releases the lock when the loop has
   * exited normally, that is when the queue is empty. If the outcomes run
   * out first, the flush is still running and keeps the lock; if a callback
   * threw, line 100 is never reached and the lock stays for good.
   */
  function Flush<R>(st: Limiter, bucket: string, now: int, outs: seq<Outcome<R>>): (r: Ran<R>)
    requires bucket in st.queue
    ensures Locked(st, bucket) ==> r == Ran(st, [], now, false)
    ensures !Locked(st, bucket) ==>
              bucket in r.state.queue &&
              (bucket in r.state.queueLock <==> |r.state.queue[bucket]| > 0 || r.threw) &&
              (bucket in r.state.queueLock ==> r.state.queueLock[bucket] == now)
    ensures forall b :: b != bucket ==>
              (b in r.state.queueLock <==> b in st.queueLock) &&
              (b in st.queueLock ==> r.state.queueLock[b] == st.queueLock[b])
  {
    if Locked(st, bucket) then Ran(st, [], now, false)
    else
      var s := Begin(st, bucket, now);
      var run := Run(s, bucket, GroupOf(s, bucket), now, outs);
      if |run.state.queue[bucket]| == 0 && !run.threw
      then run.(state := run.state.(queueLock := run.state.queueLock - {bucket}))
      else run
  }

  /**
   * The attempts of a flush are its outcomes in order, each resolved exactly
   * when its callback returned a result that was not rate limited. Only the
   * last attempt can have thrown, and the run threw exactly when it did.
   */
  ghost predicate LoggedInOrder<R>(r: Ran<R>, outs: seq<Outcome<R>>) {
    && |r.log| <= |outs|
    && (forall i :: 0 <= i < |r.log| ==>
          r.log[i].outcome == outs[i] && r.log[i].resolved == (outs[i].Returned? && !outs[i].limits.wasRateLimited))
    && (forall i :: 0 <= i < |r.log| - 1 ==> outs[i].Returned?)
    && (r.threw <==> |r.log| > 0 && outs[|r.log| - 1].Threw?)
  }

  /** The attempts of a run are its outcomes in order. */
  lemma {:induction false} RunLog<R>(st: Limiter, bucket: string, group: Option<string>, now: int, outs: seq<Outcome<R>>)
    requires Ready(st, bucket, group)
    ensures LoggedInOrder(Run(st, bucket, group, now, outs), outs)
    decreases |outs|
  {
    if |st.queue[bucket]| > 0 && |outs| > 0 {
      var s := Step(st, bucket, group, now, outs[0]);
      RunStep(st, bucket, group, now, outs);
      if outs[0].Returned? {
        RunLog(s.state, bucket, group, s.clock, outs[1..]);
        StepTakesHead(st, bucket, group, now, outs[0]);
        assert s.log == [s.log[0]];
        ConsLogged(s.log[0], Run(s.state, bucket, group, s.clock, outs[1..]), Run(st, bucket, group, now, outs), outs);
      }
    }
  }

  /** An attempt that returned, in front of a run logged in order, is logged in order. */
  lemma ConsLogged<R>(a: Attempt<R>, rest: Ran<R>, r: Ran<R>, outs: seq<Outcome<R>>)
    requires |outs| > 0 && outs[0].Returned?
    requires a.outcome == outs[0] && a.resolved == !outs[0].limits.wasRateLimited
    requires LoggedInOrder(rest, outs[1..])
    requires r.log == [a] + rest.log && r.threw == rest.threw
    ensures LoggedInOrder(r, outs)
  {
    forall i | 0 <= i < |r.log|
      ensures r.log[i].outcome == outs[i] && r.log[i].resolved == (outs[i].Returned? && !outs[i].limits.wasRateLimited)
    {
      if i > 0 {
        assert r.log[i] == rest.log[i - 1] && outs[1..][i - 1] == outs[i];
      }
    }
    forall i | 0 <= i < |r.log| - 1 ensures outs[i].Returned? {
      if i > 0 {
        assert outs[1..][i - 1] == outs[i];
      }
    }
    if |rest.log| > 0 {
      assert outs[1..][|rest.log| - 1] == outs[|r.log| - 1];
    }
  }

  /** The same for a whole flush; a locked bucket's flush makes no attempt. */
  lemma FlushLog<R>(st: Limiter, bucket: string, now: int, outs: seq<Outcome<R>>)
    requires bucket in st.queue
    ensures LoggedInOrder(Flush(st, bucket, now, outs), outs)
  {
    if !Locked(st, bucket) {
      var s := Begin(st, bucket, now);
      RunLog(s, bucket, GroupOf(s, bucket), now, outs);
    }
  }

  /**
   * Each iteration removes exactly the head item. A result that was not rate
   * limited resolves that item with its own result and the item leaves the
   * queue; a rate-limited one is not resolved and goes back to the tail, so
   * the queue keeps its length. A callback that throws leaves its item
   * unresolved and out of the queue. Other buckets' queues are untouched.
   */
  lemma StepTakesHead<R>(st: Limiter, bucket: string, group: Option<string>, now: int, o: Outcome<R>)
    requires Ready(st, bucket, group) && |st.queue[bucket]| > 0
    ensures var r := Step(st, bucket, group, now, o);
            var q := st.queue[bucket];
            && r.log[0].item == q[0] && r.log[0].outcome == o
            && r.log[0].resolved == (o.Returned? && !o.limits.wasRateLimited)
            && (!Throttled(o) ==> r.state.queue[bucket] == q[1..])
            && (Throttled(o) ==> r.state.queue[bucket] == q[1..] + [q[0]] && |r.state.queue[bucket]| == |q|)
            && forall b :: b in st.queue && b != bucket ==> r.state.queue[b] == st.queue[b]
  {
  }

  /**
   * The callback never starts before `now`; it starts no earlier than the
   * bucket's `resetAt + 2000` when the bucket is exhausted and not yet
   * reset, and no earlier than `globalReset + 2000` when a global reset is
   * pending. The group record is checked after the bucket's own wait: when
   * it is exhausted the start is no earlier than its `resetAt`, and no
   * earlier than `resetAt + 2000` when it had not yet reset by then.
   */
  lemma StepWaitsOutCooldowns<R>(st: Limiter, bucket: string, group: Option<string>, now: int, o: Outcome<R>)
    requires Ready(st, bucket, group) && |st.queue[bucket]| > 0
    ensures var start := Step(st, bucket, group, now, o).log[0].startedAt;
            var rec := st.buckets[bucket];
            && start >= now
            && (rec.remaining <= 0 && rec.resetAt > now ==> start >= rec.resetAt + SafetyMargin)
            && (st.globalReset != 0 ==> start >= st.globalReset + SafetyMargin)
            && (group.Some? && st.buckets[group.value].remaining <= 0 ==> start >= st.buckets[group.value].resetAt)
            && (group.Some? && st.buckets[group.value].remaining <= 0 && st.buckets[group.value].resetAt > Cooldown(rec, now) ==>
                  start >= st.buckets[group.value].resetAt + SafetyMargin)
  {
  }

  /**
   * After an iteration the bucket's record holds the reported `remaining`
   * and `resetAt`, each field falling back to its previous value when not
   * reported (for `remaining` the previous value is 0 after a rate-limited
   * attempt). The group record, if any, is refreshed in the same way, and no
   * other record changes. A callback that throws changes no record.
   */
  lemma StepRefreshesRecords<R>(st: Limiter, bucket: string, group: Option<string>, now: int, o: Outcome<R>)
    requires Ready(st, bucket, group) && |st.queue[bucket]| > 0
    ensures var nb := Step(st, bucket, group, now, o).state.buckets;
            var rec := st.buckets[bucket];
            && (o.Threw? ==> nb == st.buckets)
            && (o.Returned? ==>
                  var lim := o.limits;
                  && nb[bucket] == Record(lim.remaining.GetOr(if lim.wasRateLimited then 0 else rec.remaining), lim.resetAt.GetOr(rec.resetAt))
                  && (group.Some? && group.value != bucket ==>
                        nb[group.value] == Refresh(st.buckets[group.value], lim)))
            && forall b :: b in st.buckets && b != bucket && (group.Some? ==> b != group.value) ==> nb[b] == st.buckets[b]
  {
  }

  /** A record and its group converge when both fields are reported. */
  lemma StepGroupConverges<R>(st: Limiter, bucket: string, g: string, now: int, o: Outcome<R>)
    requires Ready(st, bucket, Some(g)) && |st.queue[bucket]| > 0
    requires o.Returned? && o.limits.remaining.Some? && o.limits.resetAt.Some?
    ensures var nb := Step(st, bucket, Some(g), now, o).state.buckets;
            nb[bucket] == nb[g] == Record(o.limits.remaining.value, o.limits.resetAt.value)
  {
  }

  /**
   * The `remaining = 0` of a rate-limited attempt (line 82) survives only
   * when the classification reports no `remaining`: a reported value
   * overwrites it at line 86.
   */
  lemma ThrottleZeroingOverwritten<R>(st: Limiter, bucket: string, group: Option<string>, now: int, o: Outcome<R>)
    requires Ready(st, bucket, group) && |st.queue[bucket]| > 0 && Throttled(o)
    ensures var nb := Step(st, bucket, group, now, o).state.buckets;
            nb[bucket].remaining == (if o.limits.remaining.Some? then o.limits.remaining.value else 0)
  {
  }

  /**
   * The global reset is waited out and cleared before the attempt, then
   * max-merged with a truthy reported value; the clear is all that happens
   * when none is reported or the callback threw.
   */
  lemma StepGlobalReset<R>(st: Limiter, bucket: string, group: Option<string>, now: int, o: Outcome<R>)
    requires Ready(st, bucket, group) && |st.queue[bucket]| > 0
    ensures var r := Step(st, bucket, group, now, o);
            && (o.Threw? ==> r.state.globalReset == 0)
            && (o.Returned? ==>
                  var g := o.limits.globalReset;
                  && (g.Some? && g.value != 0 ==> r.state.globalReset == Max(g.value, 0))
                  && (!(g.Some? && g.value != 0) ==> r.state.globalReset == 0))
  {
  }

  /**
   * The alias of `bucket` is overwritten only by a truthy reported
   * `groupBucket`; other aliases never change.
   */
  lemma StepAlias<R>(st: Limiter, bucket: string, group: Option<string>, now: int, o: Outcome<R>)
    requires Ready(st, bucket, group) && |st.queue[bucket]| > 0
    ensures var gb := Step(st, bucket, group, now, o).state.groupedBuckets;
            var reported := o.Returned? && o.limits.groupBucket.Some? && o.limits.groupBucket.value != "";
            && (reported ==> bucket in gb && gb[bucket] == o.limits.groupBucket.value)
            && (!reported ==> gb == st.groupedBuckets)
            && st.groupedBuckets.Keys <= gb.Keys <= st.groupedBuckets.Keys + {bucket}
            && forall b :: b in st.groupedBuckets && b != bucket ==> gb[b] == st.groupedBuckets[b]
  {
  }

  /**
   * A run touches only the records of its bucket and of the group looked up
   * when the flush began, only the queue of its bucket, and only the alias
   * of its bucket. In particular an alias learned during the flush is not
   * consulted or refreshed until a later flush.
   */
  lemma {:induction false} RunFrame<R>(st: Limiter, bucket: string, group: Option<string>, now: int, outs: seq<Outcome<R>>)
    requires Ready(st, bucket, group)
    ensures var r := Run(st, bucket, group, now, outs).state;
            && (forall b :: b in st.buckets && b != bucket && (group.Some? ==> b != group.value) ==> b in r.buckets && r.buckets[b] == st.buckets[b])
            && (forall b :: b in st.queue && b != bucket ==> b in r.queue && r.queue[b] == st.queue[b])
            && st.groupedBuckets.Keys <= r.groupedBuckets.Keys <= st.groupedBuckets.Keys + {bucket}
            && (forall b :: b in st.groupedBuckets && b != bucket ==> r.groupedBuckets[b] == st.groupedBuckets[b])
    decreases |outs|
  {
    if |st.queue[bucket]| > 0 && |outs| > 0 {
      var s := Step(st, bucket, group, now, outs[0]);
      StepRefreshesRecords(st, bucket, group, now, outs[0]);
      StepTakesHead(st, bucket, group, now, outs[0]);
      StepAlias(st, bucket, group, now, outs[0]);
      if outs[0].Returned? {
        RunFrame(s.state, bucket, group, s.clock, outs[1..]);
      }
    }
  }

  /** A run adds and removes no queue and no record. */
  lemma {:induction false} RunKeys<R>(st: Limiter, bucket: string, group: Option<string>, now: int, outs: seq<Outcome<R>>)
    requires Ready(st, bucket, group)
    ensures var r := Run(st, bucket, group, now, outs).state;
            r.queue.Keys == st.queue.Keys && r.buckets.Keys == st.buckets.Keys
    decreases |outs|
  {
    if |st.queue[bucket]| > 0 && |outs| > 0 {
      var s := Step(st, bucket, group, now, outs[0]);
      assert s.state.queue.Keys == st.queue.Keys;
      assert s.state.buckets.Keys == st.buckets.Keys;
      if outs[0].Returned? {
        RunKeys(s.state, bucket, group, s.clock, outs[1..]);
      }
    }
  }

  /**
   * When every callback returns and none is throttled, a run resolves the
   * queued items in submission order, each with its own outcome, and leaves
   * exactly the items it did not reach.
   */
  lemma {:induction false} RunInOrder<R>(st: Limiter, bucket: string, group: Option<string>, now: int, outs: seq<Outcome<R>>)
    requires Ready(st, bucket, group)
    requires forall i :: 0 <= i < |outs| ==> outs[i].Returned? && !outs[i].limits.wasRateLimited
    ensures var r := Run(st, bucket, group, now, outs);
            var q := st.queue[bucket];
            && |r.log| == (if |q| <= |outs| then |q| else |outs|)
            && r.state.queue[bucket] == q[|r.log|..]
            && forall i :: 0 <= i < |r.log| ==> r.log[i].item == q[i] && r.log[i].resolved && r.log[i].outcome == outs[i]
    decreases |outs|
  {
    var q := st.queue[bucket];
    if |q| > 0 && |outs| > 0 {
      var s := Step(st, bucket, group, now, outs[0]);
      StepTakesHead(st, bucket, group, now, outs[0]);
      assert s.state.queue[bucket] == q[1..];
      RunInOrder(s.state, bucket, group, s.clock, outs[1..]);
      RunStep(st, bucket, group, now, outs);
      var rest := Run(s.state, bucket, group, s.clock, outs[1..]);
      assert Run(st, bucket, group, now, outs).log == s.log + rest.log;
      assert q[1..][|rest.log|..] == q[1 + |rest.log|..];
      assert s.log == [s.log[0]];
      ConsInOrder(s.log[0], rest.log, q, outs);
    }
  }

  /** Extending an in-order log of the tail by an in-order head. */
  lemma ConsInOrder<R>(a: Attempt<R>, rest: seq<Attempt<R>>, q: seq<Item>, outs: seq<Outcome<R>>)
    requires |q| > 0 && |outs| > 0 && |rest| < |q| && |rest| < |outs|
    requires a.item == q[0] && a.resolved && a.outcome == outs[0]
    requires forall i :: 0 <= i < |rest| ==> rest[i].item == q[1..][i] && rest[i].resolved && rest[i].outcome == outs[1..][i]
    ensures forall i :: 0 <= i < |[a] + rest| ==>
              ([a] + rest)[i].item == q[i] && ([a] + rest)[i].resolved && ([a] + rest)[i].outcome == outs[i]
  {
    forall i | 0 <= i < |[a] + rest|
      ensures ([a] + rest)[i].item == q[i] && ([a] + rest)[i].resolved && ([a] + rest)[i].outcome == outs[i]
    {
      if i > 0 {
        assert ([a] + rest)[i] == rest[i - 1];
        assert q[1..][i - 1] == q[i] && outs[1..][i - 1] == outs[i];
      }
    }
  }

  /**
   * A rate-limited item of a bucket that queues nothing else is the next
   * item to run: the same request is retried.
   */
  lemma ThrottledItemRetried<R>(st: Limiter, bucket: string, group: Option<string>, now: int, outs: seq<Outcome<R>>)
    requires Ready(st, bucket, group) && |st.queue[bucket]| == 1
    requires |outs| >= 2 && Throttled(outs[0])
    ensures var r := Run(st, bucket, group, now, outs);
            |r.log| >= 2 && r.log[1].item == r.log[0].item == st.queue[bucket][0] && !r.log[0].resolved
  {
    var s := Step(st, bucket, group, now, outs[0]);
    StepTakesHead(st, bucket, group, now, outs[0]);
    StepTakesHead(s.state, bucket, group, s.clock, outs[1]);
  }

  /**
   * When an attempt reports an exhausted bucket (`remaining <= 0`) that
   * resets at `T`, still in the future when the attempt has finished, the
   * next attempt of the flush starts no earlier than `T + 2000`.
   */
  lemma ReportedCooldownRespected<R>(st: Limiter, bucket: string, group: Option<string>, now: int, outs: seq<Outcome<R>>)
    requires Ready(st, bucket, group)
    requires |outs| >= 2
    requires outs[0].Returned?
    requires |st.queue[bucket]| >= 2 || (|st.queue[bucket]| == 1 && outs[0].limits.wasRateLimited)
    requires outs[0].limits.remaining.Some? && outs[0].limits.remaining.value <= 0
    requires outs[0].limits.resetAt.Some?
    requires outs[0].limits.resetAt.value > Step(st, bucket, group, now, outs[0]).clock
    ensures var r := Run(st, bucket, group, now, outs);
            |r.log| >= 2 && r.log[1].startedAt >= outs[0].limits.resetAt.value + SafetyMargin
  {
    var s := Step(st, bucket, group, now, outs[0]);
    StepTakesHead(st, bucket, group, now, outs[0]);
    StepRefreshesRecords(st, bucket, group, now, outs[0]);
    assert |s.state.queue[bucket]| > 0;
    StepWaitsOutCooldowns(s.state, bucket, group, s.clock, outs[1]);
    RunStep(s.state, bucket, group, s.clock, outs[1..]);
    assert outs[1..][0] == outs[1];
  }

  /**
   * With no exception, no throttling and enough outcomes, a flush of an
   * unlocked bucket resolves every queued item in submission order, empties
   * the queue and releases the lock.
   */
  lemma FlushDrainsInOrder<R>(st: Limiter, bucket: string, now: int, outs: seq<Outcome<R>>)
    requires bucket in st.queue && !Locked(st, bucket)
    requires |outs| >= |st.queue[bucket]|
    requires forall i :: 0 <= i < |outs| ==> outs[i].Returned? && !outs[i].limits.wasRateLimited
    ensures var r := Flush(st, bucket, now, outs);
            var q := st.queue[bucket];
            && |r.log| == |q|
            && (forall i :: 0 <= i < |q| ==> r.log[i].item == q[i] && r.log[i].resolved)
            && r.state.queue[bucket] == []
            && bucket !in r.state.queueLock
  {
    var s := Begin(st, bucket, now);
    RunInOrder(s, bucket, GroupOf(s, bucket), now, outs);
    RunLog(s, bucket, GroupOf(s, bucket), now, outs);
  }

  /**
   * A flush consults and refreshes only its bucket's record and the record
   * of the group the bucket was aliased to when the flush began; it creates
   * no record but the bucket's own, and changes no other queue.
   */
  lemma FlushFrame<R>(st: Limiter, bucket: string, now: int, outs: seq<Outcome<R>>)
    requires bucket in st.queue && !Locked(st, bucket)
    ensures var r := Flush(st, bucket, now, outs).state;
            var group := GroupOf(Begin(st, bucket, now), bucket);
            && r.buckets.Keys == st.buckets.Keys + {bucket} && r.queue.Keys == st.queue.Keys
            && (forall b :: b in st.buckets && b != bucket && (group.Some? ==> b != group.value) ==> r.buckets[b] == st.buckets[b])
            && (forall b :: b in st.queue && b != bucket ==> r.queue[b] == st.queue[b])
  {
    var s := Begin(st, bucket, now);
    var run := Run(s, bucket, GroupOf(s, bucket), now, outs).state;
    RunFrame(s, bucket, GroupOf(s, bucket), now, outs);
    RunKeys(s, bucket, GroupOf(s, bucket), now, outs);
    var r := Flush(st, bucket, now, outs).state;
    assert r.buckets == run.buckets && r.queue == run.queue;
  }

  /**
   * An alias to a group key that has no record of its own is ignored: the
   * flush neither waits on it nor creates or refreshes a record for it.
   */
  lemma AliasWithoutRecordIgnored<R>(st: Limiter, bucket: string, now: int, outs: seq<Outcome<R>>)
    requires bucket in st.queue && !Locked(st, bucket)
    requires bucket in st.groupedBuckets && st.groupedBuckets[bucket] != bucket && st.groupedBuckets[bucket] !in st.buckets
    ensures GroupOf(Begin(st, bucket, now), bucket) == None
    ensures st.groupedBuckets[bucket] !in Flush(st, bucket, now, outs).state.buckets
  {
    FlushFrame(st, bucket, now, outs);
  }

  /**
   * A flush throws exactly when the outcome of its last attempt is an
   * exception. That item is left unresolved, and the lock taken at a
   * non-zero clock stays set.
   */
  lemma ThrowKeepsLock<R>(st: Limiter, bucket: string, now: int, outs: seq<Outcome<R>>)
    requires bucket in st.queue && !Locked(st, bucket) && now != 0
    ensures var r := Flush(st, bucket, now, outs);
            && (r.threw <==> |r.log| > 0 && outs[|r.log| - 1].Threw?)
            && (r.threw ==> !r.log[|r.log| - 1].resolved && Locked(r.state, bucket))
  {
    FlushLog(st, bucket, now, outs);
  }

  /**
   * A locked bucket stays locked whatever is flushed later, and a flush of
   * it does nothing: once a flush has thrown, no item of its bucket is
   * attempted again.
   */
  lemma LockedBucketStaysLocked<R>(st: Limiter, bucket: string, b: string, now: int, outs: seq<Outcome<R>>)
    requires Locked(st, bucket) && b in st.queue
    ensures var r := Flush(st, b, now, outs);
            && Locked(r.state, bucket)
            && (b == bucket ==> r == Ran(st, [], now, false))
  {
  }

  /**
   * A `limit` call on a locked bucket queues its item behind the others and
   * attempts nothing, so its promise does not settle.
   */
  lemma LimitOnLockedBucket<R>(st: Limiter, bucket: string, item: Item, now: int, outs: seq<Outcome<R>>)
    requires Locked(st, bucket)
    ensures var r := Flush(st.(queue := Enqueue(st.queue, bucket, item)), bucket, now, outs);
            && r.log == []
            && r.state.queue[bucket] == QueueOf(st.queue, bucket) + [item]
            && Locked(r.state, bucket)
  {
  }

  /**
   * A concrete case: two items queued, and the first callback throws. The
   * flush ends with the second item still queued and the bucket locked, and
   * every later flush of the bucket leaves it there.
   */
  lemma ThrowStrandsQueue<R>(st: Limiter, bucket: string, now: int, i0: Item, i1: Item, outs: seq<Outcome<R>>,
                             later: int, more: seq<Outcome<R>>)
    requires bucket in st.queue && st.queue[bucket] == [i0, i1] && !Locked(st, bucket) && now != 0
    requires |outs| > 0 && outs[0].Threw?
    ensures var r := Flush(st, bucket, now, outs);
            && r.threw && r.log == [Attempt(i0, r.log[0].startedAt, outs[0], false)]
            && r.state.queue[bucket] == [i1] && Locked(r.state, bucket)
            && Flush(r.state, bucket, later, more).log == []
  {
    var s := Begin(st, bucket, now);
    var group := GroupOf(s, bucket);
    RunStep(s, bucket, group, now, outs);
    StepTakesHead(s, bucket, group, now, outs[0]);
    assert [i0, i1][1..] == [i1];
  }

  /**
   * The flush as evidently intended: the lock released in a `finally`, so
   * that an exception fails only its own request.
   */
  function FlushReleasing<R>(st: Limiter, bucket: string, now: int, outs: seq<Outcome<R>>): Ran<R>
    requires bucket in st.queue
  {
    var r := Flush(st, bucket, now, outs);
    if !Locked(st, bucket) && r.threw then r.(state := r.state.(queueLock := r.state.queueLock - {bucket})) else r
  }

  /**
   * With the lock released on an exception, a flush makes the same attempts
   * as before, its bucket is no longer locked after it threw, and the next
   * flush goes on with the items that were left.
   */
  lemma ReleasingRecovers<R>(st: Limiter, bucket: string, now: int, outs: seq<Outcome<R>>, later: int, more: seq<Outcome<R>>)
    requires bucket in st.queue && !Locked(st, bucket)
    ensures var r := FlushReleasing(st, bucket, now, outs);
            && r.log == Flush(st, bucket, now, outs).log
            && (r.threw ==> !Locked(r.state, bucket))
            && (r.threw && |r.state.queue[bucket]| > 0 && |more| > 0 ==>
                  var next := FlushReleasing(r.state, bucket, later, more);
                  |next.log| > 0 && next.log[0].item == r.state.queue[bucket][0])
  {
    var r := FlushReleasing(st, bucket, now, outs);
    if r.threw && |r.state.queue[bucket]| > 0 && |more| > 0 {
      var s := Begin(r.state, bucket, later);
      RunStep(s, bucket, GroupOf(s, bucket), later, more);
      StepTakesHead(s, bucket, GroupOf(s, bucket), later, more[0]);
    }
  }

  /** The limiter's state, updated in place by `limit` and `flushQueue`. */
  class RateLimiter {
    var buckets: map<string, Record>
    var queue: map<string, seq<Item>>
    var groupedBuckets: map<string, string>
    var queueLock: map<string, int>
    var globalReset: int

    /** All of the fields as one value. */
    function State(): Limiter
      reads this
    {
      Limiter(buckets, queue, groupedBuckets, queueLock, globalReset)
    }

    /** A limiter with no buckets, queues, groups or locks. */
    constructor ()
      ensures State() == Limiter(map[], map[], map[], map[], 0)
    {
      buckets, queue, groupedBuckets, queueLock, globalReset := map[], map[], map[], map[], 0;
    }

    /**
     * `limit(bucket, callback, limitBy)`: queues the item, then flushes the
     * bucket (a no-op when a flush of it is already running).
     */
    method Limit<R>(bucket: string, item: Item, now: int, outs: seq<Outcome<R>>) returns (log: seq<Attempt<R>>, clock: int, threw: bool)
      modifies this
      ensures Flush(old(State()).(queue := Enqueue(old(queue), bucket, item)), bucket, now, outs) == Ran(State(), log, clock, threw)
    {
      if bucket !in queue {
        queue := queue[bucket := []];
      }
      queue := queue[bucket := queue[bucket] + [item]];
      assert State() == old(State()).(queue := Enqueue(old(queue), bucket, item));
      log, clock, threw := FlushQueue(bucket, now, outs);
    }

    /**
     * `flushQueue(bucket)`, started at clock `now`, with the outcomes of its
     * attempts; `threw` tells that it ended by a callback's exception.
     */
    method FlushQueue<R>(bucket: string, now: int, outs: seq<Outcome<R>>) returns (log: seq<Attempt<R>>, clock: int, threw: bool)
      requires bucket in queue
      modifies this
      ensures Flush(old(State()), bucket, now, outs) == Ran(State(), log, clock, threw)
    {
      if bucket in queueLock && queueLock[bucket] != 0 {
        return [], now, false;
      }
      queueLock := queueLock[bucket := now];
      if bucket !in buckets {
        buckets := buckets[bucket := Record(DefaultRemaining, now)];
      }
      var group: Option<string> := None;
      if bucket in groupedBuckets && groupedBuckets[bucket] != "" && groupedBuckets[bucket] in buckets {
        group := Some(groupedBuckets[bucket]);
      }
      assert State() == Begin(old(State()), bucket, now) && group == GroupOf(State(), bucket);
      log, clock, threw := Drain(bucket, group, now, outs);
      if |queue[bucket]| == 0 && !threw {
        queueLock := queueLock - {bucket};
      }
      assert !Locked(old(State()), bucket);
    }

    /**
     * The loop of `flushQueue` (lines 61-98), with the group record looked
     * up before it; an exception ends it.
     */
    method Drain<R>(bucket: string, group: Option<string>, now: int, outs: seq<Outcome<R>>) returns (log: seq<Attempt<R>>, clock: int, threw: bool)
      requires Ready(State(), bucket, group)
      modifies this
      ensures Run(old(State()), bucket, group, now, outs) == Ran(State(), log, clock, threw)
    {
      ghost var whole := Run(State(), bucket, group, now, outs);
      ghost var rest := whole;
      var t := now;
      var pending := outs;
      log := [];
      threw := false;
      while !threw && |queue[bucket]| > 0 && |pending| > 0
        invariant Ready(State(), bucket, group)
        invariant !threw ==> rest == Run(State(), bucket, group, t, pending)
        invariant threw ==> rest == Ran(State(), [], t, true)
        invariant whole == Ran(rest.state, log + rest.log, rest.clock, rest.threw)
        decreases |pending|
      {
        ghost var before, tBefore, logBefore := State(), t, log;
        var attempt;
        attempt, t, threw := Iterate(bucket, group, t, pending[0]);
        RunStep(before, bucket, group, tBefore, pending);
        pending := pending[1..];
        log := log + [attempt];
        if threw {
          rest := Ran(State(), [], t, true);
        } else {
          rest := Run(State(), bucket, group, t, pending);
        }
        AppendAssociates(logBefore, [attempt], rest.log);
      }
      clock := t;
    }

    /** One iteration of the loop of `flushQueue` (lines 62-97), started at clock `now`. */
    method Iterate<R>(bucket: string, group: Option<string>, now: int, o: Outcome<R>) returns (attempt: Attempt<R>, clock: int, threw: bool)
      requires Ready(State(), bucket, group) && |queue[bucket]| > 0
      modifies this
      ensures Step(old(State()), bucket, group, now, o) == Ran(State(), [attempt], clock, threw)
    {
      var t := WaitOut(bucket, group, now);
      var queued := queue[bucket][0];
      queue := queue[bucket := queue[bucket][1..]];
      if o.Threw? {
        return Attempt(queued, t, o, false), t + o.latency, true;
      }
      var lim := o.limits;
      if !lim.wasRateLimited {
        attempt := Attempt(queued, t, o, true);
      } else {
        queue := queue[bucket := queue[bucket] + [queued]];
        buckets := buckets[bucket := buckets[bucket].(remaining := 0)];
        attempt := Attempt(queued, t, o, false);
      }
      ApplyLimits(bucket, group, lim);
      clock := t + o.latency;
      threw := false;
    }

    /** Lines 62-69: sleeps out the three cooldowns and returns the clock afterwards. */
    method WaitOut(bucket: string, group: Option<string>, now: int) returns (t: int)
      requires Ready(State(), bucket, group)
      modifies this
      ensures t == Departure(old(State()), bucket, group, now)
      ensures State() == old(State()).(globalReset := 0)
    {
      t := now;
      var rec := buckets[bucket];
      if rec.remaining <= 0 && rec.resetAt > t {
        t := rec.resetAt + SafetyMargin;
      }
      if group.Some? {
        var grec := buckets[group.value];
        if grec.remaining <= 0 && grec.resetAt > t {
          t := grec.resetAt + SafetyMargin;
        }
      }
      if globalReset != 0 {
        t := Max(t, globalReset + SafetyMargin);
        globalReset := 0;
      }
    }

    /** Lines 86-97: copies the classification into the records, the global reset and the alias map. */
    method ApplyLimits(bucket: string, group: Option<string>, lim: LimitInfo)
      requires Ready(State(), bucket, group) && globalReset == 0
      modifies this
      ensures State() == old(State()).(buckets := Refreshed(old(buckets), bucket, group, lim),
                                       groupedBuckets := Regrouped(old(groupedBuckets), bucket, lim),
                                       globalReset := MergedGlobal(lim))
    {
      var own := buckets[bucket];
      buckets := buckets[bucket := Record(lim.remaining.GetOr(own.remaining), lim.resetAt.GetOr(own.resetAt))];
      if group.Some? {
        var grouped := buckets[group.value];
        buckets := buckets[group.value := Record(lim.remaining.GetOr(grouped.remaining), lim.resetAt.GetOr(grouped.resetAt))];
      }
      if lim.globalReset.Some? && lim.globalReset.value != 0 {
        globalReset := Max(lim.globalReset.value, globalReset);
      }
      if lim.groupBucket.Some? && lim.groupBucket.value != "" {
        groupedBuckets := groupedBuckets[bucket := lim.groupBucket.value];
      }
    }
  }
}
