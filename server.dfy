/** The render-job broker of the DepthFlow server: request payloads and their fingerprint,
    the TTL result store, the priority job queue, one iteration of the per-request polling
    loop and one iteration of a worker's loop.

    Concurrency is modelled as atomic sequential steps on a shared `State`; every step reads
    a single clock value `now` (seconds).  The renderer is a nondeterministic `Outcome`
    parameter and the fingerprint is a function-valued parameter `fp`. */
module Server {
  import opened Wrappers

  newtype byte = b: int | 0 <= b < 256
  type Bytes = seq<byte>

  /** A fingerprint: the integer that `hash(config)` returns. */
  type Key = int

  /** Default result lifetime of a payload, in seconds. */
  const DefaultExpire: int := 3600
  /** Lifetime of the pending marker written on admission. */
  const PendingTtl: real := 30.0
  /** A request gives up after this many seconds without a terminal result. */
  const RequestTimeout: real := 30.0
  /** Sleep between two iterations of the polling loop. */
  const PollInterval: real := 0.1
  const TimeoutMessage: string := "Request timed out"

  // ---------------------------------------------------------------------------------------- //
  // Payload and fingerprint

  datatype DepthInput = DepthInput(image: string, depth: Option<string>)

  /** The render settings; only the container format is looked at by the broker. */
  datatype RenderConfig = RenderConfig(format: string, settings: string)

  /** The fields of a payload that take part in its identity.  The sub-models (estimator,
      animation, upscaler, ffmpeg) are carried as their serialised form. */
  datatype JobConfig = JobConfig(
    input: DepthInput,
    estimator: string,
    animation: string,
    upscaler: string,
    render: RenderConfig,
    ffmpeg: string)

  /** A request payload: the identity part plus the three excluded bookkeeping fields. */
  datatype Payload = Payload(config: JobConfig, expire: int, hash: Key, priority: int)

  /** A payload built with every bookkeeping field at its default. */
  function NewPayload(config: JobConfig): Payload {
    Payload(config, DefaultExpire, 0, 0)
  }

  /** `hash(config)`: the fingerprint sees only the non-excluded fields. */
  function Fingerprint(fp: JobConfig -> Key, p: Payload): Key {
    fp(p.config)
  }

  /** What a request does before its polling loop: store the fingerprint in `hash`. */
  function Prepare(fp: JobConfig -> Key, p: Payload): Payload {
    p.(hash := Fingerprint(fp, p))
  }

  /** The bookkeeping fields never change the fingerprint: payloads with the same identity
      part, whatever their expire, hash and priority, and the all-defaults payload, are
      prepared with the same key; preparing twice is preparing once. */
  lemma FingerprintIgnoresBookkeeping(fp: JobConfig -> Key, a: Payload, b: Payload)
    requires a.config == b.config
    ensures Prepare(fp, a).hash == Prepare(fp, b).hash
    ensures Prepare(fp, NewPayload(a.config)).hash == Prepare(fp, a).hash
    ensures NewPayload(a.config).expire == 3600 && NewPayload(a.config).hash == 0
    ensures NewPayload(a.config).priority == 0
    ensures Prepare(fp, Prepare(fp, a)) == Prepare(fp, a)
    ensures Prepare(fp, a).priority == a.priority && Prepare(fp, a).expire == a.expire
  {
  }

  // ---------------------------------------------------------------------------------------- //
  // Priority ordering of payloads

  /** `__lt__`: a payload sorts first when its priority is strictly higher. */
  predicate Lt(a: Payload, b: Payload) {
    a.priority > b.priority
  }

  /** `__gt__`, the mirror of `__lt__`. */
  predicate Gt(a: Payload, b: Payload) {
    a.priority < b.priority
  }

  /** The inverted comparators form a strict weak order whose incomparable pairs are exactly
      the pairs of equal priority: the order says nothing about ties. */
  lemma OrderIsStrictWeak(a: Payload, b: Payload, c: Payload)
    ensures Lt(a, b) <==> Gt(b, a)
    ensures !Lt(a, a)
    ensures Lt(a, b) ==> !Lt(b, a)
    ensures Lt(a, b) && Lt(b, c) ==> Lt(a, c)
    ensures (!Lt(a, b) && !Lt(b, a)) <==> a.priority == b.priority
  {
  }

  // ---------------------------------------------------------------------------------------- //
  // Job queue

  /** Index `k` is an element a heap ordered by `Lt` may hand out next: nothing in the queue
      sorts strictly before it. */
  predicate IsHeapTop(q: seq<Payload>, k: int) {
    0 <= k < |q| && forall j :: 0 <= j < |q| ==> !Lt(q[j], q[k])
  }

  /** The element a heap hands out has the highest priority in the queue, and every element
      of highest priority is one the heap may hand out. */
  lemma HeapTopIsHighestPriority(q: seq<Payload>, k: int)
    requires 0 <= k < |q|
    ensures IsHeapTop(q, k) <==> forall j :: 0 <= j < |q| ==> q[j].priority <= q[k].priority
  {
  }

  /** The earliest element of highest priority.  It exists whenever the queue is not empty,
      so a worker blocked in `get` always has a job to take once one was put. */
  function HighestIndex(q: seq<Payload>): (k: nat)
    requires |q| > 0
    ensures IsHeapTop(q, k)
    ensures forall j :: 0 <= j < k ==> q[j].priority < q[k].priority
  {
    if |q| == 1 then 0
    else
      var k := HighestIndex(q[..|q| - 1]);
      if q[|q| - 1].priority > q[k].priority then |q| - 1 else k
  }

  /** The queue without its `k`-th element. */
  function Without(q: seq<Payload>, k: nat): (r: seq<Payload>)
    requires k < |q|
    ensures |r| == |q| - 1
    ensures multiset(r) + multiset{q[k]} == multiset(q)
    ensures forall j :: 0 <= j < k ==> r[j] == q[j]
    ensures forall j :: k <= j < |r| ==> r[j] == q[j + 1]
  {
    assert q == q[..k] + [q[k]] + q[k + 1..];
    q[..k] + q[k + 1..]
  }

  // ---------------------------------------------------------------------------------------- //
  // Result store

  /** What the cache holds under a key: the pending `None` marker, the video bytes, or the
      exception the renderer raised (kept as its message, `str(error)`). */
  datatype Value = Pending | Video(bytes: Bytes) | Failure(message: string)

  /** A stored value with its absolute expiry time. */
  datatype Entry = Entry(value: Value, expiry: real)

  type Store = map<Key, Entry>

  /** The key is present and not yet expired (an entry is visible while `now < expiry`). */
  predicate Live(store: Store, key: Key, now: real) {
    key in store && now < store[key].expiry
  }

  /** `render_data.get(key)`: `None` on a miss or on an expired entry. */
  function Lookup(store: Store, key: Key, now: real): (r: Option<Value>)
    ensures r.Some? <==> Live(store, key, now)
    ensures r.Some? ==> r.value == store[key].value
  {
    if Live(store, key, now) then Some(store[key].value) else None
  }

  /** `render_data.set(key, value, expire=ttl)` at time `now`. */
  function Put(store: Store, key: Key, value: Value, ttl: real, now: real): Store {
    store[key := Entry(value, now + ttl)]
  }

  /** A value written with a lifetime `ttl` is read back exactly until `now + ttl` and is
      gone from then on; every other key reads as before. */
  lemma PutThenLookup(store: Store, key: Key, value: Value, ttl: real, now: real, later: real, other: Key)
    requires now <= later && other != key
    ensures Lookup(Put(store, key, value, ttl, now), key, later)
            == if later < now + ttl then Some(value) else None
    ensures Lookup(Put(store, key, value, ttl, now), other, later) == Lookup(store, other, later)
  {
  }

  /** Python truthiness of a stored value: `None` and empty bytes are false, an exception
      object is true. */
  predicate Truthy(v: Value) {
    match v
    case Pending => false
    case Video(b) => |b| > 0
    case Failure(_) => true
  }

  // ---------------------------------------------------------------------------------------- //
  // Shared state and the polling step

  /** The two structures shared by the request handlers and the workers. */
  datatype State = State(store: Store, queue: seq<Payload>)

  /** What one iteration of the polling loop answers: go round again after a sleep, or one
      of the three responses. */
  datatype Response =
    | Retry(delay: real)
    | Ok(video: Bytes, mediaType: string, took: real, cached: bool)
    | Err500(message: string)
    | Timeout503(message: string)

  datatype Polled = Polled(state: State, response: Response)

  /** Every key other than `key` is mapped exactly as before. */
  ghost predicate SameElsewhere(before: Store, after: Store, key: Key) {
    forall k :: k != key ==> (k in after <==> k in before) && (k in before ==> after[k] == before[k])
  }

  /** One iteration of `render`'s loop for the prepared request `req`, at iteration `index`
      (counted from 1) of a loop started at time `start`. */
  function Poll(s: State, req: Payload, now: real, index: nat, start: real): (r: Polled)
    requires index >= 1
    // only the request's own key is ever touched
    ensures SameElsewhere(s.store, r.state.store, req.hash)
    // a success is a live, truthy video: exactly its bytes, nothing changes, and it is
    // reported as cached precisely on the first iteration
    ensures r.response.Ok? <==> (Lookup(s.store, req.hash, now).Some?
                                && Lookup(s.store, req.hash, now).value.Video?
                                && Truthy(Lookup(s.store, req.hash, now).value))
    ensures r.response.Ok? ==> Lookup(s.store, req.hash, now) == Some(Video(r.response.video))
                               && r.state == s && r.response.cached == (index == 1)
                               && r.response.took == now - start
                               && r.response.mediaType == "video/" + req.config.render.format
    // a live failure is reported once with its message and removed from the store
    ensures r.response.Err500? <==> (Lookup(s.store, req.hash, now).Some?
                                    && Lookup(s.store, req.hash, now).value.Failure?)
    ensures r.response.Err500? ==> Lookup(s.store, req.hash, now) == Some(Failure(r.response.message))
                                   && req.hash !in r.state.store && r.state.queue == s.queue
    // admission: exactly when nothing live is stored, a 30 s pending marker is written and
    // the request is queued, once
    ensures r.state.queue == (if Live(s.store, req.hash, now) then s.queue else s.queue + [req])
    ensures !Live(s.store, req.hash, now) ==>
              r.state.store == s.store[req.hash := Entry(Pending, now + PendingTtl)]
              && r.response == Retry(PollInterval)
    // a live but falsy value (the pending marker, or empty bytes) waits, and times out only
    // once the request is more than 30 s old
    ensures Live(s.store, req.hash, now) && !Truthy(s.store[req.hash].value) ==>
              r.state == s
              && r.response == (if start + RequestTimeout < now then Timeout503(TimeoutMessage)
                                else Retry(PollInterval))
  {
    var video := Lookup(s.store, req.hash, now);
    if video.Some? && Truthy(video.value) then
      if video.value.Failure? then Polled(State(s.store - {req.hash}, s.queue), Err500(video.value.message))
      else Polled(s, Ok(video.value.bytes, "video/" + req.config.render.format, now - start, index == 1))
    else if !Live(s.store, req.hash, now) then
      Polled(State(Put(s.store, req.hash, Pending, PendingTtl, now), s.queue + [req]), Retry(PollInterval))
    else if start + RequestTimeout < now then
      Polled(s, Timeout503(TimeoutMessage))
    else
      Polled(s, Retry(PollInterval))
  }

  // ---------------------------------------------------------------------------------------- //
  // The worker step

  /** What the external renderer does with a job: it returns the video, or raises during the
      scene set-up (before the temporary output file exists), or raises while rendering. */
  datatype Outcome = Rendered(video: Bytes) | SetupFailed(message: string) | RenderFailed(message: string)

  /** `video` after the try/except: the bytes, or the caught exception. */
  function Caught(o: Outcome): (v: Value)
    ensures v.Failure? <==> !o.Rendered?
    ensures o.Rendered? ==> v == Video(o.video)
    ensures !o.Rendered? ==> v == Failure(o.message)
  {
    match o
    case Rendered(b) => Video(b)
    case SetupFailed(m) => Failure(m)
    case RenderFailed(m) => Failure(m)
  }

  /** One iteration of a worker's loop: take the job at `k` (one the heap may hand out),
      render it, and store the terminal value under the job's key with the job's lifetime. */
  function Work(s: State, k: nat, outcome: Outcome, now: real): (r: State)
    requires IsHeapTop(s.queue, k)
    // exactly one job is consumed
    ensures multiset(r.queue) + multiset{s.queue[k]} == multiset(s.queue)
    ensures |r.queue| == |s.queue| - 1
    // exactly one entry is written, at the job's key, for the job's lifetime
    ensures SameElsewhere(s.store, r.store, s.queue[k].hash)
    ensures s.queue[k].hash in r.store
    ensures r.store[s.queue[k].hash].expiry == now + s.queue[k].expire as real
    // the bytes on success, the exception on failure: never the pending marker
    ensures r.store[s.queue[k].hash].value
            == (if outcome.Rendered? then Video(outcome.video) else Failure(outcome.message))
  {
    var job := s.queue[k];
    State(Put(s.store, job.hash, Caught(outcome), job.expire as real, now), Without(s.queue, k))
  }

  /** Whether a worker survives its iteration. */
  datatype WorkerFate = Alive | Died

  datatype Worked = Worked(state: State, fate: WorkerFate)

  /** The worker iteration as `worker` is written.  When the set-up raises, the `finally`
      clause unlinks `temp.name` although no temporary file was created in this iteration:
      `temp` is unbound on the first job and names the previous job's already deleted file
      afterwards, so the unlink itself raises.  That exception leaves the loop before
      `render_data.set`, and the worker thread ends. */
  function WorkAsWritten(s: State, k: nat, outcome: Outcome, now: real): (r: Worked)
    requires IsHeapTop(s.queue, k)
    ensures r.state.queue == Without(s.queue, k)
    ensures r.fate.Died? <==> outcome.SetupFailed?
    ensures outcome.SetupFailed? ==> r.state.store == s.store
    ensures !outcome.SetupFailed? ==> r == Worked(Work(s, k, outcome, now), Alive)
  {
    if outcome.SetupFailed? then Worked(State(s.store, Without(s.queue, k)), Died)
    else Worked(Work(s, k, outcome, now), Alive)
  }

  /** The discrepancy: a request admitted at `t0` whose job fails in the set-up never sees
      the failure.  As written, its poll after the worker step still finds the pending
      marker and keeps waiting until it times out; with the terminal write `worker`
      evidently intends (`Work`), the same poll answers 500 with the error. */
  lemma SetupFailureLosesResult(req: Payload, t0: real, t1: real, t2: real, m: string)
    requires req.expire > 0
    requires t0 <= t1 <= t2 < t0 + PendingTtl && t2 < t1 + req.expire as real
    ensures var admitted := Poll(State(map[], []), req, t0, 1, t0);
            var lost := WorkAsWritten(admitted.state, 0, SetupFailed(m), t1);
            var kept := Work(admitted.state, 0, SetupFailed(m), t1);
            && admitted.state.queue == [req]
            && lost.fate == Died
            && Poll(lost.state, req, t2, 2, t0).response == Retry(PollInterval)
            && lost.state.store[req.hash].value == Pending
            && Poll(kept, req, t2, 2, t0).response == Err500(m)
  {
    var admitted := Poll(State(map[], []), req, t0, 1, t0);
    assert IsHeapTop(admitted.state.queue, 0);
  }

  // ---------------------------------------------------------------------------------------- //
  // Properties spanning several steps

  /** Every queued job carries its own fingerprint. */
  predicate Fingerprinted(fp: JobConfig -> Key, s: State) {
    forall j :: 0 <= j < |s.queue| ==> s.queue[j].hash == Fingerprint(fp, s.queue[j])
  }

  /** Polls of prepared requests and worker steps keep every queued job fingerprinted. */
  lemma StepsKeepFingerprints(fp: JobConfig -> Key, s: State, p: Payload, now: real, index: nat,
                              start: real, k: nat, outcome: Outcome)
    requires Fingerprinted(fp, s) && index >= 1
    ensures Fingerprinted(fp, Poll(s, Prepare(fp, p), now, index, start).state)
    ensures IsHeapTop(s.queue, k) ==> Fingerprinted(fp, Work(s, k, outcome, now))
  {
    var r := Poll(s, Prepare(fp, p), now, index, start);
    assert r.state.queue == s.queue || r.state.queue == s.queue + [Prepare(fp, p)];
    if IsHeapTop(s.queue, k) {
      var w := Work(s, k, outcome, now).queue;
      forall j | 0 <= j < |w| ensures w[j].hash == Fingerprint(fp, w[j]) {
        if j < k { assert w[j] == s.queue[j]; } else { assert w[j] == s.queue[j + 1]; }
      }
    }
  }

  /** Single flight: once a request was admitted at `t0`, another request for the same
      fingerprint polling while the marker lives enqueues nothing, so the queue holds the
      job once. */
  lemma SingleFlight(s: State, a: Payload, b: Payload, t0: real, t1: real, i: nat, j: nat,
                     sa: real, sb: real)
    requires !Live(s.store, a.hash, t0) && b.hash == a.hash
    requires t0 <= t1 < t0 + PendingTtl && i >= 1 && j >= 1
    ensures var first := Poll(s, a, t0, i, sa);
            var second := Poll(first.state, b, t1, j, sb);
            && first.state.queue == s.queue + [a]
            && second.state.queue == first.state.queue
            && (second.response.Retry? || second.response.Timeout503?)
  {
  }

  /** Failure clears for retry: the first poll that sees a failure answers 500 and removes it,
      and the next poll for that fingerprint admits the job afresh. */
  lemma FailureClearsForRetry(s: State, a: Payload, b: Payload, t0: real, t1: real, i: nat,
                              j: nat, sa: real, sb: real, m: string)
    requires Lookup(s.store, a.hash, t0) == Some(Failure(m)) && b.hash == a.hash
    requires i >= 1 && j >= 1
    ensures var first := Poll(s, a, t0, i, sa);
            var second := Poll(first.state, b, t1, j, sb);
            && first.response == Err500(m)
            && second.state.queue == s.queue + [b]
            && second.state.store[b.hash] == Entry(Pending, t1 + PendingTtl)
  {
  }

  /** A live pending marker is never a hit: the poll changes nothing, and it answers 503
      exactly when the request is more than 30 s old. */
  lemma PendingMarkerWaits(s: State, req: Payload, now: real, index: nat, start: real)
    requires Live(s.store, req.hash, now) && s.store[req.hash].value == Pending && index >= 1
    ensures Poll(s, req, now, index, start).state == s
    ensures Poll(s, req, now, index, start).response.Timeout503? <==> start + RequestTimeout < now
    ensures !Poll(s, req, now, index, start).response.Ok?
  {
  }

  /** Empty video bytes are falsy, so a stored empty video is treated like the pending
      marker: it is never served, and the poll only waits or times out. */
  lemma EmptyVideoIsNeverServed(s: State, req: Payload, now: real, index: nat, start: real)
    requires Live(s.store, req.hash, now) && s.store[req.hash].value == Video([]) && index >= 1
    ensures Poll(s, req, now, index, start).state == s
    ensures Poll(s, req, now, index, start).response in {Retry(PollInterval), Timeout503(TimeoutMessage)}
  {
  }

  /** The pending marker lives as long as the request timeout, so a request still waiting when
      its marker has expired re-admits the job: it is queued a second time. */
  lemma MarkerExpiryReadmits(req: Payload, t0: real, t1: real)
    requires t0 + PendingTtl <= t1
    ensures var first := Poll(State(map[], []), req, t0, 1, t0);
            var later := Poll(first.state, req, t1, 2, t0);
            later.state.queue == [req, req] && later.response == Retry(PollInterval)
  {
  }

  /** Request coalescing: once a worker stored a non-empty video for a job, every request for
      the same configuration, whatever its priority and lifetime, is served those bytes until
      the job's lifetime ends, first as a cached hit. */
  lemma WorkerResultServesEquivalentRequests(fp: JobConfig -> Key, s: State, k: nat, v: Bytes,
                                             now: real, p: Payload, later: real, index: nat,
                                             start: real)
    requires Fingerprinted(fp, s) && IsHeapTop(s.queue, k) && |v| > 0
    requires p.config == s.queue[k].config && index >= 1
    requires now <= later < now + s.queue[k].expire as real
    ensures var done := Work(s, k, Rendered(v), now);
            var served := Poll(done, Prepare(fp, p), later, index, start);
            && served.response.Ok? && served.response.video == v
            && served.response.cached == (index == 1) && served.state == done
  {
    assert s.queue[k].hash == Fingerprint(fp, s.queue[k]);
  }

  /** The scenario of a low-priority job queued before a high-priority one: the worker takes
      the high-priority job first, although it arrived second. */
  lemma HigherPriorityFirst(low: Payload, high: Payload)
    requires low.priority < high.priority
    ensures IsHeapTop([low, high], 1) && !IsHeapTop([low, high], 0)
    ensures HighestIndex([low, high]) == 1
  {
    assert Lt([low, high][1], [low, high][0]);
  }

  // ---------------------------------------------------------------------------------------- //
  // The server object

  /** The shared `render_data` cache and `render_jobs` queue of the server. */
  class Broker {
    var store: Store
    var queue: seq<Payload>

    function Snapshot(): State
      reads this
    {
      State(store, queue)
    }

    constructor ()
      ensures store == map[] && queue == []
    {
      store := map[];
      queue := [];
    }

    /** `render_data.get(key)` at time `now`. */
    method Get(key: Key, now: real) returns (r: Option<Value>)
      ensures r == Lookup(store, key, now)
    {
      if Live(store, key, now) {
        r := Some(store[key].value);
      } else {
        r := None;
      }
    }

    /** One iteration of the polling loop of `render` for the prepared request `req`. */
    method PollStep(req: Payload, now: real, index: nat, start: real) returns (response: Response)
      requires index >= 1
      modifies this
      ensures Polled(Snapshot(), response) == Poll(old(Snapshot()), req, now, index, start)
    {
      var video := Get(req.hash, now);
      if video.Some? && Truthy(video.value) {
        if video.value.Failure? {
          store := store - {req.hash};
          return Err500(video.value.message);
        }
        return Ok(video.value.bytes, "video/" + req.config.render.format, now - start, index == 1);
      } else if !Live(store, req.hash, now) {
        store := store[req.hash := Entry(Pending, now + PendingTtl)];
        queue := queue + [req];
      } else if start + RequestTimeout < now {
        return Timeout503(TimeoutMessage);
      }
      return Retry(PollInterval);
    }

    /** One iteration of a worker's loop with the terminal write `worker` evidently intends:
        dequeue the job at `k`, render it with the given outcome and store the terminal value.
        The iteration as written, which skips the write after a set-up failure, is
        `WorkAsWritten`. */
    method WorkerStep(k: nat, outcome: Outcome, now: real) returns (job: Payload)
      requires IsHeapTop(queue, k)
      modifies this
      ensures job == old(queue)[k]
      ensures Snapshot() == Work(old(Snapshot()), k, outcome, now)
    {
      job := queue[k];
      queue := queue[..k] + queue[k + 1..];
      store := store[job.hash := Entry(Caught(outcome), now + job.expire as real)];
    }
  }
}
