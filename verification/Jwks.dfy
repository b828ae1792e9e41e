/** The signing-key cache: double-checked locking with a lifetime, as interleaved tasks
    under a clock that never goes back. */
module Jwks {
  import opened Prelude
  import opened Json
  import Decimal

  type Keys = map<string, Value>

  datatype Cache = Cache(keys: Keys, expiresAt: real)

  const EMPTY_CACHE := Cache(map[], 0.0)

  /** The check both before and after taking the lock. */
  predicate Usable(c: Cache, now: real) {
    now < c.expiresAt && c.keys != map[]
  }

  function Refreshed(keys: Keys, now: real, ttl: real): Cache {
    Cache(keys, now + ttl)
  }

  // ---- tasks ----

  datatype Phase = Idle | Waiting | Fetching(since: real)

  /** Started: a fetch begins.  Stored: a fetch succeeded and its keys were kept.  Returned:
      a caller was given keys; `fetched` when its own fetch brought them. */
  datatype Event =
    | Started(at: real)
    | Stored(at: real, keys: Keys)
    | Returned(at: real, keys: Keys, fetched: bool)
    | Raised(at: real)

  datatype World = World(now: real, cache: Cache, lock: Option<Id>, phases: map<Id, Phase>, log: seq<Event>)

  datatype Label =
    | Tick(passed: real)
    | Get(task: Id)
    | Acquire(task: Id)
    | Arrive(task: Id, keys: Keys)
    | Fail(task: Id)
    | Cancel(task: Id)

  function PhaseOf(w: World, task: Id): Phase {
    if task in w.phases then w.phases[task] else Idle
  }

  function Noted(w: World, e: Event): World {
    w.(log := w.log + [e])
  }

  function Moved(w: World, task: Id, p: Phase): World {
    w.(phases := w.phases[task := p])
  }

  /** The caller leaves with cached keys. */
  function Served(w: World, task: Id): World {
    Noted(Moved(w, task, Idle), Returned(w.now, w.cache.keys, false))
  }

  /** The caller leaves the lock and raises. */
  function Abandoned(w: World, task: Id): World {
    Noted(Moved(w, task, Idle), Raised(w.now)).(lock := if PhaseOf(w, task).Fetching? then None else w.lock)
  }

  /** One uninterrupted stretch of one task; a label that cannot happen changes nothing. */
  function Step(w: World, ttl: real, l: Label): World {
    match l
    case Tick(passed) =>
      if passed >= 0.0 then w.(now := w.now + passed) else w
    case Get(task) =>
      if !PhaseOf(w, task).Idle? then w
      else if Usable(w.cache, w.now) then Served(w, task)
      else Moved(w, task, Waiting)
    case Acquire(task) =>
      if !PhaseOf(w, task).Waiting? || w.lock.Some? then w
      else if Usable(w.cache, w.now) then Served(w, task)
      else Noted(Moved(w, task, Fetching(w.now)), Started(w.now)).(lock := Some(task))
    case Arrive(task, keys) =>
      if !PhaseOf(w, task).Fetching? then w
      else if keys == map[] then Abandoned(w, task)
      else
        var left := Noted(Moved(w, task, Idle), Stored(w.now, keys));
        Noted(left.(lock := None, cache := Refreshed(keys, w.now, ttl)), Returned(w.now, keys, true))
    case Fail(task) =>
      if PhaseOf(w, task).Fetching? then Abandoned(w, task) else w
    case Cancel(task) =>
      if PhaseOf(w, task).Idle? then w else Abandoned(w, task)
  }

  function Start(now: real): World {
    World(now, EMPTY_CACHE, None, map[], [])
  }

  function Run(start: real, ttl: real, labels: seq<Label>): World {
    if labels == [] then Start(start) else Step(Run(start, ttl, labels[..|labels| - 1]), ttl, labels[|labels| - 1])
  }

  // ---- the cache told from the log ----

  /** The cache after a log: what the last store put there, whatever failed since. */
  function CacheAfter(log: seq<Event>, ttl: real): Cache {
    if log == [] then EMPTY_CACHE
    else if log[|log| - 1].Stored? then Refreshed(log[|log| - 1].keys, log[|log| - 1].at, ttl)
    else CacheAfter(log[..|log| - 1], ttl)
  }

  predicate Ordered(log: seq<Event>) {
    forall i, j :: 0 <= i < j < |log| ==> log[i].at <= log[j].at
  }

  /** No fetch begins, and none stores, within a lifetime of an earlier store. */
  predicate Spaced(log: seq<Event>, ttl: real) {
    forall i, j :: 0 <= i < j < |log| && log[i].Stored? && (log[j].Started? || log[j].Stored?) ==>
      log[j].at >= log[i].at + ttl
  }

  predicate NothingEmptyStored(log: seq<Event>) {
    forall i :: 0 <= i < |log| && log[i].Stored? ==> log[i].keys != map[]
  }

  /** What a caller may be given at position `i`: keys its own fetch stored just before, or
      the keys of the last store, younger than a lifetime; never an empty set. */
  ghost predicate Honest(log: seq<Event>, i: nat, ttl: real)
    requires i < |log|
  {
    log[i].Returned? ==>
      && log[i].keys != map[]
      && (if log[i].fetched then i > 0 && log[i - 1] == Stored(log[i].at, log[i].keys)
          else exists k :: LastStore(log, i, k) && log[k].keys == log[i].keys && log[i].at < log[k].at + ttl)
  }

  /** Position `k` holds the last store before position `i`. */
  predicate LastStore(log: seq<Event>, i: nat, k: int)
    requires i <= |log|
  {
    0 <= k < i && log[k].Stored? && forall j :: k < j < i ==> !log[j].Stored?
  }

  // ---- what every interleaving keeps ----

  /** The lock is held exactly while a fetch is in flight, by the one that fetches. */
  ghost predicate OneFetcher(w: World) {
    && (forall t: Id :: PhaseOf(w, t).Fetching? ==> w.lock == Some(t))
    && (w.lock.Some? ==> PhaseOf(w, w.lock.value).Fetching?)
  }

  /** The fetch in flight began no earlier than a lifetime after every store. */
  ghost predicate FetchIsLate(w: World, ttl: real) {
    forall t: Id, i :: PhaseOf(w, t).Fetching? && 0 <= i < |w.log| && w.log[i].Stored? ==>
      w.log[i].at + ttl <= PhaseOf(w, t).since <= w.now
  }

  ghost predicate LogOk(log: seq<Event>, now: real, ttl: real) {
    && (forall i :: 0 <= i < |log| ==> log[i].at <= now)
    && Ordered(log) && Spaced(log, ttl) && NothingEmptyStored(log)
    && (forall i :: 0 <= i < |log| ==> Honest(log, i, ttl))
  }

  ghost predicate Inv(w: World, ttl: real) {
    && OneFetcher(w) && FetchIsLate(w, ttl)
    && LogOk(w.log, w.now, ttl) && w.cache == CacheAfter(w.log, ttl)
  }

  /** The cache is empty until the first store, and then holds the last one. */
  lemma {:induction false} CacheIsLastStore(log: seq<Event>, ttl: real)
    ensures || (CacheAfter(log, ttl) == EMPTY_CACHE && forall i :: 0 <= i < |log| ==> !log[i].Stored?)
            || (exists k :: LastStore(log, |log|, k) && CacheAfter(log, ttl) == Refreshed(log[k].keys, log[k].at, ttl))
  {
    if log != [] {
      var n := |log| - 1;
      if log[n].Stored? {
        assert LastStore(log, |log|, n);
      } else {
        CacheIsLastStore(log[..n], ttl);
        if k :| LastStore(log[..n], n, k) && CacheAfter(log[..n], ttl) == Refreshed(log[k].keys, log[k].at, ttl) {
          assert LastStore(log, |log|, k);
        }
      }
    }
  }

  lemma CacheAfterOne(log: seq<Event>, e: Event, ttl: real)
    ensures CacheAfter(log + [e], ttl) == if e.Stored? then Refreshed(e.keys, e.at, ttl) else CacheAfter(log, ttl)
  {
    assert (log + [e])[..|log|] == log;
  }

  /** An entry does not change what was true of the earlier ones. */
  lemma HonestKept(log: seq<Event>, e: Event, ttl: real, i: nat)
    requires i < |log| && Honest(log, i, ttl)
    ensures Honest(log + [e], i, ttl)
  {
    if log[i].Returned? && !log[i].fetched {
      var k :| LastStore(log, i, k) && log[k].keys == log[i].keys && log[i].at < log[k].at + ttl;
      assert LastStore(log + [e], i, k);
    }
  }

  /** Serving from a usable cache gives the last store's keys within their lifetime. */
  lemma ServedIsHonest(w: World, ttl: real)
    requires Inv(w, ttl) && Usable(w.cache, w.now)
    ensures Honest(w.log + [Returned(w.now, w.cache.keys, false)], |w.log|, ttl)
  {
    CacheIsLastStore(w.log, ttl);
    var k :| LastStore(w.log, |w.log|, k) && w.cache == Refreshed(w.log[k].keys, w.log[k].at, ttl);
    assert LastStore(w.log + [Returned(w.now, w.cache.keys, false)], |w.log|, k);
  }

  /** A fetch that begins does so a lifetime after every store. */
  lemma FetchBeginsLate(w: World, ttl: real, i: nat)
    requires Inv(w, ttl) && ttl > 0.0 && !Usable(w.cache, w.now)
    requires i < |w.log| && w.log[i].Stored?
    ensures w.log[i].at + ttl <= w.now
  {
    CacheIsLastStore(w.log, ttl);
    var k :| LastStore(w.log, |w.log|, k) && w.cache == Refreshed(w.log[k].keys, w.log[k].at, ttl);
    assert i <= k;
  }

  /** An entry made now keeps what is said of the log alone. */
  lemma LogGrows(log: seq<Event>, now: real, ttl: real, e: Event)
    requires LogOk(log, now, ttl) && e.at == now
    requires e.Started? || e.Stored? ==> forall i :: 0 <= i < |log| && log[i].Stored? ==> log[i].at + ttl <= now
    requires e.Stored? ==> e.keys != map[]
    requires Honest(log + [e], |log|, ttl)
    ensures LogOk(log + [e], now, ttl)
  {
    forall i | 0 <= i < |log + [e]| ensures Honest(log + [e], i, ttl) {
      if i < |log| { HonestKept(log, e, ttl, i); }
    }
  }

  lemma ServedKeepsInv(w: World, ttl: real, task: Id)
    requires Inv(w, ttl) && !PhaseOf(w, task).Fetching? && Usable(w.cache, w.now)
    ensures Inv(Served(w, task), ttl)
  {
    var e := Returned(w.now, w.cache.keys, false);
    ServedIsHonest(w, ttl);
    LogGrows(w.log, w.now, ttl, e);
    CacheAfterOne(w.log, e, ttl);
    PhasesMoved(w, Served(w, task), task, Idle);
  }

  lemma AbandonedKeepsInv(w: World, ttl: real, task: Id)
    requires Inv(w, ttl)
    ensures Inv(Abandoned(w, task), ttl)
  {
    LogGrows(w.log, w.now, ttl, Raised(w.now));
    CacheAfterOne(w.log, Raised(w.now), ttl);
    PhasesMoved(w, Abandoned(w, task), task, Idle);
  }

  lemma PhasesMoved(w: World, after: World, task: Id, p: Phase)
    requires after.phases == w.phases[task := p]
    ensures forall t :: PhaseOf(after, t) == if t == task then p else PhaseOf(w, t)
  {
  }

  lemma GetKeepsInv(w: World, ttl: real, task: Id)
    requires Inv(w, ttl)
    ensures Inv(Step(w, ttl, Get(task)), ttl)
  {
    if PhaseOf(w, task).Idle? {
      if Usable(w.cache, w.now) {
        ServedKeepsInv(w, ttl, task);
      } else {
        PhasesMoved(w, Moved(w, task, Waiting), task, Waiting);
      }
    }
  }

  lemma BeginKeepsInv(w: World, after: World, ttl: real, task: Id)
    requires Inv(w, ttl) && ttl > 0.0 && w.lock.None? && !Usable(w.cache, w.now)
    requires after == World(w.now, w.cache, Some(task), w.phases[task := Fetching(w.now)], w.log + [Started(w.now)])
    ensures Inv(after, ttl)
  {
    forall i | 0 <= i < |w.log| && w.log[i].Stored? ensures w.log[i].at + ttl <= w.now {
      FetchBeginsLate(w, ttl, i);
    }
    LogGrows(w.log, w.now, ttl, Started(w.now));
    CacheAfterOne(w.log, Started(w.now), ttl);
    PhasesMoved(w, after, task, Fetching(w.now));
  }

  lemma AcquireKeepsInv(w: World, ttl: real, task: Id)
    requires Inv(w, ttl) && ttl > 0.0
    ensures Inv(Step(w, ttl, Acquire(task)), ttl)
  {
    if PhaseOf(w, task).Waiting? && w.lock.None? {
      if Usable(w.cache, w.now) {
        ServedKeepsInv(w, ttl, task);
      } else {
        BeginKeepsInv(w, Step(w, ttl, Acquire(task)), ttl, task);
      }
    }
  }

  lemma ArriveKeepsInv(w: World, ttl: real, task: Id, keys: Keys)
    requires Inv(w, ttl) && ttl > 0.0
    ensures Inv(Step(w, ttl, Arrive(task, keys)), ttl)
  {
    if PhaseOf(w, task).Fetching? {
      if keys == map[] {
        AbandonedKeepsInv(w, ttl, task);
      } else {
        var stored, returned := Stored(w.now, keys), Returned(w.now, keys, true);
        LogGrows(w.log, w.now, ttl, stored);
        CacheAfterOne(w.log, stored, ttl);
        LogGrows(w.log + [stored], w.now, ttl, returned);
        CacheAfterOne(w.log + [stored], returned, ttl);
        PhasesMoved(w, Step(w, ttl, Arrive(task, keys)), task, Idle);
      }
    }
  }

  lemma {:induction false} RunKeepsInv(start: real, ttl: real, labels: seq<Label>)
    requires ttl > 0.0
    ensures Inv(Run(start, ttl, labels), ttl)
  {
    if labels != [] {
      var w, l := Run(start, ttl, labels[..|labels| - 1]), labels[|labels| - 1];
      RunKeepsInv(start, ttl, labels[..|labels| - 1]);
      match l
      case Tick(_) =>
      case Get(task) => GetKeepsInv(w, ttl, task);
      case Acquire(task) => AcquireKeepsInv(w, ttl, task);
      case Arrive(task, keys) => ArriveKeepsInv(w, ttl, task, keys);
      case Fail(task) => AbandonedKeepsInv(w, ttl, task);
      case Cancel(task) => AbandonedKeepsInv(w, ttl, task);
    }
  }

  // ---- main results, over every interleaving ----

  /** At most one fetch is in flight, and the lock is held exactly while one is: a fetch
      that fails, comes back empty or is cancelled leaves it free. */
  lemma OneFetchInFlight(start: real, ttl: real, labels: seq<Label>, t: Id, u: Id)
    requires ttl > 0.0
    ensures var w := Run(start, ttl, labels);
      && (PhaseOf(w, t).Fetching? && PhaseOf(w, u).Fetching? ==> t == u)
      && (PhaseOf(w, t).Fetching? <==> w.lock == Some(t))
  {
    RunKeepsInv(start, ttl, labels);
  }

  /** No fetch begins, and none succeeds, within the lifetime of an earlier success. */
  lemma QuietAfterStore(start: real, ttl: real, labels: seq<Label>, i: nat, j: nat)
    requires ttl > 0.0 && i < j < |Run(start, ttl, labels).log|
    requires Run(start, ttl, labels).log[i].Stored?
    requires Run(start, ttl, labels).log[j].Started? || Run(start, ttl, labels).log[j].Stored?
    ensures Run(start, ttl, labels).log[j].at >= Run(start, ttl, labels).log[i].at + ttl
  {
    RunKeepsInv(start, ttl, labels);
  }

  /** Every key set a caller is given is non-empty, and either its own fetch stored it at
      that moment or it is the last one stored and younger than its lifetime. */
  lemma ReturnsAreFresh(start: real, ttl: real, labels: seq<Label>, i: nat)
    requires ttl > 0.0 && i < |Run(start, ttl, labels).log|
    ensures Honest(Run(start, ttl, labels).log, i, ttl)
  {
    RunKeepsInv(start, ttl, labels);
  }

  /** Failed, empty and cancelled fetches leave no trace: the cache is always what the last
      successful store made it, or still empty. */
  lemma CacheOutlivesFailures(start: real, ttl: real, labels: seq<Label>)
    requires ttl > 0.0
    ensures var w := Run(start, ttl, labels);
      || (w.cache == EMPTY_CACHE && forall i :: 0 <= i < |w.log| ==> !w.log[i].Stored?)
      || (exists k :: LastStore(w.log, |w.log|, k) && w.cache == Refreshed(w.log[k].keys, w.log[k].at, ttl))
  {
    RunKeepsInv(start, ttl, labels);
    CacheIsLastStore(Run(start, ttl, labels).log, ttl);
  }

  // ---- how often the key server is asked ----

  predicate StoredIn(e: Event, lo: real, hi: real) {
    e.Stored? && lo <= e.at <= hi
  }

  /** Successful fetches in a window of time. */
  function StoresIn(log: seq<Event>, lo: real, hi: real): nat {
    if log == [] then 0
    else StoresIn(log[..|log| - 1], lo, hi) + if StoredIn(log[|log| - 1], lo, hi) then 1 else 0
  }

  /** `n` lifetimes. */
  function Lifetimes(n: nat, ttl: real): real {
    if n == 0 then 0.0 else Lifetimes(n - 1, ttl) + ttl
  }

  lemma {:induction false} StoresFillTheWindow(log: seq<Event>, lo: real, hi: real, ttl: real)
    requires Spaced(log, ttl) && StoresIn(log, lo, hi) > 0
    ensures exists k ::
      && 0 <= k < |log| && StoredIn(log[k], lo, hi)
      && lo + Lifetimes(StoresIn(log, lo, hi) - 1, ttl) <= log[k].at
  {
    var n := |log| - 1;
    var front := log[..n];
    var earlier := StoresIn(front, lo, hi);
    if earlier == 0 {
      assert StoredIn(log[n], lo, hi);
    } else {
      StoresFillTheWindow(front, lo, hi, ttl);
      var k :| 0 <= k < |front| && StoredIn(front[k], lo, hi) && lo + Lifetimes(earlier - 1, ttl) <= front[k].at;
      assert front[k] == log[k];
      if StoredIn(log[n], lo, hi) {
        assert log[n].at >= log[k].at + ttl;
      }
    }
  }

  lemma StoresLeaveRoom(log: seq<Event>, lo: real, hi: real, ttl: real)
    requires Spaced(log, ttl) && lo <= hi
    ensures Lifetimes(if StoresIn(log, lo, hi) > 0 then StoresIn(log, lo, hi) - 1 else 0, ttl) <= hi - lo
  {
    if StoresIn(log, lo, hi) > 0 {
      StoresFillTheWindow(log, lo, hi, ttl);
    }
  }

  /** A window of length `hi - lo` holds at most one successful fetch more than the whole
      lifetimes that fit in it. */
  lemma {:induction false} FetchRate(start: real, ttl: real, labels: seq<Label>, lo: real, hi: real)
    requires ttl > 0.0 && lo <= hi
    ensures StoresIn(Run(start, ttl, labels).log, lo, hi) <= ((hi - lo) / ttl).Floor + 1
  {
    var log := Run(start, ttl, labels).log;
    RunKeepsInv(start, ttl, labels);
    StoresLeaveRoom(log, lo, hi, ttl);
    WholeLifetimes(if StoresIn(log, lo, hi) > 0 then StoresIn(log, lo, hi) - 1 else 0, hi - lo, ttl);
  }

  lemma {:induction false} WholeLifetimes(n: nat, length: real, ttl: real)
    requires ttl > 0.0 && Lifetimes(n, ttl) <= length
    ensures n <= (length / ttl).Floor
  {
    LifetimesIsProduct(n, ttl);
    var q := length / ttl;
    assert q * ttl == length;
    FactorBound(n as real, q, ttl, Lifetimes(n, ttl), length);
    FloorBound(n, q);
  }

  lemma FactorBound(x: real, q: real, ttl: real, xt: real, qt: real)
    requires ttl > 0.0 && xt == x * ttl && qt == q * ttl && xt <= qt
    ensures x <= q
  {
    assert (x - q) * ttl == xt - qt;
    if x > q { Decimal.PositiveProduct(x - q, ttl); }
  }

  lemma FloorBound(n: int, q: real)
    requires n as real <= q
    ensures n <= q.Floor
  {
  }

  lemma {:induction false} LifetimesIsProduct(n: nat, ttl: real)
    ensures Lifetimes(n, ttl) == n as real * ttl
  {
    if n > 0 {
      LifetimesIsProduct(n - 1, ttl);
      var m := (n - 1) as real;
      assert n as real == m + 1.0;
      assert (m + 1.0) * ttl == m * ttl + ttl;
    }
  }

  // ---- the object itself ----

  datatype FetchError = Unreachable | BadShape | NoUsableKeys

  /** What the locked half of `get` does: its outcome, and the cache it leaves. */
  function Outcome(c: Cache, checked: real, stored: real, fetched: Result<Keys, FetchError>, ttl: real)
    : (Result<Keys, FetchError>, Cache)
  {
    if Usable(c, checked) then (Success(c.keys), c)
    else
      match fetched
      case Failure(error) => (Failure(error), c)
      case Success(keys) =>
        if keys == map[] then (Failure(NoUsableKeys), c) else (Success(keys), Refreshed(keys, stored, ttl))
  }

  /** What the unlocked check hands out. */
  function CachedKeys(c: Cache, now: real): Option<Keys> {
    if Usable(c, now) then Some(c.keys) else None
  }

  /** The unlocked check is the machine's `Get`: it hands out keys where the machine does, and
      sends the caller to the lock where the machine does. */
  lemma FastPathIsStep(w: World, ttl: real, task: Id)
    requires PhaseOf(w, task).Idle?
    ensures Step(w, ttl, Get(task)) ==
      match CachedKeys(w.cache, w.now)
      case Some(keys) => Noted(Moved(w, task, Idle), Returned(w.now, keys, false))
      case None => Moved(w, task, Waiting)
  {
  }

  /** In every interleaving the unlocked check hands out the last stored keys, never empty,
      exactly while they are younger than a lifetime, whatever fetches failed since. */
  lemma {:induction false} FastPathServesLastStore(start: real, ttl: real, labels: seq<Label>)
    requires ttl > 0.0
    ensures var w := Run(start, ttl, labels);
      match CachedKeys(w.cache, w.now)
      case Some(keys) =>
        keys != map[] && exists k :: LastStore(w.log, |w.log|, k) && keys == w.log[k].keys && w.now < w.log[k].at + ttl
      case None => forall k :: LastStore(w.log, |w.log|, k) ==> w.log[k].at + ttl <= w.now
  {
    var w := Run(start, ttl, labels);
    RunKeepsInv(start, ttl, labels);
    CacheIsLastStore(w.log, ttl);
    forall j, k | LastStore(w.log, |w.log|, j) && LastStore(w.log, |w.log|, k) ensures j == k {
      assert !(j < k) && !(k < j);
    }
  }

  /** The locked half, run to its end, is the machine's steps from taking the lock on: it
      leaves that cache, a free lock and that answer. */
  lemma LockedHalfIsSteps(w: World, ttl: real, task: Id, passed: real, fetched: Result<Keys, FetchError>)
    requires PhaseOf(w, task).Waiting? && w.lock.None? && passed >= 0.0
    ensures
      var arrived := if fetched.Success? then Arrive(task, fetched.value) else Fail(task);
      var end := Step(Step(Step(w, ttl, Acquire(task)), ttl, Tick(passed)), ttl, arrived);
      var (answer, cache) := Outcome(w.cache, w.now, w.now + passed, fetched, ttl);
      && end.cache == cache && end.lock.None? && PhaseOf(end, task).Idle? && |end.log| > 0
      && (if answer.Success? then end.log[|end.log| - 1].Returned? && end.log[|end.log| - 1].keys == answer.value
          else end.log[|end.log| - 1].Raised?)
  {
  }

  /** A caller that is cancelled leaves at once: no longer waiting or fetching, the lock free
      if it was the one fetching, and the cache as it was. */
  lemma CancelledLeaves(w: World, ttl: real, task: Id)
    requires !PhaseOf(w, task).Idle?
    ensures var after := Step(w, ttl, Cancel(task));
      && PhaseOf(after, task).Idle? && after.cache == w.cache && after.now == w.now
      && after.lock == (if PhaseOf(w, task).Fetching? then None else w.lock)
      && after.log == w.log + [Raised(w.now)]
      && forall other :: other != task ==> PhaseOf(after, other) == PhaseOf(w, other)
  {
  }

  class JwksCache {
    const ttl: real
    var keys: Keys
    var expiresAt: real
    var locked: bool

    constructor (ttl: real)
      ensures View() == EMPTY_CACHE && !locked && this.ttl == ttl
    {
      this.ttl := ttl;
      keys, expiresAt, locked := map[], 0.0, false;
    }

    function View(): Cache
      reads this
    {
      Cache(keys, expiresAt)
    }

    /** The unlocked check, which `FastPathIsStep` and `FastPathServesLastStore` are about. */
    method FastPath(now: real) returns (r: Option<Keys>)
      ensures r == CachedKeys(View(), now)
    {
      if now < expiresAt && keys != map[] {
        return Some(keys);
      }
      r := None;
    }

    /** The rest of `get`, holding the lock: check again, as another caller may have stored
        keys meanwhile, then fetch and store.  Whatever happens, the lock is let go. */
    method RefreshLocked(checked: real, stored: real, fetched: Result<Keys, FetchError>)
      returns (r: Result<Keys, FetchError>)
      requires locked
      modifies this
      ensures !locked
      ensures (r, View()) == Outcome(old(View()), checked, stored, fetched, ttl)
      ensures r.Success? ==> r.value != map[] && r.value == keys
      ensures r.Failure? ==> View() == old(View())
    {
      if checked < expiresAt && keys != map[] {
        locked := false;
        return Success(keys);
      }
      if fetched.Failure? {
        locked := false;
        return fetched;
      }
      if fetched.value == map[] {
        locked := false;
        return Failure(NoUsableKeys);
      }
      keys := fetched.value;
      expiresAt := stored + ttl;
      locked := false;
      r := Success(keys);
    }
  }

  // ---- the document a fetch reads ----

  /** A key the cache can file: an object with a text `kid`. */
  predicate Filable(raw: Value) {
    raw.Dict? && "kid" in raw.fields && raw.fields["kid"].Text?
  }

  predicate HasKid(raw: Value, kid: string) {
    raw.Dict? && "kid" in raw.fields && raw.fields["kid"] == Text(kid)
  }

  /** Entry `i` is the last one filed under `kid`. */
  predicate LastUnder(entries: seq<Value>, kid: string, i: int) {
    0 <= i < |entries| && HasKid(entries[i], kid) && forall j :: i < j < |entries| ==> !HasKid(entries[j], kid)
  }

  ghost predicate Filed(entries: seq<Value>, kid: string) {
    exists i :: LastUnder(entries, kid, i)
  }

  predicate WellShaped(payload: Value) {
    payload.Dict? && "keys" in payload.fields && payload.fields["keys"].List?
  }

  /** `_fetch` on a parsed document: exactly the usable entries, each under its `kid`, the
      last of several with the same one. */
  method Fetch(payload: Value) returns (r: Result<Keys, FetchError>)
    ensures r.Success? <==> payload.Dict? && "keys" in payload.fields && payload.fields["keys"].List?
    ensures r.Failure? ==> r.error == BadShape
    ensures r.Success? ==> forall kid :: kid in r.value <==> Filed(payload.fields["keys"].items, kid)
    ensures r.Success? ==> forall kid, i :: LastUnder(payload.fields["keys"].items, kid, i) ==>
      kid in r.value && r.value[kid] == payload.fields["keys"].items[i]
  {
    if !WellShaped(payload) {
      return Failure(BadShape);
    }
    var entries := payload.fields["keys"].items;
    var result: Keys := map[];
    assert entries[..|entries|] == entries;
    for n := 0 to |entries|
      invariant forall kid :: kid in result <==> Filed(entries[..n], kid)
      invariant forall kid, i :: LastUnder(entries[..n], kid, i) ==> kid in result && result[kid] == entries[i]
    {
      ghost var before := result;
      if Filable(entries[n]) {
        result := result[entries[n].fields["kid"].s := entries[n]];
      }
      forall kid
        ensures kid in result <==> Filed(entries[..n + 1], kid)
        ensures forall i :: LastUnder(entries[..n + 1], kid, i) ==> kid in result && result[kid] == entries[i]
      {
        LastUnderGrows(entries, n, kid);
        assert HasKid(entries[n], kid) <==> Filable(entries[n]) && kid == entries[n].fields["kid"].s;
        assert kid in before <==> Filed(entries[..n], kid);
      }
    }
    r := Success(result);
  }

  lemma LastUnderGrows(entries: seq<Value>, n: nat, kid: string)
    requires n < |entries|
    ensures forall i :: LastUnder(entries[..n + 1], kid, i) <==>
      if HasKid(entries[n], kid) then i == n else LastUnder(entries[..n], kid, i)
    ensures Filed(entries[..n + 1], kid) <==> HasKid(entries[n], kid) || Filed(entries[..n], kid)
  {
    var more, front := entries[..n + 1], entries[..n];
    forall i ensures LastUnder(more, kid, i) <==> if HasKid(entries[n], kid) then i == n else LastUnder(front, kid, i) {
      assert more[n] == entries[n];
      assert forall j :: 0 <= j < n ==> more[j] == front[j];
    }
    if HasKid(entries[n], kid) {
      assert LastUnder(more, kid, n);
    } else if i :| LastUnder(front, kid, i) {
      assert LastUnder(more, kid, i);
    }
  }
}
