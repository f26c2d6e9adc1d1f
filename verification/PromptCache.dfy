/** The prompt cache (application/services/prompt_config.py).  A lookup that misses reads the
    repository across an `await`, so lookups, invalidations, clock advances and publications
    interleave freely.  What a version says never changes; which version is the latest does. */
module PromptCache {
  import opened Common

  datatype Snapshot = Snapshot(key: string, version: nat, content: string, contentHash: string)

  datatype Stamp = Stamp(at: Time, version: nat)

  datatype Cache = Cache(entries: map<(string, nat), Snapshot>, latest: map<string, Stamp>)

  const EMPTY := Cache(map[], map[])

  /** What a lookup finds: nothing fresh, an entry, or a latest pointer without its entry. */
  datatype Probe = Stale | Hit(snapshot: Snapshot) | Dangling

  function Look(c: Cache, key: string, now: Time, ttl: Time): Probe {
    if key !in c.latest || now - c.latest[key].at > ttl then Stale
    else if (key, c.latest[key].version) !in c.entries then Dangling
    else Hit(c.entries[(key, c.latest[key].version)])
  }

  /** The entry already there wins over the record just read. */
  function Chosen(c: Cache, record: Snapshot): Snapshot {
    if (record.key, record.version) in c.entries then c.entries[(record.key, record.version)] else record
  }

  function Stored(c: Cache, key: string, now: Time, record: Snapshot): Cache {
    Cache(c.entries[(record.key, record.version) := Chosen(c, record)], c.latest[key := Stamp(now, record.version)])
  }

  function Invalidated(c: Cache, key: Option<string>): Cache {
    if key.None? then EMPTY
    else Cache(map e | e in c.entries && e.0 != key.value :: c.entries[e], c.latest - {key.value})
  }

  /** After an invalidation no lookup finds the key, or any key if none was named; the others are found
      as before. */
  lemma InvalidatedForgets(c: Cache, key: Option<string>, ttl: Time)
    ensures forall k, t :: Look(Invalidated(c, key), k, t, ttl)
                           == if key.None? || key == Some(k) then Stale else Look(c, k, t, ttl)
  {
    forall k, t
      ensures Look(Invalidated(c, key), k, t, ttl)
           == if key.None? || key == Some(k) then Stale else Look(c, k, t, ttl)
    {
      if key.Some? && key.value != k {
        assert k in Invalidated(c, key).latest <==> k in c.latest;
      }
    }
  }

  class PromptConfigService {
    var entries: map<(string, nat), Snapshot>
    var latest: map<string, Stamp>
    const ttl: Time
    ghost const catalog: (string, nat) -> Text

    function Value(): Cache reads this {
      Cache(entries, latest)
    }

    ghost function Cfg(): Config {
      Config(ttl, catalog)
    }

    /** Every entry holds the text of its version, and every stamp has its entry. */
    ghost predicate Valid() reads this {
      Faithful(Cfg(), Value())
    }

    constructor (ttl: Time, ghost catalog: (string, nat) -> Text)
      ensures Valid() && Value() == EMPTY && this.ttl == ttl && this.catalog == catalog
    {
      this.entries, this.latest, this.ttl, this.catalog := map[], map[], ttl, catalog;
    }

    /** `get_snapshot` up to its `await`: whoever finds a stamp no older than `ttl` gets the text of
        the version it names, and the entry is always there. */
    method Get(key: string, now: Time) returns (r: Option<Snapshot>)
      requires Valid()
      ensures r.Some? ==> key in latest && latest[key].at >= now - ttl
      ensures r.Some? ==> r.value == Record(Cfg(), key, latest[key].version)
      ensures r.None? ==> key in latest ==> latest[key].at < now - ttl
      ensures Look(Value(), key, now, ttl) == if r.Some? then Hit(r.value) else Stale
    {
      if key in latest && now - latest[key].at <= ttl {
        return Some(entries[(key, latest[key].version)]);
      }
      return None;
    }

    /** `get_snapshot` after its `await`, with the record the repository answered. */
    method Store(key: string, now: Time, record: Snapshot) returns (r: Snapshot)
      requires Valid() && record == Record(Cfg(), key, record.version)
      modifies this
      ensures Valid() && Value() == Stored(old(Value()), key, now, record)
      ensures r == record == Chosen(old(Value()), record)
      ensures latest == old(latest)[key := Stamp(now, record.version)]
      ensures forall t :: Look(Value(), key, t, ttl) == if t - now <= ttl then Hit(record) else Stale
      ensures forall k, t :: k != key ==> Look(Value(), k, t, ttl) == Look(old(Value()), k, t, ttl)
    {
      if (record.key, record.version) in entries {
        r := entries[(record.key, record.version)];
      } else {
        r := record;
        entries := entries[(record.key, record.version) := r];
      }
      latest := latest[key := Stamp(now, record.version)];
    }

    method Invalidate(key: Option<string>)
      requires Valid()
      modifies this
      ensures Valid() && Value() == Invalidated(old(Value()), key)
      ensures forall k, t :: Look(Value(), k, t, ttl)
                             == if key.None? || key == Some(k) then Stale else Look(old(Value()), k, t, ttl)
    {
      InvalidatedForgets(Value(), key, ttl);
      if key.None? {
        entries, latest := map[], map[];
      } else {
        latest := latest - {key.value};
        var doomed := set e | e in entries && e.0 == key.value;
        while doomed != {}
          invariant forall e <- doomed :: e in old(entries) && e.0 == key.value
          invariant forall e :: e in entries <==> e in old(entries) && (e.0 != key.value || e in doomed)
          invariant forall e <- entries :: entries[e] == old(entries)[e]
          invariant latest == old(latest) - {key.value}
          decreases |doomed|
        {
          var e :| e in doomed;
          doomed := doomed - {e};
          entries := entries - {e};
        }
        assert entries == Invalidated(old(Value()), key).entries;
      }
    }
  }

  // ------------------------------------------------------- interleaved lookups

  /** What each version of each key says. */
  datatype Text = Text(content: string, contentHash: string)

  datatype Config = Config(ttl: Time, catalog: (string, nat) -> Text)

  function Record(cfg: Config, key: string, version: nat): Snapshot {
    Snapshot(key, version, cfg.catalog(key, version).content, cfg.catalog(key, version).contentHash)
  }

  datatype Phase = Waiting | Holding(version: nat) | Returned(snapshot: Snapshot) | NotFound | KeyMissing

  datatype Call = Call(key: string, startedAt: Time, phase: Phase)

  /** `enabled` is the version `latest_enabled` finds for each key right now. */
  datatype State = State(clock: Time, enabled: map<string, nat>, cache: Cache, calls: seq<Call>)

  datatype Step =
    | Tick(elapsed: Time)
    | Enable(key: string, version: nat)
    | Disable(key: string)
    | Begin(key: string)
    | Read(call: nat)
    | Finish(call: nat)
    | Drop(target: Option<string>)

  function FirstPhase(cfg: Config, s: State, key: string): Phase {
    match Look(s.cache, key, s.clock, cfg.ttl)
    case Stale => Waiting
    case Hit(snapshot) => Returned(snapshot)
    case Dangling => KeyMissing
  }

  function Apply(cfg: Config, s: State, step: Step): State {
    match step
    case Tick(d) => if d < 0.0 then s else s.(clock := s.clock + d)
    case Enable(key, version) => s.(enabled := s.enabled[key := version])
    case Disable(key) => s.(enabled := s.enabled - {key})
    case Begin(key) => s.(calls := s.calls + [Call(key, s.clock, FirstPhase(cfg, s, key))])
    case Read(c) =>
      if c < |s.calls| && s.calls[c].phase.Waiting?
      then s.(calls := s.calls[c := s.calls[c].(
                phase := if s.calls[c].key in s.enabled then Holding(s.enabled[s.calls[c].key]) else NotFound)])
      else s
    case Finish(c) =>
      if c < |s.calls| && s.calls[c].phase.Holding?
      then
        var call := s.calls[c];
        var record := Record(cfg, call.key, call.phase.version);
        s.(cache := Stored(s.cache, call.key, call.startedAt, record),
           calls := s.calls[c := call.(phase := Returned(Chosen(s.cache, record)))])
      else s
    case Drop(key) => s.(cache := Invalidated(s.cache, key))
  }

  const START := State(0.0, map[], EMPTY, [])

  function Exec(cfg: Config, steps: seq<Step>): State {
    if steps == [] then START else Apply(cfg, Exec(cfg, Front(steps)), Last(steps))
  }

  /** At some moment of the run, not before `since`, the repository would have answered `version`. */
  ghost predicate Held(cfg: Config, steps: seq<Step>, key: string, version: nat, since: Time) {
    exists i :: 0 <= i <= |steps| && HeldAt(cfg, steps, i, key, version, since)
  }

  predicate HeldAt(cfg: Config, steps: seq<Step>, i: nat, key: string, version: nat, since: Time)
    requires i <= |steps|
  {
    var s := Exec(cfg, steps[..i]);
    s.clock >= since && key in s.enabled && s.enabled[key] == version
  }

  lemma HeldStays(cfg: Config, steps: seq<Step>, key: string, version: nat, since: Time)
    requires steps != [] && Held(cfg, Front(steps), key, version, since)
    ensures Held(cfg, steps, key, version, since)
  {
    var i :| 0 <= i <= |Front(steps)| && HeldAt(cfg, Front(steps), i, key, version, since);
    assert Front(steps)[..i] == steps[..i];
    assert HeldAt(cfg, steps, i, key, version, since);
  }

  predicate Faithful(cfg: Config, c: Cache) {
    && (forall e <- c.entries :: c.entries[e] == Record(cfg, e.0, e.1))
    && (forall k <- c.latest :: (k, c.latest[k].version) in c.entries)
  }

  ghost predicate CallOk(cfg: Config, steps: seq<Step>, call: Call) {
    match call.phase
    case Waiting => call.startedAt <= Exec(cfg, steps).clock
    case Holding(v) => Held(cfg, steps, call.key, v, call.startedAt)
    case Returned(s) =>
      s == Record(cfg, call.key, s.version) && Held(cfg, steps, call.key, s.version, call.startedAt - cfg.ttl)
    case NotFound => true
    case KeyMissing => false
  }

  ghost predicate Inv(cfg: Config, steps: seq<Step>) {
    var s := Exec(cfg, steps);
    && Faithful(cfg, s.cache)
    && (forall k <- s.cache.latest :: Held(cfg, steps, k, s.cache.latest[k].version, s.cache.latest[k].at))
    && (forall c :: 0 <= c < |s.calls| ==> CallOk(cfg, steps, s.calls[c]))
  }

  lemma CallStays(cfg: Config, steps: seq<Step>, call: Call)
    requires steps != [] && CallOk(cfg, Front(steps), call)
    ensures CallOk(cfg, steps, call)
  {
    match call.phase
    case Holding(v) => HeldStays(cfg, steps, call.key, v, call.startedAt);
    case Returned(s) => HeldStays(cfg, steps, call.key, s.version, call.startedAt - cfg.ttl);
    case Waiting =>
    case NotFound =>
  }

  lemma HeldSooner(cfg: Config, steps: seq<Step>, key: string, version: nat, since: Time, earlier: Time)
    requires Held(cfg, steps, key, version, since) && earlier <= since
    ensures Held(cfg, steps, key, version, earlier)
  {
    var i :| 0 <= i <= |steps| && HeldAt(cfg, steps, i, key, version, since);
    assert HeldAt(cfg, steps, i, key, version, earlier);
  }

  /** The call a step touches, if it touches one. */
  function Touched(s: State, step: Step): nat {
    match step
    case Begin(_) => |s.calls|
    case Read(c) => c
    case Finish(c) => c
    case Tick(_) => |s.calls|
    case Enable(_, _) => |s.calls|
    case Disable(_) => |s.calls|
    case Drop(_) => |s.calls|
  }

  lemma LookIsFaithful(cfg: Config, c: Cache, key: string, now: Time)
    requires Faithful(cfg, c)
    ensures var probe := Look(c, key, now, cfg.ttl);
            && !probe.Dangling?
            && (probe.Hit? ==> key in c.latest && c.latest[key].at >= now - cfg.ttl
                               && probe.snapshot == Record(cfg, key, c.latest[key].version))
  {
  }

  lemma HitIsHeld(cfg: Config, steps: seq<Step>, key: string, earlier: Time)
    requires steps != [] && Inv(cfg, Front(steps)) && key in Exec(cfg, Front(steps)).cache.latest
    requires earlier <= Exec(cfg, Front(steps)).cache.latest[key].at
    ensures Held(cfg, steps, key, Exec(cfg, Front(steps)).cache.latest[key].version, earlier)
  {
    var stamp := Exec(cfg, Front(steps)).cache.latest[key];
    HeldStays(cfg, steps, key, stamp.version, stamp.at);
    HeldSooner(cfg, steps, key, stamp.version, stamp.at, earlier);
  }

  lemma BegunCall(cfg: Config, steps: seq<Step>, key: string)
    requires steps != [] && Last(steps) == Begin(key)
    ensures var s := Exec(cfg, Front(steps));
            Exec(cfg, steps) == s.(calls := s.calls + [Call(key, s.clock, FirstPhase(cfg, s, key))])
  {
  }

  lemma BeginKeeps(cfg: Config, steps: seq<Step>, key: string)
    requires steps != [] && Last(steps) == Begin(key) && Inv(cfg, Front(steps))
    ensures CallOk(cfg, steps, Last(Exec(cfg, steps).calls))
  {
    var s := Exec(cfg, Front(steps));
    BegunCall(cfg, steps, key);
    LookIsFaithful(cfg, s.cache, key, s.clock);
    if Look(s.cache, key, s.clock, cfg.ttl).Hit? {
      HitIsHeld(cfg, steps, key, s.clock - cfg.ttl);
    }
  }

  lemma ReadKeeps(cfg: Config, steps: seq<Step>, c: nat)
    requires steps != [] && Last(steps) == Read(c) && Inv(cfg, Front(steps)) && c < |Exec(cfg, Front(steps)).calls|
    ensures CallOk(cfg, steps, Exec(cfg, steps).calls[c])
  {
    var s := Exec(cfg, Front(steps));
    CallStays(cfg, steps, s.calls[c]);
    if s.calls[c].phase.Waiting? && s.calls[c].key in s.enabled {
      var i := |steps| - 1;
      assert steps[..i] == Front(steps);
      assert HeldAt(cfg, steps, i, s.calls[c].key, s.enabled[s.calls[c].key], s.calls[c].startedAt);
    }
  }

  lemma FinishKeeps(cfg: Config, steps: seq<Step>, c: nat)
    requires cfg.ttl >= 0.0 && steps != [] && Last(steps) == Finish(c) && Inv(cfg, Front(steps))
    requires c < |Exec(cfg, Front(steps)).calls|
    ensures CallOk(cfg, steps, Exec(cfg, steps).calls[c])
  {
    var call := Exec(cfg, Front(steps)).calls[c];
    CallStays(cfg, steps, call);
    if call.phase.Holding? {
      HeldSooner(cfg, steps, call.key, call.phase.version, call.startedAt, call.startedAt - cfg.ttl);
    }
  }

  lemma CallsKept(cfg: Config, steps: seq<Step>)
    requires cfg.ttl >= 0.0 && steps != [] && Inv(cfg, Front(steps))
    ensures forall c :: 0 <= c < |Exec(cfg, steps).calls| ==> CallOk(cfg, steps, Exec(cfg, steps).calls[c])
  {
    var s, s' := Exec(cfg, Front(steps)), Exec(cfg, steps);
    var step := Last(steps);
    forall c | 0 <= c < |s'.calls| ensures CallOk(cfg, steps, s'.calls[c]) {
      if c == Touched(s, step) {
        match step
        case Begin(key) => BeginKeeps(cfg, steps, key);
        case Read(_) => ReadKeeps(cfg, steps, c);
        case Finish(_) => FinishKeeps(cfg, steps, c);
        case Tick(_) =>
        case Enable(_, _) =>
        case Disable(_) =>
        case Drop(_) =>
      } else {
        assert s'.calls[c] == s.calls[c];
        CallStays(cfg, steps, s.calls[c]);
      }
    }
  }

  lemma StoredIsFaithful(cfg: Config, c: Cache, key: string, now: Time, version: nat)
    requires Faithful(cfg, c)
    ensures Faithful(cfg, Stored(c, key, now, Record(cfg, key, version)))
  {
  }

  lemma InvalidatedIsFaithful(cfg: Config, c: Cache, key: Option<string>)
    requires Faithful(cfg, c)
    ensures Faithful(cfg, Invalidated(c, key))
    ensures forall k <- Invalidated(c, key).latest :: k in c.latest && Invalidated(c, key).latest[k] == c.latest[k]
  {
  }

  /** What a step may do to the cache. */
  lemma CacheAfter(cfg: Config, s: State, step: Step)
    requires Faithful(cfg, s.cache)
    ensures var c := Apply(cfg, s, step).cache;
            && Faithful(cfg, c)
            && forall k <- c.latest ::
                 || (k in s.cache.latest && c.latest[k] == s.cache.latest[k])
                 || (step.Finish? && step.call < |s.calls|
                     && s.calls[step.call].phase.Holding? && s.calls[step.call].key == k
                     && c.latest[k] == Stamp(s.calls[step.call].startedAt, s.calls[step.call].phase.version))
  {
    match step
    case Finish(c) =>
      if c < |s.calls| && s.calls[c].phase.Holding? {
        StoredIsFaithful(cfg, s.cache, s.calls[c].key, s.calls[c].startedAt, s.calls[c].phase.version);
      }
    case Drop(key) => InvalidatedIsFaithful(cfg, s.cache, key);
    case Begin(_) =>
    case Read(_) =>
    case Tick(_) =>
    case Enable(_, _) =>
    case Disable(_) =>
  }

  lemma StampsKept(cfg: Config, steps: seq<Step>)
    requires steps != [] && Inv(cfg, Front(steps))
    ensures var c := Exec(cfg, steps).cache;
            Faithful(cfg, c) && forall k <- c.latest :: Held(cfg, steps, k, c.latest[k].version, c.latest[k].at)
  {
    var s := Exec(cfg, Front(steps));
    var c := Exec(cfg, steps).cache;
    CacheAfter(cfg, s, Last(steps));
    forall k | k in c.latest ensures Held(cfg, steps, k, c.latest[k].version, c.latest[k].at) {
      StampKept(cfg, steps, s, k, c.latest[k]);
    }
  }

  lemma StampKept(cfg: Config, steps: seq<Step>, s: State, k: string, stamp: Stamp)
    requires steps != [] && Inv(cfg, Front(steps)) && s == Exec(cfg, Front(steps))
    requires || (k in s.cache.latest && stamp == s.cache.latest[k])
             || (Last(steps).Finish? && Last(steps).call < |s.calls| && s.calls[Last(steps).call].phase.Holding?
                 && s.calls[Last(steps).call].key == k
                 && stamp == Stamp(s.calls[Last(steps).call].startedAt, s.calls[Last(steps).call].phase.version))
    ensures Held(cfg, steps, k, stamp.version, stamp.at)
  {
    if !(k in s.cache.latest && stamp == s.cache.latest[k]) {
      assert CallOk(cfg, Front(steps), s.calls[Last(steps).call]);
    }
    HeldStays(cfg, steps, k, stamp.version, stamp.at);
  }

  lemma {:induction false} Reachable(cfg: Config, steps: seq<Step>)
    requires cfg.ttl >= 0.0
    ensures Inv(cfg, steps)
  {
    if steps != [] {
      Reachable(cfg, Front(steps));
      StampsKept(cfg, steps);
      CallsKept(cfg, steps);
    }
  }

  /** No lookup ever finds a latest pointer whose entry is gone. */
  lemma NeverDangling(cfg: Config, steps: seq<Step>, key: string, now: Time)
    requires cfg.ttl >= 0.0
    ensures !Look(Exec(cfg, steps).cache, key, now, cfg.ttl).Dangling?
    ensures forall c :: 0 <= c < |Exec(cfg, steps).calls| ==> !Exec(cfg, steps).calls[c].phase.KeyMissing?
  {
    Reachable(cfg, steps);
    forall c | 0 <= c < |Exec(cfg, steps).calls| ensures !Exec(cfg, steps).calls[c].phase.KeyMissing? {
      assert CallOk(cfg, steps, Exec(cfg, steps).calls[c]);
    }
  }

  /** A lookup that begins right after an invalidation of its key reads the repository. */
  lemma DropForcesARead(cfg: Config, steps: seq<Step>, key: string, target: Option<string>)
    requires target.None? || target == Some(key)
    ensures var s := Exec(cfg, steps + [Drop(target)] + [Begin(key)]);
            s.calls != [] && Last(s.calls) == Call(key, s.clock, Waiting)
  {
    var dropped := steps + [Drop(target)];
    assert Front(dropped) == steps && Front(dropped + [Begin(key)]) == dropped;
    InvalidatedForgets(Exec(cfg, steps).cache, target, cfg.ttl);
  }

  /** What a lookup brought in answers later lookups of its key at once, for as long as `ttl` after that
      lookup began. */
  lemma FinishServesTheNext(cfg: Config, steps: seq<Step>, c: nat)
    requires cfg.ttl >= 0.0 && c < |Exec(cfg, steps).calls| && Exec(cfg, steps).calls[c].phase.Holding?
    requires Exec(cfg, steps).clock - Exec(cfg, steps).calls[c].startedAt <= cfg.ttl
    ensures var s, call := Exec(cfg, steps), Exec(cfg, steps).calls[c];
            var t := Exec(cfg, steps + [Finish(c)] + [Begin(call.key)]);
            t.calls != []
            && Last(t.calls) == Call(call.key, s.clock, Returned(Record(cfg, call.key, call.phase.version)))
  {
    var call, finished := Exec(cfg, steps).calls[c], steps + [Finish(c)];
    assert Front(finished) == steps && Front(finished + [Begin(call.key)]) == finished;
    Reachable(cfg, steps);
    FinishThenBegin(cfg, Exec(cfg, steps), c);
  }

  lemma FinishThenBegin(cfg: Config, s: State, c: nat)
    requires Faithful(cfg, s.cache) && c < |s.calls| && s.calls[c].phase.Holding?
    requires s.clock - s.calls[c].startedAt <= cfg.ttl
    ensures var call := s.calls[c];
            var t := Apply(cfg, Apply(cfg, s, Finish(c)), Begin(call.key));
            t.calls != []
            && Last(t.calls) == Call(call.key, s.clock, Returned(Record(cfg, call.key, call.phase.version)))
  {
    var call := s.calls[c];
    var record := Record(cfg, call.key, call.phase.version);
    assert Look(Stored(s.cache, call.key, call.startedAt, record), call.key, s.clock, cfg.ttl) == Hit(record);
  }

  /** Step `n` of the run is the one at which call `c` returned. */
  predicate Returns(cfg: Config, steps: seq<Step>, n: nat, c: nat) {
    && 0 < n <= |steps|
    && HasReturned(Exec(cfg, steps[..n]), c) && !HasReturned(Exec(cfg, steps[..n - 1]), c)
  }

  predicate HasReturned(s: State, c: nat) {
    c < |s.calls| && s.calls[c].phase.Returned?
  }

  /** Every call that has returned did so at some step, and what it returned has not changed since. */
  lemma {:induction false} ReturnStep(cfg: Config, steps: seq<Step>, c: nat) returns (n: nat)
    requires HasReturned(Exec(cfg, steps), c)
    ensures Returns(cfg, steps, n, c) && Exec(cfg, steps[..n]).calls[c] == Exec(cfg, steps).calls[c]
  {
    assert steps[..|steps|] == steps;
    assert steps != [];
    assert steps[..|steps| - 1] == Front(steps);
    if HasReturned(Exec(cfg, Front(steps)), c) {
      n := ReturnStep(cfg, Front(steps), c);
      assert Front(steps)[..n] == steps[..n] && Front(steps)[..n - 1] == steps[..n - 1];
    } else {
      n := |steps|;
    }
  }

  lemma ReturnedIsOk(cfg: Config, steps: seq<Step>, c: nat)
    requires cfg.ttl >= 0.0 && HasReturned(Exec(cfg, steps), c)
    ensures var call := Exec(cfg, steps).calls[c];
            && call.phase.snapshot == Record(cfg, call.key, call.phase.snapshot.version)
            && Held(cfg, steps, call.key, call.phase.snapshot.version, call.startedAt - cfg.ttl)
  {
    Reachable(cfg, steps);
    assert CallOk(cfg, steps, Exec(cfg, steps).calls[c]);
  }

  lemma HeldInPrefix(cfg: Config, steps: seq<Step>, n: nat, key: string, version: nat, since: Time) returns (i: nat)
    requires n <= |steps| && Held(cfg, steps[..n], key, version, since)
    ensures i <= n && HeldAt(cfg, steps, i, key, version, since)
  {
    i :| 0 <= i <= n && HeldAt(cfg, steps[..n], i, key, version, since);
    assert steps[..n][..i] == steps[..i];
  }

  /** What a lookup returned is the text of a version the repository would have answered at some
      moment at most `ttl` before the lookup began, and no later than it returned. */
  lemma StaleByAtMostTtl(cfg: Config, steps: seq<Step>, c: nat) returns (n: nat, i: nat)
    requires cfg.ttl >= 0.0 && HasReturned(Exec(cfg, steps), c)
    ensures Returns(cfg, steps, n, c) && i <= n
    ensures var call := Exec(cfg, steps).calls[c];
            && call.phase.snapshot == Record(cfg, call.key, call.phase.snapshot.version)
            && HeldAt(cfg, steps, i, call.key, call.phase.snapshot.version, call.startedAt - cfg.ttl)
  {
    n := ReturnStep(cfg, steps, c);
    ReturnedIsOk(cfg, steps[..n], c);
    var call := Exec(cfg, steps).calls[c];
    i := HeldInPrefix(cfg, steps, n, call.key, call.phase.snapshot.version, call.startedAt - cfg.ttl);
  }
}
