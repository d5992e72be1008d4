/**
  The orchestration layer: a registry of named backends with an optional circuit
  breaker that switches between a primary backend and ordered fallbacks, the
  functional options that configure it, and the chained manager that fans calls
  out over an ordered list of backends.

  Backends are opaque: a call into one is modelled by a per-name outcome supplied
  by the caller (`pingOk(name)`, `succeeds(name)`, ...). Time is an integer count of
  nanoseconds passed in as `now`.
*/
module Cachemar {
  import opened Wrappers
  import opened ChainSpec

  /** A registered backend (an implementation of the `Cacher` interface), by identity. */
  datatype Cacher = Cacher(id: nat)

  /** `DefaultCheckInterval`: five seconds, in nanoseconds. */
  const DefaultCheckInterval: int := 5_000_000_000

  // ---------------------------------------------------------------------------
  // Options

  /** The two functional options: each writes some fields of a manager when applied. */
  datatype ManagerOption =
    | WithDebug
    | WithCircuitBreaker(primaryCacher: string, fallbackCachers: seq<string>, checkInterval: int)

  /** The manager fields that options write. */
  datatype Settings = Settings(
    debug: bool,
    useCircuitBreaker: bool,
    primaryCacher: string,
    fallbackCachers: seq<string>,
    checkInterval: int,
    lastCheckTime: int,
    current: string)

  /** The fields of a freshly made manager, before any option. */
  function Defaults(now: int): (s: Settings)
  {
    Settings(false, false, "", [], DefaultCheckInterval, now, "")
  }

  /** The fields after applying one option at time `now`. */
  function Applied(s: Settings, option: ManagerOption, now: int): (r: Settings)
    ensures r.debug <==> s.debug || option.WithDebug?
    ensures r.useCircuitBreaker <==> s.useCircuitBreaker || option.WithCircuitBreaker?
  {
    match option
    case WithDebug => s.(debug := true)
    case WithCircuitBreaker(p, fs, iv) =>
      s.(useCircuitBreaker := true, primaryCacher := p, fallbackCachers := fs,
         checkInterval := iv, lastCheckTime := now, current := p)
  }

  /** The fields after applying the options in argument order. */
  function AppliedAll(s: Settings, options: seq<ManagerOption>, now: int): (r: Settings)
  {
    if options == [] then s
    else Applied(AppliedAll(s, options[..|options| - 1], now), options[|options| - 1], now)
  }

  /**
    The last circuit-breaker option wins: its primary, fallbacks and interval are
    stored verbatim, the current backend is its primary and the last check is `now`.
  */
  lemma {:induction false} LastBreakerWins(s: Settings, options: seq<ManagerOption>, now: int, i: nat)
    requires i < |options| && options[i].WithCircuitBreaker?
    requires forall j :: i < j < |options| ==> options[j].WithDebug?
    ensures AppliedAll(s, options, now).useCircuitBreaker
    ensures AppliedAll(s, options, now).primaryCacher == options[i].primaryCacher
    ensures AppliedAll(s, options, now).fallbackCachers == options[i].fallbackCachers
    ensures AppliedAll(s, options, now).checkInterval == options[i].checkInterval
    ensures AppliedAll(s, options, now).current == options[i].primaryCacher
    ensures AppliedAll(s, options, now).lastCheckTime == now
  {
    if i < |options| - 1 {
      var init := options[..|options| - 1];
      LastBreakerWins(s, init, now, i);
    }
  }

  /** Without a circuit-breaker option, only `debug` can differ from the starting fields. */
  lemma {:induction false} DebugOnlyTouchesDebug(s: Settings, options: seq<ManagerOption>, now: int)
    requires forall j :: 0 <= j < |options| ==> options[j].WithDebug?
    ensures AppliedAll(s, options, now) == s.(debug := s.debug || |options| > 0)
  {
    if options != [] {
      DebugOnlyTouchesDebug(s, options[..|options| - 1], now);
    }
  }

  /** `debug` ends up set exactly when it was set already or some option is `WithDebug`. */
  lemma {:induction false} DebugIffRequested(s: Settings, options: seq<ManagerOption>, now: int)
    ensures AppliedAll(s, options, now).debug <==>
      s.debug || exists j :: 0 <= j < |options| && options[j].WithDebug?
  {
    if options != [] {
      var init := options[..|options| - 1];
      DebugIffRequested(s, init, now);
      if exists j :: 0 <= j < |init| && init[j].WithDebug? {
        var j :| 0 <= j < |init| && init[j].WithDebug?;
        assert options[j] == init[j];
      }
    }
  }

  // ---------------------------------------------------------------------------
  // Manager

  /** The registry of named backends, with the circuit-breaker state. */
  class Manager {
    var managers: map<string, Cacher>
    var current: string
    var chainInstance: Chained?
    var debug: bool
    var primaryCacher: string
    var fallbackCachers: seq<string>
    var circuitOpen: bool
    var checkInterval: int
    var lastCheckTime: int
    var useCircuitBreaker: bool

    /** The fields that options write. */
    function Config(): Settings
      reads this
    {
      Settings(debug, useCircuitBreaker, primaryCacher, fallbackCachers, checkInterval, lastCheckTime, current)
    }

    /** `New`: an empty registry, breaker off and closed, default check interval. */
    constructor New(now: int)
      ensures managers == map[] && chainInstance == null && !circuitOpen
      ensures Config() == Defaults(now)
    {
      managers := map[];
      current := "";
      chainInstance := null;
      debug := false;
      primaryCacher := "";
      fallbackCachers := [];
      circuitOpen := false;
      checkInterval := DefaultCheckInterval;
      lastCheckTime := now;
      useCircuitBreaker := false;
    }

    /** `NewWithOptions`: the fields of `New`, then each option applied in argument order. */
    constructor NewWithOptions(options: seq<ManagerOption>, now: int)
      ensures managers == map[] && chainInstance == null && !circuitOpen
      ensures Config() == AppliedAll(Defaults(now), options, now)
    {
      managers := map[];
      current := "";
      chainInstance := null;
      debug := false;
      primaryCacher := "";
      fallbackCachers := [];
      circuitOpen := false;
      checkInterval := DefaultCheckInterval;
      lastCheckTime := now;
      useCircuitBreaker := false;
      new;
      var i := 0;
      while i < |options|
        invariant 0 <= i <= |options|
        invariant managers == map[] && chainInstance == null && !circuitOpen
        invariant Config() == AppliedAll(Defaults(now), options[..i], now)
      {
        Apply(options[i], now);
        assert options[..i + 1][..i] == options[..i];
        i := i + 1;
      }
      assert options[..i] == options;
    }

    /** Runs one option against this manager. */
    method Apply(option: ManagerOption, now: int)
      modifies this
      ensures Config() == Applied(old(Config()), option, now)
      ensures managers == old(managers) && chainInstance == old(chainInstance)
      ensures circuitOpen == old(circuitOpen)
    {
      match option
      case WithDebug =>
        debug := true;
      case WithCircuitBreaker(p, fs, iv) =>
        useCircuitBreaker := true;
        primaryCacher := p;
        fallbackCachers := fs;
        checkInterval := iv;
        lastCheckTime := now;
        current := p;
    }

    /** Maps `name` to `cacher`, replacing any earlier one, and makes it current. */
    method Register(name: string, cacher: Cacher)
      modifies this`managers, this`current
      ensures managers == old(managers)[name := cacher]
      ensures current == name
    {
      managers := managers[name := cacher];
      current := name;
    }

    /** The backend registered under `name`; nil (`None`) when there is none. */
    function Use(name: string): (r: Option<Cacher>)
      reads this
      ensures r.Some? <==> name in managers
      ensures r.Some? ==> r.value == managers[name]
    {
      if name in managers then Some(managers[name]) else None
    }

    /** The backend registered under the current name; nil when that name is not registered. */
    function Current(): (r: Option<Cacher>)
      reads this
      ensures r.Some? <==> current in managers
      ensures r.Some? ==> r.value == managers[current]
    {
      Use(current)
    }

    /** Sets the current name, registered or not. */
    method SetCurrent(name: string)
      modifies this`current
      ensures current == name
    {
      current := name;
    }

    /** Switches debug output on or off; nothing else changes. */
    method SetDebug(on: bool)
      modifies this`debug
      ensures debug == on
    {
      debug := on;
    }

    /**
      `checkCircuit`: picks the backend that forwarded operations go to, updating the
      breaker. `pingOk(n)` is the outcome of pinging the backend registered as `n`;
      `pinged` lists the names pinged, in order.
    */
    method CheckCircuit(now: int, pingOk: string -> bool) returns (r: Option<Cacher>, pinged: seq<string>)
      modifies this`circuitOpen, this`lastCheckTime, this`current
      // Breaker off: the current backend, nothing pinged, nothing changed.
      ensures !useCircuitBreaker ==> r == old(Current()) && pinged == [] && unchanged(this)
      // Breaker on but the primary is not registered: likewise, open or closed.
      ensures useCircuitBreaker && primaryCacher !in managers ==>
        r == old(Current()) && pinged == [] && unchanged(this)
      // Closed, primary healthy: the primary, nothing changed.
      ensures useCircuitBreaker && !old(circuitOpen) && primaryCacher in managers && pingOk(primaryCacher) ==>
        r == Some(managers[primaryCacher]) && pinged == [primaryCacher] && unchanged(this)
      // Closed, primary down: the circuit opens and the first healthy fallback becomes current.
      ensures useCircuitBreaker && !old(circuitOpen) && primaryCacher in managers && !pingOk(primaryCacher) ==>
        circuitOpen && lastCheckTime == now &&
        (FirstHealthy(fallbackCachers, managers, pingOk) < |fallbackCachers| ==>
          current == fallbackCachers[FirstHealthy(fallbackCachers, managers, pingOk)] && r == Some(managers[current]) &&
          pinged == [primaryCacher] + RegisteredOf(fallbackCachers[..FirstHealthy(fallbackCachers, managers, pingOk) + 1], managers)) &&
        (FirstHealthy(fallbackCachers, managers, pingOk) == |fallbackCachers| ==>
          current == old(current) && r == old(Current()) &&
          pinged == [primaryCacher] + RegisteredOf(fallbackCachers, managers))
      // Open, interval not yet elapsed: nothing pinged, nothing changed.
      ensures useCircuitBreaker && old(circuitOpen) && now - old(lastCheckTime) < checkInterval ==>
        r == old(Current()) && pinged == [] && unchanged(this)
      // Open, interval elapsed, primary healthy: the circuit closes on the primary.
      ensures useCircuitBreaker && old(circuitOpen) && now - old(lastCheckTime) >= checkInterval &&
              primaryCacher in managers && pingOk(primaryCacher) ==>
        !circuitOpen && current == primaryCacher && lastCheckTime == old(lastCheckTime) &&
        r == Some(managers[primaryCacher]) && pinged == [primaryCacher]
      // Open, interval elapsed, primary still down: stays open, check time moves to now.
      ensures useCircuitBreaker && old(circuitOpen) && now - old(lastCheckTime) >= checkInterval &&
              primaryCacher in managers && !pingOk(primaryCacher) ==>
        circuitOpen && current == old(current) && lastCheckTime == now &&
        r == old(Current()) && pinged == [primaryCacher]
    {
      if !useCircuitBreaker {
        return Current(), [];
      }
      if !circuitOpen {
        if primaryCacher !in managers {
          return Current(), [];
        }
        if pingOk(primaryCacher) {
          return Some(managers[primaryCacher]), [primaryCacher];
        }
        var fallbacksPinged;
        r, fallbacksPinged := FailOver(now, pingOk);
        return r, [primaryCacher] + fallbacksPinged;
      }
      r, pinged := Reprobe(now, pingOk);
    }

    /**
      The closed breaker's reaction to a failed primary ping: open the circuit, then
      ping the registered fallbacks in order and make the first healthy one current.
    */
    method FailOver(now: int, pingOk: string -> bool) returns (r: Option<Cacher>, pinged: seq<string>)
      modifies this`circuitOpen, this`lastCheckTime, this`current
      ensures circuitOpen && lastCheckTime == now
      ensures FirstHealthy(fallbackCachers, managers, pingOk) < |fallbackCachers| ==>
        current == fallbackCachers[FirstHealthy(fallbackCachers, managers, pingOk)] && r == Some(managers[current]) &&
        pinged == RegisteredOf(fallbackCachers[..FirstHealthy(fallbackCachers, managers, pingOk) + 1], managers)
      ensures FirstHealthy(fallbackCachers, managers, pingOk) == |fallbackCachers| ==>
        current == old(current) && r == old(Current()) && pinged == RegisteredOf(fallbackCachers, managers)
    {
      circuitOpen := true;
      lastCheckTime := now;
      pinged := [];
      var i := 0;
      while i < |fallbackCachers|
        invariant 0 <= i <= |fallbackCachers|
        invariant pinged == RegisteredOf(fallbackCachers[..i], managers)
        invariant forall j :: 0 <= j < i ==> !(fallbackCachers[j] in managers && pingOk(fallbackCachers[j]))
        invariant circuitOpen && lastCheckTime == now && current == old(current)
      {
        var name := fallbackCachers[i];
        assert fallbackCachers[..i + 1][..i] == fallbackCachers[..i];
        if name in managers {
          pinged := pinged + [name];
          if pingOk(name) {
            FirstHealthyAt(fallbackCachers, managers, pingOk, i);
            current := name;
            return Some(managers[name]), pinged;
          }
        }
        i := i + 1;
      }
      assert fallbackCachers[..i] == fallbackCachers;
      FirstHealthyAt(fallbackCachers, managers, pingOk, i);
      return Current(), pinged;
    }

    /**
      The open breaker: once `checkInterval` has passed since the last check, ping the
      primary; close onto it if it answers, otherwise record the time of this check.
    */
    method Reprobe(now: int, pingOk: string -> bool) returns (r: Option<Cacher>, pinged: seq<string>)
      modifies this`circuitOpen, this`lastCheckTime, this`current
      ensures now - old(lastCheckTime) < checkInterval || primaryCacher !in managers ==>
        r == old(Current()) && pinged == [] && unchanged(this)
      ensures now - old(lastCheckTime) >= checkInterval && primaryCacher in managers && pingOk(primaryCacher) ==>
        !circuitOpen && current == primaryCacher && lastCheckTime == old(lastCheckTime) &&
        r == Some(managers[primaryCacher]) && pinged == [primaryCacher]
      ensures now - old(lastCheckTime) >= checkInterval && primaryCacher in managers && !pingOk(primaryCacher) ==>
        circuitOpen == old(circuitOpen) && current == old(current) && lastCheckTime == now &&
        r == old(Current()) && pinged == [primaryCacher]
    {
      if now - lastCheckTime >= checkInterval {
        if primaryCacher !in managers {
          return Current(), [];
        }
        if pingOk(primaryCacher) {
          circuitOpen := false;
          current := primaryCacher;
          return Some(managers[primaryCacher]), [primaryCacher];
        }
        lastCheckTime := now;
        return Current(), [primaryCacher];
      }
      return Current(), [];
    }

    /**
      Calls every registered backend once, in the map's unspecified order, and
      collects the names whose call failed, in call order.
    */
    method CallEach(ok: string -> bool) returns (failed: seq<string>, calls: seq<string>)
      ensures forall n :: n in calls <==> n in managers
      ensures forall i, j :: 0 <= i < j < |calls| ==> calls[i] != calls[j]
      ensures failed == Failures(calls, ok)
      ensures forall n :: n in failed <==> n in managers && !ok(n)
      ensures forall i, j :: 0 <= i < j < |failed| ==> failed[i] != failed[j]
    {
      failed, calls := [], [];
      var pending := managers.Keys;
      while pending != {}
        invariant pending <= managers.Keys
        invariant forall n :: n in calls <==> n in managers && n !in pending
        invariant forall i, j :: 0 <= i < j < |calls| ==> calls[i] != calls[j]
        invariant failed == Failures(calls, ok)
        invariant forall n :: n in failed <==> n in managers && n !in pending && !ok(n)
        invariant forall i, j :: 0 <= i < j < |failed| ==> failed[i] != failed[j]
        decreases pending
      {
        var name :| name in pending;
        assert (calls + [name])[..|calls|] == calls;
        calls := calls + [name];
        if !ok(name) {
          failed := failed + [name];
        }
        pending := pending - {name};
      }
    }

    /** Pings every registered backend: nil exactly when every ping succeeded. */
    method Ping(pingOk: string -> bool) returns (r: Outcome<seq<string>>)
      ensures r == Pass <==> forall n :: n in managers ==> pingOk(n)
      ensures r.Fail? ==> forall n :: n in r.error <==> n in managers && !pingOk(n)
    {
      var failed, _ := CallEach(pingOk);
      if |failed| > 0 {
        assert failed[0] in failed;
        return Fail(failed);
      }
      return Pass;
    }

    /** Closes every registered backend: nil exactly when every close succeeded. */
    method Close(closeOk: string -> bool) returns (r: Outcome<seq<string>>)
      ensures r == Pass <==> forall n :: n in managers ==> closeOk(n)
      ensures r.Fail? ==> forall n :: n in r.error <==> n in managers && !closeOk(n)
    {
      var failed, _ := CallEach(closeOk);
      if |failed| > 0 {
        assert failed[0] in failed;
        return Fail(failed);
      }
      return Pass;
    }

    /** The chained manager bound to this registry, made on first use and reused after. */
    method Chain() returns (c: Chained)
      modifies this`chainInstance
      ensures old(chainInstance) != null ==> c == old(chainInstance)
      ensures old(chainInstance) == null ==> fresh(c) && c.m == this && c.chain == [] && c.fallback == ""
      ensures chainInstance == c
    {
      if chainInstance == null {
        chainInstance := new Chained(this);
      }
      return chainInstance;
    }
  }

  // ---------------------------------------------------------------------------
  // Chained manager

  /** The writes a chained manager sends to every backend in its chain (values left opaque). */
  datatype WriteRequest =
    | SetKey(key: string, ttl: int, tags: seq<string>)
    | RemoveKey(key: string)
    | RemoveTag(tag: string)
    | RemoveTags(tags: seq<string>)
    | IncrementKey(key: string)
    | DecrementKey(key: string)

  datatype ChainError =
    | WriteFailed(request: WriteRequest, failed: seq<string>)  // "errors occurred while ... in chain"
    | NotFoundInChain                                          // "value not found in any cache manager"
    | KeyNotFoundInChain                                       // "key not found in any cache manager"
    | FallbackFailed(name: string)                             // the fallback's own error, passed through

  /** A backend's answer to `Exists`: the flag and whether an error came with it. */
  datatype ExistsAnswer = ExistsAnswer(present: bool, failed: bool)

  /** An ordered list of backend names over a manager's registry, plus an optional fallback. */
  class Chained {
    const m: Manager
    var chain: seq<string>
    var fallback: string

    constructor (m: Manager)
      ensures this.m == m && chain == [] && fallback == ""
    {
      this.m := m;
      chain := [];
      fallback := "";
    }

    /** Every name in the chain is registered: calling an unregistered one is a nil call. */
    ghost predicate ChainRegistered()
      reads this, m
    {
      forall i :: 0 <= i < |chain| ==> chain[i] in m.managers
    }

    method SetFallback(name: string)
      modifies this`fallback
      ensures fallback == name
    {
      fallback := name;
    }

    method AddToChain(name: string)
      modifies this`chain
      ensures chain == old(chain) + [name]
    {
      chain := chain + [name];
    }

    /** Takes out the first occurrence of `name`, keeping the order of the rest. */
    method RemoveFromChain(name: string)
      modifies this`chain
      ensures chain == RemoveFirst(old(chain), name)
      ensures multiset(chain) == multiset(old(chain)) - multiset{name}
    {
      RemoveFirstMultiset(chain, name);
      var i := 0;
      while i < |chain|
        invariant 0 <= i <= |chain|
        invariant name !in chain[..i]
      {
        if chain[i] == name {
          RemoveFirstAt(chain, name, i);
          chain := chain[..i] + chain[i + 1..];
          return;
        }
        assert chain[..i + 1] == chain[..i] + [chain[i]];
        i := i + 1;
      }
      assert chain[..i] == chain;
      RemoveFirstAbsent(chain, name);
    }

    method Register(name: string, cacher: Cacher)
      modifies m`managers, m`current
      ensures m.managers == old(m.managers)[name := cacher] && m.current == name
    {
      m.Register(name, cacher);
    }

    function Use(name: string): (r: Option<Cacher>)
      reads m
      ensures r.Some? <==> name in m.managers
      ensures r.Some? ==> r.value == m.managers[name]
    {
      m.Use(name)
    }

    function Current(): (r: Option<Cacher>)
      reads m
      ensures r.Some? <==> m.current in m.managers
      ensures r.Some? ==> r.value == m.managers[m.current]
    {
      m.Current()
    }

    method SetCurrent(name: string)
      modifies m`current
      ensures m.current == name
    {
      m.SetCurrent(name);
    }

    method Ping(pingOk: string -> bool) returns (r: Outcome<seq<string>>)
      ensures r == Pass <==> forall n :: n in m.managers ==> pingOk(n)
      ensures r.Fail? ==> forall n :: n in r.error <==> n in m.managers && !pingOk(n)
    {
      r := m.Ping(pingOk);
    }

    method Close(closeOk: string -> bool) returns (r: Outcome<seq<string>>)
      ensures r == Pass <==> forall n :: n in m.managers ==> closeOk(n)
      ensures r.Fail? ==> forall n :: n in r.error <==> n in m.managers && !closeOk(n)
    {
      r := m.Close(closeOk);
    }

    /** A chained manager is its own chain. */
    method Chain() returns (c: Chained)
      ensures c == this
    {
      return this;
    }

    /**
      `Set`, `Remove`, `RemoveByTag`, `RemoveByTags`, `Increment`, `Decrement`: call
      every chain member in order whatever earlier calls did, then report nil exactly
      when all succeeded, or the failures in call order.
    */
    method Write(request: WriteRequest, succeeds: string -> bool) returns (r: Outcome<ChainError>, calls: seq<string>)
      requires ChainRegistered()
      ensures calls == chain
      ensures r == Pass <==> forall n :: n in chain ==> succeeds(n)
      ensures r.Fail? ==> r.error == WriteFailed(request, Failures(chain, succeeds))
    {
      var errors: seq<string> := [];
      calls := [];
      var i := 0;
      while i < |chain|
        invariant 0 <= i <= |chain|
        invariant calls == chain[..i]
        invariant errors == Failures(chain[..i], succeeds)
      {
        var name := chain[i];
        assert chain[..i + 1][..i] == chain[..i];
        calls := calls + [name];
        if !succeeds(name) {
          errors := errors + [name];
        }
        i := i + 1;
      }
      assert chain[..i] == chain;
      if |errors| > 0 {
        assert errors[0] in errors;
        return Fail(WriteFailed(request, errors)), calls;
      }
      return Pass, calls;
    }

    /**
      First success wins: members are tried in order and the first whose `Get`
      succeeds ends the search. When all fail, the fallback's own result, or "value
      not found" when there is no fallback.
    */
    method Get(getOk: string -> bool) returns (r: Outcome<ChainError>, calls: seq<string>)
      requires ChainRegistered()
      requires fallback != "" && (forall n :: n in chain ==> !getOk(n)) ==> fallback in m.managers
      ensures FirstWhere(chain, getOk) < |chain| ==>
        r == Pass && calls == chain[..FirstWhere(chain, getOk) + 1]
      ensures FirstWhere(chain, getOk) == |chain| && fallback != "" ==>
        calls == chain + [fallback] && r == (if getOk(fallback) then Pass else Fail(FallbackFailed(fallback)))
      ensures FirstWhere(chain, getOk) == |chain| && fallback == "" ==>
        calls == chain && r == Fail(NotFoundInChain)
      ensures r == Pass <==> (exists n :: n in chain && getOk(n)) || (fallback != "" && getOk(fallback))
    {
      calls := [];
      var i := 0;
      while i < |chain|
        invariant 0 <= i <= |chain|
        invariant calls == chain[..i]
        invariant forall j :: 0 <= j < i ==> !getOk(chain[j])
      {
        assert chain[..i + 1] == chain[..i] + [chain[i]];
        calls := calls + [chain[i]];
        if getOk(chain[i]) {
          return Pass, calls;
        }
        i := i + 1;
      }
      assert calls == chain;
      if fallback != "" {
        calls := calls + [fallback];
        r := if getOk(fallback) then Pass else Fail(FallbackFailed(fallback));
        return;
      }
      return Fail(NotFoundInChain), calls;
    }

    /**
      The first member answering `(true, nil)` ends the search with `(true, nil)`;
      otherwise the fallback's answer, or `(false, "key not found")` without one.
    */
    method Exists(answer: string -> ExistsAnswer) returns (found: bool, err: Option<ChainError>, calls: seq<string>)
      requires ChainRegistered()
      requires fallback != "" && (forall n :: n in chain ==> !(answer(n).present && !answer(n).failed)) ==>
        fallback in m.managers
      ensures FirstWhere(chain, n => answer(n).present && !answer(n).failed) < |chain| ==>
        found && err == None &&
        calls == chain[..FirstWhere(chain, n => answer(n).present && !answer(n).failed) + 1]
      ensures FirstWhere(chain, n => answer(n).present && !answer(n).failed) == |chain| && fallback != "" ==>
        calls == chain + [fallback] && found == answer(fallback).present &&
        err == (if answer(fallback).failed then Some(FallbackFailed(fallback)) else None)
      ensures FirstWhere(chain, n => answer(n).present && !answer(n).failed) == |chain| && fallback == "" ==>
        calls == chain && !found && err == Some(KeyNotFoundInChain)
    {
      calls := [];
      var i := 0;
      while i < |chain|
        invariant 0 <= i <= |chain|
        invariant calls == chain[..i]
        invariant forall j :: 0 <= j < i ==> !(answer(chain[j]).present && !answer(chain[j]).failed)
      {
        assert chain[..i + 1] == chain[..i] + [chain[i]];
        calls := calls + [chain[i]];
        var a := answer(chain[i]);
        if a.present && !a.failed {
          return true, None, calls;
        }
        i := i + 1;
      }
      assert calls == chain;
      if fallback != "" {
        calls := calls + [fallback];
        var a := answer(fallback);
        return a.present, if a.failed then Some(FallbackFailed(fallback)) else None, calls;
      }
      return false, Some(KeyNotFoundInChain), calls;
    }

    /**
      The keys of every member that answered, concatenated in chain order; members
      that failed are skipped. The fallback is asked only when that list is empty.
    */
    method GetKeysByTag(keysOf: string -> Option<seq<string>>)
      returns (r: Result<seq<string>, ChainError>, calls: seq<string>)
      requires ChainRegistered()
      requires ConcatKeys(chain, keysOf) == [] && fallback != "" ==> fallback in m.managers
      ensures ConcatKeys(chain, keysOf) != [] || fallback == "" ==>
        r == Success(ConcatKeys(chain, keysOf)) && calls == chain
      ensures ConcatKeys(chain, keysOf) == [] && fallback != "" ==>
        calls == chain + [fallback] &&
        r == (match keysOf(fallback) case Some(ks) => Success(ks) case None => Failure(FallbackFailed(fallback)))
    {
      var allKeys: seq<string> := [];
      calls := [];
      var i := 0;
      while i < |chain|
        invariant 0 <= i <= |chain|
        invariant calls == chain[..i]
        invariant allKeys == ConcatKeys(chain[..i], keysOf)
      {
        var name := chain[i];
        assert chain[..i + 1][..i] == chain[..i];
        calls := calls + [name];
        var keys := keysOf(name);
        if keys.Some? {
          allKeys := allKeys + keys.value;
        }
        i := i + 1;
      }
      assert chain[..i] == chain;
      if |allKeys| == 0 && fallback != "" {
        calls := calls + [fallback];
        var keys := keysOf(fallback);
        r := if keys.Some? then Success(keys.value) else Failure(FallbackFailed(fallback));
        return;
      }
      return Success(allKeys), calls;
    }

    /** A new chained manager over the same registry and fallback, with chain `names`. */
    method Override(names: seq<string>) returns (c: Chained)
      ensures fresh(c) && c.m == m && c.chain == names && c.fallback == fallback
    {
      c := new Chained(m);
      c.chain := names;
      c.fallback := fallback;
    }
  }

  // ---------------------------------------------------------------------------
  // A run of the breaker

  /**
    A breaker over "primary" with fallback "fallback" and a 100 ms interval: the
    primary serves while it is up; when its ping fails the circuit opens onto the
    fallback; once the interval has passed and the primary answers again, the circuit
    closes back onto it.
  */
  method BreakerRun(start: int) returns (first: Option<Cacher>, second: Option<Cacher>, third: Option<Cacher>)
    ensures first == Some(Cacher(1)) && second == Some(Cacher(2)) && third == Some(Cacher(1))
  {
    var options := [WithDebug, WithCircuitBreaker("primary", ["fallback"], 100_000_000)];
    var manager := new Manager.NewWithOptions(options, start);
    LastBreakerWins(Defaults(start), options, start, 1);
    manager.Register("primary", Cacher(1));
    manager.Register("fallback", Cacher(2));
    var pinged;
    // Both up: the primary serves.
    first, pinged := manager.CheckCircuit(start, _ => true);
    second, third := FailAndRecover(manager, start);
  }

  /** The second half of `BreakerRun`: the primary goes down, then comes back. */
  method FailAndRecover(manager: Manager, start: int) returns (second: Option<Cacher>, third: Option<Cacher>)
    requires manager.useCircuitBreaker && !manager.circuitOpen
    requires manager.primaryCacher == "primary" && manager.fallbackCachers == ["fallback"]
    requires manager.checkInterval == 100_000_000
    requires manager.managers == map["primary" := Cacher(1), "fallback" := Cacher(2)]
    modifies manager
    ensures second == Some(Cacher(2)) && third == Some(Cacher(1))
  {
    var pinged;
    // The primary is down: the circuit opens onto the fallback.
    var primaryDown := n => n != "primary";
    assert FirstHealthy(manager.fallbackCachers, manager.managers, primaryDown) == 0;
    second, pinged := manager.CheckCircuit(start + 10_000_000, primaryDown);
    // 200 ms later the primary is back: the circuit closes onto it.
    third, pinged := manager.CheckCircuit(start + 210_000_000, _ => true);
  }
}
