# cachemar in Dafny

This is a model of the core of cachemar, a Go cache-abstraction library. It covers three parts:

- **The in-process memory driver** (`drivers/memory/memory.go`). This is a map from string keys to
  items. Each item holds the encoded value bytes, the tags given at `Set`, and an absolute expiry time.
  `Set`, `Remove`, `RemoveByTag(s)` and `Flush` change the map. `Get`, `Exists`, `GetKeysByTag`,
  `Increment` and `Decrement` only read it.
- **The manager** (`manager.go`, `options.go`). This is a registry of named backends with a current
  name, plus a circuit breaker. The breaker switches from a primary backend to the first healthy fallback.
  After `checkInterval` has passed, it probes the primary again.
- **The chained manager** (`chained_manager.go`). This is an ordered list of backend names plus an
  optional fallback. Reads stop at the first success. Writes go to every member, and their errors are
  collected together.

Files:

- `wrappers.dfy` (module `Wrappers`): `Option`, `Outcome` (a Go `error`) and `Result`.
- `strconv.dfy` (module `Strconv`): Go's `strconv.Atoi`/`Itoa` on byte strings and 64-bit wrap-around.
  The memory driver's `Increment`/`Decrement` use them.
- `memory.dfy` (module `MemoryDriver`): the class `Memory` with `var items: map<string, Item>`. It also
  holds the functions that specify the map after each operation, and lemmas about them.
- `chainspec.dfy` (module `ChainSpec`): pure definitions behind the orchestration loops. These are the
  first name passing a test, the failed names, the registered names, the concatenated key lists and
  removal of a first occurrence, with their lemmas.
- `cachemar.dfy` (module `Cachemar`): the options, the class `Manager` with the circuit breaker, and
  the class `Chained`.

Modelling conventions:

- Time is an integer count of nanoseconds. Each operation that reads the clock takes `now` as a
  parameter.
- A backend call is an outcome per backend name, supplied by the caller. Examples: `pingOk(name)`,
  `succeeds(name)`, `keysOf(name)`.
- The value codec (gob, then gzip) is a pair of function parameters: `encode` for `Set` and `decode`
  for `Get`.

The model follows the Go code. `tests/memory_lru_test.go` and `examples/memory_lru_example.go` build the
driver through `memory.NewWithConfig(memory.Config{MaxSize: n})`. They expect a `MaxSize` capacity and
least-recently-used eviction, where `Get`, a `Set` of an existing key and `Increment` refresh a key's
recency. `drivers/memory/memory.go` defines neither `NewWithConfig` nor `Config`, and has no capacity and
no recency order, so the model has neither. As the driver is written, expired items stay stored until
they are removed or flushed, `Get` and `Exists` never delete anything, and tags are kept exactly as
given.

## Model

| member | source | states |
|---|---|---|
| `Strconv.Atoi` | drivers/memory/memory.go:168-171 | Succeeds exactly on an optional sign followed by one or more decimal digits whose value fits in 64 bits. The result is in range, and a negative result means the text started with `-`. |
| `Strconv.Itoa` | drivers/memory/memory.go:174 | Never empty. It starts with `-` exactly when the number is negative. |
| `Strconv.DecimalDigits` | drivers/memory/memory.go:174 | A non-empty string of digits with no leading zero. |
| `Strconv.Wrap64` | drivers/memory/memory.go:173 | `intValue++` on a Go `int`: the result is in the signed 64-bit range, agrees with the exact sum modulo 2^64, and equals it when no overflow occurs. |
| `Strconv.DecimalDigitsValue` | drivers/memory/memory.go:174 | Reading the digits `Itoa` writes gives back the number. |
| `Strconv.AtoiItoa` | drivers/memory/memory.go:168-174 | `Atoi(Itoa(n)) == Some(n)` for every 64-bit `n`, so the text `Increment` builds would parse back. |
| `Strconv.NonDecimalStart` | drivers/memory/memory.go:168-171 | Bytes that do not start with a sign or a digit are never an integer. A gzip stream starts with 0x1f, so it is never an integer. |
| `MemoryDriver.Expired` | drivers/memory/memory.go:79 | `ExpiryTime.Before(now)`: an item is expired only when its expiry is strictly before `now`. |
| `MemoryDriver.Live` | drivers/memory/memory.go:152-156 | A hit for `Get` and `Exists`: the key is present and its item is not expired. |
| `MemoryDriver.ContainsTag` | drivers/memory/memory.go:129-134 | The inner tag loop finds a match exactly when the tag is in the item's tag list. |
| `MemoryDriver.WithoutTag` | drivers/memory/memory.go:124-137 | The map left by `RemoveByTag` is a sub-map of the old one with the same items. |
| `MemoryDriver.WithoutTags` | drivers/memory/memory.go:139-146 | The map after `RemoveByTags`, which runs `RemoveByTag` for each tag in order. The result is a sub-map of the old one with the same items. |
| `MemoryDriver.Untagged` | drivers/memory/memory.go:139-146 | A key survives exactly when none of its tags is among the given tags. |
| `MemoryDriver.WithoutTagsIsUntagged` | drivers/memory/memory.go:139-146 | Applying `RemoveByTag` for each tag in order removes exactly the entries that carry any of the tags, expired or not. An empty tag list removes nothing. |
| `MemoryDriver.WithoutTagsOrderIrrelevant` | drivers/memory/memory.go:139-146 | The result of `RemoveByTags` depends only on the set of tags, not on their order or repetition. |
| `MemoryDriver.TaggedKeys` | drivers/memory/memory.go:199-214 | The keys `GetKeysByTag` reports: stored keys whose tags contain the tag, expired or not. It is a subset of the stored keys. |
| `MemoryDriver.WithoutTagRemovesTaggedKeys` | drivers/memory/memory.go:124-137 | `RemoveByTag(t)` deletes exactly the keys that `GetKeysByTag(t)` reports. |
| `MemoryDriver.WithoutTagIdempotent` | drivers/memory/memory.go:124-137 | Removing a tag twice leaves the same map as removing it once. |
| `MemoryDriver.StoredIsLive` | drivers/memory/memory.go:50-54 | After storing under `k` with expiry `now + ttl`, `k` is a hit at every time up to and including `now + ttl` and holds exactly the stored bytes. Every other key is a hit exactly when it was before. |
| `MemoryDriver.Adjusted` | drivers/memory/memory.go:159-197 | Corrected `Increment`/`Decrement`. An absent key gives "key not found". A present key whose value does not decode as an integer gives "value is not an integer", and no other error occurs. Otherwise the call succeeds, only the key's value changes, and its tags and expiry are kept. |
| `MemoryDriver.AdjustedThenGet` | drivers/memory/memory.go:159-197 | With a codec that round-trips integers, decoding after the corrected update gives `n + delta`, wrapped to 64 bits. Whether the key is a hit does not change. |
| `MemoryDriver.Memory.constructor` | drivers/memory/memory.go:28-32 | `New` starts with an empty map. |
| `MemoryDriver.Memory.Set` | drivers/memory/memory.go:34-56 | Stores exactly `Item(encoded value, tags, now + ttl)` under the key and replaces any earlier item. Every other key is unchanged. If encoding fails, nothing is stored and the error is returned. |
| `MemoryDriver.Memory.Get` | drivers/memory/memory.go:74-96 | `ErrNotFound` exactly when the key is absent or its expiry is before `now`. An expiry equal to `now` still hits. A decode failure is a distinct error. On success the result is the decoded stored value. The map is not changed. |
| `MemoryDriver.Memory.Remove` | drivers/memory/memory.go:116-122 | The key is absent afterwards and all other entries are unchanged. Always nil. Removing an absent key is a no-op. |
| `MemoryDriver.Memory.RemoveByTag` | drivers/memory/memory.go:124-137 | Visits the keys in any order and deletes every entry whose tags contain the tag. The new map is the old map without exactly those entries. Always nil. |
| `MemoryDriver.Memory.RemoveByTags` | drivers/memory/memory.go:139-146 | The map equals `RemoveByTag` applied for each tag in order. Always nil. |
| `MemoryDriver.Memory.Exists` | drivers/memory/memory.go:148-157 | True exactly when `Get` would not miss. Nothing is deleted. |
| `MemoryDriver.Memory.Increment` | drivers/memory/memory.go:159-177 | "key not found" exactly when the key is absent. Expiry is not checked. For a present key: nil exactly when `Atoi` accepts the stored bytes, otherwise "value is not an integer". The map is never changed. |
| `MemoryDriver.Memory.Decrement` | drivers/memory/memory.go:179-197 | Same classification as `Increment`. The map is never changed. |
| `MemoryDriver.Memory.GetKeysByTag` | drivers/memory/memory.go:199-214 | Every key whose tags contain the tag, each exactly once, expired keys included, and no other key. The map is not changed. |
| `MemoryDriver.Memory.Flush` | drivers/memory/memory.go:220-226 | The map is empty afterwards. Always nil. |
| `MemoryDriver.SetThenGet` | tests/memory_test.go:18-26 | With a codec that round-trips the value, `Get` after `Set` returns the value at any time up to the expiry, and `ErrNotFound` after it. |
| `MemoryDriver.SetThenIncrement` | tests/memory_test.go:50-60 | As written, `Increment` on a value that `Set` stored (a gzip stream) fails with "value is not an integer". The map stays as `Set` left it. |
| `ChainSpec.FirstWhere` | chained_manager.go:86-93 | The index of the first name that passes the test, or the length of the list. No earlier name passes. |
| `ChainSpec.FirstHealthy` | manager.go:81-95 | The position of the fallback that becomes current: it is registered and its ping succeeds, and every fallback before it is unregistered or fails its ping. The length of the list when there is none. |
| `ChainSpec.FirstHealthyAt` | manager.go:81-95 | The fallback chosen is unique: a position before which no fallback is healthy, and which is itself healthy or the end of the list, is the one `checkCircuit` picks. |
| `ChainSpec.Failures` | chained_manager.go:71-84 | The collected errors name exactly the chain members whose call failed. |
| `ChainSpec.RegisteredOf` | manager.go:81-85 | Exactly the listed names that are registered, which are the fallbacks that get pinged. |
| `ChainSpec.ConcatKeys` | chained_manager.go:192-199 | The keys of the members that answered, concatenated in chain order, with failed members contributing nothing. `ConcatKeysMembership` and `ConcatKeysEmpty` state what it contains. |
| `ChainSpec.ConcatKeysMembership` | chained_manager.go:191-199 | A key is in the concatenated result exactly when some chain member answered without error and listed it. |
| `ChainSpec.ConcatKeysEmpty` | chained_manager.go:200 | The concatenation is empty, which is when the fallback is consulted, exactly when every member that answered returned no keys. |
| `ChainSpec.RemoveFirst` | chained_manager.go:30-37 | The chain after `RemoveFromChain`: one element shorter exactly when the name was in it, and containing no new names. |
| `ChainSpec.RemoveFirstAt` | chained_manager.go:30-37 | Removing at the first occurrence keeps what precedes and what follows it, in order. |
| `ChainSpec.RemoveFirstAbsent` | chained_manager.go:30-37 | Removing a name that is not in the chain is a no-op. |
| `ChainSpec.RemoveFirstMultiset` | chained_manager.go:30-37 | Exactly one copy of the name goes, if there is one. Every other name stays. |
| `ChainSpec.AppendThenRemoveFirst` | chained_manager.go:26-37 | `AddToChain` followed by `RemoveFromChain` of a name not already in the chain restores the chain. |
| `Cachemar.Defaults` | manager.go:34-39 | The fields `New` and `NewWithOptions` start from: breaker off, no fallbacks, a 5 s interval, and the last check at `now`. |
| `Cachemar.Applied` | options.go:7-31 | One option applied: `WithDebug` turns on debug and `WithCircuitBreaker` turns on the breaker. Neither ever turns a flag off. |
| `Cachemar.AppliedAll` | manager.go:41-43 | The options applied one after another in argument order. `LastBreakerWins` and `DebugIffRequested` give its result. |
| `Cachemar.LastBreakerWins` | options.go:21-31 | After the options are applied, the last `WithCircuitBreaker` wins. The breaker is on, its primary, fallbacks and interval are stored verbatim, `current` is the primary, and `lastCheckTime` is `now`. |
| `Cachemar.DebugOnlyTouchesDebug` | options.go:7-11 | `WithDebug` changes only the `debug` field. |
| `Cachemar.DebugIffRequested` | manager.go:41-43 | Options are applied in order. `debug` ends up set exactly when some option was `WithDebug`. |
| `Cachemar.Manager.New` | manager.go:23-31 | Empty registry, breaker off and closed, `checkInterval` of 5 s, `lastCheckTime` set to `now`. |
| `Cachemar.Manager.NewWithOptions` | manager.go:33-46 | The defaults of `New`, then every option applied in argument order. |
| `Cachemar.Manager.Apply` | options.go:7-31 | One option writes exactly its own fields. The registry and the circuit state are untouched. |
| `Cachemar.Manager.Register` | manager.go:49-56 | Maps the name to the backend, replacing any earlier one, and makes that name current. |
| `Cachemar.Manager.Use` | manager.go:123-134 | The registered backend, or nil exactly when the name is not registered. |
| `Cachemar.Manager.Current` | manager.go:137-139 | The backend under the current name, or nil when that name is not registered. |
| `Cachemar.Manager.SetCurrent` | manager.go:142-144 | Sets the current name without checking that it is registered. |
| `Cachemar.Manager.SetDebug` | manager.go:272-274 | Sets only `debug`. |
| `Cachemar.Manager.CheckCircuit` | manager.go:58-120 | Breaker off, or primary not registered: `Current()` is returned, nothing is pinged and nothing changes. Closed with a healthy primary: the primary is returned and nothing changes. Closed with a failed primary: the circuit opens, `lastCheckTime` becomes `now`, and the registered fallbacks are pinged in order up to the first healthy one, which becomes current. Open before the interval has passed: nothing is pinged and nothing changes. Open after it: a healthy primary closes the circuit and becomes current. A failed one keeps the circuit open and sets `lastCheckTime` to `now`. |
| `Cachemar.Manager.FailOver` | manager.go:74-97 | Opens the circuit. The first registered fallback that pings OK becomes current and is returned. If there is none, `current` is unchanged. |
| `Cachemar.Manager.Reprobe` | manager.go:100-119 | The open state: the primary is probed only once the interval has passed, and the circuit closes only on a successful ping. |
| `Cachemar.Manager.CallEach` | manager.go:231-236 | The calls made are exactly the registered backends, each called once, in some order. The failures are the failed calls in call order, so exactly the backends whose call failed, without repeats. |
| `Cachemar.Manager.Ping` | manager.go:228-243 | nil exactly when every registered backend's ping succeeded. Otherwise the error lists the failed ones. |
| `Cachemar.Manager.Close` | manager.go:246-261 | nil exactly when every registered backend closed without error. Otherwise the error lists the failed ones. |
| `Cachemar.Manager.Chain` | manager.go:264-270 | The chained manager is made on first use with an empty chain and no fallback, and the same one is returned afterwards. |
| `Cachemar.Chained.constructor` | chained_manager.go:15-20 | `newChained`: bound to the manager, with an empty chain and no fallback. |
| `Cachemar.Chained.SetFallback` | chained_manager.go:22-24 | Sets the fallback name. |
| `Cachemar.Chained.AddToChain` | chained_manager.go:26-28 | Appends the name to the end of the chain. |
| `Cachemar.Chained.RemoveFromChain` | chained_manager.go:30-37 | Removes only the first occurrence and keeps the order of the rest. No-op if the name is absent. |
| `Cachemar.Chained.Register` | chained_manager.go:41-43 | Delegates to the manager's `Register`. |
| `Cachemar.Chained.Use` | chained_manager.go:45-47 | Delegates to the manager's `Use`. |
| `Cachemar.Chained.Current` | chained_manager.go:49-51 | Delegates to the manager's `Current`. |
| `Cachemar.Chained.SetCurrent` | chained_manager.go:53-55 | Delegates to the manager's `SetCurrent`. |
| `Cachemar.Chained.Ping` | chained_manager.go:57-59 | Same result as the manager's `Ping`. |
| `Cachemar.Chained.Close` | chained_manager.go:61-63 | Same result as the manager's `Close`. |
| `Cachemar.Chained.Chain` | chained_manager.go:65-67 | A chained manager returns itself. |
| `Cachemar.Chained.Write` | chained_manager.go:71-84 | `Set`, and likewise `Remove`, `RemoveByTag`, `RemoveByTags`, `Increment` and `Decrement` (lines 102-189). Every chain member is called in order, whatever earlier calls returned. The result is nil exactly when all calls succeeded, otherwise the error lists the failed members in call order. |
| `Cachemar.Chained.Get` | chained_manager.go:86-98 | The first member in order whose `Get` succeeds ends the call with nil, and no later member is called. If all fail, the fallback's own result is returned when a fallback is set, otherwise "value not found". nil exactly when some member or the fallback succeeds. |
| `Cachemar.Chained.Exists` | chained_manager.go:147-159 | The first member answering `(true, nil)` ends the call with `(true, nil)`. Otherwise the fallback's answer is returned when one is set, or `(false, "key not found")`. |
| `Cachemar.Chained.GetKeysByTag` | chained_manager.go:191-204 | The keys of every member that answered, concatenated in chain order, with member errors dropped. The fallback is called, and its result returned, only when that concatenation is empty. |
| `Cachemar.Chained.Override` | chained_manager.go:207-215 | A new chained manager with the same manager and fallback and the given chain. The receiver is unchanged. |
| `Cachemar.BreakerRun` | tests/circuit_breaker_test.go:97-160 | With a 100 ms breaker over "primary" and "fallback": the primary serves while it is up, the fallback serves once the primary's ping fails, and the primary serves again once the interval has passed and it answers. |
| `Cachemar.FailAndRecover` | tests/circuit_breaker_test.go:127-160 | The open-then-close half of that run. |

## Left out

- Gob encoding and gzip compression of values are foreign libraries. They are the parameters `encode`
  (for `Set`) and `decode` (for `Get`). The value bytes are otherwise opaque.
- `sync.Mutex` locking and all concurrency are not modelled. This includes `RemoveByTags` taking the
  lock once per tag, so another caller can run between tags. Each operation is one atomic step.
- The real clock is an integer `now` parameter, in nanoseconds. Go's `time.Time`/`Duration` edge cases
  are not modelled: saturation in `Add`, and monotonic versus wall clock readings. Every option applied
  by `NewWithOptions` sees the same `now`.
- `MemoryDriver.Memory.Exists` returns only the flag. The Go error is always nil (drivers/memory/memory.go:153-156).
- `MemoryDriver.Memory.GetKeysByTag` returns only the keys. The Go error is always nil (drivers/memory/memory.go:213).
- The memory driver's `Close` and `Ping` always return nil, and are not modelled.
- The manager's own `Set`/`Get`/`Remove`/`RemoveByTag(s)`/`Exists`/`Increment`/`Decrement`/`GetKeysByTag`
  (manager.go:146-225) are not separate members. Each forwards to the backend that `CheckCircuit`
  returns, so they are modelled through `CheckCircuit`. When that backend is nil, the Go call panics.
- Debug `fmt.Printf` output is not modelled.
- A backend is an opaque `Cacher` handle. Registering a nil `Cacher` is not modelled.
- `Cachemar.Manager.Ping`: the Go error text, which formats the list of error values, is not modelled.
  The model reports the names of the backends that failed instead. The same applies to `Close`,
  `Chained.Write` and the chained error messages.
- `Cachemar.Chained.Write`: the six write operations share one member, told apart by a `WriteRequest`
  value. Keys, values, tags and TTLs are passed only to name the request. Each member's result is the
  abstract `succeeds(name)`.
- Chained `Get`, `Exists` and `GetKeysByTag` take per-name outcomes instead of calling backends. The
  value that `Get` decodes into its output argument is not modelled.
- The chained methods require every chain name to be registered. They also require the fallback to be
  registered whenever it is actually called. In Go, an unregistered name is a nil-interface call, which
  panics.
- `MemoryDriver.Memory.Set` stores the caller's `tags` slice itself, by reference (drivers/memory/memory.go:52).
  If the caller later writes into that slice, the tags that `RemoveByTag` and `GetKeysByTag` see change. The
  model stores a copy, so it does not capture this aliasing.
- `Cachemar.Applied`: `WithCircuitBreaker` stores the caller's `fallbackCachers` slice by reference
  (options.go:25). Later writes by the caller change the fallbacks the breaker tries. The model stores a
  copy, so it does not capture this aliasing.
- `RemoveFromChain` rebuilds the slice with `append(c.chain[:i], c.chain[i+1:]...)`. This writes into
  the shared backing array, so a caller's slice passed to `Override` can be altered. The model works on
  values, so this aliasing is not captured.
- Go's `int` is taken to be 64 bits wide in `Atoi` and in the wrap-around of `intValue++`/`intValue--`.
- The Redis and Memcached drivers are not part of this model. They pass calls through to network
  clients.
- `helpers.go` (`HashKey`: MD5 and `fmt` formatting) and `cachemar.go` (one-line forwards to
  `Current()`, duplicating the registry) are not part of this model. The `CacherName` constants of
  `defaults.go` are not part of it either.
- `NewWithConfig`, the `MaxSize` capacity and least-recently-used eviction are not modelled. Under them,
  `Get`, a `Set` of an existing key and `Increment` would refresh recency. `tests/memory_lru_test.go`,
  `tests/memory_lru_benchmark_test.go` and `examples/memory_lru_example.go` use them, but they do not
  exist in `drivers/memory/memory.go`.

## Findings

| source | as written | input that shows it | evidently intended | confidence | as-written member | corrected member |
|---|---|---|---|---|---|---|
| drivers/memory/memory.go:159-197 | `Increment`/`Decrement` run `strconv.Atoi` on the stored bytes. Those bytes are a gob encoding compressed with gzip, not decimal text. The adjusted value goes into a local copy of the item and is never stored back. | `Set(ctx, "key1", 0, 10*time.Minute, tags)` then `Increment(ctx, "key1")`. The stored bytes begin with gzip's ID1 byte 0x1f (section 2.3.1 of RFC 1952), so the call returns "value is not an integer" and the stored value stays 0. tests/memory_test.go:51-60 expects nil and then "1". | Decode the stored value with the driver's codec, add or subtract one, re-encode, and store it back under the key with the same tags and expiry. | high; not executed | `MemoryDriver.SetThenIncrement` | `MemoryDriver.Adjusted` |
