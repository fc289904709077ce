# certreloader in Dafny

A model of package certreloader's `Reloader`. It caches one TLS certificate/key pair for a TLS server. The pair is read from two files at construction. After that it is re-read lazily: a certificate request that arrives after the reload interval has elapsed triggers the re-read. A failed re-read is tolerated, and the previously cached pair is still served.

- `wrappers.dfy`: module `Wrappers`. `Option` stands for Go's nilable `error`, and `Result` for a `(value, error)` pair.
- `reloader.dfy`: module `CertReloader`. It holds the data model (`Certificate`, `LoadResult`, `Error`, the 64-bit `Duration` and the 24-hour `DefaultReloadInterval`) and the specification functions on a `State` value (`InitialState`, `Stale`, `ReloadStep`, `CallLoads`, `GetCertificateStep`). It also holds the class `Reloader`, whose methods update its fields in place and are proved against those functions, and `NewReloader`, which returns a fresh `Reloader` or the load error. A ghost field `loads` logs every key-pair read `reload` performs.
- `reloader_properties.dfy`: module `ReloaderProperties`. It has lemmas about single operations and about runs of `GetCertificateFunc` calls. A run (`Run`) records an event log: the key-pair reads of each call, taken from the same `CallLoads` that the method's `loads` contract uses, and each certificate served.

The outside world enters as parameters:
- `time.Now()` becomes a `Time` argument: integer nanoseconds on Go's monotonic clock. `GetCertificateFunc` takes two readings. `checkedAt` is read by `shouldReload` (line 96). `reloadedAt` is read inside `reload` after the load (line 110).
- `tls.LoadX509KeyPair` becomes a `KeyPairSource`. This is a function from a (certificate path, key path) pair to what parsing those files would give at that moment. So the model shows that `reload` reads the paths stored at construction.

The doc comment of `GetCertificateFunc` (reloader.go:73) says the function fails when the reload fails. The code always returns a nil error and the cached certificate, and the model follows the code (`GetCertificateNeverFails`, `StaleCallServesDiskOrCache`).

A zero interval does not reload on every call. `After` is strict, so a request at the same instant as the last reload does not reload (`ZeroIntervalSameInstantKeepsCache`, `NonPositiveIntervals`). A negative interval does reload on every call once the clock runs forward (`NegativeIntervalReloadsOnEveryCall`).

## Model

| member | source | states |
|---|---|---|
| `CertReloader.NewReloader` | reloader.go:37-52 | No reloader exists exactly when the first load fails, and then the wrapped load error is returned. Otherwise the result is a fresh reloader whose fields are `InitialState` and which has read nothing since. |
| `CertReloader.Reloader.constructor` | reloader.go:43-51 | The new reloader holds the loaded bundle, is stamped with the construction time, has the 24-hour default interval, holds the given paths, and has verbose off. Its read log is empty. |
| `CertReloader.Reloader.WithReloadInterval` | reloader.go:55-63 | Sets the interval to any duration, with no validation. Returns the same receiver. No other field changes, and no key pair is read. |
| `CertReloader.Reloader.SetVerbose` | reloader.go:66-69 | Sets only the verbose flag and returns the same receiver. No key pair is read. |
| `CertReloader.Reloader.ShouldReload` | reloader.go:92-97 | True exactly when `now > lastCertReload + reloadInterval` (`Stale` of the fields). It reads the fields and changes nothing. |
| `CertReloader.Reloader.Reload` | reloader.go:101-113 | The state and the error become `ReloadStep` of the old state: the stored paths are read; a failure changes nothing and returns the wrapped error; a success sets exactly the certificate and the time stamp. Exactly one read of the stored paths is logged. |
| `CertReloader.Reloader.GetCertificateFunc` | reloader.go:76-89 | Reads the stored paths once when stale at `checkedAt` and not at all otherwise: the read log grows by `CallLoads` of the old state. Afterwards the fields and the reply are `GetCertificateStep` of the old state. |
| `ReloaderProperties.CallEventsShape` | reloader.go:77-84 | The events logged for one call are one read of the stored paths when stale and none otherwise, followed by the certificate served. |
| `ReloaderProperties.NewReloaderFailsIffLoadFails` | reloader.go:37-41 | Construction fails if and only if the initial load fails, and the error carries that load's cause. |
| `ReloaderProperties.NewCacheServesLoadedForOneDay` | reloader.go:43-51 | A new cache holds the loaded bundle, the construction time, the given paths and verbose off. It serves that bundle without changing state up to 86 400 000 000 000 ns (24 hours) after construction, and is stale 1 ns later. |
| `ReloaderProperties.StaleIsStrict` | reloader.go:92-97 | At exactly `lastCertReload + reloadInterval` the cache is not stale. One nanosecond later it is stale. |
| `ReloaderProperties.StaleIsMonotone` | reloader.go:92-97 | Staleness persists as the clock advances, as long as no reload happens. |
| `ReloaderProperties.NonPositiveIntervals` | reloader.go:96 | With a negative interval, every request at or after the last reload is stale. With a zero interval, a request is stale if and only if it is strictly after the last reload. |
| `ReloaderProperties.IntervalTakesEffect` | reloader.go:55-63 | After the interval is set to `d`, the next staleness check compares the elapsed time against `d`. |
| `ReloaderProperties.ReloadFailureKeepsState` | reloader.go:101-105 | A failed load leaves the whole state unchanged and returns `CouldNotLoadKeypair` with the load's cause. |
| `ReloaderProperties.ReloadSuccessSwapsCertAndStamp` | reloader.go:107-112 | A successful load returns no error. It sets the certificate to the loaded bundle and the time stamp to the reload time, and leaves every other field unchanged. |
| `ReloaderProperties.GetCertificateNeverFails` | reloader.go:76-89 | The hook's error is always nil. The certificate it returns is the one cached after any reload attempt. |
| `ReloaderProperties.FreshCallIgnoresDisk` | reloader.go:76-89 | When not stale, the reply is the unchanged state and the cached bundle, whatever the files hold. |
| `ReloaderProperties.StaleCallServesDiskOrCache` | reloader.go:76-89 | When stale, a load that parses is swapped in, stamped and served. A failed load leaves the state unchanged, the previous bundle is served, and no error is returned. |
| `ReloaderProperties.ZeroIntervalSameInstantKeepsCache` | reloader.go:96 | With a zero interval, a request at the instant of the last reload neither reloads nor changes state. |
| `ReloaderProperties.RunOnlySwapsCertAndStamp` | reloader.go:76-113 | Over any sequence of calls, the only fields that change are the certificate and its time stamp. Those two always hold the bundle and time of the most recent successful load, and change only together. |
| `ReloaderProperties.RunServesLastLoaded` | reloader.go:76-113 | Every certificate served in a run is the one from the last successful load before it. If there was no such load, it is the initial bundle. |
| `ReloaderProperties.WithinIntervalNoReload` | reloader.go:76-97 | Repeated calls within the interval never read the key pair. They leave the state unchanged and each one serves the cached bundle. |
| `ReloaderProperties.FailingDiskKeepsCache` | reloader.go:101-105 | While every load fails, the state stays unchanged and every call serves the original bundle. |
| `ReloaderProperties.SpacedRequestsAlwaysReload` | reloader.go:76-113 | With a forward-running clock, a run of calls that each arrive more than one interval after the previous clock reading reads the key pair exactly once per call. The interval stays fixed, and the time stamp stays at or before the last clock reading. |
| `ReloaderProperties.NegativeIntervalReloadsOnEveryCall` | reloader.go:76-97 | With a negative interval, and with a forward-running clock, every call reads the key pair. |

## Left out

- The `sync.RWMutex` and all concurrency. Each critical section is one atomic step, and calls run one after another. So the model does not cover torn reads, redundant concurrent reloads, or `SetVerbose` writing its field without the lock.
- `tls.LoadX509KeyPair`: PEM/X.509 parsing and file I/O. Its outcome is an input, `KeyPairSource`, and the bundle is an opaque value.
- `time.Now()`: its readings are parameters. Go's split between wall clock and monotonic clock is not modelled. Neither is the saturation of `Time.Add` at the ends of `time.Time`'s range. `Add` is plain integer addition on one clock.
- `logf` and `log.Printf`: logging with no effect on state. `verbose` is kept as a field but nothing reads it.
- `*tls.Certificate` is modelled as a value rather than a pointer. Pointer identity is therefore not modelled, and "never nil" holds by the type. The value is never changed in place, only replaced whole.
- The `*tls.ClientHelloInfo` argument of `GetCertificateFunc` is ignored by the source, and the model omits it.
- `cmd/server/main.go` is not part of this model. It does flag parsing, handler registration and `ListenAndServeTLS`. It also calls `GetCertificateFunc()` with no arguments, which does not match the signature in reloader.go.
