/**
  A model of the `Reloader` type of package certreloader: a cache of one TLS
  certificate/key pair that is re-read from disk, lazily, when a request
  arrives after the reload interval has elapsed.

  The outside world enters as parameters:
  - the clock: `time.Now()` becomes a `Time` argument, an integer count of
    nanoseconds on the monotonic clock that Go's `time.Now()` reads;
  - the files: `tls.LoadX509KeyPair` becomes a `KeyPairSource`, the function
    from a (certificate path, key path) pair to what parsing those files
    would yield at the moment of the call.
  Each critical section of the source's read-write mutex is one atomic step.
*/
module CertReloader {
  import opened Wrappers

  /** An instant, in nanoseconds, on the monotonic clock. */
  type Time = int

  const MinDuration: int := -0x8000_0000_0000_0000
  const MaxDuration: int := 0x7FFF_FFFF_FFFF_FFFF

  /** A `time.Duration`: a signed 64-bit count of nanoseconds. */
  type Duration = d: int | MinDuration <= d <= MaxDuration

  const Second: Duration := 1_000_000_000
  const Hour: Duration := 3600 * Second

  /** `defaultReloadInterval`: 24 hours. */
  const DefaultReloadInterval: Duration := Hour * 24

  /**
    The parsed bundle `tls.LoadX509KeyPair` yields: the DER-encoded chain and
    the private key. The reloader never looks inside it; it only stores the
    whole value and hands it out.
  */
  datatype Certificate = Certificate(chain: seq<seq<bv8>>, privateKey: seq<bv8>)

  /** What `tls.LoadX509KeyPair` returns: a bundle, or the underlying error's text. */
  datatype LoadResult = Loaded(cert: Certificate) | LoadFailed(cause: string)

  /** The key-pair files as they are on disk at one instant. */
  type KeyPairSource = (string, string) -> LoadResult

  /** `fmt.Errorf("could not load keypair: %w", err)`: the load error, wrapped. */
  datatype Error = CouldNotLoadKeypair(cause: string)

  /** Every field of a `Reloader` but its mutex. */
  datatype State = State(
    cert: Certificate,
    lastCertReload: Time,
    reloadInterval: Duration,
    certFile: string,
    keyFile: string,
    verbose: bool)

  /** What `GetCertificateFunc` leaves behind and returns. */
  datatype Reply = Reply(next: State, cert: Certificate, err: Option<Error>)

  /** `NewReloader`: the cache built from the first load, or that load's error. */
  function InitialState(certFile: string, keyFile: string, source: KeyPairSource, now: Time): Result<State, Error>
  {
    match source(certFile, keyFile)
    case LoadFailed(cause) => Failure(CouldNotLoadKeypair(cause))
    case Loaded(cert) => Success(State(cert, now, DefaultReloadInterval, certFile, keyFile, false))
  }

  /** `shouldReload`: `now` is strictly after `lastCertReload.Add(reloadInterval)`. */
  predicate Stale(s: State, now: Time)
  {
    now > s.lastCertReload + s.reloadInterval
  }

  /**
    `reload`: load the stored paths; on failure keep everything and return the
    wrapped error, on success swap in the new bundle stamped `reloadedAt`.
  */
  function ReloadStep(s: State, source: KeyPairSource, reloadedAt: Time): (State, Option<Error>)
  {
    match source(s.certFile, s.keyFile)
    case LoadFailed(cause) => (s, Some(CouldNotLoadKeypair(cause)))
    case Loaded(cert) => (s.(cert := cert, lastCertReload := reloadedAt), None)
  }

  /** The key-pair reads a `GetCertificateFunc` call performs: one read of the stored paths when stale, none otherwise. */
  function CallLoads(s: State, checkedAt: Time, source: KeyPairSource): seq<LoadResult>
  {
    if Stale(s, checkedAt) then [source(s.certFile, s.keyFile)] else []
  }

  /**
    `GetCertificateFunc`: reload first if stale at `checkedAt` (the reload's
    error is only logged), then serve whatever is cached, with no error.
  */
  function GetCertificateStep(s: State, checkedAt: Time, source: KeyPairSource, reloadedAt: Time): Reply
  {
    var next := if Stale(s, checkedAt) then ReloadStep(s, source, reloadedAt).0 else s;
    Reply(next, next.cert, None)
  }

  /** The certificate cache. `certFile` and `keyFile` are never written after construction. */
  class Reloader {
    var cert: Certificate
    var lastCertReload: Time
    var reloadInterval: Duration
    const certFile: string
    const keyFile: string
    var verbose: bool
    /** Every `tls.LoadX509KeyPair` result `reload` has obtained since construction, oldest first. */
    ghost var loads: seq<LoadResult>

    /** The fields, as one value. */
    function Snapshot(): State
      reads this
    {
      State(cert, lastCertReload, reloadInterval, certFile, keyFile, verbose)
    }

    /** The struct literal of `NewReloader`, after its first load succeeded. */
    constructor (cert: Certificate, now: Time, certFile: string, keyFile: string)
      ensures Snapshot() == State(cert, now, DefaultReloadInterval, certFile, keyFile, false)
      ensures loads == []
    {
      this.cert := cert;
      this.lastCertReload := now;
      this.reloadInterval := DefaultReloadInterval;
      this.certFile := certFile;
      this.keyFile := keyFile;
      this.verbose := false;
      this.loads := [];
    }

    /** Sets the interval, with no check on its sign, and returns the receiver. */
    method WithReloadInterval(duration: Duration) returns (self: Reloader)
      modifies this
      ensures self == this
      ensures Snapshot() == old(Snapshot()).(reloadInterval := duration)
      ensures loads == old(loads)
    {
      reloadInterval := duration;
      self := this;
    }

    /** Sets the verbose flag and returns the receiver. */
    method SetVerbose(verbose: bool) returns (self: Reloader)
      modifies this
      ensures self == this
      ensures Snapshot() == old(Snapshot()).(verbose := verbose)
      ensures loads == old(loads)
    {
      this.verbose := verbose;
      self := this;
    }

    /** `shouldReload`: `Stale` of the current fields; it only reads them. */
    predicate ShouldReload(now: Time): (b: bool)
      reads this
      ensures b <==> now > lastCertReload + reloadInterval
    {
      Stale(Snapshot(), now)
    }

    /** Re-reads the stored paths; `reloadedAt` is the clock reading taken after the load. */
    method Reload(source: KeyPairSource, reloadedAt: Time) returns (err: Option<Error>)
      modifies this
      ensures (Snapshot(), err) == ReloadStep(old(Snapshot()), source, reloadedAt)
      ensures loads == old(loads) + [source(certFile, keyFile)]
    {
      var loaded := source(certFile, keyFile);
      loads := loads + [loaded];
      match loaded
      case LoadFailed(cause) =>
        err := Some(CouldNotLoadKeypair(cause));
      case Loaded(c) =>
        cert := c;
        lastCertReload := reloadedAt;
        err := None;
    }

    /**
      The TLS certificate-selection hook. `checkedAt` is the clock reading of
      the staleness check, `reloadedAt` the one taken inside a reload.
    */
    method GetCertificateFunc(checkedAt: Time, source: KeyPairSource, reloadedAt: Time)
      returns (c: Certificate, err: Option<Error>)
      modifies this
      ensures Reply(Snapshot(), c, err) == GetCertificateStep(old(Snapshot()), checkedAt, source, reloadedAt)
      ensures loads == old(loads) + CallLoads(old(Snapshot()), checkedAt, source)
    {
      if ShouldReload(checkedAt) {
        var reloadErr := Reload(source, reloadedAt);
        // A failed reload is only logged; the cached certificate is still served.
      }
      c, err := cert, None;
    }
  }

  /** `NewReloader`: loads the pair once; on failure there is no reloader, only the error. */
  method NewReloader(certFile: string, keyFile: string, source: KeyPairSource, now: Time)
    returns (r: Reloader?, err: Option<Error>)
    ensures r == null <==> err.Some?
    ensures InitialState(certFile, keyFile, source, now).Failure? ==>
              err == Some(InitialState(certFile, keyFile, source, now).error)
    ensures InitialState(certFile, keyFile, source, now).Success? ==>
              r != null && fresh(r) && r.Snapshot() == InitialState(certFile, keyFile, source, now).value && r.loads == []
  {
    var loaded := source(certFile, keyFile);
    match loaded
    case LoadFailed(cause) =>
      r, err := null, Some(CouldNotLoadKeypair(cause));
    case Loaded(c) =>
      r := new Reloader(c, now, certFile, keyFile);
      err := None;
  }
}
