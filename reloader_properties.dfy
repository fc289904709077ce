/**
  Properties of the certificate reloader model: what one call does, and what
  a run of `GetCertificateFunc` calls serves and loads.
*/
module ReloaderProperties {
  import opened Wrappers
  import opened CertReloader

  // ---------------------------------------------------------------------------
  // Construction
  // ---------------------------------------------------------------------------

  /** Construction fails exactly when the first load fails, and then carries that load's error. */
  lemma NewReloaderFailsIffLoadFails(certFile: string, keyFile: string, source: KeyPairSource, now: Time)
    ensures InitialState(certFile, keyFile, source, now).Failure? <==> source(certFile, keyFile).LoadFailed?
    ensures source(certFile, keyFile).LoadFailed? ==>
              InitialState(certFile, keyFile, source, now).error == CouldNotLoadKeypair(source(certFile, keyFile).cause)
  {
  }

  /**
    A cache just built at `now` holds the loaded bundle, the given paths and
    verbose off, and serves that bundle without reading the disk for exactly
    24 hours (86 400 000 000 000 ns); one nanosecond later it is stale.
  */
  lemma NewCacheServesLoadedForOneDay(
    certFile: string, keyFile: string, source: KeyPairSource, now: Time,
    t: Time, disk: KeyPairSource, reloadedAt: Time)
    requires source(certFile, keyFile).Loaded?
    ensures InitialState(certFile, keyFile, source, now).Success?
    ensures var s := InitialState(certFile, keyFile, source, now).value;
      s.cert == source(certFile, keyFile).cert && s.lastCertReload == now &&
      s.certFile == certFile && s.keyFile == keyFile && !s.verbose &&
      (t <= now + 86_400_000_000_000 ==>
         GetCertificateStep(s, t, disk, reloadedAt) == Reply(s, source(certFile, keyFile).cert, None)) &&
      Stale(s, now + 86_400_000_000_001)
  {
  }

  // ---------------------------------------------------------------------------
  // Staleness
  // ---------------------------------------------------------------------------

  /** The comparison is strict: at the deadline itself the cache is fresh, one nanosecond later stale. */
  lemma StaleIsStrict(s: State)
    ensures !Stale(s, s.lastCertReload + s.reloadInterval)
    ensures Stale(s, s.lastCertReload + s.reloadInterval + 1)
  {
  }

  /** Once stale, the cache stays stale as the clock advances (until a reload). */
  lemma StaleIsMonotone(s: State, t: Time, t': Time)
    requires t <= t'
    ensures Stale(s, t) ==> Stale(s, t')
  {
  }

  /**
    A negative interval makes every request from the last reload on stale;
    a zero interval makes only requests strictly after the last reload stale.
  */
  lemma NonPositiveIntervals(s: State, t: Time)
    ensures s.reloadInterval < 0 && t >= s.lastCertReload ==> Stale(s, t)
    ensures s.reloadInterval == 0 ==> (Stale(s, t) <==> t > s.lastCertReload)
  {
  }

  /** The interval set by `WithReloadInterval` is the one the next staleness check uses. */
  lemma IntervalTakesEffect(s: State, d: Duration, t: Time)
    ensures Stale(s.(reloadInterval := d), t) <==> t - s.lastCertReload > d
  {
  }

  // ---------------------------------------------------------------------------
  // Reload
  // ---------------------------------------------------------------------------

  /** A failed reload returns the wrapped error and leaves the state as it was. */
  lemma ReloadFailureKeepsState(s: State, source: KeyPairSource, reloadedAt: Time)
    requires source(s.certFile, s.keyFile).LoadFailed?
    ensures ReloadStep(s, source, reloadedAt).0 == s
    ensures ReloadStep(s, source, reloadedAt).1 == Some(CouldNotLoadKeypair(source(s.certFile, s.keyFile).cause))
  {
  }

  /** A successful reload swaps in the new bundle, stamps it, and changes nothing else. */
  lemma ReloadSuccessSwapsCertAndStamp(s: State, source: KeyPairSource, reloadedAt: Time)
    requires source(s.certFile, s.keyFile).Loaded?
    ensures var (next, err) := ReloadStep(s, source, reloadedAt);
      err == None &&
      next.cert == source(s.certFile, s.keyFile).cert &&
      next.lastCertReload == reloadedAt &&
      next.(cert := s.cert, lastCertReload := s.lastCertReload) == s
  {
  }

  // ---------------------------------------------------------------------------
  // One GetCertificateFunc call
  // ---------------------------------------------------------------------------

  /** The hook never reports an error, and serves the certificate cached after the call. */
  lemma GetCertificateNeverFails(s: State, checkedAt: Time, source: KeyPairSource, reloadedAt: Time)
    ensures GetCertificateStep(s, checkedAt, source, reloadedAt).err == None
    ensures GetCertificateStep(s, checkedAt, source, reloadedAt).cert ==
            GetCertificateStep(s, checkedAt, source, reloadedAt).next.cert
  {
  }

  /** Within the interval the disk is not consulted: whatever it holds, the state is kept and the cached bundle served. */
  lemma FreshCallIgnoresDisk(s: State, checkedAt: Time, source: KeyPairSource, reloadedAt: Time)
    requires !Stale(s, checkedAt)
    ensures GetCertificateStep(s, checkedAt, source, reloadedAt) == Reply(s, s.cert, None)
  {
  }

  /** A stale call serves what is on disk if it parses, and otherwise the previously cached bundle. */
  lemma StaleCallServesDiskOrCache(s: State, checkedAt: Time, source: KeyPairSource, reloadedAt: Time)
    requires Stale(s, checkedAt)
    ensures source(s.certFile, s.keyFile).Loaded? ==>
              GetCertificateStep(s, checkedAt, source, reloadedAt) ==
              Reply(s.(cert := source(s.certFile, s.keyFile).cert, lastCertReload := reloadedAt),
                    source(s.certFile, s.keyFile).cert, None)
    ensures source(s.certFile, s.keyFile).LoadFailed? ==>
              GetCertificateStep(s, checkedAt, source, reloadedAt) == Reply(s, s.cert, None)
  {
  }

  /** With a zero interval, a request at the very instant of the last reload does not reload. */
  lemma ZeroIntervalSameInstantKeepsCache(s: State, source: KeyPairSource, reloadedAt: Time)
    requires s.reloadInterval == 0
    ensures GetCertificateStep(s, s.lastCertReload, source, reloadedAt) == Reply(s, s.cert, None)
  {
  }

  // ---------------------------------------------------------------------------
  // Runs of calls
  // ---------------------------------------------------------------------------

  /** One call of the hook: its two clock readings and the files as the call finds them. */
  datatype Request = Request(checkedAt: Time, disk: KeyPairSource, reloadedAt: Time)

  /** What a call does observably: read the key pair, and hand out a certificate. */
  datatype Event = Attempted(result: LoadResult, at: Time) | Served(cert: Certificate)

  /** Each key-pair read, stamped with the clock reading taken after it. */
  ghost function Stamped(loads: seq<LoadResult>, at: Time): seq<Event>
  {
    if loads == [] then [] else [Attempted(loads[0], at)] + Stamped(loads[1..], at)
  }

  /**
    The events of one call: the reads `Reloader.GetCertificateFunc` appends
    to its `loads` log (`CallLoads`), then the certificate served.
  */
  ghost function CallEvents(s: State, q: Request): seq<Event>
  {
    Stamped(CallLoads(s, q.checkedAt, q.disk), q.reloadedAt) + [Served(GetCertificateStep(s, q.checkedAt, q.disk, q.reloadedAt).cert)]
  }

  /** A call reads the stored paths once when stale, and not at all otherwise. */
  lemma CallEventsShape(s: State, q: Request)
    ensures CallEvents(s, q) ==
      (if Stale(s, q.checkedAt) then [Attempted(q.disk(s.certFile, s.keyFile), q.reloadedAt)] else []) +
      [Served(GetCertificateStep(s, q.checkedAt, q.disk, q.reloadedAt).cert)]
  {
    if Stale(s, q.checkedAt) {
      var x := q.disk(s.certFile, s.keyFile);
      assert CallLoads(s, q.checkedAt, q.disk) == [x];
      assert [x][1..] == [];
      assert Stamped([x], q.reloadedAt) == [Attempted(x, q.reloadedAt)] + Stamped([], q.reloadedAt);
    }
  }

  /** The state after the calls `qs`, one after another, from `s`, and their events. */
  ghost function Run(s: State, qs: seq<Request>): (State, seq<Event>)
    decreases |qs|
  {
    if qs == [] then (s, [])
    else
      var (before, log) := Run(s, qs[..|qs| - 1]);
      var q := qs[|qs| - 1];
      (GetCertificateStep(before, q.checkedAt, q.disk, q.reloadedAt).next, log + CallEvents(before, q))
  }

  /** The most recent successful load in a log, with its time stamp. */
  ghost function LastSuccess(log: seq<Event>): Option<(Certificate, Time)>
  {
    if log == [] then None
    else match log[|log| - 1]
      case Attempted(Loaded(c), at) => Some((c, at))
      case _ => LastSuccess(log[..|log| - 1])
  }

  /** The bundle of the most recent successful load, or `initial` when there was none. */
  ghost function LastLoaded(initial: Certificate, log: seq<Event>): Certificate
  {
    match LastSuccess(log)
    case None => initial
    case Some((c, _)) => c
  }

  /** Every certificate served is the one of the last successful load before it. */
  ghost predicate ServesLastLoaded(initial: Certificate, log: seq<Event>)
  {
    forall i :: 0 <= i < |log| && log[i].Served? ==> log[i].cert == LastLoaded(initial, log[..i])
  }

  /** How many times the key pair was read. */
  ghost function Attempts(log: seq<Event>): nat
  {
    if log == [] then 0
    else Attempts(log[..|log| - 1]) + (if log[|log| - 1].Attempted? then 1 else 0)
  }

  /** Clock readings never go backwards: Go's monotonic clock, read in program order. */
  ghost predicate Chronological(start: Time, qs: seq<Request>)
  {
    (forall i :: 0 <= i < |qs| ==> qs[i].checkedAt <= qs[i].reloadedAt) &&
    (forall i :: 0 < i < |qs| ==> qs[i - 1].reloadedAt <= qs[i].checkedAt) &&
    (|qs| > 0 ==> start <= qs[0].checkedAt)
  }

  lemma {:induction false} LastSuccessSkipsServed(log: seq<Event>, c: Certificate)
    ensures LastSuccess(log + [Served(c)]) == LastSuccess(log)
  {
    assert (log + [Served(c)])[..|log|] == log;
  }

  lemma {:induction false} AttemptsAppend(log: seq<Event>, ev: seq<Event>)
    ensures Attempts(log + ev) == Attempts(log) + Attempts(ev)
    decreases |ev|
  {
    if ev == [] {
      assert log + ev == log;
    } else {
      var n := |ev| - 1;
      assert (log + ev)[..|log + ev| - 1] == log + ev[..n];
      AttemptsAppend(log, ev[..n]);
    }
  }

  /**
    A run changes only the certificate and its time stamp, and leaves them as
    the most recent successful load set them: the interval, the paths and the
    verbose flag are untouched, and the time stamp never moves on its own.
  */
  lemma {:induction false} RunOnlySwapsCertAndStamp(s: State, qs: seq<Request>)
    ensures var (after, log) := Run(s, qs);
      match LastSuccess(log)
      case None => after == s
      case Some((c, at)) => after == s.(cert := c, lastCertReload := at)
  {
    if qs != [] {
      var qs' := qs[..|qs| - 1];
      var q := qs[|qs| - 1];
      var (before, log) := Run(s, qs');
      RunOnlySwapsCertAndStamp(s, qs');
      var r := GetCertificateStep(before, q.checkedAt, q.disk, q.reloadedAt);
      CallEventsShape(before, q);
      LastSuccessSkipsServed(log + (if Stale(before, q.checkedAt) then [Attempted(q.disk(before.certFile, before.keyFile), q.reloadedAt)] else []), r.cert);
      if Stale(before, q.checkedAt) {
        var e := Attempted(q.disk(before.certFile, before.keyFile), q.reloadedAt);
        assert (log + [e])[..|log|] == log;
        assert log + CallEvents(before, q) == (log + [e]) + [Served(r.cert)];
      } else {
        assert log + CallEvents(before, q) == log + [Served(r.cert)];
      }
    }
  }

  /** The certificate served is always the one that last loaded successfully (or the first one). */
  lemma {:induction false} RunServesLastLoaded(s: State, qs: seq<Request>)
    ensures ServesLastLoaded(s.cert, Run(s, qs).1)
  {
    if qs != [] {
      var qs' := qs[..|qs| - 1];
      var q := qs[|qs| - 1];
      var (before, log) := Run(s, qs');
      RunServesLastLoaded(s, qs');
      RunOnlySwapsCertAndStamp(s, qs);
      var r := GetCertificateStep(before, q.checkedAt, q.disk, q.reloadedAt);
      var attempt := if Stale(before, q.checkedAt) then [Attempted(q.disk(before.certFile, before.keyFile), q.reloadedAt)] else [];
      var log' := log + CallEvents(before, q);
      CallEventsShape(before, q);
      assert log' == (log + attempt) + [Served(r.cert)];
      LastSuccessSkipsServed(log + attempt, r.cert);
      forall i | 0 <= i < |log'| && log'[i].Served?
        ensures log'[i].cert == LastLoaded(s.cert, log'[..i])
      {
        if i < |log| {
          assert log'[..i] == log[..i];
        } else if i == |log'| - 1 {
          assert log'[..i] == log + attempt;
        }
      }
    }
  }

  /** Requests that all arrive within the interval never read the disk and always get the cached bundle. */
  lemma {:induction false} WithinIntervalNoReload(s: State, qs: seq<Request>)
    requires forall i :: 0 <= i < |qs| ==> qs[i].checkedAt <= s.lastCertReload + s.reloadInterval
    ensures Run(s, qs).0 == s
    ensures |Run(s, qs).1| == |qs|
    ensures forall i :: 0 <= i < |qs| ==> Run(s, qs).1[i] == Served(s.cert)
  {
    if qs != [] {
      var qs' := qs[..|qs| - 1];
      WithinIntervalNoReload(s, qs');
      assert CallEvents(s, qs[|qs| - 1]) == [Served(s.cert)];
    }
  }

  /** While every load fails, the cache keeps and serves the bundle it had, and never fails a call. */
  lemma {:induction false} FailingDiskKeepsCache(s: State, qs: seq<Request>)
    requires forall i :: 0 <= i < |qs| ==> qs[i].disk(s.certFile, s.keyFile).LoadFailed?
    ensures Run(s, qs).0 == s
    ensures forall i :: 0 <= i < |Run(s, qs).1| && Run(s, qs).1[i].Served? ==> Run(s, qs).1[i].cert == s.cert
  {
    if qs != [] {
      var qs' := qs[..|qs| - 1];
      var log := Run(s, qs').1;
      FailingDiskKeepsCache(s, qs');
      var q := qs[|qs| - 1];
      assert GetCertificateStep(s, q.checkedAt, q.disk, q.reloadedAt) == Reply(s, s.cert, None);
      CallEventsShape(s, q);
      var log' := log + CallEvents(s, q);
      forall i | 0 <= i < |log'| && log'[i].Served?
        ensures log'[i].cert == s.cert
      {
        if i < |log| {
          assert log'[i] == log[i];
        }
      }
    }
  }

  /**
    When the clock runs forward and every request comes more than one interval
    after the previous clock reading, every call reads the key pair once.
  */
  lemma {:induction false} SpacedRequestsAlwaysReload(s: State, qs: seq<Request>)
    requires Chronological(s.lastCertReload, qs)
    requires |qs| > 0 ==> qs[0].checkedAt > s.lastCertReload + s.reloadInterval
    requires forall i :: 0 < i < |qs| ==> qs[i].checkedAt > qs[i - 1].reloadedAt + s.reloadInterval
    ensures Attempts(Run(s, qs).1) == |qs|
    ensures Run(s, qs).0.reloadInterval == s.reloadInterval
    ensures Run(s, qs).0.lastCertReload <= if qs == [] then s.lastCertReload else qs[|qs| - 1].reloadedAt
  {
    if qs != [] {
      var qs' := qs[..|qs| - 1];
      var q := qs[|qs| - 1];
      var (before, log) := Run(s, qs');
      SpacedRequestsAlwaysReload(s, qs');
      assert Stale(before, q.checkedAt);
      var e := Attempted(q.disk(before.certFile, before.keyFile), q.reloadedAt);
      var r := GetCertificateStep(before, q.checkedAt, q.disk, q.reloadedAt);
      CallEventsShape(before, q);
      assert CallEvents(before, q) == [e, Served(r.cert)];
      assert Run(s, qs).1 == log + [e, Served(r.cert)];
      AttemptsAppend(log, [e, Served(r.cert)]);
      assert [e, Served(r.cert)][..1] == [e];
      assert [e][..0] == [];
      assert Attempts([e]) == 1;
    }
  }

  /** With a negative interval and a clock that runs forward, every call reads the key pair. */
  lemma NegativeIntervalReloadsOnEveryCall(s: State, qs: seq<Request>)
    requires s.reloadInterval < 0
    requires Chronological(s.lastCertReload, qs)
    ensures Attempts(Run(s, qs).1) == |qs|
  {
    SpacedRequestsAlwaysReload(s, qs);
  }
}
