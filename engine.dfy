/**
 * The scan engine: a registry of scanners with an optional exclusion
 * predicate on paths. The Go engine runs its scanners in goroutines; here
 * they run one after another in registration order, which is one of the
 * orders the Go code can produce.
 */
module Engine {
  import opened Wrappers
  import opened Scanner
  import opened Folds

  datatype ScanResult = ScanResult(category: string, targets: seq<Target>, failure: Option<string>)

  datatype ScanStatus = ScanWaiting | ScanStarted | ScanDone

  /** A progress event: the scanner's name, its status, and its outcome once done. */
  datatype ScanProgress = ScanProgress(name: string, status: ScanStatus, targets: seq<Target>, failure: Option<string>)

  /** The targets of `ts` that the exclusion predicate, if any, does not reject. */
  function Kept(exclude: Option<string -> bool>, ts: seq<Target>): seq<Target> {
    if exclude.None? || ts == [] then ts
    else
      var front := Kept(exclude, ts[..|ts| - 1]);
      var t := ts[|ts| - 1];
      if exclude.value(t.path) then front else front + [t]
  }

  /** Without a predicate nothing is removed. */
  lemma KeptNone(ts: seq<Target>)
    ensures Kept(None, ts) == ts
  {
  }

  /** A target is kept exactly when it is in the input and its path is not excluded. */
  lemma {:induction false} KeptMembers(ex: string -> bool, ts: seq<Target>, t: Target)
    ensures t in Kept(Some(ex), ts) <==> t in ts && !ex(t.path)
  {
    if ts != [] {
      KeptMembers(ex, ts[..|ts| - 1], t);
      assert ts == ts[..|ts| - 1] + [ts[|ts| - 1]];
    }
  }

  /** Filtering keeps the survivors in their input order. */
  lemma {:induction false} KeptInOrder(exclude: Option<string -> bool>, ts: seq<Target>)
    ensures IsSubseq(Kept(exclude, ts), ts)
  {
    if exclude.None? {
      SubseqRefl(ts);
    } else if ts != [] {
      var front := ts[..|ts| - 1];
      var t := ts[|ts| - 1];
      KeptInOrder(exclude, front);
      var k := Kept(exclude, front);
      assert ts == front + [t];
      if exclude.value(t.path) {
        SubseqSnoc(k, front, t);
      } else {
        assert (k + [t])[..|k|] == k;
      }
    }
  }

  lemma {:induction false} SubseqRefl<T>(xs: seq<T>)
    ensures IsSubseq(xs, xs)
  {
    if xs != [] {
      SubseqRefl(xs[..|xs| - 1]);
    }
  }

  /** Filtering twice is filtering once. */
  lemma {:induction false} KeptIdempotent(exclude: Option<string -> bool>, ts: seq<Target>)
    ensures Kept(exclude, Kept(exclude, ts)) == Kept(exclude, ts)
  {
    if exclude.Some? && ts != [] {
      var front := ts[..|ts| - 1];
      var t := ts[|ts| - 1];
      KeptIdempotent(exclude, front);
      var k := Kept(exclude, front);
      if !exclude.value(t.path) {
        assert (k + [t])[..|k|] == k;
      }
    }
  }

  /** Filtering a concatenation filters each part. */
  lemma {:induction false} KeptAppend(exclude: Option<string -> bool>, a: seq<Target>, b: seq<Target>)
    ensures Kept(exclude, a + b) == Kept(exclude, a) + Kept(exclude, b)
    decreases |b|
  {
    if exclude.Some? {
      if b == [] {
        assert a + b == a;
      } else {
        var b' := b[..|b| - 1];
        assert (a + b)[..|a + b| - 1] == a + b';
        assert (a + b)[|a + b| - 1] == b[|b| - 1];
        KeptAppend(exclude, a, b');
      }
    }
  }

  /** The targets of the scanners that did not fail, in scanner order. */
  function Successful(ps: seq<Probe>): seq<Target> {
    if ps == [] then []
    else
      var p := ps[|ps| - 1];
      Successful(ps[..|ps| - 1]) + (if p.failure.None? then p.found else [])
  }

  /** The `name: error` messages of the scanners that failed, in scanner order. */
  function Failures(ps: seq<Probe>): seq<string> {
    if ps == [] then []
    else
      var p := ps[|ps| - 1];
      Failures(ps[..|ps| - 1]) + (if p.failure.Some? then [p.name + ": " + p.failure.value] else [])
  }

  /** A target is collected exactly when some scanner that did not fail found it. */
  lemma {:induction false} SuccessfulMembers(ps: seq<Probe>, t: Target)
    ensures t in Successful(ps) <==> exists i :: 0 <= i < |ps| && ps[i].failure.None? && t in ps[i].found
  {
    if ps != [] {
      var front := ps[..|ps| - 1];
      SuccessfulMembers(front, t);
      assert forall i :: 0 <= i < |front| ==> front[i] == ps[i];
    }
  }

  /** There are error messages exactly when some scanner failed. */
  lemma {:induction false} FailuresEmpty(ps: seq<Probe>)
    ensures Failures(ps) == [] <==> forall i :: 0 <= i < |ps| ==> ps[i].failure.None?
  {
    if ps != [] {
      var front := ps[..|ps| - 1];
      FailuresEmpty(front);
      assert forall i :: 0 <= i < |front| ==> front[i] == ps[i];
    }
  }

  /** Scanner `i` is the first one named `name`. */
  predicate FirstNamed(ps: seq<Probe>, i: int, name: string) {
    0 <= i < |ps| && ps[i].name == name && forall j :: 0 <= j < i ==> ps[j].name != name
  }

  function ResultOf(exclude: Option<string -> bool>, p: Probe): ScanResult {
    ScanResult(p.name, Kept(exclude, p.found), p.failure)
  }

  class Engine {
    var scanners: seq<Probe>
    var exclude: Option<string -> bool>

    /** `New`: no scanners and no exclusion predicate. */
    constructor ()
      ensures scanners == [] && exclude == None
    {
      scanners := [];
      exclude := None;
    }

    method Register(s: Probe)
      modifies this
      ensures scanners == old(scanners) + [s]
      ensures exclude == old(exclude)
    {
      scanners := scanners + [s];
    }

    method SetExcludeFunc(f: string -> bool)
      modifies this
      ensures exclude == Some(f)
      ensures scanners == old(scanners)
    {
      exclude := Some(f);
    }

    /** The registered scanners, in registration order. */
    method Scanners() returns (r: seq<Probe>)
      ensures r == scanners
    {
      r := scanners;
    }

    /** `filterExcluded`. */
    method FilterExcluded(ts: seq<Target>) returns (r: seq<Target>)
      ensures r == Kept(exclude, ts)
    {
      if exclude.None? {
        return ts;
      }
      var ex := exclude.value;
      r := [];
      var i := 0;
      while i < |ts|
        invariant 0 <= i <= |ts|
        invariant r == Kept(exclude, ts[..i])
      {
        assert ts[..i + 1][..i] == ts[..i];
        if !ex(ts[i].path) {
          r := r + [ts[i]];
        }
        i := i + 1;
      }
      assert ts[..i] == ts;
    }

    /**
     * `ScanAll`: the targets of every scanner that did not fail, filtered,
     * and the `name: error` message of every scanner that failed (`None`
     * when none did).
     */
    method ScanAll() returns (targets: seq<Target>, errs: Option<seq<string>>)
      ensures scanners == [] ==> targets == [] && errs == None
      ensures targets == Kept(exclude, Successful(scanners))
      ensures errs.None? ==> Failures(scanners) == []
      ensures errs.Some? ==> errs.value == Failures(scanners) && errs.value != []
    {
      if |scanners| == 0 {
        return [], None;
      }
      var collected: seq<Target> := [];
      var failed: seq<string> := [];
      var i := 0;
      while i < |scanners|
        invariant 0 <= i <= |scanners|
        invariant collected == Successful(scanners[..i])
        invariant failed == Failures(scanners[..i])
      {
        var s := scanners[i];
        assert scanners[..i + 1][..i] == scanners[..i];
        if s.failure.Some? {
          failed := failed + [s.name + ": " + s.failure.value];
        } else {
          collected := collected + s.found;
        }
        i := i + 1;
      }
      assert scanners[..i] == scanners;
      targets := FilterExcluded(collected);
      errs := if |failed| > 0 then Some(failed) else None;
    }

    /**
     * `ScanByCategory`: the first scanner whose name is `category` decides
     * the outcome; with no such scanner the result is an "unknown category"
     * error.
     */
    method ScanByCategory(category: string) returns (targets: seq<Target>, err: Option<string>)
      ensures (forall i :: 0 <= i < |scanners| ==> scanners[i].name != category) ==>
                targets == [] && err == Some("unknown category: " + category)
      ensures forall i :: FirstNamed(scanners, i, category) ==>
                targets == Kept(exclude, scanners[i].found) && err == scanners[i].failure
    {
      var i := 0;
      while i < |scanners|
        invariant 0 <= i <= |scanners|
        invariant forall j :: 0 <= j < i ==> scanners[j].name != category
      {
        if scanners[i].name == category {
          targets := FilterExcluded(scanners[i].found);
          err := scanners[i].failure;
          return;
        }
        i := i + 1;
      }
      targets := [];
      err := Some("unknown category: " + category);
    }

    /** `ScanGrouped`: one result per scanner, named after it, filtered. */
    method ScanGrouped() returns (results: seq<ScanResult>)
      ensures |results| == |scanners|
      ensures forall i :: 0 <= i < |scanners| ==> results[i] == ResultOf(exclude, scanners[i])
    {
      results := [];
      var i := 0;
      while i < |scanners|
        invariant 0 <= i <= |scanners|
        invariant |results| == i
        invariant forall k :: 0 <= k < i ==> results[k] == ResultOf(exclude, scanners[k])
      {
        var ts := FilterExcluded(scanners[i].found);
        results := results + [ScanResult(scanners[i].name, ts, scanners[i].failure)];
        i := i + 1;
      }
    }

    /**
     * `ScanGroupedWithProgress`: as `ScanGrouped`, and the progress events
     * (a start and a done event per scanner) when `report` holds.
     * `limit` is the concurrency actually used: at least 1.
     */
    method ScanGroupedWithProgress(concurrency: int, report: bool)
      returns (results: seq<ScanResult>, events: seq<ScanProgress>, limit: int)
      ensures limit == if concurrency < 1 then 1 else concurrency
      ensures |results| == |scanners|
      ensures forall i :: 0 <= i < |scanners| ==> results[i] == ResultOf(exclude, scanners[i])
      ensures !report ==> events == []
      ensures report ==> |events| == 2 * |scanners|
      ensures report ==> forall i :: 0 <= i < |scanners| ==>
                events[2 * i] == ScanProgress(scanners[i].name, ScanStarted, [], None)
                && events[2 * i + 1] == ScanProgress(scanners[i].name, ScanDone, results[i].targets, scanners[i].failure)
    {
      limit := if concurrency < 1 then 1 else concurrency;
      results := [];
      events := [];
      var i := 0;
      while i < |scanners|
        invariant 0 <= i <= |scanners|
        invariant |results| == i
        invariant forall k :: 0 <= k < i ==> results[k] == ResultOf(exclude, scanners[k])
        invariant !report ==> events == []
        invariant report ==> |events| == 2 * i
        invariant report ==> forall k :: 0 <= k < i ==>
                    events[2 * k] == ScanProgress(scanners[k].name, ScanStarted, [], None)
                    && events[2 * k + 1] == ScanProgress(scanners[k].name, ScanDone, results[k].targets, scanners[k].failure)
      {
        var s := scanners[i];
        if report {
          events := events + [ScanProgress(s.name, ScanStarted, [], None)];
        }
        var ts := FilterExcluded(s.found);
        if report {
          events := events + [ScanProgress(s.name, ScanDone, ts, s.failure)];
        }
        results := results + [ScanResult(s.name, ts, s.failure)];
        i := i + 1;
      }
    }
  }

  /**
   * What `ScanAll` promises, stated on its parts: a collected target comes
   * from a scanner that did not fail and is not excluded.
   */
  lemma ScanAllSound(exclude: Option<string -> bool>, ps: seq<Probe>, t: Target)
    requires t in Kept(exclude, Successful(ps))
    ensures exists i :: 0 <= i < |ps| && ps[i].failure.None? && t in ps[i].found
    ensures exclude.Some? ==> !exclude.value(t.path)
  {
    if exclude.Some? {
      KeptMembers(exclude.value, Successful(ps), t);
    }
    SuccessfulMembers(ps, t);
  }
}
