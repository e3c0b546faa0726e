/**
 Whole runs of a monitored process: a sequence of recorded calls and flushes
 applied to one state, and what reaches the reporting callback over the run.
 */
module Runs {
  import opened Wrappers
  import opened CStrings
  import opened ZomData
  import opened Sequences
  import Decimal

  /** One hook invocation, with the allocator's answers for it. */
  datatype Event =
    | Call(file: CString, func: CString, line: int, growOk: bool, pushOk: bool)
    | ManualFlush(now: int, listOk: bool)
    | AutoFlush(now: int, stamp: int, listOk: bool)

  /** The state after some events, and every string handed to the reporting callback so far. */
  datatype Trace = Trace(state: State, reported: seq<CString>)

  function Apply(st: State, e: Event): (t: Trace)
    requires Valid(st)
    ensures Valid(t.state)
  {
    match e
    case Call(f, g, l, grow, push) => Trace(RecordCall(st, f, g, l, grow, push), [])
    case ManualFlush(now, ok) =>
      var r := Flush(Some(st), now, ok);
      Trace(r.0.value, r.1)
    case AutoFlush(now, stamp, ok) =>
      var r := FlushAutomatic(Some(st), now, stamp, ok);
      Trace(r.0.value, r.1)
  }

  function Run(st: State, events: seq<Event>): (t: Trace)
    requires Valid(st)
    ensures Valid(t.state)
    decreases |events|
  {
    if events == [] then Trace(st, [])
    else
      var before := Run(st, events[..|events| - 1]);
      var step := Apply(before.state, events[|events| - 1]);
      Trace(step.state, before.reported + step.reported)
  }

  /** The sites the calls of a run name, in call order, repeats included. */
  function Sites(events: seq<Event>): seq<Site>
    decreases |events|
  {
    if events == [] then []
    else
      Sites(events[..|events| - 1]) + EventSites(events[|events| - 1])
  }

  function Records(sites: seq<Site>): seq<CString>
    decreases |sites|
  {
    if sites == [] then [] else Records(sites[..|sites| - 1]) + [Record(sites[|sites| - 1])]
  }

  /** Every allocation of every event is granted. */
  predicate Granted(e: Event)
  {
    match e
    case Call(_, _, _, grow, push) => grow && push
    case ManualFlush(_, ok) => ok
    case AutoFlush(_, _, ok) => ok
  }

  /** A state as `new_zomphp_data` leaves it: nothing recorded, nothing pending. */
  predicate Fresh(st: State)
  {
    st.files == map[] && Pending(st.newData) == []
  }

  /** The sites one event names. */
  function EventSites(e: Event): seq<Site>
  {
    match e
    case Call(f, g, l, _, _) => [SiteOf(f, g, l)]
    case _ => []
  }

  /** The store holds exactly the sites called. */
  ghost predicate StoreHolds(files: Store, sites: seq<Site>)
  {
    forall s :: Seen(files, s) <==> s in sites
  }

  /** Reported-then-pending is exactly one record per distinct site, in order of first call. */
  ghost predicate ExactlyReported(t: Trace, sites: seq<Site>)
  {
    && t.reported + Pending(t.state.newData) == Records(Dedup(sites))
    && t.state.newData.Some? && t.state.buffer.Some?
    && StoreHolds(t.state.files, sites)
  }

  /** Reported-then-pending is a subsequence of one record per distinct site, in order of first call. */
  ghost predicate AtMostReported(t: Trace, sites: seq<Site>)
  {
    && IsSubsequence(t.reported + Pending(t.state.newData), Records(Dedup(sites)))
    && StoreHolds(t.state.files, sites)
  }

  function Next(t: Trace, e: Event): Trace
    requires Valid(t.state)
  {
    var step := Apply(t.state, e);
    Trace(step.state, t.reported + step.reported)
  }

  lemma RunSnoc(st: State, events: seq<Event>)
    requires Valid(st) && events != []
    ensures Run(st, events) == Next(Run(st, events[..|events| - 1]), events[|events| - 1])
    ensures Sites(events) == Sites(events[..|events| - 1]) + EventSites(events[|events| - 1])
  {
  }

  /** Deduplicating one more site: a repeat adds nothing, a new site adds its record. */
  lemma DedupSnoc(sites: seq<Site>, s: Site)
    ensures s in sites ==> Dedup(sites + [s]) == Dedup(sites)
    ensures s !in sites ==> Records(Dedup(sites + [s])) == Records(Dedup(sites)) + [Record(s)]
  {
    assert (sites + [s])[..|sites|] == sites;
    var d := Dedup(sites);
    assert (d + [s])[..|d|] == d;
  }

  /** One call keeps the store in step with the sites called. */
  lemma CallStore(st: State, f: CString, g: CString, l: int, grow: bool, push: bool, sites: seq<Site>)
    requires Valid(st) && StoreHolds(st.files, sites)
    ensures StoreHolds(RecordCall(st, f, g, l, grow, push).files, sites + [SiteOf(f, g, l)])
  {
    var r := RecordCall(st, f, g, l, grow, push);
    forall t
      ensures Seen(r.files, t) <==> t in sites + [SiteOf(f, g, l)]
    {
      if t != SiteOf(f, g, l) {
        assert Count(r.files, t) == Count(st.files, t);
      }
    }
  }

  /** With every allocation granted, a call queues the record of a site not called before, and nothing otherwise. */
  lemma CallQueue(st: State, f: CString, g: CString, l: int, sites: seq<Site>)
    requires Valid(st) && StoreHolds(st.files, sites) && st.newData.Some? && st.buffer.Some?
    ensures
      var r := RecordCall(st, f, g, l, true, true);
      && r.newData.Some? && r.buffer.Some?
      && Pending(r.newData) == Pending(st.newData) + (if SiteOf(f, g, l) in sites then [] else [Record(SiteOf(f, g, l))])
  {
    assert Seen(st.files, SiteOf(f, g, l)) <==> SiteOf(f, g, l) in sites;
  }

  /** Pure sequence step of the exactly-once argument. */
  lemma ExactGrows(reported: seq<CString>, before: seq<CString>, after: seq<CString>, sites: seq<Site>, s: Site)
    requires reported + before == Records(Dedup(sites))
    requires after == before + (if s in sites then [] else [Record(s)])
    ensures reported + after == Records(Dedup(sites + [s]))
  {
    DedupSnoc(sites, s);
  }

  lemma NextCall(t: Trace, f: CString, g: CString, l: int, grow: bool, push: bool)
    requires Valid(t.state)
    ensures Next(t, Call(f, g, l, grow, push)) == Trace(RecordCall(t.state, f, g, l, grow, push), t.reported)
  {
  }

  /** A recorded call keeps reported-then-pending exact. */
  lemma ExactCall(t: Trace, f: CString, g: CString, l: int, sites: seq<Site>)
    requires Valid(t.state) && ExactlyReported(t, sites)
    ensures ExactlyReported(Next(t, Call(f, g, l, true, true)), sites + [SiteOf(f, g, l)])
  {
    var r := RecordCall(t.state, f, g, l, true, true);
    NextCall(t, f, g, l, true, true);
    CallStore(t.state, f, g, l, true, true, sites);
    CallQueue(t.state, f, g, l, sites);
    ExactGrows(t.reported, Pending(t.state.newData), Pending(r.newData), sites, SiteOf(f, g, l));
  }

  /** A flush moves the pending records to the reported ones, in order. */
  lemma FlushMoves(t: Trace, e: Event)
    requires Valid(t.state) && !e.Call?
    ensures Next(t, e).reported + Pending(Next(t, e).state.newData) == t.reported + Pending(t.state.newData)
    ensures Next(t, e).state.files == t.state.files && Next(t, e).state.buffer == t.state.buffer
    ensures Granted(e) && t.state.newData.Some? ==> Next(t, e).state.newData.Some?
    ensures EventSites(e) == []
  {
  }

  lemma ExactStep(t: Trace, e: Event, sites: seq<Site>)
    requires Valid(t.state) && ExactlyReported(t, sites) && Granted(e)
    ensures ExactlyReported(Next(t, e), sites + EventSites(e))
  {
    if e.Call? {
      ExactCall(t, e.file, e.func, e.line, sites);
    } else {
      FlushMoves(t, e);
      assert sites + EventSites(e) == sites;
    }
  }

  /** Pure sequence step of the at-most-once argument: a new site may add its record or nothing. */
  lemma SubsequenceGrows(reported: seq<CString>, before: seq<CString>, after: seq<CString>, sites: seq<Site>, s: Site)
    requires IsSubsequence(reported + before, Records(Dedup(sites)))
    requires s !in sites
    requires after == before || after == before + [Record(s)]
    ensures IsSubsequence(reported + after, Records(Dedup(sites + [s])))
  {
    var out := reported + before;
    DedupSnoc(sites, s);
    if after == before {
      SubsequenceExtend(out, Records(Dedup(sites)), Record(s));
    } else {
      assert reported + after == out + [Record(s)];
      SubsequenceSnoc(out, Records(Dedup(sites)), Record(s));
    }
  }

  /** A recorded call keeps reported-then-pending a subsequence of one record per distinct site. */
  lemma AtMostCall(t: Trace, f: CString, g: CString, l: int, grow: bool, push: bool, sites: seq<Site>)
    requires Valid(t.state) && AtMostReported(t, sites)
    ensures AtMostReported(Next(t, Call(f, g, l, grow, push)), sites + [SiteOf(f, g, l)])
  {
    var s := SiteOf(f, g, l);
    var r := RecordCall(t.state, f, g, l, grow, push);
    assert Next(t, Call(f, g, l, grow, push)) == Trace(r, t.reported);
    CallStore(t.state, f, g, l, grow, push, sites);
    if s in sites {
      DedupSnoc(sites, s);
    } else {
      SubsequenceGrows(t.reported, Pending(t.state.newData), Pending(r.newData), sites, s);
    }
  }

  lemma AtMostStep(t: Trace, e: Event, sites: seq<Site>)
    requires Valid(t.state) && AtMostReported(t, sites)
    ensures AtMostReported(Next(t, e), sites + EventSites(e))
  {
    if e.Call? {
      AtMostCall(t, e.file, e.func, e.line, e.growOk, e.pushOk, sites);
    } else {
      FlushMoves(t, e);
      assert sites + EventSites(e) == sites;
    }
  }

  /**
   Exactly-once reporting: when every allocation is granted, the records reported
   so far followed by those still pending are the records of the distinct sites
   called, each once, in order of first call, however flushes are interleaved;
   and the store holds exactly the sites called.
   */
  lemma {:induction false} ExactlyOnce(st: State, events: seq<Event>)
    requires Valid(st) && Fresh(st) && st.newData.Some? && st.buffer.Some?
    requires forall i :: 0 <= i < |events| ==> Granted(events[i])
    ensures Run(st, events).reported + Pending(Run(st, events).state.newData) == Records(Dedup(Sites(events)))
    ensures Run(st, events).state.newData.Some? && Run(st, events).state.buffer.Some?
    ensures forall s :: Seen(Run(st, events).state.files, s) <==> s in Sites(events)
    decreases |events|
  {
    if events == [] {
      assert ExactlyReported(Run(st, events), Sites(events));
    } else {
      var init := events[..|events| - 1];
      ExactlyOnce(st, init);
      RunSnoc(st, events);
      ExactStep(Run(st, init), events[|events| - 1], Sites(init));
    }
  }

  /**
   At-most-once reporting, whatever the allocator answers: what is reported and
   pending is a subsequence of the records of the distinct sites called. A
   refused allocation may lose a record but never repeats or reorders one.
   */
  lemma {:induction false} AtMostOnce(st: State, events: seq<Event>)
    requires Valid(st) && Fresh(st)
    ensures IsSubsequence(Run(st, events).reported + Pending(Run(st, events).state.newData), Records(Dedup(Sites(events))))
    ensures forall s :: Seen(Run(st, events).state.files, s) <==> s in Sites(events)
    decreases |events|
  {
    if events == [] {
      assert Run(st, events).reported + Pending(Run(st, events).state.newData) == [];
    } else {
      var init := events[..|events| - 1];
      AtMostOnce(st, init);
      RunSnoc(st, events);
      AtMostStep(Run(st, init), events[|events| - 1], Sites(init));
    }
  }

  /** The `%d` numerals of the two line numbers the scenarios use. */
  lemma ScenarioNumerals()
    ensures Decimal.Decimal(10) == "10" && Decimal.Decimal(11) == "11"
  {
    assert Decimal.Digits(10) == "10";
    assert Decimal.Digits(11) == "11";
  }

  /** The record of line `n` of function f in a.php. */
  lemma ScenarioRecord(n: CString)
    ensures Record(Site("a.php", "f", n)) == "a.php:f:" + n + "\n"
  {
    RecordFormat(Site("a.php", "f", n));
  }

  /** The key and the record of site (a.php, f, n) for the two lines the scenarios use. */
  lemma ScenarioSites()
    ensures SiteOf("a.php", "f", 10) == Site("a.php", "f", "10")
    ensures SiteOf("a.php", "f", 11) == Site("a.php", "f", "11")
    ensures Record(Site("a.php", "f", "10")) == "a.php:f:10\n"
    ensures Record(Site("a.php", "f", "11")) == "a.php:f:11\n"
  {
    ScenarioNumerals();
    ScenarioRecord("10");
    ScenarioRecord("11");
  }

  /** A first call on a state with a queue and a buffer, all allocations granted, queues its record. */
  lemma FirstCallQueues(st: State, file: CString, func: CString, lineno: int)
    requires Valid(st) && st.newData.Some? && st.buffer.Some? && !Seen(st.files, SiteOf(file, func, lineno))
    ensures
      var r := RecordCall(st, file, func, lineno, true, true);
      && r.newData.Some? && r.buffer.Some?
      && Pending(r.newData) == Pending(st.newData) + [Record(SiteOf(file, func, lineno))]
  {
  }

  /** Scenario: the same call twice queues one record. */
  lemma RepeatQueuesOnce(now: int)
    ensures
      var st := NewData(true, now).value;
      var s1 := RecordCall(st, "a.php", "f", 10, true, true);
      var s2 := RecordCall(s1, "a.php", "f", 10, true, true);
      && Pending(s1.newData) == ["a.php:f:10\n"]
      && Pending(s2.newData) == Pending(s1.newData)
  {
    ScenarioSites();
    var st := NewData(true, now).value;
    FirstCallQueues(st, "a.php", "f", 10);
  }

  /** Two one-record steps append the two records in order. */
  lemma TwoSteps<T>(p0: seq<T>, p1: seq<T>, p2: seq<T>, x: T, y: T)
    requires p1 == p0 + [x] && p2 == p1 + [y]
    ensures p2 == p0 + [x, y]
  {
  }

  /** Two calls on distinct lines, on an empty store, queue the two records in call order. */
  lemma TwoCallsQueue(st: State, file: CString, func: CString, a: int, b: int)
    requires Valid(st) && st.files == map[] && st.newData.Some? && st.buffer.Some?
    requires SiteOf(file, func, a) != SiteOf(file, func, b)
    ensures
      var s2 := RecordCall(RecordCall(st, file, func, a, true, true), file, func, b, true, true);
      Pending(s2.newData) == Pending(st.newData) + [Record(SiteOf(file, func, a)), Record(SiteOf(file, func, b))]
  {
    var s1 := RecordCall(st, file, func, a, true, true);
    FirstCallQueues(st, file, func, a);
    assert Count(s1.files, SiteOf(file, func, b)) == Count(st.files, SiteOf(file, func, b));
    FirstCallQueues(s1, file, func, b);
    var s2 := RecordCall(s1, file, func, b, true, true);
    TwoSteps(Pending(st.newData), Pending(s1.newData), Pending(s2.newData), Record(SiteOf(file, func, a)), Record(SiteOf(file, func, b)));
  }

  /** Scenario: two lines of one function queue two records. */
  lemma TwoLinesQueueTwo(now: int)
    ensures
      var st := NewData(true, now).value;
      var s1 := RecordCall(st, "a.php", "f", 10, true, true);
      var s2 := RecordCall(s1, "a.php", "f", 11, true, true);
      Pending(s2.newData) == ["a.php:f:10\n", "a.php:f:11\n"]
  {
    ScenarioSites();
    TwoCallsQueue(NewData(true, now).value, "a.php", "f", 10, 11);
  }

  /** Two calls on an empty store leave exactly their two lines in the function's line table. */
  lemma TwoCallsStore(st: State, file: CString, func: CString, a: int, b: int)
    requires Valid(st) && st.files == map[]
    ensures
      var s2 := RecordCall(RecordCall(st, file, func, a, true, true), file, func, b, true, true);
      forall k :: Seen(s2.files, Site(file, func, k)) <==> k == SiteOf(file, func, a).line || k == SiteOf(file, func, b).line
  {
    var s1 := RecordCall(st, file, func, a, true, true);
    CallStore(st, file, func, a, true, true, []);
    CallStore(s1, file, func, b, true, true, [SiteOf(file, func, a)]);
  }

  /** Scenario: after lines 10 and 11 of one function, the function's line table holds exactly those two. */
  lemma TwoLinesStored(now: int)
    ensures
      var st := NewData(true, now).value;
      var s1 := RecordCall(st, "a.php", "f", 10, true, true);
      var s2 := RecordCall(s1, "a.php", "f", 11, true, true);
      forall k :: Seen(s2.files, Site("a.php", "f", k)) <==> k == "10" || k == "11"
  {
    ScenarioSites();
    TwoCallsStore(NewData(true, now).value, "a.php", "f", 10, 11);
  }

  /**
   In the source as written, a call that misses the cache (a different file,
   function or line from the last call) queues its record whatever the store holds.
   */
  lemma AsWrittenMissQueues(st: State, file: CString, func: CString, lineno: int)
    requires ValidAsWritten(st) && st.newData.Some? && st.buffer.Some?
    requires !(st.lastFile == Some(file) && st.lastFunc == Some(func) && st.lastLine == Some(SiteOf(file, func, lineno).line))
    ensures
      var r := RecordCallAsWritten(st, file, func, lineno, true, true);
      && r.newData.Some? && r.buffer.Some?
      && Pending(r.newData) == Pending(st.newData) + [Record(SiteOf(file, func, lineno))]
  {
  }

  /** Three one-record steps append the three records in order. */
  lemma ThreeSteps<T>(p0: seq<T>, p1: seq<T>, p2: seq<T>, p3: seq<T>, x: T, y: T, z: T)
    requires p1 == p0 + [x] && p2 == p1 + [y] && p3 == p2 + [z]
    ensures p3 == p0 + [x, y, z]
  {
  }

  /**
   In the source as written, calling line `a`, then another line `b`, then `a`
   again queues the record for `a` twice.
   */
  lemma AsWrittenRevisit(st: State, file: CString, func: CString, a: int, b: int)
    requires ValidAsWritten(st) && st.newData.Some? && st.buffer.Some? && st.lastLine.None?
    requires SiteOf(file, func, a).line != SiteOf(file, func, b).line
    ensures
      var s1 := RecordCallAsWritten(st, file, func, a, true, true);
      var s2 := RecordCallAsWritten(s1, file, func, b, true, true);
      var s3 := RecordCallAsWritten(s2, file, func, a, true, true);
      Pending(s3.newData) == Pending(st.newData) +
        [Record(SiteOf(file, func, a)), Record(SiteOf(file, func, b)), Record(SiteOf(file, func, a))]
  {
    var s1 := RecordCallAsWritten(st, file, func, a, true, true);
    var s2 := RecordCallAsWritten(s1, file, func, b, true, true);
    var s3 := RecordCallAsWritten(s2, file, func, a, true, true);
    AsWrittenMissQueues(st, file, func, a);
    AsWrittenMissQueues(s1, file, func, b);
    AsWrittenMissQueues(s2, file, func, a);
    ThreeSteps(Pending(st.newData), Pending(s1.newData), Pending(s2.newData), Pending(s3.newData),
      Record(SiteOf(file, func, a)), Record(SiteOf(file, func, b)), Record(SiteOf(file, func, a)));
  }

  /**
   The source as written queues a site again once the cache has moved on:
   lines 10, 11, 10 of one function queue the record for line 10 twice.
   */
  lemma AsWrittenQueuesTwice(now: int)
    ensures
      var st := NewData(true, now).value;
      var s1 := RecordCallAsWritten(st, "a.php", "f", 10, true, true);
      var s2 := RecordCallAsWritten(s1, "a.php", "f", 11, true, true);
      var s3 := RecordCallAsWritten(s2, "a.php", "f", 10, true, true);
      Pending(s3.newData) == ["a.php:f:10\n", "a.php:f:11\n", "a.php:f:10\n"]
  {
    ScenarioSites();
    AsWrittenRevisit(NewData(true, now).value, "a.php", "f", 10, 11);
  }

  /** The corrected store on the same calls queues line 10 once. */
  lemma CorrectedQueuesOnce(now: int)
    ensures
      var st := NewData(true, now).value;
      var s1 := RecordCall(st, "a.php", "f", 10, true, true);
      var s2 := RecordCall(s1, "a.php", "f", 11, true, true);
      var s3 := RecordCall(s2, "a.php", "f", 10, true, true);
      Pending(s3.newData) == ["a.php:f:10\n", "a.php:f:11\n"]
  {
    TwoLinesQueueTwo(now);
    TwoLinesStored(now);
    ScenarioSites();
  }

  /** A flush does not make the store forget: a site seen before it is not queued again after it. */
  lemma FlushThenRepeatQueuesNothing(st: State, now: int, listOk: bool, file: CString, func: CString, lineno: int, growOk: bool, pushOk: bool)
    requires Valid(st) && Seen(st.files, SiteOf(file, func, lineno))
    ensures
      var flushed := Flush(Some(st), now, listOk).0.value;
      Pending(RecordCall(flushed, file, func, lineno, growOk, pushOk).newData) == []
  {
  }
}
