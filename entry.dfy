/** The per-entry lazy-load state machine as pure transitions. Each transition gives the
    entry's new state and the events the step produces, in order: every status
    notification the controller raises, every subscriber call it makes, and every call into
    the payload. CacheDataController's methods are proved to perform these transitions. */
module Entry {
  import opened CacheData
  import opened Seqs

  /** A subscriber callback, known by its identity. */
  type Callback = int

  datatype Event =
      /** One call of InternalLoadStatusNotification(status, message). */
    | Raised(status: LoadingStatus, message: string)
      /** One load-status subscriber invoked with (status, loadingKey, message). */
    | Delivered(callback: Callback, status: LoadingStatus, loadingKey: int, message: string)
      /** One call of the payload's Load(internalLoad). */
    | PayloadLoadCalled(internalLoad: bool)
      /** One call of the payload's Clear(). */
    | PayloadClearCalled
      /** One invalidate subscriber invoked. */
    | InvalidateFired(callback: Callback)
      /** The callback given to LoadWithCallback, run after the load. */
    | CallbackRan(callback: Callback)

  /** What a CacheDataController holds: its payload, its loading key, and the invocation
      lists of LoadStatusNotificationEvent and InvalidateNotificationEvent. */
  datatype EntryState = EntryState(
    payload: Payload,
    loadingKey: int,
    loadSubscribers: seq<Callback>,
    invalidateSubscribers: seq<Callback>)

  datatype Transition = Transition(after: EntryState, events: seq<Event>, outcome: Outcome)

  const StartMessage := "Load Started"
  const CompleteMessage := "Load Complete"

  /** A multicast delegate invocation: every subscriber, in subscription order. */
  function Fanout(subs: seq<Callback>, status: LoadingStatus, key: int, message: string): (events: seq<Event>)
  {
    if subs == [] then []
    else [Delivered(subs[0], status, key, message)] + Fanout(subs[1..], status, key, message)
  }

  /** InternalLoadStatusNotification: raise the status and pass it, with the entry's
      loading key, to every load-status subscriber. */
  function Notify(subs: seq<Callback>, key: int, status: LoadingStatus, message: string): (events: seq<Event>)
  {
    [Raised(status, message)] + Fanout(subs, status, key, message)
  }

  /** The payload's progress reports, each forwarded through InternalLoadStatusNotification
      (Initialize wires the payload's event to it). */
  function Forward(subs: seq<Callback>, key: int, progress: seq<Report>): (events: seq<Event>)
  {
    if progress == [] then []
    else Notify(subs, key, progress[0].status, progress[0].message) + Forward(subs, key, progress[1..])
  }

  /** InvalidateNotificationEvent invoked: every invalidate subscriber, in order. */
  function FireAll(subs: seq<Callback>): (events: seq<Event>)
  {
    if subs == [] then [] else [InvalidateFired(subs[0])] + FireAll(subs[1..])
  }

  /** Load(internalLoad): nothing when the payload is cached; otherwise Starting, the
      payload's own load with its forwarded progress, and Loaded once that load returns,
      with the cached flag as the payload's load left it. A payload load that throws leaves
      the entry as it was and skips Loaded. */
  function LoadStep(s: EntryState, internalLoad: bool, run: PayloadLoad): (t: Transition)
  {
    if s.payload.isCached then Transition(s, [], Done)
    else
      var subs, key := s.loadSubscribers, s.loadingKey;
      var begun := Notify(subs, key, Starting, StartMessage) + [PayloadLoadCalled(internalLoad)]
                   + Forward(subs, key, run.progress);
      if run.fails then Transition(s, begun, Failed(PayloadLoadError))
      else Transition(s.(payload := s.payload.(isCached := run.marksCached)),
                      begun + Notify(subs, key, Loaded, CompleteMessage), Done)
  }

  /** Invalidate: clear the cached flag, then invoke every invalidate subscriber. */
  function InvalidateStep(s: EntryState): (t: Transition)
  {
    Transition(s.(payload := s.payload.(isCached := false)), FireAll(s.invalidateSubscribers), Done)
  }

  /** Clear: the payload's Clear, then Invalidate. */
  function ClearStep(s: EntryState): (t: Transition)
  {
    var inv := InvalidateStep(s);
    Transition(inv.after, [PayloadClearCalled] + inv.events, Done)
  }

  /** `events` repeated `n` times: what `n` identical steps produce. */
  function Repeated(events: seq<Event>, n: nat): (all: seq<Event>)
  {
    if n == 0 then [] else Repeated(events, n - 1) + events
  }

  /** A subscriber list after one SetupInvalidateNotification action: Add appends the
      callback, Remove takes its last occurrence out (corrected behaviour, see
      InvalidateSubscriptionAsWritten). */
  function InvalidateSubscription(subs: seq<Callback>, action: CacheNotificationAction, cb: Callback): (subs': seq<Callback>)
  {
    match action
    case Add => subs + [cb]
    case Remove => RemoveLast(subs, cb)
  }

  /** The same action applied `n` times, once per occurrence of an entry in the registry. */
  function InvalidateSubscriptionTimes(subs: seq<Callback>, action: CacheNotificationAction, cb: Callback, n: nat): (subs': seq<Callback>)
  {
    if n == 0 then subs else InvalidateSubscription(InvalidateSubscriptionTimes(subs, action, cb, n - 1), action, cb)
  }

  /** SetupInvalidateNotification as the implementation writes it: the Remove case does nothing. */
  function InvalidateSubscriptionAsWritten(subs: seq<Callback>, action: CacheNotificationAction, cb: Callback): (subs': seq<Callback>)
  {
    match action
    case Add => subs + [cb]
    case Remove => subs
  }

  // ---------------------------------------------------------------------------------
  // Observations extracted from an event sequence.

  /** The statuses raised by InternalLoadStatusNotification, in order. */
  function RaisedStatuses(events: seq<Event>): (statuses: seq<LoadingStatus>)
  {
    if events == [] then []
    else (if events[0].Raised? then [events[0].status] else []) + RaisedStatuses(events[1..])
  }

  /** The statuses delivered to callback `cb`, in order. */
  function HeardBy(events: seq<Event>, cb: Callback): (statuses: seq<LoadingStatus>)
  {
    if events == [] then []
    else (if events[0].Delivered? && events[0].callback == cb then [events[0].status] else [])
         + HeardBy(events[1..], cb)
  }

  /** The internalLoad argument of every call of the payload's Load, in order. */
  function PayloadLoads(events: seq<Event>): (flags: seq<bool>)
  {
    if events == [] then []
    else (if events[0].PayloadLoadCalled? then [events[0].internalLoad] else []) + PayloadLoads(events[1..])
  }

  /** How many times the payload's Clear was called. */
  function PayloadClears(events: seq<Event>): (n: nat)
  {
    if events == [] then 0 else (if events[0].PayloadClearCalled? then 1 else 0) + PayloadClears(events[1..])
  }

  /** The invalidate subscribers invoked, in order. */
  function Fired(events: seq<Event>): (fired: seq<Callback>)
  {
    if events == [] then []
    else (if events[0].InvalidateFired? then [events[0].callback] else []) + Fired(events[1..])
  }

  /** The statuses of a payload's progress reports. */
  function Statuses(progress: seq<Report>): (statuses: seq<LoadingStatus>)
  {
    if progress == [] then [] else [progress[0].status] + Statuses(progress[1..])
  }

  /** Every status repeated `k` times in place: what a subscriber registered `k` times hears. */
  function Spread(statuses: seq<LoadingStatus>, k: nat): (spread: seq<LoadingStatus>)
  {
    if statuses == [] then [] else Repeat(statuses[0], k) + Spread(statuses[1..], k)
  }

  /** Every Delivered event carries loading key `key`. */
  predicate CarriesKey(events: seq<Event>, key: int)
  {
    forall i :: 0 <= i < |events| && events[i].Delivered? ==> events[i].loadingKey == key
  }

  // ---------------------------------------------------------------------------------
  // The extractors distribute over concatenation.

  /** Each extractor of what an event sequence shows distributes over concatenation. */
  lemma ExtractorsAppend(a: seq<Event>, b: seq<Event>, cb: Callback)
    ensures RaisedStatuses(a + b) == RaisedStatuses(a) + RaisedStatuses(b)
    ensures HeardBy(a + b, cb) == HeardBy(a, cb) + HeardBy(b, cb)
    ensures PayloadLoads(a + b) == PayloadLoads(a) + PayloadLoads(b)
    ensures PayloadClears(a + b) == PayloadClears(a) + PayloadClears(b)
    ensures Fired(a + b) == Fired(a) + Fired(b)
  {
    RaisedAppend(a, b);
    HeardAppend(a, b, cb);
    LoadsAppend(a, b);
    ClearsAppend(a, b);
    FiredAppend(a, b);
  }

  lemma {:induction false} RaisedAppend(a: seq<Event>, b: seq<Event>)
    ensures RaisedStatuses(a + b) == RaisedStatuses(a) + RaisedStatuses(b)
  {
    if a == [] {
      assert a + b == b;
    } else {
      assert (a + b)[0] == a[0];
      assert (a + b)[1..] == a[1..] + b;
      RaisedAppend(a[1..], b);
    }
  }

  lemma {:induction false} HeardAppend(a: seq<Event>, b: seq<Event>, cb: Callback)
    ensures HeardBy(a + b, cb) == HeardBy(a, cb) + HeardBy(b, cb)
  {
    if a == [] {
      assert a + b == b;
    } else {
      assert (a + b)[0] == a[0];
      assert (a + b)[1..] == a[1..] + b;
      HeardAppend(a[1..], b, cb);
    }
  }

  lemma {:induction false} LoadsAppend(a: seq<Event>, b: seq<Event>)
    ensures PayloadLoads(a + b) == PayloadLoads(a) + PayloadLoads(b)
  {
    if a == [] {
      assert a + b == b;
    } else {
      assert (a + b)[0] == a[0];
      assert (a + b)[1..] == a[1..] + b;
      LoadsAppend(a[1..], b);
    }
  }

  lemma {:induction false} ClearsAppend(a: seq<Event>, b: seq<Event>)
    ensures PayloadClears(a + b) == PayloadClears(a) + PayloadClears(b)
  {
    if a == [] {
      assert a + b == b;
    } else {
      assert (a + b)[0] == a[0];
      assert (a + b)[1..] == a[1..] + b;
      ClearsAppend(a[1..], b);
    }
  }

  lemma {:induction false} FiredAppend(a: seq<Event>, b: seq<Event>)
    ensures Fired(a + b) == Fired(a) + Fired(b)
  {
    if a == [] {
      assert a + b == b;
    } else {
      assert (a + b)[0] == a[0];
      assert (a + b)[1..] == a[1..] + b;
      FiredAppend(a[1..], b);
    }
  }

  lemma {:induction false} SpreadAppend(a: seq<LoadingStatus>, b: seq<LoadingStatus>, k: nat)
    ensures Spread(a + b, k) == Spread(a, k) + Spread(b, k)
  {
    if a == [] {
      assert a + b == b;
    } else {
      assert (a + b)[0] == a[0];
      assert (a + b)[1..] == a[1..] + b;
      SpreadAppend(a[1..], b, k);
    }
  }

  lemma FanoutFacts(subs: seq<Callback>, status: LoadingStatus, key: int, message: string, cb: Callback)
    ensures var f := Fanout(subs, status, key, message);
      && |f| == |subs|
      && RaisedStatuses(f) == [] && PayloadLoads(f) == [] && PayloadClears(f) == 0 && Fired(f) == []
      && HeardBy(f, cb) == Repeat(status, multiset(subs)[cb])
      && CarriesKey(f, key)
  {
    FanoutQuiet(subs, status, key, message);
    FanoutHeard(subs, status, key, message, cb);
  }

  /** A fan-out raises nothing, calls nothing, and delivers the entry's key only. */
  lemma {:induction false} FanoutQuiet(subs: seq<Callback>, status: LoadingStatus, key: int, message: string)
    ensures var f := Fanout(subs, status, key, message);
      && |f| == |subs|
      && RaisedStatuses(f) == [] && PayloadLoads(f) == [] && PayloadClears(f) == 0 && Fired(f) == []
      && CarriesKey(f, key)
  {
    if subs != [] {
      var head := [Delivered(subs[0], status, key, message)];
      var tail := Fanout(subs[1..], status, key, message);
      FanoutQuiet(subs[1..], status, key, message);
      RaisedAppend(head, tail);
      LoadsAppend(head, tail);
      ClearsAppend(head, tail);
      FiredAppend(head, tail);
      CarriesKeyAppend(head, tail, key);
    }
  }

  lemma RepeatCons<T>(x: T, k: nat)
    ensures [x] + Repeat(x, k) == Repeat(x, k + 1)
  {
    var l, r := [x] + Repeat(x, k), Repeat(x, k + 1);
    assert |l| == |r|;
    forall i | 0 <= i < |l|
      ensures l[i] == r[i]
    {
    }
  }

  /** A callback subscribed `k` times hears a fan-out's status `k` times. */
  lemma {:induction false} FanoutHeard(subs: seq<Callback>, status: LoadingStatus, key: int, message: string, cb: Callback)
    ensures HeardBy(Fanout(subs, status, key, message), cb) == Repeat(status, multiset(subs)[cb])
  {
    if subs != [] {
      var head := [Delivered(subs[0], status, key, message)];
      var tail := Fanout(subs[1..], status, key, message);
      var k := multiset(subs[1..])[cb];
      FanoutHeard(subs[1..], status, key, message, cb);
      HeardAppend(head, tail, cb);
      HeardByOne(head[0], cb);
      CountCons(subs, cb);
      if subs[0] == cb {
        RepeatCons(status, k);
      }
    }
  }

  lemma HeardByOne(e: Event, cb: Callback)
    ensures HeardBy([e], cb) == (if e.Delivered? && e.callback == cb then [e.status] else [])
  {
    assert [e][1..] == [];
  }

  lemma CountCons<T>(s: seq<T>, x: T)
    requires s != []
    ensures multiset(s)[x] == (if s[0] == x then 1 else 0) + multiset(s[1..])[x]
  {
    assert s == [s[0]] + s[1..];
  }

  lemma NotifyFacts(subs: seq<Callback>, key: int, status: LoadingStatus, message: string, cb: Callback)
    ensures var e := Notify(subs, key, status, message);
      && |e| == 1 + |subs| && e[0] == Raised(status, message)
      && RaisedStatuses(e) == [status] && PayloadLoads(e) == [] && PayloadClears(e) == 0 && Fired(e) == []
      && HeardBy(e, cb) == Repeat(status, multiset(subs)[cb])
      && CarriesKey(e, key)
  {
    FanoutFacts(subs, status, key, message, cb);
    ExtractorsAppend([Raised(status, message)], Fanout(subs, status, key, message), cb);
  }

  lemma {:induction false} ForwardFacts(subs: seq<Callback>, key: int, progress: seq<Report>, cb: Callback)
    ensures var e := Forward(subs, key, progress);
      && RaisedStatuses(e) == Statuses(progress) && PayloadLoads(e) == [] && PayloadClears(e) == 0 && Fired(e) == []
      && HeardBy(e, cb) == Spread(Statuses(progress), multiset(subs)[cb])
      && CarriesKey(e, key)
  {
    if progress != [] {
      var head := Notify(subs, key, progress[0].status, progress[0].message);
      NotifyFacts(subs, key, progress[0].status, progress[0].message, cb);
      ForwardFacts(subs, key, progress[1..], cb);
      ExtractorsAppend(head, Forward(subs, key, progress[1..]), cb);
      CarriesKeyAppend(head, Forward(subs, key, progress[1..]), key);
    }
  }

  lemma CarriesKeyAppend(a: seq<Event>, b: seq<Event>, key: int)
    requires CarriesKey(a, key) && CarriesKey(b, key)
    ensures CarriesKey(a + b, key)
  {
    forall i | 0 <= i < |a + b| && (a + b)[i].Delivered?
      ensures (a + b)[i].loadingKey == key
    {
      if i >= |a| {
        assert (a + b)[i] == b[i - |a|];
      }
    }
  }

  lemma {:induction false} FireAllFacts(subs: seq<Callback>, cb: Callback)
    ensures var e := FireAll(subs);
      && Fired(e) == subs && RaisedStatuses(e) == [] && HeardBy(e, cb) == []
      && PayloadLoads(e) == [] && PayloadClears(e) == 0
  {
    if subs != [] {
      FireAllFacts(subs[1..], cb);
      ExtractorsAppend([InvalidateFired(subs[0])], FireAll(subs[1..]), cb);
      assert subs == [subs[0]] + subs[1..];
    }
  }

  /** The events of an uncached load, split into the three phases. */
  lemma LoadPhases(s: EntryState, internalLoad: bool, run: PayloadLoad)
    requires !s.payload.isCached
    ensures var subs, key := s.loadSubscribers, s.loadingKey;
      var start := Notify(subs, key, Starting, StartMessage);
      var middle := [PayloadLoadCalled(internalLoad)] + Forward(subs, key, run.progress);
      var finish := if run.fails then [] else Notify(subs, key, Loaded, CompleteMessage);
      LoadStep(s, internalLoad, run).events == start + middle + finish
  {
    var subs, key := s.loadSubscribers, s.loadingKey;
    var start := Notify(subs, key, Starting, StartMessage);
    var middle := [PayloadLoadCalled(internalLoad)] + Forward(subs, key, run.progress);
    assert start + [PayloadLoadCalled(internalLoad)] + Forward(subs, key, run.progress) == start + middle;
    if run.fails {
      assert start + middle + [] == start + middle;
    }
  }

  lemma LoadPhaseFacts(s: EntryState, internalLoad: bool, run: PayloadLoad, cb: Callback)
    requires !s.payload.isCached
    ensures var e := LoadStep(s, internalLoad, run).events;
      var k := multiset(s.loadSubscribers)[cb];
      && RaisedStatuses(e) == [Starting] + Statuses(run.progress) + (if run.fails then [] else [Loaded])
      && HeardBy(e, cb) == Spread(RaisedStatuses(e), k)
      && PayloadLoads(e) == [internalLoad]
      && PayloadClears(e) == 0 && Fired(e) == []
      && CarriesKey(e, s.loadingKey)
  {
    LoadPhaseStatuses(s, internalLoad, run, cb);
    LoadPhaseCalls(s, internalLoad, run);
    LoadPhaseKey(s, internalLoad, run);
  }

  /** What an uncached load raises, and what a subscriber hears of it. */
  lemma LoadPhaseStatuses(s: EntryState, internalLoad: bool, run: PayloadLoad, cb: Callback)
    requires !s.payload.isCached
    ensures var e := LoadStep(s, internalLoad, run).events;
      var k := multiset(s.loadSubscribers)[cb];
      && RaisedStatuses(e) == [Starting] + Statuses(run.progress) + (if run.fails then [] else [Loaded])
      && HeardBy(e, cb) == Spread(RaisedStatuses(e), k)
  {
    var subs, key := s.loadSubscribers, s.loadingKey;
    var start := Notify(subs, key, Starting, StartMessage);
    var middle := [PayloadLoadCalled(internalLoad)] + Forward(subs, key, run.progress);
    var finish := if run.fails then [] else Notify(subs, key, Loaded, CompleteMessage);
    LoadPhases(s, internalLoad, run);
    NotifyFacts(subs, key, Starting, StartMessage, cb);
    NotifyFacts(subs, key, Loaded, CompleteMessage, cb);
    MiddleFacts(subs, key, internalLoad, run.progress, cb);
    RaisedAppend(start, middle);
    RaisedAppend(start + middle, finish);
    HeardAppend(start, middle, cb);
    HeardAppend(start + middle, finish, cb);
    SpreadOfLoad(Statuses(run.progress), run.fails, multiset(subs)[cb]);
  }

  /** What an uncached load calls: the payload's Load once, nothing else. */
  lemma LoadPhaseCalls(s: EntryState, internalLoad: bool, run: PayloadLoad)
    requires !s.payload.isCached
    ensures var e := LoadStep(s, internalLoad, run).events;
      && PayloadLoads(e) == [internalLoad]
      && PayloadClears(e) == 0 && Fired(e) == []
  {
    var subs, key := s.loadSubscribers, s.loadingKey;
    var start := Notify(subs, key, Starting, StartMessage);
    var middle := [PayloadLoadCalled(internalLoad)] + Forward(subs, key, run.progress);
    var finish := if run.fails then [] else Notify(subs, key, Loaded, CompleteMessage);
    LoadPhases(s, internalLoad, run);
    NotifyFacts(subs, key, Starting, StartMessage, 0);
    NotifyFacts(subs, key, Loaded, CompleteMessage, 0);
    MiddleFacts(subs, key, internalLoad, run.progress, 0);
    LoadPhaseLoads(start, middle, finish, internalLoad);
    LoadPhaseQuiet(start, middle, finish);
  }

  lemma LoadPhaseLoads(start: seq<Event>, middle: seq<Event>, finish: seq<Event>, internalLoad: bool)
    requires PayloadLoads(start) == [] && PayloadLoads(middle) == [internalLoad] && PayloadLoads(finish) == []
    ensures PayloadLoads(start + middle + finish) == [internalLoad]
  {
    LoadsAppend(start, middle);
    LoadsAppend(start + middle, finish);
  }

  lemma LoadPhaseQuiet(start: seq<Event>, middle: seq<Event>, finish: seq<Event>)
    requires PayloadClears(start) == 0 && PayloadClears(middle) == 0 && PayloadClears(finish) == 0
    requires Fired(start) == [] && Fired(middle) == [] && Fired(finish) == []
    ensures PayloadClears(start + middle + finish) == 0 && Fired(start + middle + finish) == []
  {
    ClearsAppend(start, middle);
    ClearsAppend(start + middle, finish);
    FiredAppend(start, middle);
    FiredAppend(start + middle, finish);
  }

  /** The key every delivery of an uncached load carries. */
  lemma LoadPhaseKey(s: EntryState, internalLoad: bool, run: PayloadLoad)
    requires !s.payload.isCached
    ensures CarriesKey(LoadStep(s, internalLoad, run).events, s.loadingKey)
  {
    var subs, key := s.loadSubscribers, s.loadingKey;
    var start := Notify(subs, key, Starting, StartMessage);
    var middle := [PayloadLoadCalled(internalLoad)] + Forward(subs, key, run.progress);
    var finish := if run.fails then [] else Notify(subs, key, Loaded, CompleteMessage);
    LoadPhases(s, internalLoad, run);
    NotifyFacts(subs, key, Starting, StartMessage, 0);
    NotifyFacts(subs, key, Loaded, CompleteMessage, 0);
    MiddleFacts(subs, key, internalLoad, run.progress, 0);
    CarriesKeyAppend(start, middle, key);
    CarriesKeyAppend(start + middle, finish, key);
  }

  /** The payload call and its forwarded progress. */
  lemma MiddleFacts(subs: seq<Callback>, key: int, internalLoad: bool, progress: seq<Report>, cb: Callback)
    ensures var e := [PayloadLoadCalled(internalLoad)] + Forward(subs, key, progress);
      && RaisedStatuses(e) == Statuses(progress) && PayloadLoads(e) == [internalLoad]
      && PayloadClears(e) == 0 && Fired(e) == []
      && HeardBy(e, cb) == Spread(Statuses(progress), multiset(subs)[cb])
      && CarriesKey(e, key)
  {
    var fwd := Forward(subs, key, progress);
    ForwardFacts(subs, key, progress, cb);
    ExtractorsAppend([PayloadLoadCalled(internalLoad)], fwd, cb);
    CarriesKeyAppend([PayloadLoadCalled(internalLoad)], fwd, key);
  }

  lemma SpreadOfLoad(progress: seq<LoadingStatus>, fails: bool, k: nat)
    ensures Spread([Starting] + progress + (if fails then [] else [Loaded]), k)
            == Repeat(Starting, k) + Spread(progress, k) + (if fails then [] else Repeat(Loaded, k))
  {
    assert Spread([Starting], k) == Repeat(Starting, k);
    assert Spread([Loaded], k) == Repeat(Loaded, k);
    SpreadAppend([Starting], progress, k);
    SpreadAppend([Starting] + progress, if fails then [] else [Loaded], k);
  }

  // ---------------------------------------------------------------------------------
  // Properties of one step.

  /** Load on a cached entry changes nothing and calls nobody. */
  lemma LoadWhenCachedDoesNothing(s: EntryState, internalLoad: bool, run: PayloadLoad)
    requires s.payload.isCached
    ensures LoadStep(s, internalLoad, run) == Transition(s, [], Done)
  {
  }

  /** Load on an uncached entry calls the payload's Load exactly once, with the given
      internalLoad flag. When that call returns, the cached flag is whatever the payload set;
      when it throws, the failure propagates and the entry is left as it was. Nothing else
      changes. */
  lemma LoadCallsPayloadOnce(s: EntryState, internalLoad: bool, run: PayloadLoad)
    requires !s.payload.isCached
    ensures var t := LoadStep(s, internalLoad, run);
      && PayloadLoads(t.events) == [internalLoad]
      && PayloadClears(t.events) == 0 && Fired(t.events) == []
      && (run.fails ==> t.after == s && t.outcome == Failed(PayloadLoadError))
      && (!run.fails ==> t.after == s.(payload := s.payload.(isCached := run.marksCached)) && t.outcome == Done)
  {
    LoadPhaseFacts(s, internalLoad, run, 0);
  }

  /** The statuses an uncached load raises: Starting, then each progress report of the
      payload, then Loaded unless the payload's load throws. */
  lemma LoadRaisesStartingProgressLoaded(s: EntryState, internalLoad: bool, run: PayloadLoad)
    requires !s.payload.isCached
    ensures RaisedStatuses(LoadStep(s, internalLoad, run).events)
            == [Starting] + Statuses(run.progress) + (if run.fails then [] else [Loaded])
  {
    LoadPhaseFacts(s, internalLoad, run, 0);
  }

  /** Starting is raised before the payload's Load is called, and on success Loaded is raised
      after it: the first event is the Starting notification, the payload call comes right
      after its fan-out, and the last notification raised is Loaded. */
  lemma LoadOrdersStartPayloadLoaded(s: EntryState, internalLoad: bool, run: PayloadLoad)
    requires !s.payload.isCached
    ensures var e := LoadStep(s, internalLoad, run).events;
      var n := |s.loadSubscribers|;
      && |e| >= n + 2
      && e[0] == Raised(Starting, StartMessage)
      && e[n + 1] == PayloadLoadCalled(internalLoad)
      && (!run.fails ==> e[|e| - 1 - n] == Raised(Loaded, CompleteMessage))
  {
    var subs, key := s.loadSubscribers, s.loadingKey;
    var start := Notify(subs, key, Starting, StartMessage);
    var middle := [PayloadLoadCalled(internalLoad)] + Forward(subs, key, run.progress);
    var finish := if run.fails then [] else Notify(subs, key, Loaded, CompleteMessage);
    LoadPhases(s, internalLoad, run);
    NotifyFacts(subs, key, Starting, StartMessage, 0);
    NotifyFacts(subs, key, Loaded, CompleteMessage, 0);
    var e := start + middle + finish;
    assert e[0] == start[0];
    assert e[|start|] == middle[0];
    if !run.fails {
      assert e[|e| - 1 - |subs|] == finish[0];
    }
  }

  /** Each load-status subscription hears every status the load raises: a callback
      subscribed `k` times hears each status `k` times, in order. */
  lemma LoadDeliversToEverySubscription(s: EntryState, internalLoad: bool, run: PayloadLoad, cb: Callback)
    ensures var e := LoadStep(s, internalLoad, run).events;
      HeardBy(e, cb) == Spread(RaisedStatuses(e), multiset(s.loadSubscribers)[cb])
  {
    if !s.payload.isCached {
      LoadPhaseFacts(s, internalLoad, run, cb);
    }
  }

  /** Every notification a load delivers carries the entry's loading key. */
  lemma LoadDeliveriesCarryLoadingKey(s: EntryState, internalLoad: bool, run: PayloadLoad)
    ensures CarriesKey(LoadStep(s, internalLoad, run).events, s.loadingKey)
  {
    if !s.payload.isCached {
      LoadPhaseFacts(s, internalLoad, run, 0);
    }
  }

  /** Invalidate clears the cached flag, keeps everything else, and invokes each invalidate
      subscriber once, in order, without touching the payload or the load subscribers. */
  lemma InvalidateFiresEverySubscriber(s: EntryState, cb: Callback)
    ensures var t := InvalidateStep(s);
      && t.after == s.(payload := s.payload.(isCached := false))
      && Fired(t.events) == s.invalidateSubscribers
      && RaisedStatuses(t.events) == [] && HeardBy(t.events, cb) == []
      && PayloadLoads(t.events) == [] && PayloadClears(t.events) == 0
  {
    FireAllFacts(s.invalidateSubscribers, cb);
  }

  /** Clear calls the payload's Clear exactly once, leaves the entry uncached and invokes
      every invalidate subscriber, without loading. */
  lemma ClearCallsPayloadClearOnce(s: EntryState)
    ensures var t := ClearStep(s);
      && PayloadClears(t.events) == 1
      && !t.after.payload.isCached
      && Fired(t.events) == s.invalidateSubscribers
      && PayloadLoads(t.events) == []
  {
    FireAllFacts(s.invalidateSubscribers, 0);
    ExtractorsAppend([PayloadClearCalled], FireAll(s.invalidateSubscribers), 0);
  }

  /** A step repeated on its own result repeats its events: what a broadcast to an entry
      that appears several times in the registry produces. */
  lemma InvalidateAgain(s: EntryState)
    ensures InvalidateStep(InvalidateStep(s).after) == InvalidateStep(s)
  {
  }

  lemma ClearAgain(s: EntryState)
    ensures ClearStep(ClearStep(s).after) == ClearStep(s)
  {
  }

  /** A load that leaves the entry cached succeeded, and loading it again is a no-op; a load
      that leaves it uncached (it threw, or the payload did not mark itself cached) leaves the
      entry exactly as it was, so loading it again repeats the attempt. */
  lemma LoadAgain(s: EntryState, internalLoad: bool, run: PayloadLoad, again: bool, run2: PayloadLoad)
    ensures var t := LoadStep(s, internalLoad, run);
      && (t.after.payload.isCached ==> t.outcome == Done && LoadStep(t.after, again, run2) == Transition(t.after, [], Done))
      && (!t.after.payload.isCached ==> t.after == s)
      && (t.outcome.Failed? ==> t.after == s)
  {
  }

  // ---------------------------------------------------------------------------------
  // Sequences of steps, as the tests drive them.

  /** A second Load after one whose payload marked itself cached does not call the payload's
      Load again. */
  lemma LoadTwiceCallsPayloadOnce(s: EntryState, run1: PayloadLoad, run2: PayloadLoad)
    requires !s.payload.isCached && !run1.fails && run1.marksCached
    ensures var t1 := LoadStep(s, false, run1);
      var t2 := LoadStep(t1.after, false, run2);
      && PayloadLoads(t1.events + t2.events) == [false]
      && t2.after == t1.after && t2.after.payload.isCached
  {
    var t1 := LoadStep(s, false, run1);
    LoadCallsPayloadOnce(s, false, run1);
    assert t1.events + [] == t1.events;
  }

  /** A second Load after one that left the payload uncached (it threw, or returned without
      marking itself cached) calls the payload's Load again. */
  lemma LoadTwiceWithoutMarkCallsPayloadTwice(s: EntryState, run1: PayloadLoad, run2: PayloadLoad)
    requires !s.payload.isCached && (run1.fails || !run1.marksCached)
    ensures var t1 := LoadStep(s, false, run1);
      var t2 := LoadStep(t1.after, false, run2);
      && t1.after == s
      && PayloadLoads(t1.events + t2.events) == [false, false]
  {
    var t1 := LoadStep(s, false, run1);
    LoadCallsPayloadOnce(s, false, run1);
    LoadCallsPayloadOnce(t1.after, false, run2);
    LoadsAppend(t1.events, LoadStep(t1.after, false, run2).events);
  }

  /** A payload that reports one Loading message makes the controller raise exactly three
      status notifications: Starting, Loading, Loaded. */
  lemma OneProgressReportMakesThreeNotifications(s: EntryState, internalLoad: bool, message: string)
    requires !s.payload.isCached
    ensures RaisedStatuses(LoadStep(s, internalLoad, PayloadLoad([Report(Loading, message)], false, true)).events)
            == [Starting, Loading, Loaded]
  {
    var run := PayloadLoad([Report(Loading, message)], false, true);
    LoadRaisesStartingProgressLoaded(s, internalLoad, run);
    assert Statuses(run.progress) == [Loading];
  }

  /** A callback subscribed once hears exactly Starting then Loaded from a load whose
      payload reports no progress and returns. */
  lemma SubscriberHearsStartingThenLoaded(s: EntryState, internalLoad: bool, run: PayloadLoad, cb: Callback)
    requires !s.payload.isCached && multiset(s.loadSubscribers)[cb] == 1
    requires run.progress == [] && !run.fails
    ensures HeardBy(LoadStep(s, internalLoad, run).events, cb) == [Starting, Loaded]
  {
    LoadPhaseFacts(s, internalLoad, run, cb);
    assert RaisedStatuses(LoadStep(s, internalLoad, run).events) == [Starting, Loaded];
    assert Spread([Starting, Loaded], 1) == [Starting] + Spread([Loaded], 1);
  }

  /** After a callback subscribed once is removed (delegate subtraction), no later load
      delivers anything to it. */
  lemma RemovedSubscriberHearsNothing(s: EntryState, internalLoad: bool, run: PayloadLoad, cb: Callback)
    requires multiset(s.loadSubscribers)[cb] == 1
    ensures var s' := s.(loadSubscribers := RemoveLast(s.loadSubscribers, cb));
      HeardBy(LoadStep(s', internalLoad, run).events, cb) == []
  {
    var s' := s.(loadSubscribers := RemoveLast(s.loadSubscribers, cb));
    RemoveLastCount(s.loadSubscribers, cb);
    assert multiset(s'.loadSubscribers)[cb] == 0;
    LoadDeliversToEverySubscription(s', internalLoad, run, cb);
    ZeroSpread(RaisedStatuses(LoadStep(s', internalLoad, run).events));
  }

  lemma {:induction false} ZeroSpread(statuses: seq<LoadingStatus>)
    ensures Spread(statuses, 0) == []
  {
    if statuses != [] {
      ZeroSpread(statuses[1..]);
    }
  }

  /** Load, Invalidate, then reading Data: the read finds the entry uncached and forces a
      load through Load(), so the payload's Load(false) has run twice in all and the entry
      ends cached. */
  lemma InvalidatedReadForcesLoad(s: EntryState, run1: PayloadLoad, run2: PayloadLoad)
    requires !s.payload.isCached
    requires !run1.fails && run1.marksCached && !run2.fails && run2.marksCached
    ensures var t1 := LoadStep(s, false, run1);
      var t2 := InvalidateStep(t1.after);
      var t3 := LoadStep(t2.after, false, run2);
      && t1.after.payload.isCached && !t2.after.payload.isCached && t3.after.payload.isCached
      && PayloadLoads(t1.events + t2.events + t3.events) == [false, false]
  {
    var t1 := LoadStep(s, false, run1);
    var t2 := InvalidateStep(t1.after);
    var t3 := LoadStep(t2.after, false, run2);
    LoadCallsPayloadOnce(s, false, run1);
    InvalidateFiresEverySubscriber(t1.after, 0);
    LoadCallsPayloadOnce(t2.after, false, run2);
    ExtractorsAppend(t1.events, t2.events, 0);
    ExtractorsAppend(t1.events + t2.events, t3.events, 0);
  }

  /** As written, Remove leaves an invalidate subscription in place: the callback stays
      subscribed after Add then Remove. */
  lemma AsWrittenRemoveKeepsInvalidateSubscriber(subs: seq<Callback>, cb: Callback)
    ensures var added := InvalidateSubscriptionAsWritten(subs, Add, cb);
      cb in InvalidateSubscriptionAsWritten(added, Remove, cb)
  {
    var added := subs + [cb];
    assert added[|subs|] == cb;
  }

  /** Corrected: Remove undoes Add, so the subscriber list is back to what it was. */
  lemma RemoveUndoesAddInvalidateSubscriber(subs: seq<Callback>, cb: Callback)
    ensures InvalidateSubscription(InvalidateSubscription(subs, Add, cb), Remove, cb) == subs
  {
    var added := subs + [cb];
    assert added[..|added| - 1] == subs;
  }
}
