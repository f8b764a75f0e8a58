/** ICacheController / CacheController: the ordered list of entry controllers, the data
    store it saves to and loads from, queries by type or key, broadcasts, and subscription
    routing. The list may hold one controller several times (Add does not check), so every
    broadcast is stated per controller with the number of times it occurs. */
module Registry {
  import opened CacheData
  import opened Entry
  import opened Seqs
  import opened DataController
  import Generator

  /** The payloads of `es`, in order. */
  function PayloadsOf(es: seq<CacheDataController>): (ps: seq<Payload>)
    reads es
    ensures |ps| == |es| && forall i :: 0 <= i < |es| ==> ps[i] == es[i].payload
  {
    seq(|es|, i reads es requires 0 <= i < |es| => es[i].payload)
  }

  /** `Where(...).ToList()` over a controller list: the controllers whose payload `m` selects,
      in list order, i.e. the controllers at the positions Matching lists. */
  function Where(es: seq<CacheDataController>, m: Match): (r: seq<CacheDataController>)
    reads es
    ensures var idx := Matching(PayloadsOf(es), m);
      |r| == |idx| && forall j :: 0 <= j < |r| ==> r[j] == es[idx[j]]
  {
    if es == [] then []
    else
      var n := |es| - 1;
      var front := es[..n];
      var r := Where(front, m);
      WhereStep(es, m, r);
      r + (if m.Holds(es[n].payload) then [es[n]] else [])
  }

  /** The recursive step of Where: the last controller is kept exactly when Matching
      lists its position. */
  lemma WhereStep(es: seq<CacheDataController>, m: Match, r: seq<CacheDataController>)
    requires es != []
    requires var idx := Matching(PayloadsOf(es[..|es| - 1]), m);
      |r| == |idx| && forall j :: 0 <= j < |r| ==> r[j] == es[..|es| - 1][idx[j]]
    ensures var idx := Matching(PayloadsOf(es), m);
      var w := r + (if m.Holds(es[|es| - 1].payload) then [es[|es| - 1]] else []);
      |w| == |idx| && forall j :: 0 <= j < |w| ==> w[j] == es[idx[j]]
  {
    var n := |es| - 1;
    var ps := PayloadsOf(es);
    var fps := PayloadsOf(es[..n]);
    assert fps == ps[..n];
    var front := Matching(fps, m);
    var idx := Matching(ps, m);
    var tail := if m.Holds(ps[n]) then [n] else [];
    assert idx == front + tail;
    var w := r + (if m.Holds(es[n].payload) then [es[n]] else []);
    forall j | 0 <= j < |w|
      ensures w[j] == es[idx[j]]
    {
      if j < |r| {
        assert w[j] == r[j] && idx[j] == front[j];
      } else {
        assert w[j] == es[n] && idx[j] == n;
      }
    }
  }

  /** Registering one more controller extends what `m` selects by that controller exactly
      when `m` selects its payload. */
  lemma WhereAppend(es: seq<CacheDataController>, c: CacheDataController, m: Match)
    ensures Where(es + [c], m) == Where(es, m) + (if m.Holds(c.payload) then [c] else [])
  {
    assert (es + [c])[..|es|] == es;
  }

  lemma ConcatAssociates<T>(a: seq<T>, b: seq<T>, c: seq<T>)
    ensures (a + b) + c == a + (b + c)
  {
  }

  /** The per-entry operations the registry runs over its whole list: Clear, Invalidate,
      and Load() with each payload's own load behaving as `run` says. */
  datatype Sweep = ClearAll | InvalidateAll | LoadAll(run: Payload -> PayloadLoad) {
    /** One call of the operation on an entry in state `s`. */
    function Step(s: EntryState): (t: Transition)
      ensures t.outcome.Failed? ==> LoadAll? && t.outcome == Failed(PayloadLoadError)
    {
      match this
      case ClearAll => ClearStep(s)
      case InvalidateAll => InvalidateStep(s)
      case LoadAll(run) => LoadStep(s, false, run(s.payload))
    }

    /** Whether calls after a successful first one do nothing (a loaded entry is cached). */
    predicate Once() {
      LoadAll?
    }

    /** One more call continues from where `k` calls left the entry, which is `s0` or the
        state after the first call `t`, with the outcome of the first call. */
    lemma {:induction false} OneMore(s0: EntryState, k: nat)
      ensures var t := Step(s0);
        var u := Step(if k == 0 then s0 else t.after);
        && u.after == t.after
        && Times(t, Once(), k + 1) == Times(t, Once(), k) + u.events
        && u.outcome == t.outcome
    {
      if k > 0 {
        match this
        case ClearAll => ClearAgain(s0);
        case InvalidateAll => InvalidateAgain(s0);
        case LoadAll(run) =>
          var t := Step(s0);
          LoadAgain(s0, false, run(s0.payload), false, run(t.after.payload));
      }
    }
  }

  /** What `k` calls raise, invoke and call when the first call is `t`: with `once`, a
      first call that leaves the entry cached leaves nothing for the later ones to do;
      otherwise every call repeats the first one. */
  function Times(t: Transition, once: bool, k: nat): (events: seq<Event>) {
    if once && t.after.payload.isCached then (if k == 0 then [] else t.events) else Repeated(t.events, k)
  }

  /** `e`, which was in state `s0` with trace `t0`, has taken `k` calls of `b`'s step. */
  ghost predicate Stepped(e: CacheDataController, b: Sweep, s0: EntryState, t0: seq<Event>, k: nat)
    reads e
  {
    var t := b.Step(s0);
    e.State() == (if k == 0 then s0 else t.after) && e.trace == t0 + Times(t, b.Once(), k)
  }

  /** The state an entry that started in `s0` reaches after `k` visits of
      SetupInvalidateNotification: the action is applied `k` times when `m` selects its
      payload, otherwise never. */
  function SubscribedState(s0: EntryState, m: Match, action: CacheNotificationAction, callback: Callback, k: nat): (s: EntryState) {
    var n := if m.Holds(s0.payload) then k else 0;
    s0.(invalidateSubscribers := InvalidateSubscriptionTimes(s0.invalidateSubscribers, action, callback, n))
  }

  /** `e`, which was in state `s0` with trace `t0`, has had the SetupInvalidateNotification
      action applied once per visit: `k` times when `m` selects its payload, otherwise never. */
  ghost predicate Subscribed(e: CacheDataController, s0: EntryState, t0: seq<Event>, m: Match,
                             action: CacheNotificationAction, callback: Callback, k: nat)
    reads e
  {
    e.State() == SubscribedState(s0, m, action, callback, k) && e.trace == t0
  }

  /** One visit of SetupInvalidateNotification to an entry in state `s`: the action is
      applied when `m` selects the entry's payload. */
  function SubscribeStep(s: EntryState, m: Match, action: CacheNotificationAction, callback: Callback): (s': EntryState) {
    if m.Holds(s.payload) then s.(invalidateSubscribers := InvalidateSubscription(s.invalidateSubscribers, action, callback))
    else s
  }

  /** `k` applications of `step` to `s`. */
  function Iterate(step: EntryState -> EntryState, s: EntryState, k: nat): (s': EntryState) {
    if k == 0 then s else step(Iterate(step, s, k - 1))
  }

  /** Every entry of `entries` is in `now` in the state `step` takes it to from `before`,
      once per position before `i` it holds. */
  ghost predicate Visited(entries: seq<CacheDataController>, i: nat, before: map<CacheDataController, EntryState>,
                          now: map<CacheDataController, EntryState>, step: EntryState -> EntryState)
    requires i <= |entries|
  {
    && (forall e :: e in entries ==> e in before && e in now)
    && forall e {:trigger now[e]} :: e in entries ==> now[e] == Iterate(step, before[e], Occurrences(entries, i, e))
  }

  /** Visiting position `i` steps the entry there once and leaves every other one alone. */
  lemma VisitedStep(entries: seq<CacheDataController>, i: nat, before: map<CacheDataController, EntryState>,
                    now: map<CacheDataController, EntryState>, step: EntryState -> EntryState)
    requires i < |entries| && Visited(entries, i, before, now, step)
    ensures Visited(entries, i + 1, before, now[entries[i] := step(now[entries[i]])], step)
  {
    var next := now[entries[i] := step(now[entries[i]])];
    forall e | e in entries
      ensures next[e] == Iterate(step, before[e], Occurrences(entries, i + 1, e))
    {
      assert now[e] == Iterate(step, before[e], Occurrences(entries, i, e));
    }
  }

  /** What Visited says of one entry. */
  lemma VisitedAt(entries: seq<CacheDataController>, i: nat, before: map<CacheDataController, EntryState>,
                  now: map<CacheDataController, EntryState>, step: EntryState -> EntryState, e: CacheDataController)
    requires i <= |entries| && Visited(entries, i, before, now, step) && e in entries
    ensures e in before && e in now && now[e] == Iterate(step, before[e], Occurrences(entries, i, e))
  {
    assert now[e] == Iterate(step, before[e], Occurrences(entries, i, e));
  }

  /** Iterating the one-visit step is the `k`-visit state. */
  lemma {:induction false} IterateSubscribes(step: EntryState -> EntryState, s0: EntryState, m: Match,
                                             action: CacheNotificationAction, callback: Callback, k: nat)
    requires forall s :: step(s) == SubscribeStep(s, m, action, callback)
    ensures Iterate(step, s0, k) == SubscribedState(s0, m, action, callback, k)
  {
    if k > 0 {
      IterateSubscribes(step, s0, m, action, callback, k - 1);
      SubscribedStateStep(s0, m, action, callback, k - 1);
    }
  }

  /** Once every position is visited, each entry is in the state its number of positions
      in the list leads to. */
  lemma VisitedAll(entries: seq<CacheDataController>, before: map<CacheDataController, EntryState>,
                   now: map<CacheDataController, EntryState>, step: EntryState -> EntryState,
                   m: Match, action: CacheNotificationAction, callback: Callback, e: CacheDataController)
    requires Visited(entries, |entries|, before, now, step) && e in entries
    requires forall s :: step(s) == SubscribeStep(s, m, action, callback)
    ensures e in before && e in now
    ensures now[e] == SubscribedState(before[e], m, action, callback, multiset(entries)[e])
  {
    var k := Occurrences(entries, |entries|, e);
    VisitedAt(entries, |entries|, before, now, step, e);
    IterateSubscribes(step, before[e], m, action, callback, k);
    OccurrencesCount(entries, |entries|, e);
    assert entries[..|entries|] == entries;
  }

  /** One more visit is one more SubscribeStep. */
  lemma SubscribedStateStep(s0: EntryState, m: Match, action: CacheNotificationAction, callback: Callback, k: nat)
    ensures SubscribedState(s0, m, action, callback, k + 1) == SubscribeStep(SubscribedState(s0, m, action, callback, k), m, action, callback)
  {
    var s := SubscribedState(s0, m, action, callback, k);
    assert s.payload == s0.payload;
    if m.Holds(s0.payload) {
      assert InvalidateSubscriptionTimes(s0.invalidateSubscribers, action, callback, k + 1)
          == InvalidateSubscription(s.invalidateSubscribers, action, callback);
    }
  }

  /** MemoryCacheDataStore: the stored content, as the payloads it holds. */
  class DataStore {
    var storage: seq<Payload>

    constructor (content: seq<Payload>)
      ensures storage == content
    {
      storage := content;
    }

    /** Save(model): the stored content becomes the given payloads. */
    method Save(model: seq<Payload>)
      modifies this
      ensures storage == model
    {
      storage := model;
    }
  }

  class CacheController {
    /** Cache. */
    var cache: seq<CacheDataController>
    /** DataStore; null until SetupDataStore. */
    var dataStore: DataStore?
    /** The callbacks LoadWithCallback has run, in order. */
    ghost var completed: seq<Callback>

    constructor ()
      ensures cache == [] && dataStore == null && completed == []
    {
      cache := [];
      dataStore := null;
      completed := [];
    }

    /** The payloads of the entries, in registry order. */
    function Payloads(): (ps: seq<Payload>)
      reads this, cache
      ensures ps == PayloadsOf(cache)
    {
      PayloadsOf(cache)
    }

    /** Empty: there is no data in the cache, that is, no query by type, by key or by both
        selects anything. */
    function Empty(): (r: bool)
      reads this, cache
      ensures r <==> forall m: Match :: GetData(m) == []
    {
      NoEntryIffNoQuerySelects();
      |cache| == 0
    }

    /** The registry holds no entry exactly when every query comes back empty: an entry
        would be selected at least by its own type. */
    lemma NoEntryIffNoQuerySelects()
      ensures |cache| == 0 <==> forall m: Match :: GetData(m) == []
    {
      if |cache| == 0 {
        forall m: Match ensures GetData(m) == [] {
          MatchingEmptyIffNoMatch(Payloads(), m);
        }
      } else {
        var m := ByType(cache[0].payload.tag);
        MatchingEmptyIffNoMatch(Payloads(), m);
        assert GetData(m) != [];
      }
    }

    /** GetData(type) and GetData(key): the entries whose payload `m` selects, in registry order. */
    function GetData(m: Match): (r: seq<CacheDataController>)
      reads this, cache
      ensures var idx := Matching(Payloads(), m);
        |r| == |idx| && forall j :: 0 <= j < |r| ==> r[j] == cache[idx[j]]
    {
      Where(cache, m)
    }

    /** EmptyByType: no entry's payload has the type; the same as GetData(type) finding nothing. */
    function EmptyByType(tag: TypeTag): (r: bool)
      reads this, cache
      ensures r <==> GetData(ByType(tag)) == []
    {
      MatchingEmptyIffNoMatch(Payloads(), ByType(tag));
      forall k :: 0 <= k < |cache| ==> cache[k].payload.tag != tag
    }

    /** EmptyByTypeAndKey: no entry's payload has both the type and the key; the same as
        GetData(key, type) finding nothing. */
    function EmptyByTypeAndKey(tag: TypeTag, key: string): (r: bool)
      reads this, cache
      ensures r <==> GetData(ByKeyAndType(key, tag)) == []
    {
      MatchingEmptyIffNoMatch(Payloads(), ByKeyAndType(key, tag));
      !exists k :: 0 <= k < |cache| && cache[k].payload.tag == tag && cache[k].payload.key == key
    }

    /** The first entry `m` selects, as the foreach over Where(...) that returns from its
        first iteration finds it: its position, or nothing when no entry is selected. */
    method FirstMatch(m: Match) returns (position: Option<nat>)
      ensures position.None? <==> forall k :: 0 <= k < |cache| ==> !m.Holds(cache[k].payload)
      ensures position.Some? ==> position.value < |cache| && m.Holds(cache[position.value].payload)
      ensures position.Some? ==> forall k :: 0 <= k < position.value ==> !m.Holds(cache[k].payload)
    {
      var i := 0;
      while i < |cache|
        invariant i <= |cache|
        invariant forall k :: 0 <= k < i ==> !m.Holds(cache[k].payload)
      {
        if m.Holds(cache[i].payload) {
          return Some(i);
        }
        i := i + 1;
      }
      return None;
    }

    /** The entry FirstMatch finds is the first one GetData returns. */
    lemma FirstMatchHeadsGetData(m: Match, index: nat)
      requires index < |cache| && m.Holds(cache[index].payload)
      requires forall k :: 0 <= k < index ==> !m.Holds(cache[k].payload)
      ensures GetData(m) != [] && GetData(m)[0] == cache[index]
    {
      MatchingStartsAtFirstMatch(Payloads(), m, index);
    }

    /** FirstMatch finds nothing exactly when GetData returns nothing. */
    lemma NoMatchEmptiesGetData(m: Match)
      ensures GetData(m) == [] <==> forall k :: 0 <= k < |cache| ==> !m.Holds(cache[k].payload)
    {
      MatchingEmptyIffNoMatch(Payloads(), m);
    }

    /** Add: the controller is appended. */
    method Add(controller: CacheDataController)
      modifies this
      ensures cache == old(cache) + [controller]
      ensures dataStore == old(dataStore) && completed == old(completed)
    {
      cache := cache + [controller];
    }

    /** Remove: the first occurrence of the controller leaves the list (List.Remove). */
    method Remove(controller: CacheDataController)
      modifies this
      ensures cache == RemoveFirst(old(cache), controller)
      ensures dataStore == old(dataStore) && completed == old(completed)
    {
      cache := RemoveFirst(cache, controller);
    }

    /** SetupDataStore: binds the store used by Save and Load. */
    method SetupDataStore(store: DataStore?)
      modifies this
      ensures dataStore == store && cache == old(cache) && completed == old(completed)
    {
      dataStore := store;
    }

    /** Save: hands every entry's payload, in registry order, to the store; without a
        store it fails with a configuration error. Entries are not loaded first. */
    method Save() returns (outcome: Outcome)
      modifies dataStore
      ensures dataStore == null ==> outcome == Failed(ConfigurationError)
      ensures dataStore != null ==> outcome == Done && dataStore.storage == Payloads()
    {
      if dataStore == null {
        return Failed(ConfigurationError);
      }
      dataStore.Save(Payloads());
      outcome := Done;
    }

    /** InternalLoadDataStore: every payload the store holds, in order, wrapped in a new
        controller (constructed, then Initialize) and appended to the list. */
    method AppendFromStore()
      requires dataStore != null
      modifies this
      ensures dataStore == old(dataStore) && completed == old(completed)
      ensures |cache| == |old(cache)| + |dataStore.storage| && cache[..|old(cache)|] == old(cache)
      ensures forall j :: |old(cache)| <= j < |cache| ==>
        && fresh(cache[j])
        && cache[j].State() == EntryState(dataStore.storage[j - |old(cache)|], 0, [], [])
        && cache[j].trace == []
      ensures forall j, k :: |old(cache)| <= j < k < |cache| ==> cache[j] != cache[k]
    {
      var model := dataStore.storage;
      var i := 0;
      while i < |model|
        invariant 0 <= i <= |model|
        invariant dataStore == old(dataStore) && completed == old(completed)
        invariant |cache| == |old(cache)| + i && cache[..|old(cache)|] == old(cache)
        invariant forall j :: |old(cache)| <= j < |cache| ==>
          && fresh(cache[j])
          && cache[j].State() == EntryState(model[j - |old(cache)|], 0, [], [])
          && cache[j].trace == []
        invariant forall j, k :: |old(cache)| <= j < k < |cache| ==> cache[j] != cache[k]
      {
        var controller := new CacheDataController(model[i]);
        cache := cache + [controller];
        i := i + 1;
      }
    }

    /** One call of `b`'s step on `c`. */
    static method StepOne(b: Sweep, c: CacheDataController) returns (outcome: Outcome)
      modifies c
      ensures var t := b.Step(old(c.State()));
        c.State() == t.after && c.trace == old(c.trace) + t.events && outcome == t.outcome
    {
      match b {
        case ClearAll => c.Clear(); outcome := Done;
        case InvalidateAll => c.Invalidate(); outcome := Done;
        case LoadAll(run) => outcome := c.Load(false, run(c.payload));
      }
    }

    /** Every entry's state and trace as they are now, and the outcome `b`'s step would have
        at each position. */
    ghost method Snapshot(b: Sweep) returns (before: map<CacheDataController, EntryState>,
                                             traces: map<CacheDataController, seq<Event>>,
                                             outs: seq<Outcome>)
      ensures forall e: CacheDataController :: e in cache ==> e in before && e in traces
      ensures forall e: CacheDataController :: e in cache ==> before[e] == e.State() && traces[e] == e.trace
      ensures |outs| == |cache|
      ensures forall k :: 0 <= k < |cache| ==> outs[k] == b.Step(cache[k].State()).outcome
    {
      before := map e: CacheDataController | e in cache :: e.State();
      traces := map e: CacheDataController | e in cache :: e.trace;
      outs := seq(|cache|, k reads this, cache requires 0 <= k < |cache| => b.Step(cache[k].State()).outcome);
    }

    /** Every entry has taken `b`'s step once for each of its occurrences in the first
        `i` positions, measured from the snapshot `before` / `traces`. */
    ghost predicate SweptUpTo(b: Sweep, i: nat, before: map<CacheDataController, EntryState>,
                              traces: map<CacheDataController, seq<Event>>)
      requires i <= |cache|
      reads this, cache
    {
      && (forall e: CacheDataController :: e in cache ==> e in before && e in traces)
      && forall e: CacheDataController {:trigger Stepped(e, b, before[e], traces[e], Occurrences(cache, i, e))} ::
           e in cache ==> Stepped(e, b, before[e], traces[e], Occurrences(cache, i, e))
    }

    /** The body of a sweep: the entry at position `i` takes the step. */
    method StepEntry(b: Sweep, i: nat, ghost before: map<CacheDataController, EntryState>,
                     ghost traces: map<CacheDataController, seq<Event>>) returns (outcome: Outcome)
      requires i < |cache| && SweptUpTo(b, i, before, traces)
      modifies cache
      ensures SweptUpTo(b, i + 1, before, traces)
      ensures outcome == b.Step(before[cache[i]]).outcome
    {
      var e := cache[i];
      ghost var n := Occurrences(cache, i, e);
      ghost var s1, t1 := e.State(), e.trace;
      ghost var t := b.Step(before[e]);
      assert Stepped(e, b, before[e], traces[e], n);
      b.OneMore(before[e], n);
      outcome := StepOne(b, e);
      assert e.trace == traces[e] + Times(t, b.Once(), n + 1) by {
        assert s1 == (if n == 0 then before[e] else t.after);
        assert t1 == traces[e] + Times(t, b.Once(), n);
        assert Times(t, b.Once(), n + 1) == Times(t, b.Once(), n) + b.Step(s1).events;
        ConcatAssociates(traces[e], Times(t, b.Once(), n), b.Step(s1).events);
      }
      forall x: CacheDataController | x in cache
        ensures Stepped(x, b, before[x], traces[x], Occurrences(cache, i + 1, x))
      {
        assert Occurrences(cache, i + 1, x) == Occurrences(cache, i, x) + (if x == e then 1 else 0);
        if x != e {
          assert x.State() == old(x.State()) && x.trace == old(x.trace);
          assert old(Stepped(x, b, before[x], traces[x], Occurrences(cache, i, x)));
        }
      }
    }

    /** The loop of a sweep, from the first position: with `stopOnFailure` the first failing
        step ends it (an exception leaving the foreach); `reached` is the number of positions
        visited and `done` the number of steps that succeeded. */
    method SweepLoop(b: Sweep, stopOnFailure: bool, ghost before: map<CacheDataController, EntryState>,
                     ghost traces: map<CacheDataController, seq<Event>>, ghost outs: seq<Outcome>)
      returns (done: nat, outcome: Outcome, ghost reached: nat)
      requires SweptUpTo(b, 0, before, traces)
      requires |outs| == |cache| && forall k {:trigger outs[k]} :: 0 <= k < |cache| ==> outs[k] == b.Step(before[cache[k]]).outcome
      modifies cache
      ensures reached <= |cache| && SweptUpTo(b, reached, before, traces)
      ensures done <= reached
      ensures done == reached <==> forall k :: 0 <= k < reached ==> outs[k].Done?
      ensures outcome.Done? <==> reached == |cache| && (stopOnFailure ==> done == reached)
      ensures outcome.Failed? ==> stopOnFailure && 0 < reached && done == reached - 1
      ensures outcome.Failed? ==> outcome == outs[reached - 1]
    {
      done, outcome := 0, Done;
      var i := 0;
      while i < |cache| && outcome.Done?
        invariant 0 <= i <= |cache|
        invariant SweptUpTo(b, i, before, traces)
        invariant done <= i
        invariant done == i <==> forall k :: 0 <= k < i ==> outs[k].Done?
        invariant outcome.Done? ==> (stopOnFailure ==> done == i)
        invariant outcome.Failed? ==> stopOnFailure && 0 < i && done == i - 1 && outcome == outs[i - 1]
      {
        var o := StepEntry(b, i, before, traces);
        assert o == outs[i];
        i := i + 1;
        if o.Done? {
          done := done + 1;
        } else if stopOnFailure {
          outcome := o;
        }
      }
      reached := i;
    }

    /** Runs `b`'s step on the entries in registry order; see SweepLoop. `outs` lists the
        outcome the step has at each position, from the state the entries start in. */
    method RunSweep(b: Sweep, stopOnFailure: bool)
      returns (done: nat, outcome: Outcome, ghost reached: nat, ghost outs: seq<Outcome>)
      modifies cache
      ensures reached <= |cache|
      ensures forall e: CacheDataController {:trigger Stepped(e, b, old(e.State()), old(e.trace), multiset(cache[..reached])[e])} ::
        e in cache ==> Stepped(e, b, old(e.State()), old(e.trace), multiset(cache[..reached])[e])
      ensures |outs| == |cache|
      ensures forall k {:trigger outs[k]} :: 0 <= k < |cache| ==> outs[k] == b.Step(old(cache[k].State())).outcome
      ensures done <= reached
      ensures done == reached <==> forall k :: 0 <= k < reached ==> outs[k].Done?
      ensures outcome.Done? <==> reached == |cache| && (stopOnFailure ==> done == reached)
      ensures outcome.Failed? ==> stopOnFailure && 0 < reached && done == reached - 1
      ensures outcome.Failed? ==> outcome == outs[reached - 1]
    {
      ghost var before: map<CacheDataController, EntryState>;
      ghost var traces: map<CacheDataController, seq<Event>>;
      before, traces, outs := Snapshot(b);
      SweptNothing(b, before, traces);
      done, outcome, reached := SweepLoop(b, stopOnFailure, before, traces, outs);
      SweptCounts(b, reached, before, traces);
      forall e: CacheDataController | e in cache
        ensures Stepped(e, b, old(e.State()), old(e.trace), multiset(cache[..reached])[e])
      {
        assert before[e] == old(e.State()) && traces[e] == old(e.trace);
        assert Stepped(e, b, before[e], traces[e], multiset(cache[..reached])[e]);
      }
    }

    /** Before a sweep, every entry has taken no step. */
    lemma SweptNothing(b: Sweep, before: map<CacheDataController, EntryState>,
                       traces: map<CacheDataController, seq<Event>>)
      requires forall e: CacheDataController :: e in cache ==> e in before && e in traces
      requires forall e: CacheDataController :: e in cache ==> before[e] == e.State() && traces[e] == e.trace
      ensures SweptUpTo(b, 0, before, traces)
    {
      forall e: CacheDataController | e in cache
        ensures Stepped(e, b, before[e], traces[e], Occurrences(cache, 0, e))
      {
      }
    }

    /** After a sweep up to `i`, each entry has taken one step per occurrence in the prefix. */
    lemma SweptCounts(b: Sweep, i: nat, before: map<CacheDataController, EntryState>,
                      traces: map<CacheDataController, seq<Event>>)
      requires i <= |cache| && SweptUpTo(b, i, before, traces)
      ensures forall e: CacheDataController {:trigger before[e]} :: e in cache ==>
        e in before && e in traces && Stepped(e, b, before[e], traces[e], multiset(cache[..i])[e])
    {
      forall e: CacheDataController | e in cache
        ensures e in before && e in traces && Stepped(e, b, before[e], traces[e], multiset(cache[..i])[e])
      {
        OccurrencesCount(cache, i, e);
      }
    }

    /** Clear: Clear on every entry, in registry order. */
    method Clear()
      modifies cache
      ensures forall e: CacheDataController :: e in cache ==>
        var t := ClearStep(old(e.State()));
        e.State() == t.after && e.trace == old(e.trace) + Repeated(t.events, multiset(cache)[e])
    {
      var _, _, reached, _ := RunSweep(ClearAll, false);
      assert cache[..reached] == cache;
      forall e: CacheDataController | e in cache
        ensures Stepped(e, ClearAll, old(e.State()), old(e.trace), multiset(cache)[e])
      {
      }
    }

    /** Invalidate: Invalidate on every entry, in registry order; each returns with its
        flag cleared and its subscribers run. */
    method Invalidate()
      modifies cache
      ensures forall e: CacheDataController :: e in cache ==>
        var t := InvalidateStep(old(e.State()));
        e.State() == t.after && e.trace == old(e.trace) + Repeated(t.events, multiset(cache)[e])
    {
      var _, _, reached, _ := RunSweep(InvalidateAll, false);
      assert cache[..reached] == cache;
      forall e: CacheDataController | e in cache
        ensures Stepped(e, InvalidateAll, old(e.State()), old(e.trace), multiset(cache)[e])
      {
      }
    }

    /** The shared body of Load and LoadWithCallback once a store is bound:
        InternalLoadDataStore, then Load() on every entry in registry order. The new entries
        start from their stored payloads; `starts` and `traces0` give every position's state
        and trace before the loads, and `done` counts the loads that returned normally. */
    method LoadFromStore(run: Payload -> PayloadLoad, stopOnFailure: bool)
      returns (done: nat, outcome: Outcome, ghost reached: nat,
               ghost starts: seq<EntryState>, ghost traces0: seq<seq<Event>>)
      requires dataStore != null
      modifies this, cache
      ensures dataStore == old(dataStore) && completed == old(completed)
      ensures |cache| == |old(cache)| + |dataStore.storage| && cache[..|old(cache)|] == old(cache)
      ensures forall j :: |old(cache)| <= j < |cache| ==> fresh(cache[j])
      ensures |starts| == |cache| && |traces0| == |cache|
      ensures forall j :: 0 <= j < |old(cache)| ==> starts[j] == old(cache[j].State()) && traces0[j] == old(cache[j].trace)
      ensures forall j :: |old(cache)| <= j < |cache| ==>
        starts[j] == EntryState(dataStore.storage[j - |old(cache)|], 0, [], []) && traces0[j] == []
      ensures reached <= |cache|
      ensures forall j :: 0 <= j < |cache| ==>
        Stepped(cache[j], LoadAll(run), starts[j], traces0[j], multiset(cache[..reached])[cache[j]])
      ensures done <= reached
      ensures done == reached <==> forall k :: 0 <= k < reached ==> LoadAll(run).Step(starts[k]).outcome.Done?
      ensures outcome.Done? <==> reached == |cache| && (stopOnFailure ==> done == reached)
      ensures outcome.Failed? ==> stopOnFailure && 0 < reached && done == reached - 1
      ensures outcome.Failed? ==> outcome == Failed(PayloadLoadError)
    {
      AppendFromStore();
      starts := seq(|cache|, j reads this, cache requires 0 <= j < |cache| => cache[j].State());
      traces0 := seq(|cache|, j reads this, cache requires 0 <= j < |cache| => cache[j].trace);
      forall j | 0 <= j < |old(cache)|
        ensures starts[j] == old(cache[j].State()) && traces0[j] == old(cache[j].trace)
      {
        assert cache[j] == old(cache[j]);
      }
      label Appended:
      ghost var outs;
      done, outcome, reached, outs := RunSweep(LoadAll(run), stopOnFailure);
      forall j | 0 <= j < |cache|
        ensures starts[j] == old@Appended(cache[j].State()) && traces0[j] == old@Appended(cache[j].trace)
        ensures Stepped(cache[j], LoadAll(run), starts[j], traces0[j], multiset(cache[..reached])[cache[j]])
        ensures outs[j] == LoadAll(run).Step(starts[j]).outcome
      {
      }
    }

    /** Load: without a store, a configuration error and nothing changes; otherwise the
        stored payloads are appended as new entries and every entry is loaded in registry
        order, the first load that throws ending the operation. */
    method Load(run: Payload -> PayloadLoad)
      returns (outcome: Outcome, ghost done: nat, ghost reached: nat,
               ghost starts: seq<EntryState>, ghost traces0: seq<seq<Event>>)
      modifies this, cache
      ensures dataStore == old(dataStore) && completed == old(completed)
      ensures old(dataStore) == null ==> outcome == Failed(ConfigurationError) && cache == old(cache)
      ensures old(dataStore) == null ==> forall e: CacheDataController :: e in cache ==> e.State() == old(e.State()) && e.trace == old(e.trace)
      ensures old(dataStore) != null ==>
        && |cache| == |old(cache)| + |dataStore.storage| && cache[..|old(cache)|] == old(cache)
        && (forall j :: |old(cache)| <= j < |cache| ==> fresh(cache[j]))
        && |starts| == |cache| && |traces0| == |cache|
        && (forall j :: 0 <= j < |old(cache)| ==> starts[j] == old(cache[j].State()) && traces0[j] == old(cache[j].trace))
        && (forall j :: |old(cache)| <= j < |cache| ==>
              starts[j] == EntryState(dataStore.storage[j - |old(cache)|], 0, [], []) && traces0[j] == [])
        && reached <= |cache|
        && (forall j :: 0 <= j < |cache| ==>
              Stepped(cache[j], LoadAll(run), starts[j], traces0[j], multiset(cache[..reached])[cache[j]]))
        && (done == reached <==> forall k :: 0 <= k < reached ==> LoadAll(run).Step(starts[k]).outcome.Done?)
        && (outcome.Done? <==> reached == |cache| && done == reached)
        && (outcome.Failed? ==> 0 < reached && done == reached - 1 && outcome == Failed(PayloadLoadError))
    {
      if dataStore == null {
        return Failed(ConfigurationError), 0, 0, [], [];
      }
      done, outcome, reached, starts, traces0 := LoadFromStore(run, true);
    }

    /** LoadWithCallback: the stored payloads are appended and every entry is loaded through
        its own LoadWithCallback; the callback runs once every entry has reported back,
        which happens exactly when no load threw. A load that throws is reported here as
        Failed(PayloadLoadError) and the other entries still load; in the code that
        exception escapes a thread-pool work item and ends the process. Without a store the
        model fails before loading anything, where the code has no check. */
    method LoadWithCallback(callback: Callback, run: Payload -> PayloadLoad)
      returns (outcome: Outcome, ghost done: nat,
               ghost starts: seq<EntryState>, ghost traces0: seq<seq<Event>>)
      modifies this, cache
      ensures dataStore == old(dataStore)
      ensures old(dataStore) == null ==>
        outcome == Failed(ConfigurationError) && cache == old(cache) && completed == old(completed)
      ensures old(dataStore) == null ==> forall e: CacheDataController :: e in cache ==> e.State() == old(e.State()) && e.trace == old(e.trace)
      ensures old(dataStore) != null ==>
        && |cache| == |old(cache)| + |dataStore.storage| && cache[..|old(cache)|] == old(cache)
        && (forall j :: |old(cache)| <= j < |cache| ==> fresh(cache[j]))
        && |starts| == |cache| && |traces0| == |cache|
        && (forall j :: 0 <= j < |old(cache)| ==> starts[j] == old(cache[j].State()) && traces0[j] == old(cache[j].trace))
        && (forall j :: |old(cache)| <= j < |cache| ==>
              starts[j] == EntryState(dataStore.storage[j - |old(cache)|], 0, [], []) && traces0[j] == [])
        && (forall j :: 0 <= j < |cache| ==>
              Stepped(cache[j], LoadAll(run), starts[j], traces0[j], multiset(cache)[cache[j]]))
        && (done == |cache| <==> forall k :: 0 <= k < |cache| ==> LoadAll(run).Step(starts[k]).outcome.Done?)
        && (outcome.Done? <==> done == |cache|)
        && (outcome.Done? ==> completed == old(completed) + [callback])
        && (outcome.Failed? ==> outcome == Failed(PayloadLoadError) && completed == old(completed))
    {
      if dataStore == null {
        return Failed(ConfigurationError), 0, [], [];
      }
      var loadCount, o;
      ghost var reached;
      loadCount, o, reached, starts, traces0 := LoadFromStore(run, false);
      assert cache[..reached] == cache;
      done := loadCount;
      if loadCount == |cache| {
        completed := completed + [callback];
        outcome := Done;
      } else {
        outcome := Failed(PayloadLoadError);
      }
    }

    /** SetupLoadNotification(type or key, action, callback): acts on the first entry `m`
        selects and on no other. Add gives that entry the next loading key, subscribes the
        callback and returns the entry's loading key; Remove takes the callback's last
        subscription off and returns nothing. When no entry is selected nothing changes
        and nothing is returned. */
    method SetupLoadNotification(m: Match, action: CacheNotificationAction, callback: Callback,
                                 keys: Generator.LoadingKeyGenerator)
      returns (key: Option<int>, position: Option<nat>)
      requires keys.Valid()
      modifies cache, keys
      ensures keys.Valid()
      ensures position.None? <==> forall k :: 0 <= k < |cache| ==> !m.Holds(old(cache[k].payload))
      ensures position.Some? ==> position.value < |cache| && m.Holds(old(cache[position.value].payload))
      ensures position.Some? ==> forall k :: 0 <= k < position.value ==> !m.Holds(old(cache[k].payload))
      ensures position.None? ==> key == None && keys.loadingKey == old(keys.loadingKey) && keys.issued == old(keys.issued)
      ensures position.None? ==>
        forall e: CacheDataController :: e in cache ==> e.State() == old(e.State()) && e.trace == old(e.trace)
      ensures position.Some? ==>
        var c := cache[position.value];
        && (forall e: CacheDataController :: e in cache && e != c ==> e.State() == old(e.State()))
        && (forall e: CacheDataController :: e in cache ==> e.trace == old(e.trace))
        && match action
           case Add =>
             && key == Some(Generator.Increment(old(keys.loadingKey)))
             && keys.loadingKey == key.value && keys.issued == old(keys.issued) + [key.value]
             && c.State() == old(c.State()).(loadingKey := key.value, loadSubscribers := old(c.loadSubscribers) + [callback])
           case Remove =>
             && key == None && keys.loadingKey == old(keys.loadingKey) && keys.issued == old(keys.issued)
             && c.State() == old(c.State()).(loadSubscribers := RemoveLast(old(c.loadSubscribers), callback))
    {
      position := FirstMatch(m);
      if position.None? {
        return None, position;
      }
      key := SetupEntryLoadNotification(cache[position.value], action, callback, keys);
    }

    /** SetupLoadNotification's work on the entry it selected. */
    static method SetupEntryLoadNotification(c: CacheDataController, action: CacheNotificationAction,
                                             callback: Callback, keys: Generator.LoadingKeyGenerator)
      returns (key: Option<int>)
      requires keys.Valid()
      modifies c, keys
      ensures keys.Valid() && c.trace == old(c.trace)
      ensures match action
        case Add =>
          && key == Some(Generator.Increment(old(keys.loadingKey)))
          && keys.loadingKey == key.value && keys.issued == old(keys.issued) + [key.value]
          && c.State() == old(c.State()).(loadingKey := key.value, loadSubscribers := old(c.loadSubscribers) + [callback])
        case Remove =>
          && key == None && keys.loadingKey == old(keys.loadingKey) && keys.issued == old(keys.issued)
          && c.State() == old(c.State()).(loadSubscribers := RemoveLast(old(c.loadSubscribers), callback))
    {
      match action {
        case Add =>
          var next := keys.GetNextLoadingKey();
          c.SetLoadingKey(next);
          c.SubscribeLoadStatus(callback);
          key := Some(c.loadingKey);
        case Remove =>
          c.UnsubscribeLoadStatus(callback);
          key := None;
      }
    }

    /** One visit of SetupInvalidateNotification to `c`. */
    static method SubscribeIfSelected(c: CacheDataController, m: Match, action: CacheNotificationAction, callback: Callback)
      modifies c
      ensures c.State() == SubscribeStep(old(c.State()), m, action, callback) && c.trace == old(c.trace)
    {
      if m.Holds(c.payload) {
        c.SetupInvalidateSubscription(action, callback);
      }
    }

    /** SetupInvalidateNotification's loop: SubscribeIfSelected on every position in turn.
        `now` is the state of every entry afterwards. */
    method VisitAll(m: Match, action: CacheNotificationAction, callback: Callback,
                    ghost before: map<CacheDataController, EntryState>,
                    ghost traces: map<CacheDataController, seq<Event>>,
                    ghost step: EntryState -> EntryState)
      returns (ghost now: map<CacheDataController, EntryState>)
      requires forall e: CacheDataController :: e in cache ==> e in before && e in traces && e.State() == before[e] && e.trace == traces[e]
      requires forall s :: step(s) == SubscribeStep(s, m, action, callback)
      modifies cache
      ensures Visited(cache, |cache|, before, now, step)
      ensures forall e: CacheDataController :: e in cache ==> e in now && e.State() == now[e] && e.trace == traces[e]
    {
      now := before;
      var i := 0;
      while i < |cache|
        invariant i <= |cache|
        invariant Visited(cache, i, before, now, step)
        invariant forall e: CacheDataController :: e in cache ==> e in now && e.State() == now[e] && e.trace == traces[e]
      {
        var c := cache[i];
        VisitedStep(cache, i, before, now, step);
        SubscribeIfSelected(c, m, action, callback);
        now := now[c := c.State()];
        i := i + 1;
      }
    }

    /** SetupInvalidateNotification(type or key, action, callback): the action is applied to
        every entry `m` selects, once per position it holds in the list. */
    method SetupInvalidateNotification(m: Match, action: CacheNotificationAction, callback: Callback)
      modifies cache
      ensures forall e: CacheDataController :: e in cache ==>
        Subscribed(e, old(e.State()), old(e.trace), m, action, callback, multiset(cache)[e])
    {
      ghost var before: map<CacheDataController, EntryState> := map e: CacheDataController | e in cache :: e.State();
      ghost var traces: map<CacheDataController, seq<Event>> := map e: CacheDataController | e in cache :: e.trace;
      ghost var step := (s: EntryState) => SubscribeStep(s, m, action, callback);
      ghost var now := VisitAll(m, action, callback, before, traces, step);
      forall e: CacheDataController | e in cache
        ensures Subscribed(e, old(e.State()), old(e.trace), m, action, callback, multiset(cache)[e])
      {
        VisitedAll(cache, before, now, step, m, action, callback, e);
        assert before[e] == old(e.State()) && traces[e] == old(e.trace);
      }
    }
  }
}
