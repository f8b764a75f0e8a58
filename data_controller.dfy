/** CacheDataController: the object that owns one payload and runs its load / invalidate
    state machine. Every method is proved to perform the matching transition of module
    Entry, and appends the events of that transition to the ghost `trace`. */
module DataController {
  import opened CacheData
  import opened Entry
  import opened Seqs

  class CacheDataController {
    /** InternalData. */
    var payload: Payload
    /** LoadingKey. */
    var loadingKey: int
    /** The invocation list of LoadStatusNotificationEvent. */
    var loadSubscribers: seq<Callback>
    /** The invocation list of InvalidateNotificationEvent. */
    var invalidateSubscribers: seq<Callback>
    /** Everything this controller has raised, invoked and called, in order. */
    ghost var trace: seq<Event>

    function State(): EntryState
      reads this
    {
      EntryState(payload, loadingKey, loadSubscribers, invalidateSubscribers)
    }

    /** `new CacheDataController()` followed by `Initialize(data)`: the controller wraps
        `data`, has loading key 0 and no subscribers. */
    constructor (data: Payload)
      ensures State() == EntryState(data, 0, [], []) && trace == []
    {
      payload := data;
      loadingKey := 0;
      loadSubscribers := [];
      invalidateSubscribers := [];
      trace := [];
    }

    /** Initialize: wrap `data` (the getter then returns it); subscriptions are kept. */
    method Initialize(data: Payload)
      modifies this
      ensures State() == old(State()).(payload := data) && trace == old(trace)
    {
      payload := data;
    }

    /** A consumer writing the payload's Model through the reference Data returned. */
    method WriteModel(model: string)
      modifies this
      ensures State() == old(State()).(payload := old(payload).(model := model)) && trace == old(trace)
    {
      payload := payload.(model := model);
    }

    /** IsCached: the payload's flag. */
    function IsCached(): bool
      reads this
    {
      payload.isCached
    }

    /** Load(internalLoad): Load() is Load(false). The payload's own load behaves as `run`. */
    method Load(internalLoad: bool, run: PayloadLoad) returns (outcome: Outcome)
      modifies this
      ensures var t := LoadStep(old(State()), internalLoad, run);
        State() == t.after && trace == old(trace) + t.events && outcome == t.outcome
    {
      if payload.isCached {
        return Done;
      }
      trace := trace + Notify(loadSubscribers, loadingKey, Starting, StartMessage);
      trace := trace + [PayloadLoadCalled(internalLoad)];
      trace := trace + Forward(loadSubscribers, loadingKey, run.progress);
      if run.fails {
        return Failed(PayloadLoadError);
      }
      payload := payload.(isCached := run.marksCached);
      trace := trace + Notify(loadSubscribers, loadingKey, Loaded, CompleteMessage);
      outcome := Done;
    }

    /** LoadWithCallback: Load(), then the callback; a load that throws skips the callback. */
    method LoadWithCallback(callback: Callback, run: PayloadLoad) returns (outcome: Outcome)
      modifies this
      ensures var t := LoadStep(old(State()), false, run);
        && State() == t.after && outcome == t.outcome
        && trace == old(trace) + t.events + (if t.outcome.Done? then [CallbackRan(callback)] else [])
    {
      outcome := Load(false, run);
      if outcome.Done? {
        trace := trace + [CallbackRan(callback)];
      }
    }

    /** Invalidate: the flag is cleared, then every invalidate subscriber runs. */
    method Invalidate()
      modifies this
      ensures var t := InvalidateStep(old(State()));
        State() == t.after && trace == old(trace) + t.events
    {
      payload := payload.(isCached := false);
      trace := trace + FireAll(invalidateSubscribers);
    }

    /** Clear: the payload's Clear, then Invalidate. */
    method Clear()
      modifies this
      ensures var t := ClearStep(old(State()));
        State() == t.after && trace == old(trace) + t.events
    {
      trace := trace + [PayloadClearCalled];
      Invalidate();
    }

    /** The Data getter: an uncached entry is loaded first through Load(), that is
        Load(false); a load that throws propagates out of the getter. */
    method Data(run: PayloadLoad) returns (r: Result<Payload>)
      modifies this
      ensures var t := LoadStep(old(State()), false, run);
        && State() == t.after && trace == old(trace) + t.events
        && r == (if t.outcome.Done? then Success(t.after.payload) else Failure(t.outcome.error))
    {
      if !IsCached() {
        var outcome := Load(false, run);
        if outcome.Failed? {
          return Failure(outcome.error);
        }
      }
      r := Success(payload);
    }

    /** The LoadingKey setter. */
    method SetLoadingKey(key: int)
      modifies this
      ensures State() == old(State()).(loadingKey := key) && trace == old(trace)
    {
      loadingKey := key;
    }

    /** `LoadStatusNotificationEvent += callback`. */
    method SubscribeLoadStatus(callback: Callback)
      modifies this
      ensures State() == old(State()).(loadSubscribers := old(loadSubscribers) + [callback])
      ensures trace == old(trace)
    {
      loadSubscribers := loadSubscribers + [callback];
    }

    /** `LoadStatusNotificationEvent -= callback`: its last occurrence goes. */
    method UnsubscribeLoadStatus(callback: Callback)
      modifies this
      ensures State() == old(State()).(loadSubscribers := RemoveLast(old(loadSubscribers), callback))
      ensures trace == old(trace)
    {
      loadSubscribers := RemoveLast(loadSubscribers, callback);
    }

    /** One SetupInvalidateNotification action on this entry's InvalidateNotificationEvent. */
    method SetupInvalidateSubscription(action: CacheNotificationAction, callback: Callback)
      modifies this
      ensures State() == old(State()).(invalidateSubscribers :=
                InvalidateSubscription(old(invalidateSubscribers), action, callback))
      ensures trace == old(trace)
    {
      invalidateSubscribers := InvalidateSubscription(invalidateSubscribers, action, callback);
    }
  }
}
