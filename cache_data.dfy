/** The payload an entry wraps (ICacheData), the loading statuses it reports, the
    notification action enum and the ways the registry selects payloads. */
module CacheData {

  /** Stands for a payload's concrete .NET type (its assembly-qualified name). */
  type TypeTag = string

  /** What the model keeps of an ICacheData object: its Key, its concrete type, its
      Model text (the field TestCacheData carries) and its IsCached flag. */
  datatype Payload = Payload(key: string, tag: TypeTag, model: string, isCached: bool)

  /** LoadingStatus: the three statuses an entry reports while loading. */
  datatype LoadingStatus = Starting | Loading | Loaded

  /** One progress message a payload raises through its LoadStatusNotificationEvent. */
  datatype Report = Report(status: LoadingStatus, message: string)

  /** What one call of the payload's own Load(internalLoad) does: the progress reports it
      raises, in order, whether it ends by throwing, and, when it returns, whether it has
      set its own IsCached flag. The entry controller never writes that flag itself. */
  datatype PayloadLoad = PayloadLoad(progress: seq<Report>, fails: bool, marksCached: bool)

  /** CacheNotificationAction: subscribe or unsubscribe. */
  datatype CacheNotificationAction = Add | Remove

  /** The failures the core raises: no data store bound, or a payload Load that threw. */
  datatype CacheError = ConfigurationError | PayloadLoadError

  datatype Outcome = Done | Failed(error: CacheError)

  datatype Result<T> = Success(value: T) | Failure(error: CacheError)

  /** A nullable value, as `int?`. */
  datatype Option<T> = None | Some(value: T)

  /** A payload built by its type's parameterless constructor (Activator.CreateInstance):
      no key, no model text, not cached. A null string is written as "". */
  function Construct(tag: TypeTag): (p: Payload)
    ensures p.tag == tag && !p.isCached
  {
    Payload("", tag, "", false)
  }

  /** How GetData and the subscription setups select entries: by the payload's concrete
      type, by its Key, or by both. */
  datatype Match = ByType(tag: TypeTag) | ByKey(key: string) | ByKeyAndType(key: string, tag: TypeTag) {
    predicate Holds(p: Payload) {
      match this
      case ByType(t) => p.tag == t
      case ByKey(k) => p.key == k
      case ByKeyAndType(k, t) => p.key == k && p.tag == t
    }
  }

  /** The positions of `ps` whose payload `m` selects, in increasing order: the shape of
      `Where(...)` over a list. */
  function Matching(ps: seq<Payload>, m: Match): (r: seq<nat>)
    ensures forall j, k :: 0 <= j < k < |r| ==> r[j] < r[k]
    ensures forall j :: 0 <= j < |r| ==> r[j] < |ps|
    ensures forall i: nat :: i in r <==> i < |ps| && m.Holds(ps[i])
  {
    if ps == [] then []
    else
      var n := |ps| - 1;
      var front := ps[..n];
      assert forall i :: 0 <= i < n ==> front[i] == ps[i];
      var r := Matching(front, m);
      assert forall j :: 0 <= j < |r| ==> r[j] in r;
      r + (if m.Holds(ps[n]) then [n] else [])
  }

  /** The first position `Matching` lists is the first payload `m` selects. */
  lemma MatchingStartsAtFirstMatch(ps: seq<Payload>, m: Match, i: nat)
    requires i < |ps| && m.Holds(ps[i])
    requires forall j :: 0 <= j < i ==> !m.Holds(ps[j])
    ensures Matching(ps, m) != [] && Matching(ps, m)[0] == i
  {
    var r := Matching(ps, m);
    assert i in r;
    assert r[0] in r;
  }

  /** Nothing is listed exactly when no payload is selected. */
  lemma MatchingEmptyIffNoMatch(ps: seq<Payload>, m: Match)
    ensures Matching(ps, m) == [] <==> forall i :: 0 <= i < |ps| ==> !m.Holds(ps[i])
  {
    var r := Matching(ps, m);
    if r != [] {
      assert r[0] in r;
    }
    if exists i :: 0 <= i < |ps| && m.Holds(ps[i]) {
      var i :| 0 <= i < |ps| && m.Holds(ps[i]);
      assert (i as nat) in r;
    }
  }
}
