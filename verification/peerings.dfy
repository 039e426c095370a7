/** `AgentController.StartStopOutPeering`: look a ForeignCluster up in the informer
    cache, set its `Spec.Join` to the requested value and submit it with `Update`.

    The informer cache is a map from key to ForeignCluster. The object the store returns
    is a pointer into that cache, so the write to `Spec.Join` lands in the cache itself,
    before `Update` is called and whatever `Update` returns. The outcome of the cache
    lookup and of `Update` come from the Kubernetes client, so both are inputs. */
module Peerings {
  import opened Wrappers

  /** A Go `error`, identified by its message. */
  datatype Error = Error(message: string)

  /** The error returned for a key the cache does not hold. */
  const NoSuchForeignCluster: Error := Error("no such ForeignCluster found")

  /** A ForeignCluster object: its `Spec.Join` flag, and every other field as `rest`,
      which this operation never reads or writes. */
  datatype ForeignCluster<S> = ForeignCluster(join: bool, rest: S)

  /** The `Update` call submitted to the cluster: key and object. */
  datatype Submission<S> = Submission(key: string, obj: ForeignCluster<S>)

  /** The cache after the call, the submitted update (if any) and the returned error. */
  datatype Outcome<S> = Outcome(
    cache: map<string, ForeignCluster<S>>,
    submitted: Option<Submission<S>>,
    err: Option<Error>)

  /** `lookupErr` is the error `Store.GetByKey` reports; `updateErr` the one `Update`
      reports. */
  function StartStopOutPeering<S>(
    cache: map<string, ForeignCluster<S>>,
    foreignCluster: string,
    start: bool,
    lookupErr: Option<Error>,
    updateErr: Option<Error>): (r: Outcome<S>)
    ensures lookupErr.Some? ==> r.cache == cache && r.submitted.None? && r.err == lookupErr
    ensures lookupErr.None? && foreignCluster !in cache ==>
      r.cache == cache && r.submitted.None? && r.err == Some(NoSuchForeignCluster)
    ensures lookupErr.None? && foreignCluster in cache ==>
      && r.submitted.Some?
      && r.submitted.value.key == foreignCluster
      && r.submitted.value.obj.join == start
      && r.submitted.value.obj.rest == cache[foreignCluster].rest
      && foreignCluster in r.cache
      && r.cache[foreignCluster] == r.submitted.value.obj
      && r.err == updateErr
    ensures r.cache.Keys == cache.Keys
    ensures forall k | k in cache && k != foreignCluster :: r.cache[k] == cache[k]
  {
    if lookupErr.Some? then
      Outcome(cache, None, lookupErr)
    else if foreignCluster !in cache then
      Outcome(cache, None, Some(NoSuchForeignCluster))
    else
      var fc := cache[foreignCluster].(join := start);
      Outcome(cache[foreignCluster := fc], Some(Submission(foreignCluster, fc)), updateErr)
  }

  /** A second call with the same `start` leaves the cache as the first one left it, and
      submits the same object again. */
  lemma StartStopOutPeeringIdempotent<S>(
    cache: map<string, ForeignCluster<S>>, key: string, start: bool,
    lookupErr: Option<Error>, updateErr1: Option<Error>, updateErr2: Option<Error>)
    ensures var first := StartStopOutPeering(cache, key, start, lookupErr, updateErr1);
            var second := StartStopOutPeering(first.cache, key, start, lookupErr, updateErr2);
            second.cache == first.cache && second.submitted == first.submitted
  {
  }

  /** The cache does not depend on what `Update` reports: a failed `Update` leaves the
      cached `Join` at `start` as a successful one does. */
  lemma CacheIgnoresUpdateOutcome<S>(
    cache: map<string, ForeignCluster<S>>, key: string, start: bool,
    lookupErr: Option<Error>, updateErr1: Option<Error>, updateErr2: Option<Error>)
    ensures StartStopOutPeering(cache, key, start, lookupErr, updateErr1).cache
         == StartStopOutPeering(cache, key, start, lookupErr, updateErr2).cache
  {
  }
}
