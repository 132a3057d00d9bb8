/** What the data services answer to a read, and what the query cache keeps, in terms of the stored records. */
module Answers {
  import opened HistoricalData
  import opened DataServices
  import opened Sums

  // ---------------------------------------------------------------- answers

  /** The positions of the records from start to end, both included. */
  function During(records: seq<Record>, start: int, end: int): nat -> bool {
    (i: nat) => i < |records| && start <= records[i].at.Comparable() <= end
  }

  lemma {:induction false} BetweenIsPicked(records: seq<Record>, start: int, end: int)
    ensures Picked(records, During(records, start, end), Between(records, start, end))
  {
    if records == [] {
      PickedNone<Record>(During(records, start, end));
    } else {
      var n := |records| - 1;
      BetweenIsPicked(records[..n], start, end);
      var at := WherePicked(records[..n], During(records[..n], start, end), Between(records[..n], start, end));
      SameIndices(records, start, end, at);
      PickedFrom(records[..n], During(records, start, end), at, Between(records[..n], start, end));
      PickedNext(records, During(records, start, end), Between(records[..n], start, end));
      hide Picked;
    }
  }

  lemma SameIndices(records: seq<Record>, start: int, end: int, at: seq<nat>)
    requires records != [] && Indices(at, |records| - 1, During(records[..|records| - 1], start, end))
    ensures Indices(at, |records| - 1, During(records, start, end))
  {
    var n := |records| - 1;
    assert forall i: nat :: i < n ==> records[..n][i] == records[i];
  }

  /** The answer to a range query: nothing for a key without records; refused exactly when one of the bounds and the
      stored timestamps are not both naive or both aware; otherwise the stored records of the range, in order. */
  ghost predicate RangeAnswered(stores: Stores, q: QueryKey, answer: QueryOutcome) {
    if q.key !in stores.data || stores.data[q.key] == [] then answer == Found([])
    else
      var records := stores.data[q.key];
      && (answer.Incomparable? <==>
            exists r :: r in records && (q.start.aware != r.at.Aware? || q.end.aware != r.at.Aware?))
      && (answer.Found? ==>
            exists at: seq<nat> ::
              && (forall j, k :: 0 <= j < k < |at| ==> at[j] < at[k])
              && (forall i: nat :: i in at <==>
                    i < |records| && q.start.instant <= records[i].at.Comparable() <= q.end.instant)
              && ItemsAt(records, at, answer.records))
  }

  lemma RangeIsAnswered(stores: Stores, q: QueryKey)
    requires WellStored(stores.data)
    ensures var reply := Direct(stores, Query(q)).1; reply.QueryReply? && RangeAnswered(stores, q, reply.query)
  {
    if q.key in stores.data && stores.data[q.key] != [] {
      var records := stores.data[q.key];
      var wanted := During(records, q.start.instant, q.end.instant);
      var picked := Between(records, q.start.instant, q.end.instant);
      BetweenIsPicked(records, q.start.instant, q.end.instant);
      var at := WherePicked(records, wanted, picked);
      assert ItemsAt(records, at, picked);
      SameKind(records);
      assert records[0] in records;
    }
  }

  /** Records that are not mixed are all naive or all aware. */
  lemma SameKind(records: seq<Record>)
    requires !Mixed(records)
    ensures forall r, s :: r in records && s in records ==> r.at.Aware? == s.at.Aware?
  {
    MixedIff(records);
    forall r, s | r in records && s in records ensures r.at.Aware? == s.at.Aware? {
      assert r.at.Aware? || r.at.Naive?;
      assert s.at.Aware? || s.at.Naive?;
    }
  }

  /** The other reads: a day is the range of its microseconds on naive timestamps, so aware data refuse it; the latest
      candle is the last one, none exactly when there are no records; metadata is what was registered. */
  lemma ReadsAreAnswered(stores: Stores, key: Key, date: int)
    requires WellStored(stores.data)
    ensures var midnight, next := date * 86_400_000_000, (date + 1) * 86_400_000_000;
            var day := QueryKey(key, Moment(false, midnight), Moment(false, next - 1));
            Direct(stores, SingleDay(key, date)).1 == Direct(stores, Query(day)).1
    ensures var latest := Direct(stores, LatestCandle(key)).1;
            && latest.LatestReply?
            && (latest.latest.None? <==> key !in stores.data || stores.data[key] == [])
            && (latest.latest.Some? ==>
                  && latest.latest.value == stores.data[key][|stores.data[key]| - 1]
                  && forall r :: r in stores.data[key] ==> r.at.Comparable() <= latest.latest.value.at.Comparable())
    ensures var metadata := Direct(stores, Metadata(key)).1;
            && metadata.MetadataReply?
            && (metadata.metadata.Some? <==> key in stores.instruments)
            && (metadata.metadata.Some? ==> metadata.metadata.value == stores.instruments[key])
  {
    DayAndLatest(stores.data, key, date);
  }

  // ---------------------------------------------------------------- the cache

  /** What a served operation leaves in the cache: a query that was answered is kept, a store that succeeded drops the
      answers about its own key and no others, clearing drops everything. */
  ghost predicate CacheKept(before: Cached, op: Operation, after: Cached, reply: Reply) {
    match op
    case Query(q) =>
      && reply.QueryReply?
      && (reply.query.Found? ==> q in after && after[q] == reply.query.records)
      && (forall other :: other != q || !reply.query.Found? ==>
            (other in after <==> other in before) && (other in before ==> after[other] == before[other]))
    case ClearCache => after == map[]
    case Import(instrument, _, _) =>
      if reply.StoreReply? && reply.store.Stored? then OthersKept(before, after, instrument.ToKey())
      else after == before
    case Append(instrument, _, _) =>
      if reply.StoreReply? && reply.store.Stored? then OthersKept(before, after, instrument.ToKey())
      else after == before
    case _ => after == before
  }

  /** The answers about other keys are kept as they were, those about this one are gone. */
  ghost predicate OthersKept(before: Cached, after: Cached, key: Key) {
    forall q :: (q in after <==> q in before && q.key != key) && (q in after ==> after[q] == before[q])
  }

  lemma CacheIsKept(p: Platform, op: Operation)
    requires Coherent(p.stores.data, p.cached)
    ensures var (next, reply) := Serve(p, op); CacheKept(p.cached, op, next.cached, reply)
  {
    hide StoreInto, Batch;
  }
}
