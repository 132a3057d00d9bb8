/** The historical repository, its query cache and the two services that share them. */
module DataServices {
  import opened Market
  import opened HistoricalData
  import opened Sorting

  /** Stored with its report, refused by validation, or refused by the sort of unorderable timestamps. */
  datatype StoreOutcome = Stored(issues: seq<Issue>) | Rejected(issues: seq<Issue>) | Unorderable

  /** Found, or refused because naive and aware timestamps were compared. */
  datatype QueryOutcome = Found(records: seq<Record>) | Incomparable

  type Data = map<Key, seq<Record>>

  datatype Instrument = Instrument(
    symbol: string,
    exchange: string,
    timeframe: Timeframe,
    name: string,
    lotSize: int,
    tickSize: real)
  {
    function ToKey(): Key { Key(symbol, exchange, timeframe) }
  }

  /** What the repository holds. */
  datatype Stores = Stores(data: Data, instruments: map<Key, Instrument>)

  datatype QueryKey = QueryKey(key: Key, start: Moment, end: Moment)

  // ---------------------------------------------------------------- the platform without a cache

  function Between(records: seq<Record>, start: int, end: int): seq<Record> {
    if records == [] then []
    else
      var n := |records| - 1;
      if start <= records[n].at.Comparable() <= end then Between(records[..n], start, end) + [records[n]]
      else Between(records[..n], start, end)
  }

  /** The stored records from start to end, both included. */
  function Fresh(data: Data, q: QueryKey): QueryOutcome {
    if q.key !in data || data[q.key] == [] then Found([])
    else if q.start.aware != data[q.key][0].at.Aware? || q.end.aware != data[q.key][0].at.Aware? then Incomparable
    else Found(Between(data[q.key], q.start.instant, q.end.instant))
  }

  /** The first and the last naive microsecond of a date. */
  function DayRange(key: Key, date: int): QueryKey {
    QueryKey(key, Moment(false, date * MICROS_PER_DAY), Moment(false, date * MICROS_PER_DAY + MICROS_PER_DAY - 1))
  }

  function Latest(data: Data, key: Key): Option<Record> {
    if key !in data || data[key] == [] then None else Some(data[key][|data[key]| - 1])
  }

  function OnDate(records: seq<Record>, date: int): seq<Record> {
    if records == [] then []
    else
      var n := |records| - 1;
      OnDate(records[..n], date) + if DateOf(records[n].at.Comparable()) == date then [records[n]] else []
  }

  lemma {:induction false} BetweenOnDate(records: seq<Record>, date: int)
    ensures Between(records, date * MICROS_PER_DAY, date * MICROS_PER_DAY + MICROS_PER_DAY - 1) == OnDate(records, date)
  {
    if records != [] {
      var n := |records| - 1;
      BetweenOnDate(records[..n], date);
      var t := records[n].at.Comparable();
      assert DateOf(t) == date <==> date * MICROS_PER_DAY <= t <= date * MICROS_PER_DAY + MICROS_PER_DAY - 1;
    }
  }

  /** A single-day query of naive data is exactly the records of that date; the latest candle is none other than
      the last in time. */
  lemma DayAndLatest(data: Data, key: Key, date: int)
    requires WellStored(data)
    ensures key in data && (forall i :: 0 <= i < |data[key]| ==> data[key][i].at.Naive?) ==>
              Fresh(data, DayRange(key, date)) == Found(OnDate(data[key], date))
    ensures Latest(data, key).Some? ==>
              && Latest(data, key).value in data[key]
              && forall r :: r in data[key] ==> r.at.Comparable() <= Latest(data, key).value.at.Comparable()
  {
    if key in data { BetweenOnDate(data[key], date); }
  }

  function Existing(data: Data, key: Key): seq<Record> { if key in data then data[key] else [] }

  function StoreInto(data: Data, key: Key, records: seq<Record>, force: bool): (Data, StoreOutcome) {
    var issues := Report(records, key.timeframe);
    if issues != [] && !force then (data, Rejected(issues))
    else if Mixed(records) then (data, Unorderable)
    else (data[key := SortByTime(records)], Stored(issues))
  }

  predicate WellStored(data: Data) {
    forall key :: key in data ==> Ordered(data[key]) && !Mixed(data[key])
  }

  lemma StoreKeeps(data: Data, key: Key, records: seq<Record>, force: bool)
    requires WellStored(data)
    ensures WellStored(StoreInto(data, key, records, force).0)
  {
    hide Report, SortByTime, Ordered, Mixed;
    StoredInOrder(records);
    if !Mixed(records) { SortedMixed(records); }
  }

  lemma SortedMixed(records: seq<Record>)
    requires !Mixed(records)
    ensures !Mixed(SortByTime(records))
  {
    StoredInOrder(records);
    var sorted := SortByTime(records);
    forall i | 0 <= i < |sorted| ensures sorted[i] in records {
      assert sorted[i] in multiset(sorted);
    }
  }

  /** The two ways to store two batches by force: one after the other, or both at once. */
  function OneByOne(data: Data, key: Key, first: seq<Record>, more: seq<Record>): Data {
    var once := StoreInto(data, key, first, true).0;
    StoreInto(once, key, Existing(once, key) + more, true).0
  }

  function AtOnce(data: Data, key: Key, first: seq<Record>, more: seq<Record>): Data {
    StoreInto(data, key, first + more, true).0
  }

  lemma MixedOfBoth(first: seq<Record>, more: seq<Record>)
    ensures Mixed(first) || Mixed(more) ==> Mixed(first + more)
    ensures !Mixed(first) ==> (Mixed(SortByTime(first) + more) <==> Mixed(first + more))
  {
    var sorted := SortByTime(first);
    StoredInOrder(first);
    assert forall r :: r in sorted <==> r in multiset(sorted);
    assert forall r :: r in first <==> r in multiset(first);
    hide SortByTime;
    MixedIff(first);
    MixedIff(more);
    MixedIff(first + more);
    MixedIff(sorted + more);
  }

  lemma MixedIff(records: seq<Record>)
    ensures Mixed(records) <==> exists r, s :: r in records && s in records && r.at.Naive? && s.at.Aware?
  {
  }

  /** Storing a batch and appending another leaves what storing both at once leaves, unless naive and aware
      timestamps meet. */
  lemma AppendIsImportOfBoth(data: Data, key: Key, first: seq<Record>, more: seq<Record>)
    requires !Mixed(first + more)
    ensures OneByOne(data, key, first, more) == AtOnce(data, key, first, more)
  {
    MixedOfBoth(first, more);
    SortAppend(TimeOf, first, more);
    hide Report, SortBy, Mixed;
  }

  lemma StoredByForce(data: Data, key: Key, records: seq<Record>)
    ensures StoreInto(data, key, records, true).0 == if Mixed(records) then data else data[key := SortByTime(records)]
  {
  }

  /** A first batch that is refused leaves the second to be appended to whatever was stored before. */
  lemma AppendAfterRefusal(data: Data, key: Key, first: seq<Record>, more: seq<Record>)
    requires WellStored(data) && Mixed(first)
    ensures OneByOne(data, key, first, more) == AtOnce(data, key, first, more)
            <==> if key in data then more == [] || Mixed(data[key] + more) else Mixed(more)
  {
    MixedOfBoth(first, more);
    StoredByForce(data, key, first);
    StoredByForce(data, key, first + more);
    StoredByForce(data, key, Existing(data, key) + more);
    var all := Existing(data, key) + more;
    SortPermutes(TimeOf, all);
    if key in data && more == [] {
      assert all == data[key];
      OrderedIsOrderedBy(data[key]);
      SortOfOrdered(TimeOf, data[key]);
    }
    if key !in data { assert all == more; }
    hide StoreInto, SortBy, Mixed, Ordered;
    assert AtOnce(data, key, first, more) == data;
    assert OneByOne(data, key, first, more) == if Mixed(all) then data else data[key := SortByTime(all)];
    if !Mixed(all) && key in data && more != [] { assert |SortByTime(all)| != |data[key]|; }
  }

  /** A first batch that is stored stays when the second meets it with the other kind of timestamp. */
  lemma AppendRefused(data: Data, key: Key, first: seq<Record>, more: seq<Record>)
    requires !Mixed(first) && Mixed(first + more)
    ensures OneByOne(data, key, first, more) == AtOnce(data, key, first, more)
            <==> key in data && data[key] == SortByTime(first)
  {
    MixedOfBoth(first, more);
    var once := data[key := SortByTime(first)];
    StoredByForce(data, key, first);
    StoredByForce(data, key, first + more);
    StoredByForce(once, key, SortByTime(first) + more);
    hide StoreInto, SortByTime, Mixed;
    assert AtOnce(data, key, first, more) == data && OneByOne(data, key, first, more) == once;
    if key in data && data[key] == SortByTime(first) { assert once == data; }
  }

  /** The exception is exact, whatever is stored under the key already: when naive and aware timestamps meet, the two
      ways agree only if the append changes nothing too. */
  lemma AppendIsImportOfBothIff(data: Data, key: Key, first: seq<Record>, more: seq<Record>)
    requires WellStored(data)
    ensures OneByOne(data, key, first, more) == AtOnce(data, key, first, more) <==>
              || !Mixed(first + more)
              || (Mixed(first) && if key in data then more == [] || Mixed(data[key] + more) else Mixed(more))
              || (!Mixed(first) && key in data && data[key] == SortByTime(first))
  {
    MixedOfBoth(first, more);
    hide OneByOne, AtOnce, SortByTime, Mixed, WellStored;
    if !Mixed(first + more) {
      AppendIsImportOfBoth(data, key, first, more);
    } else if Mixed(first) {
      AppendAfterRefusal(data, key, first, more);
    } else {
      AppendRefused(data, key, first, more);
    }
  }

  // ---------------------------------------------------------------- bisection

  ghost predicate OrderedMoments(times: seq<Moment>) {
    forall i, j :: 0 <= i < j < |times| ==> times[i].instant <= times[j].instant
  }

  method BisectLeft(times: seq<Moment>, x: int) returns (k: nat)
    requires OrderedMoments(times)
    ensures k <= |times|
    ensures forall i :: 0 <= i < k ==> times[i].instant < x
    ensures forall i :: k <= i < |times| ==> x <= times[i].instant
  {
    var lo: nat, hi: nat := 0, |times|;
    while lo < hi
      invariant lo <= hi <= |times|
      invariant forall i :: 0 <= i < lo ==> times[i].instant < x
      invariant forall i :: hi <= i < |times| ==> x <= times[i].instant
    {
      var mid := (lo + hi) / 2;
      if times[mid].instant < x { lo := mid + 1; } else { hi := mid; }
    }
    k := lo;
  }

  method BisectRight(times: seq<Moment>, x: int) returns (k: nat)
    requires OrderedMoments(times)
    ensures k <= |times|
    ensures forall i :: 0 <= i < k ==> times[i].instant <= x
    ensures forall i :: k <= i < |times| ==> x < times[i].instant
  {
    var lo: nat, hi: nat := 0, |times|;
    while lo < hi
      invariant lo <= hi <= |times|
      invariant forall i :: 0 <= i < lo ==> times[i].instant <= x
      invariant forall i :: hi <= i < |times| ==> x < times[i].instant
    {
      var mid := (lo + hi) / 2;
      if x < times[mid].instant { hi := mid; } else { lo := mid + 1; }
    }
    k := lo;
  }

  /** A slice whose bounds separate the range is the ordered filter of the range. */
  lemma {:induction false} SliceIsFilter(records: seq<Record>, start: int, end: int, left: nat, right: nat)
    requires left <= |records| && right <= |records|
    requires forall i :: 0 <= i < left ==> records[i].at.Comparable() < start
    requires forall i :: left <= i < |records| ==> start <= records[i].at.Comparable()
    requires forall i :: 0 <= i < right ==> records[i].at.Comparable() <= end
    requires forall i :: right <= i < |records| ==> end < records[i].at.Comparable()
    ensures Between(records, start, end) == if left <= right then records[left..right] else []
  {
    if records != [] {
      var n := |records| - 1;
      SliceIsFilter(records[..n], start, end, if left <= n then left else n, if right <= n then right else n);
      if right <= n {
        assert left <= right ==> records[..n][left..right] == records[left..right];
      } else if left <= n {
        SliceEnd(records, left);
      }
    }
  }

  lemma SliceEnd(records: seq<Record>, left: nat)
    requires left < |records|
    ensures var n := |records| - 1; records[left..n + 1] == records[..n][left..n] + [records[n]]
  {
  }

  function Times(records: seq<Record>): seq<Moment> {
    seq(|records|, i requires 0 <= i < |records| => records[i].at.ToMoment())
  }

  // ---------------------------------------------------------------- repository

  class Repository {
    var datasets: Data
    var timestamps: map<Key, seq<Moment>>
    var instruments: map<Key, Instrument>

    constructor ()
      ensures Valid() && View() == Stores(map[], map[])
    {
      datasets, timestamps, instruments := map[], map[], map[];
    }

    function View(): Stores
      reads this
    {
      Stores(datasets, instruments)
    }

    /** Every dataset is sorted, never mixed, and has its parallel tuple of timestamps. */
    ghost predicate Valid()
      reads this
    {
      && WellStored(datasets)
      && datasets.Keys == timestamps.Keys
      && forall key :: key in datasets ==> timestamps[key] == Times(datasets[key])
    }

    method RegisterInstrument(instrument: Instrument)
      requires Valid()
      modifies this`instruments
      ensures Valid() && instruments == old(instruments)[instrument.ToKey() := instrument]
    {
      instruments := instruments[instrument.ToKey() := instrument];
    }

    method Store(key: Key, records: seq<Record>, force: bool) returns (outcome: StoreOutcome)
      requires Valid()
      modifies this`datasets, this`timestamps
      ensures Valid() && (datasets, outcome) == StoreInto(old(datasets), key, records, force)
    {
      StoreKeeps(datasets, key, records, force);
      var issues := ValidateDataset(records, key.timeframe);
      if issues != [] && !force { return Rejected(issues); }
      if Mixed(records) { return Unorderable; }
      var sorted := SortByTime(records);
      datasets := datasets[key := sorted];
      timestamps := timestamps[key := Times(sorted)];
      outcome := Stored(issues);
    }

    method AppendDataset(key: Key, records: seq<Record>, force: bool) returns (outcome: StoreOutcome)
      requires Valid()
      modifies this`datasets, this`timestamps
      ensures Valid()
      ensures (datasets, outcome)
              == StoreInto(old(datasets), key, Existing(old(datasets), key) + records, force)
    {
      var combined := records;
      if key in datasets {
        combined := datasets[key] + records;
      } else {
        assert Existing(datasets, key) + records == records;
      }
      outcome := Store(key, combined, force);
    }

    /** Two bisections and a slice, equal to the ordered filter. */
    method QueryDateRange(q: QueryKey) returns (outcome: QueryOutcome)
      requires Valid()
      ensures outcome == Fresh(datasets, q)
    {
      if q.key !in datasets || q.key !in timestamps { return Found([]); }
      var records, times := datasets[q.key], timestamps[q.key];
      if times == [] { return Found([]); }
      if q.start.aware != times[0].aware || q.end.aware != times[0].aware { return Incomparable; }
      var left := BisectLeft(times, q.start.instant);
      var right := BisectRight(times, q.end.instant);
      assert forall i :: 0 <= i < |records| ==> records[i].at.Comparable() == times[i].instant;
      SliceIsFilter(records, q.start.instant, q.end.instant, left, right);
      outcome := Found(if left <= right then records[left..right] else []);
    }

    method QuerySingleDay(key: Key, date: int) returns (outcome: QueryOutcome)
      requires Valid()
      ensures outcome == Fresh(datasets, DayRange(key, date))
    {
      outcome := QueryDateRange(DayRange(key, date));
    }

    method QueryLatestCandle(key: Key) returns (latest: Option<Record>)
      requires Valid()
      ensures latest == Latest(datasets, key)
    {
      if key !in datasets || datasets[key] == [] { return None; }
      latest := Some(datasets[key][|datasets[key]| - 1]);
    }
  }

  // ---------------------------------------------------------------- cache

  type Cached = map<QueryKey, seq<Record>>

  function Invalidated(cached: Cached, key: Key): Cached {
    map q | q in cached && q.key != key :: cached[q]
  }

  class CacheManager {
    var datasets: Data
    var queries: Cached

    constructor ()
      ensures datasets == map[] && queries == map[]
    {
      datasets, queries := map[], map[];
    }

    method GetDataset(key: Key) returns (found: Option<seq<Record>>)
      ensures found == if key in datasets then Some(datasets[key]) else None
    {
      found := if key in datasets then Some(datasets[key]) else None;
    }

    method SetDataset(key: Key, records: seq<Record>)
      modifies this`datasets
      ensures datasets == old(datasets)[key := records]
    {
      datasets := datasets[key := records];
    }

    method GetQuery(q: QueryKey) returns (found: Option<seq<Record>>)
      ensures found == if q in queries then Some(queries[q]) else None
    {
      found := if q in queries then Some(queries[q]) else None;
    }

    method SetQuery(q: QueryKey, records: seq<Record>)
      modifies this`queries
      ensures queries == old(queries)[q := records]
    {
      queries := queries[q := records];
    }

    /** Drop the dataset, collect its stale queries, then delete them one by one. */
    method InvalidateDataset(key: Key)
      modifies this
      ensures datasets == old(datasets) - {key}
      ensures queries == Invalidated(old(queries), key)
    {
      datasets := datasets - {key};
      var stale := set q | q in queries && q.key == key;
      while stale != {}
        invariant datasets == old(datasets) - {key}
        invariant queries.Keys == Invalidated(old(queries), key).Keys + stale
        invariant forall q :: q in stale ==> q.key == key
        invariant forall q :: q in queries ==> q in old(queries) && queries[q] == old(queries)[q]
        decreases stale
      {
        var q :| q in stale;
        queries := queries - {q};
        stale := stale - {q};
      }
    }

    method Clear()
      modifies this
      ensures datasets == map[] && queries == map[]
    {
      datasets, queries := map[], map[];
    }
  }

  // ---------------------------------------------------------------- the services

  /** Every cached answer is the answer a fresh query would give. */
  predicate Coherent(data: Data, cached: Cached) {
    forall q :: q in cached ==> Fresh(data, q) == Found(cached[q])
  }

  datatype Operation =
    | Import(instrument: Instrument, records: seq<Record>, force: bool)
    | Append(instrument: Instrument, records: seq<Record>, force: bool)
    | Query(q: QueryKey)
    | SingleDay(key: Key, date: int)
    | LatestCandle(key: Key)
    | Metadata(key: Key)
    | ClearCache

  datatype Reply =
    | StoreReply(store: StoreOutcome)
    | QueryReply(query: QueryOutcome)
    | LatestReply(latest: Option<Record>)
    | MetadataReply(metadata: Option<Instrument>)
    | Cleared

  datatype Platform = Platform(stores: Stores, cached: Cached)

  /** The records an import or an append puts under a key. */
  function Batch(data: Data, op: Operation): seq<Record>
    requires op.Import? || op.Append?
  {
    if op.Import? then op.records else Existing(data, op.instrument.ToKey()) + op.records
  }

  /** An operation on the repository alone; metadata is registered only when the store was not refused. */
  function Direct(stores: Stores, op: Operation): (Stores, Reply) {
    match op
    case Query(q) => (stores, QueryReply(Fresh(stores.data, q)))
    case SingleDay(key, date) => (stores, QueryReply(Fresh(stores.data, DayRange(key, date))))
    case LatestCandle(key) => (stores, LatestReply(Latest(stores.data, key)))
    case Metadata(key) =>
      (stores, MetadataReply(if key in stores.instruments then Some(stores.instruments[key]) else None))
    case ClearCache => (stores, Cleared)
    case _ =>
      var key := op.instrument.ToKey();
      var (data, outcome) := StoreInto(stores.data, key, Batch(stores.data, op), op.force);
      (Stores(data, if outcome.Stored? then stores.instruments[key := op.instrument] else stores.instruments),
       StoreReply(outcome))
  }

  /** The same operation through the services: range queries go through the cache, and a store that was not refused
      invalidates its dataset. */
  function Serve(p: Platform, op: Operation): (Platform, Reply) {
    match op
    case Query(q) =>
      if q in p.cached then (p, QueryReply(Found(p.cached[q])))
      else
        var answer := Fresh(p.stores.data, q);
        (if answer.Found? then p.(cached := p.cached[q := answer.records]) else p, QueryReply(answer))
    case ClearCache => (p.(cached := map[]), Cleared)
    case _ =>
      var (stores, reply) := Direct(p.stores, op);
      (Platform(stores, if reply.StoreReply? && reply.store.Stored? then Invalidated(p.cached, op.instrument.ToKey())
                        else p.cached),
       reply)
  }

  class ImportService {
    const repository: Repository
    const cache: CacheManager?

    constructor (repository: Repository, cache: CacheManager?)
      ensures this.repository == repository && this.cache == cache
    {
      this.repository, this.cache := repository, cache;
    }

    method DoImport(instrument: Instrument, records: seq<Record>, replace: bool, force: bool)
      returns (outcome: StoreOutcome)
      requires repository.Valid()
      modifies repository, cache
      ensures repository.Valid()
      ensures var op := if replace then Import(instrument, records, force) else Append(instrument, records, force);
              if cache == null then
                (repository.View(), StoreReply(outcome)) == Direct(old(repository.View()), op)
              else
                (Platform(repository.View(), cache.queries), StoreReply(outcome))
                == Serve(Platform(old(repository.View()), old(cache.queries)), op)
      ensures cache != null ==>
                cache.datasets == if outcome.Stored? then old(cache.datasets) - {instrument.ToKey()}
                                  else old(cache.datasets)
    {
      var key := instrument.ToKey();
      if replace {
        outcome := repository.Store(key, records, force);
      } else {
        outcome := repository.AppendDataset(key, records, force);
      }
      if !outcome.Stored? { return; }
      repository.RegisterInstrument(instrument);
      if cache != null { cache.InvalidateDataset(key); }
    }
  }

  class QueryService {
    const repository: Repository
    const cache: CacheManager?

    constructor (repository: Repository, cache: CacheManager?)
      ensures this.repository == repository && this.cache == cache
    {
      this.repository, this.cache := repository, cache;
    }

    method GetDateRange(q: QueryKey) returns (outcome: QueryOutcome)
      requires repository.Valid()
      modifies cache
      ensures if cache == null then outcome == Fresh(repository.datasets, q)
              else
                (Platform(repository.View(), cache.queries), QueryReply(outcome))
                == Serve(Platform(repository.View(), old(cache.queries)), Query(q))
    {
      if cache != null {
        var found := cache.GetQuery(q);
        if found.Some? { return Found(found.value); }
      }
      outcome := repository.QueryDateRange(q);
      if cache != null && outcome.Found? { cache.SetQuery(q, outcome.records); }
    }
  }

  // ---------------------------------------------------------------- the cache is invisible

  function Served(ops: seq<Operation>): Platform {
    if ops == [] then Platform(Stores(map[], map[]), map[])
    else Serve(Served(ops[..|ops| - 1]), ops[|ops| - 1]).0
  }

  function Directed(ops: seq<Operation>): Stores {
    if ops == [] then Stores(map[], map[]) else Direct(Directed(ops[..|ops| - 1]), ops[|ops| - 1]).0
  }

  lemma InvalidationKeepsCoherence(data: Data, key: Key, records: seq<Record>, cached: Cached)
    requires Coherent(data, cached)
    ensures Coherent(data[key := records], Invalidated(cached, key))
  {
  }

  /** One operation: the services reply what the repository alone would, and the cache stays coherent. */
  lemma ServeIsDirect(p: Platform, op: Operation)
    requires Coherent(p.stores.data, p.cached)
    ensures var (next, reply) := Serve(p, op);
            && Coherent(next.stores.data, next.cached)
            && (next.stores, reply) == Direct(p.stores, op)
  {
    if op.Import? || op.Append? {
      InvalidationKeepsCoherence(p.stores.data, op.instrument.ToKey(), SortByTime(Batch(p.stores.data, op)), p.cached);
    }
  }

  /** Over every interleaving of imports, appends, reads and cache clearings, refused ones included: the cache is
      coherent, the stores are what they would be without a cache, exactly the stored datasets have metadata, and
      the reply to whatever is asked next is the repository's own. */
  lemma {:induction false} CacheIsInvisible(ops: seq<Operation>, next: Operation)
    ensures var p := Served(ops);
            && Coherent(p.stores.data, p.cached)
            && p.stores == Directed(ops)
            && WellStored(p.stores.data)
            && p.stores.instruments.Keys == p.stores.data.Keys
            && Serve(p, next).1 == Direct(Directed(ops), next).1
  {
    if ops != [] {
      var n := |ops| - 1;
      CacheIsInvisible(ops[..n], ops[n]);
      ServeIsDirect(Served(ops[..n]), ops[n]);
      DirectKeeps(Directed(ops[..n]), ops[n]);
    }
    ServeIsDirect(Served(ops), next);
  }

  lemma DirectKeeps(stores: Stores, op: Operation)
    requires WellStored(stores.data) && stores.instruments.Keys == stores.data.Keys
    ensures var next := Direct(stores, op).0; WellStored(next.data) && next.instruments.Keys == next.data.Keys
  {
    if op.Import? || op.Append? {
      StoreKeeps(stores.data, op.instrument.ToKey(), Batch(stores.data, op), op.force);
    }
  }
}
