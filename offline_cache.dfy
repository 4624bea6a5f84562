/**
 * backend/offline_cache.py: the SQLite-backed offline store. Each of the
 * four tables is a sequence of rows in insertion (rowid) order, and each
 * AUTOINCREMENT counter is a field. The clock is a parameter `now`, in
 * microseconds; the JSON payloads are kept as their serialised text.
 */
module OfflineStore {
  import opened Common
  import opened Ordering

  const MicrosPerHour: int := 3_600_000_000
  /** `timedelta(days=30)`. */
  const ThirtyDays: int := 30 * 24 * MicrosPerHour
  /** Entries with this many failed attempts are no longer handed out. */
  const MaxRetries: int := 3

  datatype PredictionRow = PredictionRow(
    id: int, userId: int, data: string, createdAt: int, synced: bool, syncAttempts: int)

  datatype WeatherRow = WeatherRow(
    id: int, region: string, data: string, createdAt: int, expiresAt: int, synced: bool)

  datatype UserDataRow = UserDataRow(
    id: int, userId: int, dataType: string, data: string, createdAt: int, synced: bool)

  datatype QueueRow = QueueRow(
    id: int, operation: string, endpoint: string, data: string, createdAt: int, priority: int, retryCount: nat)

  function PredictionId(r: PredictionRow): int { r.id }
  function WeatherId(r: WeatherRow): int { r.id }
  function UserDataId(r: UserDataRow): int { r.id }
  function QueueId(r: QueueRow): int { r.id }

  // ----- The queries, as SELECT ... WHERE ... ORDER BY ... LIMIT -----

  /** ORDER BY created_at DESC; equal timestamps, the later row first. */
  function NewestPrediction(r: PredictionRow): Key { Key(-r.createdAt, -r.id, 0) }
  function NewestWeather(r: WeatherRow): Key { Key(-r.createdAt, -r.id, 0) }
  function NewestUserData(r: UserDataRow): Key { Key(-r.createdAt, -r.id, 0) }
  /** ORDER BY priority DESC, created_at ASC; equal keys, the earlier row first. */
  function QueueOrder(r: QueueRow): Key { Key(-r.priority, r.createdAt, r.id) }

  function PendingPredictionOf(userId: int): PredictionRow -> bool
  {
    (r: PredictionRow) => r.userId == userId && !r.synced
  }

  function FreshWeatherFor(region: string, now: int): WeatherRow -> bool
  {
    (r: WeatherRow) => r.region == region && r.expiresAt > now
  }

  function PendingUserDataOf(userId: int, dataType: string): UserDataRow -> bool
  {
    (r: UserDataRow) => r.userId == userId && r.dataType == dataType && !r.synced
  }

  function Retryable(r: QueueRow): bool
  {
    r.retryCount < MaxRetries
  }

  /** Rows whose stored JSON text `json.loads` accepts; `decodes` stands for that parser. */
  function PredictionDecodes(decodes: string -> bool): PredictionRow -> bool
  {
    (r: PredictionRow) => decodes(r.data)
  }

  function UserDataDecodes(decodes: string -> bool): UserDataRow -> bool
  {
    (r: UserDataRow) => decodes(r.data)
  }

  function QueueDecodes(decodes: string -> bool): QueueRow -> bool
  {
    (r: QueueRow) => decodes(r.data)
  }

  /** The rows `get_cached_predictions` reads. */
  function CachedPredictionsQuery(rows: seq<PredictionRow>, userId: int, limit: int): seq<PredictionRow>
  {
    Select(rows, PendingPredictionOf(userId), NewestPrediction, limit)
  }

  /** The row `get_cached_weather` reads: LIMIT 1. */
  function CachedWeatherQuery(rows: seq<WeatherRow>, region: string, now: int): (r: Option<WeatherRow>)
  {
    var found := Select(rows, FreshWeatherFor(region, now), NewestWeather, 1);
    if found == [] then None else Some(found[0])
  }

  /** The rows `get_cached_user_data` reads: no LIMIT. */
  function CachedUserDataQuery(rows: seq<UserDataRow>, userId: int, dataType: string): seq<UserDataRow>
  {
    Select(rows, PendingUserDataOf(userId, dataType), NewestUserData, -1)
  }

  /** The rows `get_sync_queue` reads. */
  function SyncQueueQuery(rows: seq<QueueRow>, limit: int): seq<QueueRow>
  {
    Select(rows, Retryable, QueueOrder, limit)
  }

  /**
   * Cached predictions: only the user's unsynced rows, newest first, at most
   * `limit` of them; an unsynced row of the user is left out only when
   * `limit` rows at least as new are returned.
   */
  lemma CachedPredictionsSpec(rows: seq<PredictionRow>, userId: int, limit: int)
    ensures var q := CachedPredictionsQuery(rows, userId, limit);
      && (forall r :: r in q ==> r in rows && r.userId == userId && !r.synced)
      && (forall i, j :: 0 <= i < j < |q| ==> q[i].createdAt >= q[j].createdAt)
      && (0 <= limit ==> |q| <= limit)
      && (forall x :: x in rows && x.userId == userId && !x.synced && x !in q ==>
            |q| == limit && forall y :: y in q ==> y.createdAt >= x.createdAt)
      && multiset(q) <= multiset(rows)
  {
    var q := CachedPredictionsQuery(rows, userId, limit);
    SelectSpec(rows, PendingPredictionOf(userId), NewestPrediction, limit);
    FilterMultiset(rows, PendingPredictionOf(userId));
    forall i, j | 0 <= i < j < |q| ensures q[i].createdAt >= q[j].createdAt {
      assert KeyLe(NewestPrediction(q[i]), NewestPrediction(q[j]));
    }
    forall x, y | x in rows && x.userId == userId && !x.synced && x !in q && y in q
      ensures y.createdAt >= x.createdAt
    {
      assert PendingPredictionOf(userId)(x);
      assert KeyLe(NewestPrediction(y), NewestPrediction(x));
    }
  }

  /** A stored, unsynced prediction is among the user's cached predictions when no limit applies. */
  lemma StoredPredictionIsCached(rows: seq<PredictionRow>, row: PredictionRow)
    requires !row.synced
    ensures row in CachedPredictionsQuery(rows + [row], row.userId, -1)
  {
    var all := rows + [row];
    SelectSpec(all, PendingPredictionOf(row.userId), NewestPrediction, -1);
    assert row in all && PendingPredictionOf(row.userId)(row);
  }

  /**
   * Cached weather: None exactly when no row of the region expires after
   * `now`; otherwise such a row, and no such row is newer.
   */
  lemma CachedWeatherSpec(rows: seq<WeatherRow>, region: string, now: int)
    ensures CachedWeatherQuery(rows, region, now).None? <==>
      forall x :: x in rows ==> !(x.region == region && x.expiresAt > now)
    ensures CachedWeatherQuery(rows, region, now).Some? ==>
      var r := CachedWeatherQuery(rows, region, now).value;
      && r in rows && r.region == region && r.expiresAt > now
      && forall x :: x in rows && x.region == region && x.expiresAt > now ==> x.createdAt <= r.createdAt
  {
    var keep := FreshWeatherFor(region, now);
    var q := Select(rows, keep, NewestWeather, 1);
    SelectSpec(rows, keep, NewestWeather, 1);
    forall x | x in rows && x.region == region && x.expiresAt > now
      ensures q != [] && x.createdAt <= q[0].createdAt
    {
      assert keep(x);
      if x !in q {
        assert q[0] in q;
        assert KeyLe(NewestWeather(q[0]), NewestWeather(x));
      } else {
        assert |q| <= 1;
        assert x == q[0];
      }
    }
    if q != [] {
      assert q[0] in q;
    }
  }

  /** Weather stored for a positive number of hours is found until it expires. */
  lemma StoredWeatherIsCached(rows: seq<WeatherRow>, row: WeatherRow, now: int)
    requires row.expiresAt > now
    ensures CachedWeatherQuery(rows + [row], row.region, now).Some?
  {
    CachedWeatherSpec(rows + [row], row.region, now);
    assert row in rows + [row];
  }

  /** Cached user data: only the user's unsynced rows of that type, newest first, all of them. */
  lemma CachedUserDataSpec(rows: seq<UserDataRow>, userId: int, dataType: string)
    ensures var q := CachedUserDataQuery(rows, userId, dataType);
      && (forall r :: r in q ==> r in rows && r.userId == userId && r.dataType == dataType && !r.synced)
      && (forall r :: r in rows && r.userId == userId && r.dataType == dataType && !r.synced ==> r in q)
      && (forall i, j :: 0 <= i < j < |q| ==> q[i].createdAt >= q[j].createdAt)
      && multiset(q) <= multiset(rows)
      && (forall r: UserDataRow :: r.userId == userId && r.dataType == dataType && !r.synced ==>
            multiset(q)[r] == multiset(rows)[r])
  {
    var q := CachedUserDataQuery(rows, userId, dataType);
    var keep := PendingUserDataOf(userId, dataType);
    SelectSpec(rows, keep, NewestUserData, -1);
    FilterMultiset(rows, keep);
    forall r: UserDataRow | r.userId == userId && r.dataType == dataType && !r.synced
      ensures multiset(q)[r] == multiset(rows)[r]
    {
      assert keep(r);
    }
    forall i, j | 0 <= i < j < |q| ensures q[i].createdAt >= q[j].createdAt {
      assert KeyLe(NewestUserData(q[i]), NewestUserData(q[j]));
    }
    forall r | r in rows && r.userId == userId && r.dataType == dataType && !r.synced ensures r in q {
      assert keep(r);
      assert r in multiset(Filter(rows, keep));
    }
  }

  /**
   * The sync queue: only entries with fewer than three retries, highest
   * priority first and oldest first within a priority, at most `limit`.
   */
  lemma SyncQueueSpec(rows: seq<QueueRow>, limit: int)
    ensures var q := SyncQueueQuery(rows, limit);
      && (forall r :: r in q ==> r in rows && r.retryCount < 3)
      && (forall i, j :: 0 <= i < j < |q| ==>
            q[i].priority > q[j].priority ||
            (q[i].priority == q[j].priority && q[i].createdAt <= q[j].createdAt))
      && (0 <= limit ==> |q| <= limit)
      && (forall x :: x in rows && x.retryCount < 3 && x !in q ==>
            |q| == limit && forall y :: y in q ==> KeyLe(QueueOrder(y), QueueOrder(x)))
      && multiset(q) <= multiset(rows)
  {
    var q := SyncQueueQuery(rows, limit);
    SelectSpec(rows, Retryable, QueueOrder, limit);
    FilterMultiset(rows, Retryable);
    forall i, j | 0 <= i < j < |q|
      ensures q[i].priority > q[j].priority || (q[i].priority == q[j].priority && q[i].createdAt <= q[j].createdAt)
    {
      assert KeyLe(QueueOrder(q[i]), QueueOrder(q[j]));
    }
    forall x | x in rows && x.retryCount < 3 && x !in q
      ensures |q| == limit && forall y :: y in q ==> KeyLe(QueueOrder(y), QueueOrder(x))
    {
      assert Retryable(x);
    }
  }

  // ----- Row updates -----

  /** UPDATE offline_predictions SET synced = TRUE WHERE id = ? */
  function SetPredictionSynced(rows: seq<PredictionRow>, id: int): (r: seq<PredictionRow>)
    ensures |r| == |rows|
    ensures forall i :: 0 <= i < |rows| ==> r[i] == if rows[i].id == id then rows[i].(synced := true) else rows[i]
  {
    UpdateWhere(rows, (r: PredictionRow) => r.id == id, (r: PredictionRow) => r.(synced := true))
  }

  /** UPDATE offline_weather SET synced = TRUE WHERE id = ? */
  function SetWeatherSynced(rows: seq<WeatherRow>, id: int): (r: seq<WeatherRow>)
    ensures |r| == |rows|
    ensures forall i :: 0 <= i < |rows| ==> r[i] == if rows[i].id == id then rows[i].(synced := true) else rows[i]
  {
    UpdateWhere(rows, (r: WeatherRow) => r.id == id, (r: WeatherRow) => r.(synced := true))
  }

  /** UPDATE offline_user_data SET synced = TRUE WHERE id = ? */
  function SetUserDataSynced(rows: seq<UserDataRow>, id: int): (r: seq<UserDataRow>)
    ensures |r| == |rows|
    ensures forall i :: 0 <= i < |rows| ==> r[i] == if rows[i].id == id then rows[i].(synced := true) else rows[i]
  {
    UpdateWhere(rows, (r: UserDataRow) => r.id == id, (r: UserDataRow) => r.(synced := true))
  }

  function OtherThan(id: int): QueueRow -> bool
  {
    (r: QueueRow) => r.id != id
  }

  /** UPDATE sync_queue SET retry_count = retry_count + 1 WHERE id = ? */
  function IncrementRetry(rows: seq<QueueRow>, id: int): (r: seq<QueueRow>)
    ensures |r| == |rows|
    ensures forall i :: 0 <= i < |rows| ==>
      r[i] == if rows[i].id == id then rows[i].(retryCount := rows[i].retryCount + 1) else rows[i]
  {
    UpdateWhere(rows, (r: QueueRow) => r.id == id, (r: QueueRow) => r.(retryCount := r.retryCount + 1))
  }

  /** A prediction marked synced leaves its user's cached predictions; the other rows stay as they were. */
  lemma MarkedPredictionNotCached(rows: seq<PredictionRow>, id: int, userId: int, limit: int)
    ensures forall r :: r in CachedPredictionsQuery(SetPredictionSynced(rows, id), userId, limit) ==> r.id != id
    ensures forall r :: r in rows && r.id != id ==> r in SetPredictionSynced(rows, id)
  {
    var marked := SetPredictionSynced(rows, id);
    CachedPredictionsSpec(marked, userId, limit);
    forall r | r in marked && !r.synced ensures r.id != id {
      var i :| 0 <= i < |marked| && marked[i] == r;
    }
    forall r | r in rows && r.id != id ensures r in marked {
      var i :| 0 <= i < |rows| && rows[i] == r;
      assert marked[i] == r;
    }
  }

  /** A queue entry that is returned is stored and has fewer than three retries. */
  lemma SyncQueueMember(rows: seq<QueueRow>, limit: int, r: QueueRow)
    requires r in SyncQueueQuery(rows, limit)
    ensures r in rows && r.retryCount < 3
  {
    SelectSpec(rows, Retryable, QueueOrder, limit);
  }

  /** Three increments raise the matching entries' retry counts by three and touch nothing else. */
  lemma IncrementRetryThrice(rows: seq<QueueRow>, id: int)
    ensures var failed := IncrementRetry(IncrementRetry(IncrementRetry(rows, id), id), id);
      && |failed| == |rows|
      && forall i :: 0 <= i < |rows| ==>
           failed[i] == if rows[i].id == id then rows[i].(retryCount := rows[i].retryCount + 3) else rows[i]
  {
    var once := IncrementRetry(rows, id);
    var twice := IncrementRetry(once, id);
    assert forall i :: 0 <= i < |rows| ==> once[i].id == rows[i].id && twice[i].id == rows[i].id;
  }

  /**
   * Three failed attempts take an entry out of the sync queue without
   * deleting it: the table keeps its size, and the entry is still there
   * with its retry count raised by three.
   */
  lemma ThreeFailuresLeaveQueue(rows: seq<QueueRow>, id: int, limit: int)
    ensures var failed := IncrementRetry(IncrementRetry(IncrementRetry(rows, id), id), id);
      && |failed| == |rows|
      && (forall r :: r in rows && r.id == id ==> r.(retryCount := r.retryCount + 3) in failed)
      && (forall r :: r in SyncQueueQuery(failed, limit) ==> r.id != id)
  {
    var failed := IncrementRetry(IncrementRetry(IncrementRetry(rows, id), id), id);
    IncrementRetryThrice(rows, id);
    forall r | r in rows && r.id == id ensures r.(retryCount := r.retryCount + 3) in failed {
      var i :| 0 <= i < |rows| && rows[i] == r;
      assert failed[i] == r.(retryCount := r.retryCount + 3);
    }
    forall r | r in SyncQueueQuery(failed, limit) ensures r.id != id {
      SyncQueueMember(failed, limit, r);
      var i :| 0 <= i < |failed| && failed[i] == r;
    }
  }

  // ----- Cleanup -----

  function WeatherExpired(now: int): WeatherRow -> bool
  {
    (r: WeatherRow) => r.expiresAt < now
  }

  function WeatherKept(now: int): WeatherRow -> bool
  {
    (r: WeatherRow) => !(r.expiresAt < now)
  }

  /** Synced and created more than thirty days before `now`. */
  function PredictionStale(now: int): PredictionRow -> bool
  {
    (r: PredictionRow) => r.synced && r.createdAt < now - ThirtyDays
  }

  function PredictionKept(now: int): PredictionRow -> bool
  {
    (r: PredictionRow) => !(r.synced && r.createdAt < now - ThirtyDays)
  }

  function UserDataStale(now: int): UserDataRow -> bool
  {
    (r: UserDataRow) => r.synced && r.createdAt < now - ThirtyDays
  }

  function UserDataKept(now: int): UserDataRow -> bool
  {
    (r: UserDataRow) => !(r.synced && r.createdAt < now - ThirtyDays)
  }

  /**
   * Cleanup deletes only what it should: every unsynced prediction and user
   * record survives, a weather row goes only once it has expired, and a
   * deleted prediction was synced and over thirty days old.
   */
  lemma CleanupSpec(predictions: seq<PredictionRow>, weather: seq<WeatherRow>, userData: seq<UserDataRow>, now: int)
    ensures forall r :: r in predictions && !r.synced ==> r in Filter(predictions, PredictionKept(now))
    ensures forall r :: r in userData && !r.synced ==> r in Filter(userData, UserDataKept(now))
    ensures forall r :: r in weather && r.expiresAt >= now ==> r in Filter(weather, WeatherKept(now))
    ensures forall r :: r in predictions && r !in Filter(predictions, PredictionKept(now)) ==>
      r.synced && r.createdAt < now - ThirtyDays
    ensures forall r :: r in weather && r !in Filter(weather, WeatherKept(now)) ==> r.expiresAt < now
  {
    FilterMembers(predictions, PredictionKept(now));
    FilterMembers(userData, UserDataKept(now));
    FilterMembers(weather, WeatherKept(now));
    forall r | r in predictions && r !in Filter(predictions, PredictionKept(now))
      ensures r.synced && r.createdAt < now - ThirtyDays
    {
      assert !PredictionKept(now)(r);
    }
    forall r | r in weather && r !in Filter(weather, WeatherKept(now)) ensures r.expiresAt < now {
      assert !WeatherKept(now)(r);
    }
  }

  /** The number of rows a cleanup deletes is the number of rows its conditions select. */
  lemma CleanupCount(predictions: seq<PredictionRow>, weather: seq<WeatherRow>, userData: seq<UserDataRow>, now: int)
    ensures |weather| - |Filter(weather, WeatherKept(now))| == |Filter(weather, WeatherExpired(now))|
    ensures |predictions| - |Filter(predictions, PredictionKept(now))| == |Filter(predictions, PredictionStale(now))|
    ensures |userData| - |Filter(userData, UserDataKept(now))| == |Filter(userData, UserDataStale(now))|
  {
    FilterSplit(weather, WeatherKept(now), WeatherExpired(now));
    FilterSplit(predictions, PredictionKept(now), PredictionStale(now));
    FilterSplit(userData, UserDataKept(now), UserDataStale(now));
  }

  // ----- Statistics -----

  datatype Stats = Stats(
    totalPredictions: int, unsyncedPredictions: int, totalWeather: int, validWeather: int,
    pendingSync: int, totalUserData: int, unsyncedUserData: int)

  function Unsynced(r: PredictionRow): bool { !r.synced }
  function UnsyncedUserData(r: UserDataRow): bool { !r.synced }
  function ValidAt(now: int): WeatherRow -> bool
  {
    (r: WeatherRow) => r.expiresAt > now
  }

  /** `get_cache_stats`: the seven COUNT(*) queries. */
  function CacheStats(
    predictions: seq<PredictionRow>, weather: seq<WeatherRow>, userData: seq<UserDataRow>, queue: seq<QueueRow>,
    now: int): (s: Stats)
    ensures 0 <= s.unsyncedPredictions <= s.totalPredictions == |predictions|
    ensures 0 <= s.validWeather <= s.totalWeather == |weather|
    ensures 0 <= s.unsyncedUserData <= s.totalUserData == |userData|
    ensures s.pendingSync == |queue|
    ensures predictions == [] && weather == [] && userData == [] && queue == [] ==> s == Stats(0, 0, 0, 0, 0, 0, 0)
  {
    Stats(
      |predictions|, |Filter(predictions, Unsynced)|,
      |weather|, |Filter(weather, ValidAt(now))|,
      |queue|,
      |userData|, |Filter(userData, UnsyncedUserData)|)
  }

  /** The offline store: four tables and their AUTOINCREMENT counters. */
  class OfflineCache {
    var predictions: seq<PredictionRow>
    var weather: seq<WeatherRow>
    var userData: seq<UserDataRow>
    var queue: seq<QueueRow>
    var nextPredictionId: int
    var nextWeatherId: int
    var nextUserDataId: int
    var nextQueueId: int

    /** Every table's ids increase along the table and stay below its counter. */
    predicate Valid()
      reads this
    {
      && 0 < nextPredictionId && 0 < nextWeatherId && 0 < nextUserDataId && 0 < nextQueueId
      && IdsIncreasing(predictions, PredictionId, nextPredictionId)
      && IdsIncreasing(weather, WeatherId, nextWeatherId)
      && IdsIncreasing(userData, UserDataId, nextUserDataId)
      && IdsIncreasing(queue, QueueId, nextQueueId)
    }

    /** `init_database`: four empty tables. */
    constructor()
      ensures Valid()
      ensures predictions == [] && weather == [] && userData == [] && queue == []
    {
      predictions := [];
      weather := [];
      userData := [];
      queue := [];
      nextPredictionId := 1;
      nextWeatherId := 1;
      nextUserDataId := 1;
      nextQueueId := 1;
    }

    /** `store_prediction`: one new unsynced row with a fresh id and no attempts. */
    method StorePrediction(userId: int, data: string, now: int) returns (ok: bool)
      requires Valid()
      modifies this
      ensures Valid() && ok
      ensures predictions == old(predictions) + [PredictionRow(old(nextPredictionId), userId, data, now, false, 0)]
      ensures forall r :: r in old(predictions) ==> r.id != old(nextPredictionId)
      ensures nextPredictionId == old(nextPredictionId) + 1
      ensures weather == old(weather) && userData == old(userData) && queue == old(queue)
      ensures nextWeatherId == old(nextWeatherId) && nextUserDataId == old(nextUserDataId)
      ensures nextQueueId == old(nextQueueId)
    {
      var row := PredictionRow(nextPredictionId, userId, data, now, false, 0);
      AppendKeepsIdsIncreasing(predictions, row, PredictionId, nextPredictionId);
      predictions := predictions + [row];
      nextPredictionId := nextPredictionId + 1;
      ok := true;
    }

    /** `store_weather_data`: one new row expiring `expiryHours` after `now` (6 by default). */
    method StoreWeatherData(region: string, data: string, now: int, expiryHours: int) returns (ok: bool)
      requires Valid()
      modifies this
      ensures Valid() && ok
      ensures weather == old(weather) + [WeatherRow(old(nextWeatherId), region, data, now,
        now + expiryHours * MicrosPerHour, false)]
      ensures forall r :: r in old(weather) ==> r.id != old(nextWeatherId)
      ensures nextWeatherId == old(nextWeatherId) + 1
      ensures predictions == old(predictions) && userData == old(userData) && queue == old(queue)
      ensures nextPredictionId == old(nextPredictionId) && nextUserDataId == old(nextUserDataId)
      ensures nextQueueId == old(nextQueueId)
    {
      var row := WeatherRow(nextWeatherId, region, data, now, now + expiryHours * MicrosPerHour, false);
      AppendKeepsIdsIncreasing(weather, row, WeatherId, nextWeatherId);
      weather := weather + [row];
      nextWeatherId := nextWeatherId + 1;
      ok := true;
    }

    /** `store_user_data`: one new unsynced row of the given type. */
    method StoreUserData(userId: int, dataType: string, data: string, now: int) returns (ok: bool)
      requires Valid()
      modifies this
      ensures Valid() && ok
      ensures userData == old(userData) + [UserDataRow(old(nextUserDataId), userId, dataType, data, now, false)]
      ensures forall r :: r in old(userData) ==> r.id != old(nextUserDataId)
      ensures nextUserDataId == old(nextUserDataId) + 1
      ensures predictions == old(predictions) && weather == old(weather) && queue == old(queue)
      ensures nextPredictionId == old(nextPredictionId) && nextWeatherId == old(nextWeatherId)
      ensures nextQueueId == old(nextQueueId)
    {
      var row := UserDataRow(nextUserDataId, userId, dataType, data, now, false);
      AppendKeepsIdsIncreasing(userData, row, UserDataId, nextUserDataId);
      userData := userData + [row];
      nextUserDataId := nextUserDataId + 1;
      ok := true;
    }

    /** `add_to_sync_queue`: one new entry with no retries (priority 1 by default). */
    method AddToSyncQueue(operation: string, endpoint: string, data: string, now: int, priority: int)
      returns (ok: bool)
      requires Valid()
      modifies this
      ensures Valid() && ok
      ensures queue == old(queue) + [QueueRow(old(nextQueueId), operation, endpoint, data, now, priority, 0)]
      ensures forall r :: r in old(queue) ==> r.id != old(nextQueueId)
      ensures nextQueueId == old(nextQueueId) + 1
      ensures predictions == old(predictions) && weather == old(weather) && userData == old(userData)
      ensures nextPredictionId == old(nextPredictionId) && nextWeatherId == old(nextWeatherId)
      ensures nextUserDataId == old(nextUserDataId)
    {
      var row := QueueRow(nextQueueId, operation, endpoint, data, now, priority, 0);
      AppendKeepsIdsIncreasing(queue, row, QueueId, nextQueueId);
      queue := queue + [row];
      nextQueueId := nextQueueId + 1;
      ok := true;
    }

    /**
     * `get_cached_predictions` (limit 10 by default): each row's data with its
     * creation time; a row whose data does not decode is skipped.
     */
    method GetCachedPredictions(userId: int, limit: int, decodes: string -> bool) returns (results: seq<Cached>)
      ensures var q := Filter(CachedPredictionsQuery(predictions, userId, limit), PredictionDecodes(decodes));
        |results| == |q| && forall i :: 0 <= i < |q| ==> results[i] == Cached(q[i].data, q[i].createdAt)
    {
      var rows := CachedPredictionsQuery(predictions, userId, limit);
      var keep := PredictionDecodes(decodes);
      results := [];
      for i := 0 to |rows|
        invariant var f := Filter(rows[..i], keep);
          |results| == |f| && forall k :: 0 <= k < |f| ==> results[k] == Cached(f[k].data, f[k].createdAt)
      {
        assert rows[..i + 1] == rows[..i] + [rows[i]];
        FilterSnoc(rows[..i], rows[i], keep);
        if decodes(rows[i].data) {
          results := results + [Cached(rows[i].data, rows[i].createdAt)];
        }
      }
      assert rows[..|rows|] == rows;
    }

    /** `get_cached_weather`: the newest unexpired row of the region, with its times, if its data decodes. */
    method GetCachedWeather(region: string, now: int, decodes: string -> bool) returns (r: Option<CachedWeather>)
      ensures r.Some? <==>
        (CachedWeatherQuery(weather, region, now).Some? && decodes(CachedWeatherQuery(weather, region, now).value.data))
      ensures r.Some? ==> var row := CachedWeatherQuery(weather, region, now).value;
        r.value == CachedWeather(row.data, row.createdAt, row.expiresAt)
    {
      var found := CachedWeatherQuery(weather, region, now);
      if found.Some? && decodes(found.value.data) {
        var row := found.value;
        return Some(CachedWeather(row.data, row.createdAt, row.expiresAt));
      }
      return None;
    }

    /** `get_cached_user_data`: each row's data with its creation time; undecodable rows are skipped. */
    method GetCachedUserData(userId: int, dataType: string, decodes: string -> bool) returns (results: seq<Cached>)
      ensures var q := Filter(CachedUserDataQuery(userData, userId, dataType), UserDataDecodes(decodes));
        |results| == |q| && forall i :: 0 <= i < |q| ==> results[i] == Cached(q[i].data, q[i].createdAt)
    {
      var rows := CachedUserDataQuery(userData, userId, dataType);
      var keep := UserDataDecodes(decodes);
      results := [];
      for i := 0 to |rows|
        invariant var f := Filter(rows[..i], keep);
          |results| == |f| && forall k :: 0 <= k < |f| ==> results[k] == Cached(f[k].data, f[k].createdAt)
      {
        assert rows[..i + 1] == rows[..i] + [rows[i]];
        FilterSnoc(rows[..i], rows[i], keep);
        if decodes(rows[i].data) {
          results := results + [Cached(rows[i].data, rows[i].createdAt)];
        }
      }
      assert rows[..|rows|] == rows;
    }

    /**
     * `get_sync_queue` (limit 50 by default): the entries, every column
     * included, except those whose data does not decode.
     */
    method GetSyncQueue(limit: int, decodes: string -> bool) returns (results: seq<QueueRow>)
      ensures results == Filter(SyncQueueQuery(queue, limit), QueueDecodes(decodes))
    {
      var rows := SyncQueueQuery(queue, limit);
      var keep := QueueDecodes(decodes);
      results := [];
      for i := 0 to |rows|
        invariant results == Filter(rows[..i], keep)
      {
        assert rows[..i + 1] == rows[..i] + [rows[i]];
        FilterSnoc(rows[..i], rows[i], keep);
        if decodes(rows[i].data) {
          results := results + [rows[i]];
        }
      }
      assert rows[..|rows|] == rows;
    }

    /**
     * `mark_synced`: flips `synced` in the three data tables, deletes from
     * the sync queue, ignores any other table name, and answers true.
     */
    method MarkSynced(table: string, recordId: int) returns (ok: bool)
      requires Valid()
      modifies this
      ensures Valid() && ok
      ensures predictions == if table == "predictions" then SetPredictionSynced(old(predictions), recordId)
        else old(predictions)
      ensures weather == if table == "weather" then SetWeatherSynced(old(weather), recordId) else old(weather)
      ensures userData == if table == "user_data" then SetUserDataSynced(old(userData), recordId)
        else old(userData)
      ensures queue == if table == "sync_queue" then Filter(old(queue), OtherThan(recordId)) else old(queue)
      ensures nextPredictionId == old(nextPredictionId) && nextWeatherId == old(nextWeatherId)
      ensures nextUserDataId == old(nextUserDataId) && nextQueueId == old(nextQueueId)
    {
      if table == "predictions" {
        SameIdsKeepIncreasing(predictions, SetPredictionSynced(predictions, recordId), PredictionId, nextPredictionId);
        predictions := SetPredictionSynced(predictions, recordId);
      } else if table == "weather" {
        SameIdsKeepIncreasing(weather, SetWeatherSynced(weather, recordId), WeatherId, nextWeatherId);
        weather := SetWeatherSynced(weather, recordId);
      } else if table == "user_data" {
        SameIdsKeepIncreasing(userData, SetUserDataSynced(userData, recordId), UserDataId, nextUserDataId);
        userData := SetUserDataSynced(userData, recordId);
      } else if table == "sync_queue" {
        FilterKeepsIdsIncreasing(queue, OtherThan(recordId), QueueId, nextQueueId);
        queue := Filter(queue, OtherThan(recordId));
      }
      ok := true;
    }

    /** `mark_sync_failed`: one more retry for the entry with that id, nothing else changes. */
    method MarkSyncFailed(queueId: int) returns (ok: bool)
      requires Valid()
      modifies this
      ensures Valid() && ok
      ensures queue == IncrementRetry(old(queue), queueId)
      ensures predictions == old(predictions) && weather == old(weather) && userData == old(userData)
      ensures nextPredictionId == old(nextPredictionId) && nextWeatherId == old(nextWeatherId)
      ensures nextUserDataId == old(nextUserDataId) && nextQueueId == old(nextQueueId)
    {
      SameIdsKeepIncreasing(queue, IncrementRetry(queue, queueId), QueueId, nextQueueId);
      queue := IncrementRetry(queue, queueId);
      ok := true;
    }

    /**
     * `cleanup_expired_data`: deletes expired weather and synced data older
     * than thirty days, and answers how many rows went.
     */
    method CleanupExpiredData(now: int) returns (cleaned: int)
      requires Valid()
      modifies this
      ensures Valid()
      ensures weather == Filter(old(weather), WeatherKept(now))
      ensures predictions == Filter(old(predictions), PredictionKept(now))
      ensures userData == Filter(old(userData), UserDataKept(now))
      ensures queue == old(queue)
      ensures cleaned == (|old(weather)| - |weather|) + (|old(predictions)| - |predictions|)
        + (|old(userData)| - |userData|)
      ensures cleaned == |Filter(old(weather), WeatherExpired(now))|
        + |Filter(old(predictions), PredictionStale(now))| + |Filter(old(userData), UserDataStale(now))|
      ensures nextPredictionId == old(nextPredictionId) && nextWeatherId == old(nextWeatherId)
      ensures nextUserDataId == old(nextUserDataId) && nextQueueId == old(nextQueueId)
    {
      CleanupCount(predictions, weather, userData, now);
      FilterKeepsIdsIncreasing(weather, WeatherKept(now), WeatherId, nextWeatherId);
      FilterKeepsIdsIncreasing(predictions, PredictionKept(now), PredictionId, nextPredictionId);
      FilterKeepsIdsIncreasing(userData, UserDataKept(now), UserDataId, nextUserDataId);
      var before := |weather|;
      weather := Filter(weather, WeatherKept(now));
      var expiredWeather := before - |weather|;
      before := |predictions|;
      predictions := Filter(predictions, PredictionKept(now));
      var oldPredictions := before - |predictions|;
      before := |userData|;
      userData := Filter(userData, UserDataKept(now));
      var oldUserData := before - |userData|;
      cleaned := expiredWeather + oldPredictions + oldUserData;
    }

    /** `get_cache_stats`. */
    method GetCacheStats(now: int) returns (stats: Stats)
      ensures stats == CacheStats(predictions, weather, userData, queue, now)
      ensures stats.unsyncedPredictions <= stats.totalPredictions
      ensures stats.validWeather <= stats.totalWeather
      ensures stats.unsyncedUserData <= stats.totalUserData
    {
      stats := CacheStats(predictions, weather, userData, queue, now);
    }

    /** `clear_all_data`: every table emptied; the counters keep counting. */
    method ClearAllData() returns (ok: bool)
      requires Valid()
      modifies this
      ensures Valid() && ok
      ensures predictions == [] && weather == [] && userData == [] && queue == []
      ensures nextPredictionId == old(nextPredictionId) && nextWeatherId == old(nextWeatherId)
      ensures nextUserDataId == old(nextUserDataId) && nextQueueId == old(nextQueueId)
    {
      predictions := [];
      weather := [];
      userData := [];
      queue := [];
      ok := true;
    }
  }

  /** A cached prediction or user record as returned: its data and when it was cached. */
  datatype Cached = Cached(data: string, cachedAt: int)

  /** A cached weather record as returned: its data, when it was cached and when it expires. */
  datatype CachedWeather = CachedWeather(data: string, cachedAt: int, expiresAt: int)
}
