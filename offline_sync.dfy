/**
 * backend/app.py `sync_offline_data`: copies a user's cached predictions
 * into the main database and tallies the outcome. Whether each row could be
 * added to the database session, and whether the final commit succeeds, are
 * parameters.
 */
module OfflineSync {
  import opened Common
  import opened Ordering
  import opened OfflineStore

  /** `get_cached_predictions(user_id)` is called without a limit argument, so its default applies. */
  const FetchLimit: int := 10

  datatype SyncError =
    | PredictionSyncError(index: nat)
    | CommitError

  datatype SyncResults = SyncResults(
    predictionsSynced: nat, weatherSynced: nat, userDataSynced: nat, errors: seq<SyncError>)

  datatype SyncResponse =
    | UserIdRequired
    | Synced(results: SyncResults)

  /** `not user_id`: a missing id and the id 0 are both rejected. */
  predicate Falsy(userId: Option<int>)
  {
    userId.None? || userId.value == 0
  }

  /** `data.get('type', 'all') in ['all', 'predictions']`; None stands for an absent key. */
  predicate SyncsPredictions(syncType: Option<string>)
  {
    syncType.None? || syncType.value == "all" || syncType.value == "predictions"
  }

  /** How many of the first n rows were added to the session. */
  function Accepted(n: nat, added: nat -> bool): (count: nat)
    ensures count <= n
  {
    if n == 0 then 0 else Accepted(n - 1, added) + (if added(n - 1) then 1 else 0)
  }

  /** One error per row among the first n that could not be added, in row order. */
  function Failures(n: nat, added: nat -> bool): (errors: seq<SyncError>)
    ensures |errors| + Accepted(n, added) == n
    ensures forall e :: e in errors ==> e.PredictionSyncError? && e.index < n && !added(e.index)
  {
    if n == 0 then []
    else Failures(n - 1, added) + (if added(n - 1) then [] else [PredictionSyncError(n - 1)])
  }

  /** Every row that could not be added is reported. */
  lemma {:induction false} FailuresComplete(n: nat, added: nat -> bool)
    ensures forall i :: 0 <= i < n && !added(i) ==> PredictionSyncError(i) in Failures(n, added)
  {
    if n > 0 {
      FailuresComplete(n - 1, added);
    }
  }

  /** The predictions a sync of this request copies: the cached ones whose data decodes. */
  function Fetched(cache: seq<PredictionRow>, userId: int, syncType: Option<string>, decodes: string -> bool)
    : seq<PredictionRow>
  {
    if SyncsPredictions(syncType) then Filter(CachedPredictionsQuery(cache, userId, FetchLimit), PredictionDecodes(decodes))
    else []
  }

  /**
   * `sync_offline_data`: 400 for a falsy user id; otherwise one count per
   * row added and one error per row that was not, plus an error if the
   * commit fails. Rows are counted as synced before the commit, so a failed
   * commit does not lower the count. The cache itself is left as it was:
   * nothing is marked synced.
   */
  method SyncOfflineData(
    cache: OfflineCache, userId: Option<int>, syncType: Option<string>, decodes: string -> bool,
    added: nat -> bool, commitOk: bool)
    returns (r: SyncResponse)
    ensures r.UserIdRequired? <==> Falsy(userId)
    ensures r.Synced? ==>
      var fetched := Fetched(cache.predictions, userId.value, syncType, decodes);
      && r.results.predictionsSynced == Accepted(|fetched|, added)
      && r.results.predictionsSynced <= |fetched| <= FetchLimit
      && r.results.weatherSynced == 0 && r.results.userDataSynced == 0
      && r.results.errors == Failures(|fetched|, added) + (if commitOk then [] else [CommitError])
  {
    if Falsy(userId) {
      return UserIdRequired;
    }
    var synced: nat := 0;
    var errors: seq<SyncError> := [];
    if SyncsPredictions(syncType) {
      var fetched := cache.GetCachedPredictions(userId.value, FetchLimit, decodes);
      for i := 0 to |fetched|
        invariant synced == Accepted(i, added)
        invariant errors == Failures(i, added)
      {
        if added(i) {
          synced := synced + 1;
        } else {
          errors := errors + [PredictionSyncError(i)];
        }
      }
    }
    if !commitOk {
      errors := errors + [CommitError];
    }
    r := Synced(SyncResults(synced, 0, 0, errors));
  }
}
