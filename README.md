# Crop-yield advisory platform: a verified model of its core

The platform estimates the yield of a crop (tons per hectare) from a field's
rainfall, temperature, soil pH, nutrients and sowing date. It advises the
farmer, rates the risk Green, Yellow or Red, serves weather with a cache and a
regional fallback, keeps an offline store that is synchronised later, and
sends alerts by SMS, WhatsApp and push notification.

This project models that core in Dafny and proves what it promises:

- `Estimator`: the stand-alone rule-based estimator and its `/predict`
  endpoint (`app.py`).
- `Advisory`: the eight advisory checks and the risk tiers. `app.py` and
  `backend/app.py` each carry a copy of these rules, with the same thresholds
  in the same order; only the advisory texts differ. The rules are defined
  once, and each endpoint keeps its own text table (`Estimator.Text`,
  `BackendPredict.Text`). So `backend/app.py:293-323` is covered by the same
  members as `app.py:40-70`.
- `Request`: the JSON body as a map from keys to values, and the
  required-field check both endpoints perform.
- `BackendPredict`: the linear fallback model and `/api/predict`
  (`backend/app.py`).
- `Weather`: the weather cache, the API-or-fallback decision, the regional
  fallback, and the two maintenance endpoints (`backend/app.py`).
- `OfflineStore`: the SQLite offline cache (`backend/offline_cache.py`). It
  is a class with one `seq` per table and the tables' AUTOINCREMENT counters.
  Each query is modelled as WHERE, then ORDER BY, then LIMIT, over those
  sequences (`Ordering.Select`).
- `OfflineSync`: `/api/offline/sync` (`backend/app.py`). The endpoint marks
  no cached row as synced. It re-reads the cached predictions, counts every
  row added to the session before the commit, and keeps that count even when
  the commit fails.
- `Notifications`: the notification service (`backend/notifications.py`).
- `Ordering` and `Common`: generic filtering, sorting and limiting, an
  `Option` type, and ASCII lower-casing.

Things the model receives as parameters instead of computing them:

- the clock: microseconds in the offline store, seconds in the weather cache;
- the random variations of the weather fallback;
- the weather API's answer;
- which prediction model is installed; the trained forest is an opaque
  function of the feature vector;
- whether the SMS/WhatsApp and push gateways accept a message (`accepted`);
- whether each database insert and the final commit of a sync succeed;
- whether `json.loads` accepts a stored row's data (`decodes`); the store's
  getters skip the rows it rejects.

Numbers are exact reals.

## Model

| member | source | states |
|---|---|---|
| Estimator.PredictCropYield | app.py:7-38 | the yield is never below 0.5, and it is either 0.5 or the unclamped sum of its terms, whichever is larger |
| Estimator.UnclampedYield | app.py:9-37 | before the floor, the yield lies between 1.1 and 3.2 plus the nutrient score minus the sowing penalty: the base 2.0 with the worst and with the best of the three bonuses |
| Estimator.BonusRanges | app.py:11-29 | each bonus holds exactly on its range, with both ends included: rainfall +0.5 on [180, 350], -0.4 below, +0.2 above; temperature +0.4 on [26, 32]; pH +0.3 on [6.0, 7.5] |
| Estimator.YieldAboveFloor | app.py:9-38 | above the floor, the yield is 2 plus the three bonuses plus (N+P+K)/300, minus 0.05 per day of sowing offset |
| Estimator.SowingOffsetSymmetric | app.py:35 | sowing d days early or d days late gives the same yield |
| Estimator.YieldMonotoneInNutrients | app.py:32-38 | more total nutrients never lower the yield |
| Estimator.YieldMonotoneInOffset | app.py:35-38 | a sowing date further from ideal never raises the yield |
| Estimator.Predict | app.py:221-258 | 400 with the missing keys exactly when a required key is absent; 500 exactly when all keys are present but a numeric one is not a number; otherwise the estimate, the advisories for that estimate, their texts, and the risk tier of the estimate and the advisory count |
| Estimator.GreenNeedsHighYieldAndFewAdvisories | app.py:236-246 | a Green answer means a yield of at least 2.8 and at most one advisory |
| Estimator.OptimalBoundaryExample | app.py:7-70 | at the lower edges of every optimal range, with 100 of each nutrient, the yield is 4.2, there is no advice, and the tier is Green |
| Estimator.AdverseExample | app.py:7-70 | a hot, dry, alkaline, nutrient-poor field sown 20 days off is floored to 0.5, gets seven advisories in check order, and is Red |
| Advisory.Recommendations | app.py:40-61 | at most eight advisories, one per check; which ones, and in which order, is stated by RecommendationsSpec |
| Advisory.RecommendationsAreFilteredChecks | app.py:40-61 | the advisory list is the fixed check list, filtered by the thresholds |
| Advisory.RecommendationsSpec | app.py:40-61 | at most eight advisories; an advisory is present exactly when its threshold holds; advisories keep the order of the checks |
| Advisory.NeverAcidicAndAlkaline | app.py:48-51 | the acidic-soil and alkaline-soil advisories never appear together |
| Advisory.RiskTiers | app.py:63-70 | Red exactly when the yield is below 2.0 or there are three or more advisories; Yellow exactly when it is not Red and the yield is below 2.8 or there are two advisories; Green exactly when the yield is at least 2.8 and there is at most one advisory |
| Advisory.RiskLevel | app.py:63-70 | Green exactly when the yield is at least 2.8 and there is at most one advisory; Red exactly when the yield is below 2.0 or there are three or more advisories |
| Advisory.RiskMonotone | backend/app.py:293-300 | a lower yield or more advisories never lower the severity of the tier |
| Request.MissingFields | app.py:231 | a key is listed exactly when it is required and absent from the payload |
| Request.MissingFieldsSpec | app.py:228-233 | the missing list names exactly the required keys the payload lacks, in required-field order, and is empty exactly when all nine keys are present |
| Request.ReadMeasurement | backend/app.py:467-475 | the measurement exists exactly when all seven numeric keys hold numbers, and each field is the value under its key |
| BackendPredict.SimplePredict | backend/app.py:184-192 | the loop's sum is the intercept plus the weighted sum of the features in feature order, floored at 0.5 |
| BackendPredict.LinearPredictionExplicit | backend/app.py:186-192 | the linear score is the intercept plus each of the seven features times its named coefficient, floored at 0.5 |
| BackendPredict.DefaultModelComplete | backend/app.py:159-182 | the written-out linear model has a coefficient for every feature |
| BackendPredict.DefaultModelOffsetIsSigned | backend/app.py:163-172 | in the default model the sowing offset enters signed: sowing d days late scores 0.1·d less than sowing d days early |
| BackendPredict.TruncateToInt | backend/app.py:474 | `int()` on a float truncates toward zero |
| BackendPredict.PredictYield | backend/app.py:450-536 | 400 with the missing keys and the required list exactly when a key is absent; 500 exactly when a numeric key is not a number; otherwise the chosen model's prediction (never below 0.5 with the linear model), its advisories, their texts and its risk tier |
| Common.ContainsAt | backend/app.py:268-269 | `state in region_lower` holds exactly when the state name occurs at some position of the lower-cased region |
| Weather.FirstMatchSpec | backend/app.py:266-271 | the chosen pattern belongs to a state whose name occurs in the region, and no earlier state's name occurs; no pattern exactly when no state's name occurs |
| Weather.FallbackReport | backend/app.py:273-291 | fallback humidity is clamped to 30..90 and rainfall is never negative; the report is marked as a fallback for the requested region |
| Weather.GetRegionalFallbackWeather | backend/app.py:247-291 | the scan that stops at the first match yields the pattern of the first state named in the region (the default pattern otherwise), with clamped humidity and non-negative rainfall |
| Weather.ApiReport | backend/app.py:220-228 | an API report keeps the reading's temperature, humidity and description, turns the last hour's rain into a daily figure (times 24, or 0 when there is no rain entry), and is marked as coming from the API for the requested region |
| Weather.Lookup | backend/app.py:205-210 | a cache hit exactly when the region's entry exists and is less than 3600 s old, and a hit returns the stored report |
| Weather.ApiEntryFreshForAnHour | backend/app.py:71 | an entry stored from the API is served for exactly the next hour |
| Weather.FallbackEntryFreshForFiveMinutes | backend/app.py:239-243 | a back-dated fallback entry is served for exactly the next five minutes |
| Weather.CaseInsensitiveKey | backend/app.py:203-210 | regions differing only in letter case share a cache entry: the entry stored for one is what a lookup of the other reads, while it is fresh |
| Weather.WeatherService.constructor | backend/app.py:66-71 | the cache starts empty, with the configured key |
| Weather.WeatherService.GetWeatherData | backend/app.py:198-245 | a fresh entry is returned unchanged; otherwise, with a real key and an API answer, the API report is returned and cached for an hour; otherwise the regional fallback is returned and cached for five minutes |
| Weather.WeatherService.ClearWeatherCache | backend/app.py:424-429 | the cache is emptied and the key kept |
| Weather.WeatherService.UpdateWeatherConfig | backend/app.py:431-448 | succeeds exactly for a present, non-empty key, which then replaces the old one and empties the cache; otherwise nothing changes |
| OfflineStore.CachedPredictionsSpec | backend/offline_cache.py:134-161 | only the user's unsynced rows, newest first, at most `limit` of them, none returned more often than it is stored; one of the user's unsynced rows is left out only when `limit` rows at least as new are returned |
| OfflineStore.StoredPredictionIsCached | backend/offline_cache.py:75-92 | a stored unsynced prediction is among its user's cached predictions when there is no limit |
| OfflineStore.CachedWeatherSpec | backend/offline_cache.py:163-192 | nothing exactly when the region has no unexpired row; otherwise an unexpired row of the region with no newer one |
| OfflineStore.StoredWeatherIsCached | backend/offline_cache.py:94-113 | stored weather is found until it expires |
| OfflineStore.CachedUserDataSpec | backend/offline_cache.py:194-220 | exactly the user's unsynced rows of that type, newest first, each as often as it is stored |
| OfflineStore.SyncQueueSpec | backend/offline_cache.py:241-276 | only entries with fewer than three retries, highest priority first and oldest first within a priority, at most `limit`, none returned more often than it is stored; an eligible entry is left out only when `limit` entries that order before it are returned |
| OfflineStore.SetPredictionSynced | backend/offline_cache.py:284-287 | the rows keep their number and order; the row with that id gets `synced` set and no other row changes |
| OfflineStore.SetWeatherSynced | backend/offline_cache.py:288-291 | the rows keep their number and order; the row with that id gets `synced` set and no other row changes |
| OfflineStore.SetUserDataSynced | backend/offline_cache.py:292-295 | the rows keep their number and order; the row with that id gets `synced` set and no other row changes |
| OfflineStore.IncrementRetry | backend/offline_cache.py:313-317 | the entries keep their number and order; the entry with that id has its retry count raised by one and no other entry changes |
| OfflineStore.MarkedPredictionNotCached | backend/offline_cache.py:278-305 | a prediction marked synced no longer appears among cached predictions, and every other row is kept |
| OfflineStore.ThreeFailuresLeaveQueue | backend/offline_cache.py:307-325 | three failures take an entry out of the sync queue without deleting it: it is still stored, with its retry count raised by three |
| OfflineStore.CleanupSpec | backend/offline_cache.py:327-354 | unsynced predictions and user records always survive a cleanup; a weather row is deleted only once expired; a deleted prediction was synced and over thirty days old |
| OfflineStore.CleanupCount | backend/offline_cache.py:327-354 | the number of rows deleted from each table is the number of rows its deletion condition selects |
| OfflineStore.CacheStats | backend/offline_cache.py:356-394 | each count is bounded by its table's size, the pending count is the queue's size, and an empty store gives all zeros |
| OfflineStore.OfflineCache.constructor | backend/offline_cache.py:17-73 | four empty tables, with the id invariant established |
| OfflineStore.OfflineCache.StorePrediction | backend/offline_cache.py:75-92 | appends one unsynced row with a fresh id and no attempts; nothing else changes |
| OfflineStore.OfflineCache.StoreWeatherData | backend/offline_cache.py:94-113 | appends one row with a fresh id that expires `expiryHours` after its creation; nothing else changes |
| OfflineStore.OfflineCache.StoreUserData | backend/offline_cache.py:115-132 | appends one unsynced row of the given type with a fresh id; nothing else changes |
| OfflineStore.OfflineCache.AddToSyncQueue | backend/offline_cache.py:222-239 | appends one entry with a fresh id and no retries; nothing else changes |
| OfflineStore.OfflineCache.GetCachedPredictions | backend/offline_cache.py:134-161 | returns the data and creation time of each selected prediction whose data decodes, in query order |
| OfflineStore.OfflineCache.GetCachedWeather | backend/offline_cache.py:163-192 | returns the selected row's data, creation time and expiry; nothing when there is no row or its data does not decode |
| OfflineStore.OfflineCache.GetCachedUserData | backend/offline_cache.py:194-220 | returns the data and creation time of each selected record whose data decodes, in query order |
| OfflineStore.OfflineCache.GetSyncQueue | backend/offline_cache.py:241-276 | returns exactly the selected queue entries whose data decodes, in queue order |
| OfflineStore.OfflineCache.MarkSynced | backend/offline_cache.py:278-305 | flips `synced` on the matching row of the named data table, or deletes the matching queue entry; an unknown table changes nothing |
| OfflineStore.OfflineCache.MarkSyncFailed | backend/offline_cache.py:307-325 | raises the matching entry's retry count by one; nothing else changes |
| OfflineStore.OfflineCache.CleanupExpiredData | backend/offline_cache.py:327-354 | keeps exactly the rows outside the deletion conditions, and reports the number of deleted rows |
| OfflineStore.OfflineCache.GetCacheStats | backend/offline_cache.py:356-394 | the statistics of the current tables, each count bounded by its table |
| OfflineStore.OfflineCache.ClearAllData | backend/offline_cache.py:396-413 | every table is empty, and the id counters keep counting |
| OfflineSync.Failures | backend/app.py:710-733 | one error per row not added, each naming a row that failed; the errors and the added rows together account for every row |
| OfflineSync.FailuresComplete | backend/app.py:710-733 | every row that could not be added is reported |
| OfflineSync.SyncOfflineData | backend/app.py:691-749 | 400 exactly for a missing or zero user id; otherwise at most ten predictions fetched, one synced count per row added, one error per row not added, and a commit error when the commit fails; the cache is unchanged |
| Notifications.LanguageSelection | backend/notifications.py:136-168 | body and title agree exactly on 'en', 'hi' and 'ta'; for any other code the body is English but the push title is Tamil |
| Notifications.StripPlus | backend/notifications.py:74-75 | no '+' is left, every other character keeps its number of occurrences, and the text does not grow |
| Notifications.StripPlusAppend | backend/notifications.py:74-75 | stripping a concatenation strips each part, so the remaining characters keep their order |
| Notifications.StripPlusIdempotent | backend/notifications.py:74-75 | stripping '+' twice is the same as stripping once |
| Notifications.WhatsAppAddress | backend/notifications.py:74-75 | the address is `whatsapp:` followed by the number with every '+' removed |
| Notifications.TemplateLanguage | backend/notifications.py:138 | the template is Hindi exactly for 'hi', Tamil exactly for 'ta', and English for any other code |
| Notifications.TitleLanguage | backend/notifications.py:159-160 | the push title is English exactly for 'en', Hindi exactly for 'hi', and Tamil for any other code |
| Notifications.SendSms | backend/notifications.py:39-65 | delivered exactly when the Twilio credentials are all set and the gateway accepts the message from the configured number; not configured otherwise |
| Notifications.SendWhatsApp | backend/notifications.py:67-97 | delivered exactly when the credentials are set and the gateway accepts the message between the two `whatsapp:` addresses |
| Notifications.SendPush | backend/notifications.py:99-134 | delivered exactly when the server key is set and the gateway accepts the push |
| Notifications.SendHighRiskAlert | backend/notifications.py:136-168 | SMS and WhatsApp exactly when the user has a phone, push exactly when the user has a token, each with the high-risk template |
| Notifications.SendWeatherAlert | backend/notifications.py:170-198 | SMS exactly with a phone, push exactly with a token, never WhatsApp; both carry the weather template in the template language, filled with the weather description, the user's region, the temperature and the rainfall ('Unknown' for any that is missing), and the push title is the weather-alert title in the title language |
| Notifications.SendYieldUpdate | backend/notifications.py:200-227 | SMS exactly with a phone, push exactly with a token, never WhatsApp; both carry the yield template in the template language, filled with the crop type, the predicted yield and the risk level ('Unknown' for any that is missing), and the push title is the yield-update title in the title language |
| Notifications.UnknownLanguageAlerts | backend/notifications.py:159-160 | for an unknown language code, every alert's push pairs an English body with a Tamil title |
| Notifications.Successes | backend/notifications.py:238-259 | a bulk run never counts more successes than sends attempted |
| Notifications.DetailsKeys | backend/notifications.py:261 | the details map has an entry for each user's key and no other entries |
| Notifications.DetailsLastWriterWins | backend/notifications.py:261 | a key's entry holds the results of the last user with that key |
| Notifications.IdLessUsersShareEntry | backend/notifications.py:261 | users without an id overwrite one another under the single `unknown` key |
| Notifications.SendBulkNotifications | backend/notifications.py:229-263 | the user count; the successes; successes plus failures equal the sends attempted; and the details map |

## Left out

- Rounding: `round(prediction, 2)` and the one-decimal rounding of temperatures are not modelled. Python rounds half to even on binary floats. Every property is stated on the unrounded value, which the source also uses for advice and risk.
- Floating point: all arithmetic is on exact reals, so float rounding error is not captured.
- JSON booleans count as numbers in Python; here a value is a number or not one.
- Request.ReadMeasurement: every string is a non-number here, so it gives a 500 answer. In `backend/app.py` a numeric string in one of the six float fields also ends in a 500, because `generate_recommendations` compares the raw values with numbers (lines 306-321). A string of digits under `sowing_date_offset` differs: `int()` accepts it at line 474 and the source answers with a prediction.
- Ties in ORDER BY: SQLite leaves the order of rows with equal sort keys unspecified. The model fixes one order: the higher id first in the newest-first queries (predictions, weather, user data), the lower id first in the sync queue. Every order stated in the model holds for that choice.
- Common.Lower lower-cases ASCII letters only; Python's `lower()` covers all of Unicode.
- The database save in `predict_yield`, user and auth endpoints, ML training, the HTML page and Flask routing are outside the modelled core.
- `except` blocks that turn any exception into a 500 answer are modelled only for non-numeric input.
- The store methods' `False` result after an SQLite error: inserts and updates always succeed here.
- Timestamps are integers (microseconds), not ISO-8601 text. Comparing ISO strings of the same format orders them as their times. `store_weather_data` and `cleanup_expired_data` each read the clock twice (`backend/offline_cache.py` lines 100 and 105, 334 and 338); the model reads it once per call, so the expiry is exactly `expiryHours` after the creation time and both deletion conditions use the same instant, where the source's readings lie microseconds apart.
- BackendPredict.PredictYield: requires a linear model with a coefficient for every feature. A hand-edited `simple_model.json` missing one would raise KeyError and answer 500 in the source; `create_simple_model` always writes all seven.
- Notifications.SendWeatherAlert: a key that is present with the value None is not distinguished from an absent key; both give 'Unknown'. In the source, `.get(key, 'Unknown')` returns the stored None, and the message reads "None". This happens for the region of a user registered without one (`backend/app.py` lines 368 and 657). It applies equally to `crop_data` values sent as JSON null in Notifications.SendHighRiskAlert and Notifications.SendYieldUpdate, and to weather values.
- The offline store's threading lock: the model is sequential.
- Message texts: `str.format` on the templates is kept as the template's kind and language plus its arguments in the order of the `format` call's keywords (the Hindi and Tamil templates use them in another order). Emoji titles are kept as their kind and language.
- OfflineSync.SyncOfflineData: JSON `null` is not a value here. A `user_id` of `null` is treated like an absent key; both give 400 in the source too. A `type` of `null` is also read as an absent key, which means 'all'; the source gets None and, None not being 'all' or 'predictions', fetches nothing.
- Notifications.KeyOf: a user whose `id` is present but `null` gets the key None in the source, separate from 'unknown'; with no `null` in the model, that user is filed under 'unknown'.
- OfflineSync.SyncOfflineData: the contents of each cached prediction are not read. Whether its database row can be built and added is the parameter `added`, and an error's text is replaced by the row's index.
- Weather: the ISO `timestamp` field of a report, and the HTTP request to the weather API, whose outcome is the parameter `reading`.
- Notifications: `notification_type` of the bulk sender is unused in the source and is not a parameter.
