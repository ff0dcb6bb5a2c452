/** `GarminWebhookController`: the optional shared-secret check, the push handlers'
  * responses, and the `last` projection of the most recently cached dailies payload.
  * The configured secret is a parameter, and the cache is reached only through a
  * get-or-null function. Payload values are of an unspecified JSON type `V`. */
module WebhookController {
  import opened Wrappers
  import JavaLang

  /** `isAuthorized`: no secret, or a blank one, turns the check off; otherwise the header
    * must equal the secret exactly. */
  function IsAuthorized(sharedSecret: Option<string>, provided: Option<string>): (ok: bool)
    ensures sharedSecret.None? || JavaLang.IsBlank(sharedSecret.value) ==> ok
    ensures sharedSecret.Some? && !JavaLang.IsBlank(sharedSecret.value) ==> (ok <==> provided == sharedSecret)
  {
    if sharedSecret.None? || JavaLang.IsBlank(sharedSecret.value) then true
    else provided.Some? && sharedSecret.value == provided.value
  }

  /** With the check on, a request without the header is refused, and so is any header
    * other than the secret; with it off, every header passes. */
  lemma SecretCheck(sharedSecret: string, provided: Option<string>)
    ensures !JavaLang.IsBlank(sharedSecret) ==> !IsAuthorized(Some(sharedSecret), None)
    ensures !JavaLang.IsBlank(sharedSecret) ==> (IsAuthorized(Some(sharedSecret), provided) <==> provided == Some(sharedSecret))
    ensures JavaLang.IsBlank(sharedSecret) ==> IsAuthorized(Some(sharedSecret), provided) && IsAuthorized(None, provided)
  {
  }

  /** A response: status code and text body (`None` for an empty body). */
  datatype Response = Response(status: int, body: Option<string>)

  const OK := Response(200, Some("ok"))
  const BAD_SECRET := Response(401, Some("bad secret"))

  /** `CollectionUtils.isEmpty`: null or without entries. */
  predicate IsEmptyPayload<V>(payload: Option<map<string, V>>) {
    payload.None? || |payload.value| == 0
  }

  /** The dailies handler takes no secret and always answers 200 with an empty body. */
  function HandleDailies<V>(payload: Option<seq<map<string, V>>>): (r: Response)
    ensures r.status == 200 && r.body.None?
  {
    Response(200, None)
  }

  /** The activities handler: the secret is checked before the payload is looked at; an
    * empty payload is a ping. */
  function HandleActivities<V>(sharedSecret: Option<string>, sig: Option<string>,
                               payload: Option<map<string, V>>): (r: Response)
    ensures !IsAuthorized(sharedSecret, sig) ==> r == BAD_SECRET
    ensures IsAuthorized(sharedSecret, sig) && IsEmptyPayload(payload) ==> r == OK
  {
    if !IsAuthorized(sharedSecret, sig) then BAD_SECRET
    else if IsEmptyPayload(payload) then OK
    else OK
  }

  function HandleRegistration<V>(sharedSecret: Option<string>, sig: Option<string>,
                                 payload: Option<map<string, V>>): (r: Response)
    ensures !IsAuthorized(sharedSecret, sig) ==> r == BAD_SECRET
    ensures IsAuthorized(sharedSecret, sig) && IsEmptyPayload(payload) ==> r == OK
  {
    if !IsAuthorized(sharedSecret, sig) then BAD_SECRET
    else if IsEmptyPayload(payload) then OK
    else OK
  }

  function HandleRoot<V>(sharedSecret: Option<string>, sig: Option<string>,
                         payload: Option<map<string, V>>): (r: Response)
    ensures !IsAuthorized(sharedSecret, sig) ==> r == BAD_SECRET
    ensures IsAuthorized(sharedSecret, sig) ==> r == OK
  {
    if !IsAuthorized(sharedSecret, sig) then BAD_SECRET else OK
  }

  /** The three secret-checked handlers answer on the secret alone: the payload never
    * changes the response, and an authorized request is always acknowledged. */
  lemma HandlersIgnorePayload<V>(sharedSecret: Option<string>, sig: Option<string>,
                                 p: Option<map<string, V>>, q: Option<map<string, V>>)
    ensures HandleActivities(sharedSecret, sig, p) == HandleActivities(sharedSecret, sig, q)
    ensures HandleRegistration(sharedSecret, sig, p) == HandleRegistration(sharedSecret, sig, q)
    ensures HandleRoot(sharedSecret, sig, p) == HandleRoot(sharedSecret, sig, q)
    ensures HandleActivities(sharedSecret, sig, p)
         == (if IsAuthorized(sharedSecret, sig) then OK else BAD_SECRET)
    ensures HandleRegistration(sharedSecret, sig, p)
         == (if IsAuthorized(sharedSecret, sig) then OK else BAD_SECRET)
    ensures HandleRoot(sharedSecret, sig, p)
         == (if IsAuthorized(sharedSecret, sig) then OK else BAD_SECRET)
  {
  }

  // ---- `last` ----

  /** `payload.get(key)`: the value, or null. */
  function Get<V>(payload: map<string, V>, key: string): Option<V> {
    if key in payload then Some(payload[key]) else None
  }

  datatype LastResponse<V> =
    | NoData                                                   // success=false, "No data yet"
    | Latest(data: map<string, Option<V>>, raw: map<string, V>) // success=true

  function Success<V>(r: LastResponse<V>): bool {
    r.Latest?
  }

  function MessageOf<V>(r: LastResponse<V>): Option<string> {
    if r.NoData? then Some("No data yet") else None
  }

  /** The projection of a cached payload: seven fields, the two heart rates renamed. */
  function Summary<V>(payload: map<string, V>): map<string, Option<V>> {
    map["calendarDate" := Get(payload, "calendarDate"),
        "steps" := Get(payload, "steps"),
        "distanceInMeters" := Get(payload, "distanceInMeters"),
        "activeKilocalories" := Get(payload, "activeKilocalories"),
        "bmrKilocalories" := Get(payload, "bmrKilocalories"),
        "avgHr" := Get(payload, "averageHeartRateInBeatsPerMinute"),
        "restHr" := Get(payload, "restingHeartRateInBeatsPerMinute")]
  }

  /** `last(garminUserId)`, with the cache's get-or-null as `cached`. */
  function Last<V>(garminUserId: string, cached: string -> Option<map<string, V>>): (r: LastResponse<V>)
    ensures cached(garminUserId).None? <==> r.NoData?
    ensures r.Latest? ==> r.raw == cached(garminUserId).value
  {
    match cached(garminUserId)
    case None => NoData
    case Some(payload) => Latest(Summary(payload), payload)
  }

  /** On a miss the response says so; on a hit it reports the heart rates under their short
    * names and the five other fields under their own. */
  lemma LastProjection<V>(garminUserId: string, cached: string -> Option<map<string, V>>)
    ensures cached(garminUserId).None? ==>
      !Success(Last(garminUserId, cached)) && MessageOf(Last(garminUserId, cached)) == Some("No data yet")
    ensures cached(garminUserId).Some? ==>
      var payload := cached(garminUserId).value;
      var r := Last(garminUserId, cached);
      && Success(r)
      && r.data.Keys == {"calendarDate", "steps", "distanceInMeters", "activeKilocalories", "bmrKilocalories",
                         "avgHr", "restHr"}
      && r.data["avgHr"] == Get(payload, "averageHeartRateInBeatsPerMinute")
      && r.data["restHr"] == Get(payload, "restingHeartRateInBeatsPerMinute")
      && (forall k :: k in {"calendarDate", "steps", "distanceInMeters", "activeKilocalories", "bmrKilocalories"}
            ==> k in r.data && r.data[k] == Get(payload, k))
  {
  }
}
