/**
 * The two identity routes of src/routes/mojang-api.ts. Each is a cache-first
 * lookup: validate the parameter, answer from the cache on a hit, otherwise
 * call upstream once, classify its outcome, cache what the outcome settles and
 * answer. The upstream call is an abstract outcome given to the handler; the
 * handler reports the argument it would have called upstream with.
 */
module MojangApi {
  import opened Wrappers
  import opened Ascii
  import opened UuidUtils
  import opened ValidationUtils
  import opened LruCache
  import opened Caching

  /** `ErrorType` */
  datatype ErrorType = InvalidName | InvalidUuid | InternalTimeout | InternalError

  /** The string each error is serialised as. */
  function ErrorCode(e: ErrorType): string {
    match e
    case InvalidName => "INVALID_NAME"
    case InvalidUuid => "INVALID_UUID"
    case InternalTimeout => "INTERNAL_TIMEOUT"
    case InternalError => "INTERNAL_ERROR"
  }

  /** The JSON bodies: `{exists, uuid}`, `{exists, skinProperty}` and `{error}` (`found` is the JSON field `exists`). */
  datatype Body =
    | UuidBody(found: bool, uuid: Option<string>)
    | ProfileBody(found: bool, skinProperty: Option<SkinProperty>)
    | ErrorBody(error: ErrorType)

  /** The status set on the context (200 unless assigned) and whether `CACHE_HEADERS` were set. */
  datatype Response = Response(status: int, body: Body, cacheHeaders: bool)

  /** The cache write a miss makes, if any; `Write(None)` caches `null`. */
  datatype CacheWrite<T> = NoWrite | Write(value: Option<T>)

  /** What a miss ends in: the response and the cache write. */
  datatype MissOutcome<T> = MissOutcome(response: Response, write: CacheWrite<T>)

  /** `response.data` of the name lookup: an object whose `id` is read, or `null`/`undefined`. */
  datatype NameData = IdField(id: Option<string>) | NoNameData

  /** The name lookup's outcome: a thrown error, or a status with its data. */
  datatype NameUpstream = NameThrown(isAbortError: bool) | NameStatus(code: int, data: NameData)

  /** One element of a profile's `properties`. */
  datatype Property = Property(name: string, value: string, signature: string)

  /** `response.data` of the profile lookup: an object with optional `properties`, or `null`/`undefined`. */
  datatype ProfileData = Profile(properties: Option<seq<Property>>) | NoProfileData

  /** The profile lookup's outcome: a thrown error, or a status with its data. */
  datatype SkinUpstream = SkinThrown(isAbortError: bool) | SkinStatus(code: int, data: ProfileData)

  /** The `{error}` response with the given status. */
  function Failed(status: int, e: ErrorType): Response {
    Response(status, ErrorBody(e), false)
  }

  /** The `catch` of both routes: 503 for an `AbortError`, 500 for anything else. */
  function ThrownResponse(isAbortError: bool): (r: Response)
    ensures r.status == 503 <==> isAbortError
    ensures r.body.ErrorBody? && (r.body.error == InternalTimeout <==> isAbortError)
    ensures r.status == 500 <==> r.body == ErrorBody(InternalError)
    ensures !r.cacheHeaders
  {
    if isAbortError then Failed(503, InternalTimeout) else Failed(500, InternalError)
  }

  predicate IsSuccess(code: int) {
    200 <= code < 300
  }

  /** A JavaScript-truthy id: present and not the empty string. */
  predicate Truthy(id: Option<string>) {
    id.Some? && id.value != ""
  }

  /** The id the name route caches for an answered upstream status; `null` for a 404 or a falsy or unparseable id. */
  function NameFromStatus(code: int, id: Option<string>): (uuid: Option<string>)
    ensures uuid.Some? <==> code != 404 && Truthy(id) && TryParseUuid(id.value).Some?
    ensures uuid.Some? ==> IsCanonical(uuid.value) && uuid == TryParseUuid(id.value)
  {
    if code == 404 || !Truthy(id) then None else TryParseUuid(id.value)
  }

  /** `/uuid/:name` after a cache miss, given the upstream outcome. */
  function NameMiss(up: NameUpstream): (m: MissOutcome<string>)
    ensures m.response.status == 200 <==> m.write.Write?
    ensures m.response.status == 503 <==> up == NameThrown(true)
    ensures m.response.status == 500 <==>
              || (up.NameThrown? && !up.isAbortError)
              || (up.NameStatus? && up.code != 404 && !IsSuccess(up.code))
              || (up.NameStatus? && IsSuccess(up.code) && up.data.NoNameData?)
    ensures m.response.status in {200, 500, 503}
    ensures m.response.status == 200 ==>
              && m.response == Response(200, UuidBody(m.write.value.Some?, m.write.value), true)
              && (m.write.value.Some? ==> IsCanonical(m.write.value.value))
    ensures m.response.status != 200 ==> m.response.body.ErrorBody? && !m.response.cacheHeaders
    ensures up.NameStatus? && up.code == 404 ==> m.write == Write(None)
    ensures up.NameStatus? && IsSuccess(up.code) && up.data.IdField? ==>
              m.write == Write(if Truthy(up.data.id) then TryParseUuid(up.data.id.value) else None)
  {
    match up
    case NameThrown(isAbortError) => MissOutcome(ThrownResponse(isAbortError), NoWrite)
    case NameStatus(code, data) =>
      if code != 404 && !IsSuccess(code) then MissOutcome(Failed(500, InternalError), NoWrite)
      else if code == 404 then
        MissOutcome(Response(200, UuidBody(false, None), true), Write(None))
      else
        match data
        // reading `id` of `null` throws a `TypeError`, which the catch answers with 500
        case NoNameData => MissOutcome(Failed(500, InternalError), NoWrite)
        case IdField(id) =>
          var uuid := NameFromStatus(code, id);
          MissOutcome(Response(200, UuidBody(uuid.Some?, uuid), true), Write(uuid))
  }

  /**
   * `/uuid/:name` after a cache miss as the route is written: `MOJANG_API`
   * defines no `UUID_URL`, so `.replace` is called on `undefined` and throws a
   * `TypeError` before any upstream call, whatever the upstream would answer.
   */
  function NameMissAsWritten(up: NameUpstream): (m: MissOutcome<string>)
    ensures m.response == Failed(500, InternalError) && m.write == NoWrite
  {
    MissOutcome(ThrownResponse(false), NoWrite)
  }

  /**
   * As written, a miss never reaches the upstream: a name the upstream does
   * not know answers 500 and is not cached, where `NameMiss` answers
   * `exists: false` with the cache headers and caches the negative result.
   */
  lemma NameMissAsWrittenDiffers(up: NameUpstream)
    requires up.NameStatus? && up.code == 404
    ensures NameMissAsWritten(up).response.status == 500 && NameMissAsWritten(up).write == NoWrite
    ensures NameMiss(up).response == Response(200, UuidBody(false, None), true)
    ensures NameMiss(up).write == Write(None)
  {
  }

  /**
   * `properties?.find(p => p.name === 'textures') || null`, as the stored
   * `{value, signature}`: the first property named "textures".
   */
  function FirstTextures(properties: seq<Property>): (r: Option<SkinProperty>)
    ensures r.None? <==> forall i :: 0 <= i < |properties| ==> properties[i].name != "textures"
    ensures r.Some? ==> exists i :: 0 <= i < |properties| && properties[i].name == "textures"
                                    && r.value == SkinProperty(properties[i].value, properties[i].signature)
                                    && forall j :: 0 <= j < i ==> properties[j].name != "textures"
  {
    if properties == [] then None
    else if properties[0].name == "textures" then
      Some(SkinProperty(properties[0].value, properties[0].signature))
    else
      var r := FirstTextures(properties[1..]);
      assert forall i :: 1 <= i < |properties| ==> properties[i] == properties[1..][i - 1];
      if r.Some? then
        var k :| 0 <= k < |properties[1..]| && properties[1..][k].name == "textures"
                 && r.value == SkinProperty(properties[1..][k].value, properties[1..][k].signature)
                 && forall j :: 0 <= j < k ==> properties[1..][j].name != "textures";
        assert properties[k + 1] == properties[1..][k];
        r
      else r
  }

  /** The skin the skin route caches for a 2xx profile. */
  function SkinOf(properties: Option<seq<Property>>): Option<SkinProperty> {
    match properties
    case None => None
    case Some(ps) => FirstTextures(ps)
  }

  /** `/skin/:uuid` after a cache miss, given the upstream outcome. */
  function SkinMiss(up: SkinUpstream): (m: MissOutcome<SkinProperty>)
    ensures m.response.status == 200 <==> m.write.Write?
    ensures m.response.status == 503 <==> up == SkinThrown(true)
    ensures m.response.status == 500 <==>
              || (up.SkinThrown? && !up.isAbortError)
              || (up.SkinStatus? && !IsSuccess(up.code))
              || (up.SkinStatus? && IsSuccess(up.code) && up.code != 204 && up.data.NoProfileData?)
    ensures m.response.status == 200 ==>
              m.response == Response(200, ProfileBody(m.write.value.Some?, m.write.value), true)
    ensures m.response.status != 200 ==> m.response.body.ErrorBody? && !m.response.cacheHeaders
    ensures up.SkinStatus? && up.code == 204 ==> m.write == Write(None)
    ensures up.SkinStatus? && IsSuccess(up.code) && up.code != 204 && up.data.Profile? ==>
              m.write == Write(SkinOf(up.data.properties))
  {
    match up
    case SkinThrown(isAbortError) => MissOutcome(ThrownResponse(isAbortError), NoWrite)
    case SkinStatus(code, data) =>
      if code == 204 then
        MissOutcome(Response(200, ProfileBody(false, None), true), Write(None))
      else if !IsSuccess(code) then MissOutcome(Failed(500, InternalError), NoWrite)
      else
        match data
        // reading `properties` of `null` throws a `TypeError`, which the catch answers with 500
        case NoProfileData => MissOutcome(Failed(500, InternalError), NoWrite)
        case Profile(properties) =>
          var skin := SkinOf(properties);
          MissOutcome(Response(200, ProfileBody(skin.Some?, skin), true), Write(skin))
  }

  /** A profile whose properties hold "textures" answers with the first of them, found. */
  lemma TexturesFound(code: int, properties: seq<Property>, i: nat)
    requires IsSuccess(code) && code != 204
    requires i < |properties| && properties[i].name == "textures"
    requires forall j :: 0 <= j < i ==> properties[j].name != "textures"
    ensures SkinMiss(SkinStatus(code, Profile(Some(properties)))).response
         == Response(200, ProfileBody(true, Some(SkinProperty(properties[i].value, properties[i].signature))), true)
  {
    var r := FirstTextures(properties);
    var k :| 0 <= k < |properties| && properties[k].name == "textures"
             && r.value == SkinProperty(properties[k].value, properties[k].signature)
             && forall j :: 0 <= j < k ==> properties[j].name != "textures";
    assert k == i;
  }

  /** The skin route asks upstream for the 32-digit form of the canonical id, which dashes back to it. */
  lemma UpstreamProfileId(uuidParam: string)
    requires TryParseUuid(uuidParam).Some?
    ensures IsUndashedForm(ConvertToNoDashes(TryParseUuid(uuidParam).value))
    ensures ConvertToDashed(ConvertToNoDashes(TryParseUuid(uuidParam).value)) == Success(TryParseUuid(uuidParam).value)
  {
    DashedUndoesNoDashes(TryParseUuid(uuidParam).value);
  }

  /** The cache after a miss's write, the cache's clock reading `now` and `new Date()` reading `createdAtMs`. */
  function AfterWrite<T>(c: Lru<DatabaseResult<T>>, key: string, w: CacheWrite<T>, createdAtMs: int, now: int)
    : Lru<DatabaseResult<T>>
  {
    match w
    case NoWrite => c
    case Write(value) => c.Set(Lower(key), Record(value, createdAtMs), now)
  }

  /**
   * The `/uuid/:name` handler. `readAt` is the cache clock at the read,
   * `writeAt` and `createdAtMs` the cache clock and the wall clock at the
   * write after the upstream call; `upstreamName` is the name the upstream
   * call is made with, `None` when no call is made. The route is modelled
   * with the name endpoint defined; `NameMissAsWritten` is a miss as written.
   */
  method GetUuid(cache: CacheManager, name: string, up: NameUpstream, readAt: int, writeAt: int, createdAtMs: int)
    returns (response: Response, upstreamName: Option<string>)
    requires cache.Valid()
    modifies cache
    ensures cache.Valid()
    ensures cache.uuidToSkin == old(cache.uuidToSkin)
    ensures InvalidMinecraftUsername(name) ==>
              response == Failed(400, InvalidName) && upstreamName == None
              && cache.nameToUuid == old(cache.nameToUuid)
    ensures !InvalidMinecraftUsername(name) && old(cache.nameToUuid).Lookup(Lower(name), readAt).Some? ==>
              var cached := old(cache.nameToUuid).Lookup(Lower(name), readAt).value.value;
              && response == Response(200, UuidBody(cached.Some?, cached), true)
              && upstreamName == None
              && cache.nameToUuid == old(cache.nameToUuid).AfterGet(Lower(name), readAt)
    ensures !InvalidMinecraftUsername(name) && old(cache.nameToUuid).Lookup(Lower(name), readAt).None? ==>
              && response == NameMiss(up).response
              && upstreamName == Some(name)
              && cache.nameToUuid == AfterWrite(old(cache.nameToUuid).AfterGet(Lower(name), readAt), name,
                                                NameMiss(up).write, createdAtMs, writeAt)
  {
    if InvalidMinecraftUsername(name) {
      return Failed(400, InvalidName), None;
    }
    var cached := cache.GetNameToUuid(name, readAt);
    if cached.Some? {
      return Response(200, UuidBody(cached.value.value.Some?, cached.value.value), true), None;
    }
    upstreamName := Some(name);
    match up {
      case NameThrown(isAbortError) =>
        response := ThrownResponse(isAbortError);
      case NameStatus(code, data) =>
        var isNotFound := code == 404;
        var isSuccess := IsSuccess(code);
        if !isNotFound && !isSuccess {
          response := Failed(500, InternalError);
        } else if !isNotFound && data.NoNameData? {
          response := Failed(500, InternalError);
        } else {
          var uuid := if isNotFound then None else NameFromStatus(code, data.id);
          cache.PutNameToUuid(name, uuid, createdAtMs, writeAt);
          response := Response(200, UuidBody(uuid.Some?, uuid), true);
        }
    }
  }

  /**
   * The `/skin/:uuid` handler, with the clocks as for `GetUuid`; `upstreamId`
   * is the id the profile lookup is made with, `None` when no call is made.
   */
  method GetSkin(cache: CacheManager, uuidParam: string, up: SkinUpstream, readAt: int, writeAt: int, createdAtMs: int)
    returns (response: Response, upstreamId: Option<string>)
    requires cache.Valid()
    modifies cache
    ensures cache.Valid()
    ensures cache.nameToUuid == old(cache.nameToUuid)
    ensures TryParseUuid(uuidParam).None? ==>
              response == Failed(400, InvalidUuid) && upstreamId == None
              && cache.uuidToSkin == old(cache.uuidToSkin)
    ensures TryParseUuid(uuidParam).Some? ==>
              var uuid := TryParseUuid(uuidParam).value;
              var cached := old(cache.uuidToSkin).Lookup(uuid, readAt);
              && (cached.Some? ==>
                    && response == Response(200, ProfileBody(cached.value.value.Some?, cached.value.value), true)
                    && upstreamId == None
                    && cache.uuidToSkin == old(cache.uuidToSkin).AfterGet(uuid, readAt))
              && (cached.None? ==>
                    && response == SkinMiss(up).response
                    && upstreamId == Some(ConvertToNoDashes(uuid))
                    && cache.uuidToSkin == AfterWrite(old(cache.uuidToSkin).AfterGet(uuid, readAt), uuid,
                                                      SkinMiss(up).write, createdAtMs, writeAt))
  {
    var parsed := TryParseUuid(uuidParam);
    if parsed.None? {
      return Failed(400, InvalidUuid), None;
    }
    var uuid := parsed.value;
    LowerOfCanonical(uuid);
    var cached := cache.GetUuidToSkin(uuid, readAt);
    if cached.Some? {
      return Response(200, ProfileBody(cached.value.value.Some?, cached.value.value), true), None;
    }
    upstreamId := Some(ConvertToNoDashes(uuid));
    match up {
      case SkinThrown(isAbortError) =>
        response := ThrownResponse(isAbortError);
      case SkinStatus(code, data) =>
        if code == 204 {
          cache.PutUuidToSkin(uuid, None, createdAtMs, writeAt);
          response := Response(200, ProfileBody(false, None), true);
        } else if !IsSuccess(code) {
          response := Failed(500, InternalError);
        } else if data.NoProfileData? {
          response := Failed(500, InternalError);
        } else {
          var skin := SkinOf(data.properties);
          cache.PutUuidToSkin(uuid, skin, createdAtMs, writeAt);
          response := Response(200, ProfileBody(skin.Some?, skin), true);
        }
    }
  }

  /** A canonical id is its own lowered form, so the skin cache key is the parsed id itself. */
  lemma LowerOfCanonical(u: string)
    requires IsCanonical(u)
    ensures Lower(u) == u
  {
  }
}
