/**
 * lib/api/villagers.ts: turning the server's villager records, whatever
 * field names they use, into the front end's `Villager` type, and the
 * response shapes `getVillagers` and `getVillagerById` accept.
 */
module Villagers {
  import opened Js
  import opened Text
  import opened Wrappers
  import opened Seqs
  import opened ApiClient

  /**
   * The front end's `Villager`. `id` is a JavaScript number; `toneExample` is
   * whatever the record's `previewText` held (or ""), since it is not checked.
   */
  datatype Villager = Villager(
    id: real,
    name: string,
    imageUrl: string,
    iconUrl: string,
    toneExample: JsValue,
    toneType: string,
    usageCount: Option<real>)

  /** The first non-blank string among `vs`, if any. */
  function FirstNonBlank(vs: seq<JsValue>): (r: Option<string>)
    ensures r.None? <==> forall i | 0 <= i < |vs| :: !NonBlankString(vs[i])
    ensures r.Some? ==> !IsBlank(r.value)
  {
    match Find(vs, NonBlankString)
    case Some(v) => Some(v.s)
    case None => None
  }

  /** The tone type `holder.toneType` or, failing that, `holder.tone_type` gives. */
  function OwnToneType(holder: JsValue): (r: Option<string>)
    ensures r.Some? ==> !IsBlank(r.value)
  {
    if NonBlankString(Get(holder, "toneType")) then Some(Get(holder, "toneType").s)
    else if NonBlankString(Get(holder, "tone_type")) then Some(Get(holder, "tone_type").s)
    else None
  }

  /**
   * The tone type of a record: its own fields first, then the first element
   * of a non-empty `tones` array, and only when there is no such array a
   * truthy object-typed `tone`. The value is kept as written, untrimmed.
   */
  function ToneTypeOf(item: JsValue): (r: Option<string>)
    ensures r.Some? ==> !IsBlank(r.value)
  {
    var tones := Get(item, "tones");
    var tone := Get(item, "tone");
    var own := OwnToneType(item);
    if own.Some? then own
    else if tones.Arr? && |tones.items| > 0 then OwnToneType(tones.items[0])
    else if Truthy(tone) && IsObjectType(tone) then OwnToneType(tone)
    else None
  }

  /** The two fields of `holder` that may name a tone type, in the order they are tried. */
  function ToneFields(holder: JsValue): seq<JsValue> {
    [Get(holder, "toneType"), Get(holder, "tone_type")]
  }

  /** The nested object consulted after the record's own fields; `Undefined` when there is none. */
  function NestedToneHolder(item: JsValue): JsValue {
    var tones := Get(item, "tones");
    var tone := Get(item, "tone");
    if tones.Arr? && |tones.items| > 0 then tones.items[0]
    else if Truthy(tone) && IsObjectType(tone) then tone
    else Undefined
  }

  /** The places a tone type may be read from, in the order they are tried. */
  function ToneCandidates(item: JsValue): seq<JsValue> {
    ToneFields(item) + ToneFields(NestedToneHolder(item))
  }

  /** Searching a concatenation searches the first part, then the second. */
  lemma {:induction false} FirstNonBlankAppend(a: seq<JsValue>, b: seq<JsValue>)
    ensures FirstNonBlank(a + b) == if FirstNonBlank(a).Some? then FirstNonBlank(a) else FirstNonBlank(b)
  {
    if a != [] {
      FindStep(a + b, NonBlankString);
      FindStep(a, NonBlankString);
      assert (a + b)[0] == a[0];
      assert (a + b)[1..] == a[1..] + b;
      FirstNonBlankAppend(a[1..], b);
    } else {
      assert a + b == b;
    }
  }

  /** A holder's own tone type is the first non-blank of its two fields. */
  lemma OwnToneTypeIsFirstField(holder: JsValue)
    ensures OwnToneType(holder) == FirstNonBlank(ToneFields(holder))
  {
    var c := ToneFields(holder);
    FindStep(c, NonBlankString);
    FindStep(c[1..], NonBlankString);
    assert c[1..][1..] == [];
  }

  /** The tone type is the first non-blank string among the candidate places. */
  lemma ToneTypeIsFirstCandidate(item: JsValue)
    ensures ToneTypeOf(item) == FirstNonBlank(ToneCandidates(item))
  {
    var nested := NestedToneHolder(item);
    OwnToneTypeIsFirstField(item);
    OwnToneTypeIsFirstField(nested);
    FirstNonBlankAppend(ToneFields(item), ToneFields(nested));
  }

  /**
   * A non-empty `tones` array whose first element has no tone type hides the
   * `tone` object completely: the record has no tone type even when
   * `tone.toneType` is a perfectly good one.
   */
  lemma TonesBlockTone(item: JsValue)
    requires !NonBlankString(Get(item, "toneType")) && !NonBlankString(Get(item, "tone_type"))
    requires Get(item, "tones").Arr? && |Get(item, "tones").items| > 0
    requires var first := Get(item, "tones").items[0];
      !NonBlankString(Get(first, "toneType")) && !NonBlankString(Get(first, "tone_type"))
    ensures ToneTypeOf(item) == None
  {
  }

  /** `usageCount`, else `usage_count`, else `count`, whichever is first a number. */
  function UsageCount(item: JsValue): (r: Option<real>)
    ensures r.None? <==> !Get(item, "usageCount").Num? && !Get(item, "usage_count").Num? && !Get(item, "count").Num?
  {
    if Get(item, "usageCount").Num? then Some(Get(item, "usageCount").n)
    else if Get(item, "usage_count").Num? then Some(Get(item, "usage_count").n)
    else if Get(item, "count").Num? then Some(Get(item, "count").n)
    else None
  }

  predicate IsNumber(v: JsValue) {
    v.Num?
  }

  /** The usage count is the first number among the three field names, in order. */
  lemma UsageCountIsFirstNumber(item: JsValue)
    ensures var found := Find([Get(item, "usageCount"), Get(item, "usage_count"), Get(item, "count")], IsNumber);
      UsageCount(item) == if found.Some? then Some(found.value.n) else None
  {
    var c := [Get(item, "usageCount"), Get(item, "usage_count"), Get(item, "count")];
    FindStep(c, IsNumber);
    FindStep(c[1..], IsNumber);
    FindStep(c[2..], IsNumber);
    assert c[1..][1..] == c[2..] && c[2..][1..] == [];
  }

  /**
   * `normalizeVillager(item)`: `None` (the source's `null`) unless the record
   * is an object with a numeric `id`, a string `name`, a non-empty string
   * `imageUrl` and some tone type.
   */
  function NormalizeVillager(item: JsValue): (r: Option<Villager>)
    ensures r.Some? <==>
      && item.Obj?
      && Get(item, "id").Num?
      && Get(item, "name").Str?
      && Get(item, "imageUrl").Str? && Get(item, "imageUrl").s != ""
      && ToneTypeOf(item).Some?
    ensures r.Some? ==>
      && r.value.id == Get(item, "id").n
      && r.value.name == Get(item, "name").s
      && r.value.imageUrl == r.value.iconUrl == Get(item, "imageUrl").s
      && r.value.toneType == ToneTypeOf(item).value
      && !IsBlank(r.value.toneType)
      && r.value.toneExample == Nullish(Get(item, "previewText"), Str(""))
      && r.value.usageCount == UsageCount(item)
  {
    var id := Get(item, "id");
    var name := Get(item, "name");
    var imageUrl := Get(item, "imageUrl");
    if !Truthy(item) || !id.Num? || !name.Str? then None
    else if !Truthy(imageUrl) || !imageUrl.Str? then None
    else
      match ToneTypeOf(item)
      case None => None
      case Some(toneType) =>
        Some(Villager(id.n, name.s, imageUrl.s, imageUrl.s, Nullish(Get(item, "previewText"), Str("")), toneType, UsageCount(item)))
  }

  /** `normalizeVillagersArray(arr)`: the records that normalise, in their original order. */
  function NormalizeVillagers(arr: seq<JsValue>): (r: seq<Villager>)
    ensures |r| <= |arr|
    ensures forall j | 0 <= j < |arr| && NormalizeVillager(arr[j]).Some? :: NormalizeVillager(arr[j]).value in r
    ensures forall v | v in r :: exists j | 0 <= j < |arr| :: NormalizeVillager(arr[j]) == Some(v)
    ensures |r| > 0 <==> exists j | 0 <= j < |arr| :: NormalizeVillager(arr[j]).Some?
    ensures forall v | v in r :: !IsBlank(v.toneType)
  {
    if arr == [] then []
    else
      var rest := NormalizeVillagers(arr[1..]);
      assert forall j | 1 <= j < |arr| :: arr[j] == arr[1..][j - 1];
      match NormalizeVillager(arr[0])
      case Some(v) => [v] + rest
      case None => rest
  }

  /** Normalising one record keeps it exactly when it normalises. */
  lemma NormalizeVillagersSingleton(item: JsValue)
    ensures NormalizeVillagers([item]) == if NormalizeVillager(item).Some? then [NormalizeVillager(item).value] else []
  {
    assert [item][1..] == [];
  }

  /** Normalisation works record by record, so the survivors keep their relative order. */
  lemma {:induction false} NormalizeVillagersAppend(a: seq<JsValue>, b: seq<JsValue>)
    ensures NormalizeVillagers(a + b) == NormalizeVillagers(a) + NormalizeVillagers(b)
  {
    if a != [] {
      var h := NormalizeVillager(a[0]);
      var head := if h.Some? then [h.value] else [];
      assert (a + b)[0] == a[0];
      assert (a + b)[1..] == a[1..] + b;
      assert NormalizeVillagers(a + b) == head + NormalizeVillagers(a[1..] + b);
      assert NormalizeVillagers(a) == head + NormalizeVillagers(a[1..]);
      NormalizeVillagersAppend(a[1..], b);
    } else {
      assert a + b == b;
    }
  }

  /** The largest `limit` the query carries. */
  const MaxLimit := 100

  /** The query parameters of `getVillagers`, in the order they are appended. */
  function VillagerParams(sort: Option<string>, limit: Option<int>): seq<(string, string)> {
    (if sort == Some("popular") then [("sort", "popular")] else []) +
    (if limit.Some? && limit.value > 0 then [("limit", IntToDecimal(if limit.value < MaxLimit then limit.value else MaxLimit))] else [])
  }

  /** `URLSearchParams.get(key)`: the first value given for `key`. */
  function ParamValue(params: seq<(string, string)>, key: string): Option<string> {
    if params == [] then None
    else if params[0].0 == key then Some(params[0].1)
    else ParamValue(params[1..], key)
  }

  /**
   * `sort` is sent only as "popular" and only when asked for; `limit` only
   * when positive, as the decimal numeral of a value between 1 and 100 that
   * equals the requested limit unless that exceeds 100.
   */
  lemma VillagerParamsMeaning(sort: Option<string>, limit: Option<int>)
    ensures var params := VillagerParams(sort, limit);
      && (ParamValue(params, "sort").Some? <==> sort == Some("popular"))
      && (ParamValue(params, "sort").Some? ==> ParamValue(params, "sort").value == "popular")
      && (ParamValue(params, "limit").Some? <==> limit.Some? && limit.value > 0)
      && (ParamValue(params, "limit").Some? ==>
            var n := DecimalValue(ParamValue(params, "limit").value);
            && 1 <= n <= MaxLimit
            && (limit.value <= MaxLimit ==> n == limit.value))
  {
    var params := VillagerParams(sort, limit);
    if limit.Some? && limit.value > 0 {
      var n := if limit.value < MaxLimit then limit.value else MaxLimit;
      DecimalRoundTrip(n);
      var lp := [("limit", IntToDecimal(n))];
      if sort == Some("popular") {
        assert params == [("sort", "popular")] + lp;
        assert params[1..] == lp;
      } else {
        assert params == lp;
      }
    }
  }

  /** `params.toString()`: `key=value` pairs joined by '&' (no value here needs percent-encoding). */
  function QueryString(params: seq<(string, string)>): string {
    if params == [] then ""
    else if |params| == 1 then params[0].0 + "=" + params[0].1
    else params[0].0 + "=" + params[0].1 + "&" + QueryString(params[1..])
  }

  /** The path `getVillagers` requests: "/villagers", with "?query" only when there are parameters. */
  function VillagersPath(sort: Option<string>, limit: Option<int>): (path: string)
    ensures path == "/villagers" <==> sort != Some("popular") && !(limit.Some? && limit.value > 0)
  {
    var query := QueryString(VillagerParams(sort, limit));
    if query == "" then "/villagers" else "/villagers?" + query
  }

  /** `GetVillagersResponse`. */
  datatype VillagerList = VillagerList(villagers: seq<Villager>, isValid: bool)

  /** The answer for every unexpected shape and every failure. */
  const InvalidList := VillagerList([], false)

  /**
   * The shapes `getVillagers` accepts: a bare array of records, or an object
   * whose `data` is one. Every other shape, including a truthy non-array
   * `data`, is invalid.
   */
  function ClassifyVillagers(raw: JsValue): (r: VillagerList)
    ensures r.isValid <==> |r.villagers| > 0
    ensures raw.Arr? ==> r.villagers == NormalizeVillagers(raw.items)
    ensures raw.Obj? && Get(raw, "data").Arr? ==> r.villagers == NormalizeVillagers(Get(raw, "data").items)
    ensures !raw.Arr? && !(raw.Obj? && Get(raw, "data").Arr?) ==> r == InvalidList
  {
    if raw.Arr? then
      var vs := NormalizeVillagers(raw.items);
      VillagerList(vs, |vs| > 0)
    else if Truthy(raw) && IsObjectType(raw) && Truthy(Get(raw, "data")) then
      var data := Get(raw, "data");
      if data.Arr? then
        var vs := NormalizeVillagers(data.items);
        VillagerList(vs, |vs| > 0)
      else InvalidList
    else InvalidList
  }

  /**
   * `getVillagers(sort, limit)` against a server that answers `reply`: any
   * failure of the request is caught and reported as the invalid empty list.
   */
  function GetVillagers(sort: Option<string>, limit: Option<int>, baseUrl: string, reply: FetchReply): (r: (FetchRequest, VillagerList))
    ensures r.0 == BuildRequest(baseUrl, VillagersPath(sort, limit), GetConfig)
    ensures r.1.isValid <==> |r.1.villagers| > 0
    ensures ApiFetch(baseUrl, VillagersPath(sort, limit), GetConfig, reply, None).result.Err? ==> r.1 == InvalidList
    ensures ApiFetch(baseUrl, VillagersPath(sort, limit), GetConfig, reply, None).result.Ok? ==>
      r.1 == ClassifyVillagers(ApiFetch(baseUrl, VillagersPath(sort, limit), GetConfig, reply, None).result.value.data)
  {
    var run := ApiFetch(baseUrl, VillagersPath(sort, limit), GetConfig, reply, None);
    match run.result
    case Err(_) => (run.request, InvalidList)
    case Ok(response) => (run.request, ClassifyVillagers(response.data))
  }

  /**
   * `getVillagers` reads a bare array and a `{data: [...]}` envelope alike,
   * and a list is valid exactly when one of its records normalises.
   */
  lemma GetVillagersEnvelopesAgree(sort: Option<string>, limit: Option<int>, baseUrl: string, code: int, text: string, items: seq<JsValue>)
    requires IsOk(code)
    ensures var bare := GetVillagers(sort, limit, baseUrl, Responded(code, text, Ok(Arr(items)))).1;
      && GetVillagers(sort, limit, baseUrl, Responded(code, text, Ok(Obj(map["data" := Arr(items)])))).1 == bare
      && bare.villagers == NormalizeVillagers(items)
      && (bare.isValid <==> exists j | 0 <= j < |items| :: NormalizeVillager(items[j]).Some?)
  {
    assert Get(Obj(map["data" := Arr(items)]), "data") == Arr(items);
  }

  /** Any failure of the request gives the invalid, empty list: `getVillagers` never throws. */
  lemma GetVillagersFailureIsInvalid(sort: Option<string>, limit: Option<int>, baseUrl: string, thrown: Thrown)
    ensures GetVillagers(sort, limit, baseUrl, FetchThrew(thrown)).1 == InvalidList
  {
  }

  /** The message `getVillagerById` throws for a response it cannot read. */
  const BadDetailMessage := "잘못된 주민 상세 응답 형식입니다."

  /** Why `getVillagerById` throws: the request failed, or the response is not a villager. */
  datatype DetailError = DetailFetchFailed(error: ApiClientError) | BadDetail(message: string)

  /** The record a detail response holds: its truthy object-typed `data`, otherwise the response itself. */
  function DetailRecord(raw: JsValue): JsValue {
    var data := Get(raw, "data");
    if Truthy(data) && IsObjectType(data) then data else raw
  }

  /**
   * `getVillagerById(id)` against a server that answers `reply`: the
   * response must be a non-array object holding a record that normalises.
   */
  function GetVillagerById(id: int, baseUrl: string, reply: FetchReply): (r: Result<Villager, DetailError>)
    ensures var run := ApiFetch(baseUrl, "/villagers/" + IntToDecimal(id), GetConfig, reply, None);
      && (run.result.Err? ==> r == Err(DetailFetchFailed(run.result.error)))
      && (run.result.Ok? ==>
            var raw := run.result.value.data;
            && (r.Ok? <==> raw.Obj? && NormalizeVillager(DetailRecord(raw)).Some?)
            && (r.Ok? ==> r.value == NormalizeVillager(DetailRecord(raw)).value)
            && (r.Err? ==> r.error == BadDetail(BadDetailMessage)))
  {
    var run := ApiFetch(baseUrl, "/villagers/" + IntToDecimal(id), GetConfig, reply, None);
    match run.result
    case Err(e) => Err(DetailFetchFailed(e))
    case Ok(response) =>
      var raw := response.data;
      if Truthy(raw) && !raw.Arr? && IsObjectType(raw) then
        match NormalizeVillager(DetailRecord(raw))
        case Some(v) => Ok(v)
        case None => Err(BadDetail(BadDetailMessage))
      else Err(BadDetail(BadDetailMessage))
  }

  /** A record wrapped as `{data: record}` reads the same as the bare record. */
  lemma WrappedDetailReadsAsBare(record: JsValue)
    requires record.Obj?
    requires !(Truthy(Get(record, "data")) && IsObjectType(Get(record, "data")))
    ensures DetailRecord(Obj(map["data" := record])) == DetailRecord(record) == record
  {
  }
}
