/**
 * `getPopularityRankings` of lib/api/cards.ts: the popularity payload is
 * unwrapped from an optional `{data: ...}` envelope and always comes back
 * with an array `rankings`; every failure gives an empty, unsuccessful
 * answer.
 */
module Cards {
  import opened Js
  import opened Wrappers
  import opened ApiClient

  /** The answer after any failure: `{rankings: [], success: false}`. */
  const FailedRankings := Obj(map["rankings" := Arr([]), "success" := Bool(false)])

  /** The payload inside the reply: the value of an own `data` key of an object, otherwise the reply itself. */
  function UnwrapPopularity(data: JsValue): (payload: JsValue)
    ensures data.Obj? && "data" in data.props ==> payload == data.props["data"]
    ensures !(data.Obj? && "data" in data.props) ==> payload == data
  {
    if Truthy(data) && IsObjectType(data) && data.Obj? && "data" in data.props then data.props["data"] else data
  }

  /** How many rankings the success log reads field by field. */
  const LoggedRankings := 3

  /**
   * One of the first three rankings is `null` or `undefined`: reading its
   * `villagerId` for the log throws a `TypeError`.
   */
  predicate LoggedEntryUnreadable(rankings: seq<JsValue>) {
    exists i | 0 <= i < |rankings| && i < LoggedRankings :: rankings[i].Null? || rankings[i].Undefined?
  }

  /**
   * The payload with `rankings` replaced by `[]` unless it is already an
   * array; `None` where the source throws: reading a property of `null` or
   * `undefined`, assigning one on a primitive (modules run in strict mode),
   * or logging an unreadable one of the first three rankings. An array
   * payload is answered by an object holding only the empty `rankings`.
   */
  function FixRankings(payload: JsValue): (r: Option<JsValue>)
    ensures r.Some? <==>
      && (payload.Obj? || payload.Arr?)
      && !(Get(payload, "rankings").Arr? && LoggedEntryUnreadable(Get(payload, "rankings").items))
    ensures r.Some? ==> r.value.Obj? && Get(r.value, "rankings").Arr?
    ensures r.Some? && payload.Obj? ==>
      && (forall k | k != "rankings" :: Get(r.value, k) == Get(payload, k))
      && (Get(payload, "rankings").Arr? ==> r.value == payload)
      && (!Get(payload, "rankings").Arr? ==> Get(r.value, "rankings") == Arr([]))
  {
    if payload.Undefined? || payload.Null? then None
    else
      var rankings := Get(payload, "rankings");
      if Truthy(rankings) && rankings.Arr? then
        if LoggedEntryUnreadable(rankings.items) then None else Some(payload)
      else if payload.Obj? then Some(Obj(payload.props["rankings" := Arr([])]))
      else if payload.Arr? then Some(Obj(map["rankings" := Arr([])]))
      else None
  }

  /**
   * Only the first three rankings are read for the log: a `null` among them
   * fails the call, a `null` fourth one is passed on.
   */
  lemma OnlyLoggedRankingsMustBeReadable(a: JsValue, b: JsValue, c: JsValue)
    requires a.Obj? && b.Obj? && c.Obj?
    ensures FixRankings(Obj(map["rankings" := Arr([Null])])).None?
    ensures FixRankings(Obj(map["rankings" := Arr([a, b, c, Null])])) == Some(Obj(map["rankings" := Arr([a, b, c, Null])]))
  {
    var items := [a, b, c, Null];
    assert Get(Obj(map["rankings" := Arr([Null])]), "rankings").items[0].Null?;
    assert !LoggedEntryUnreadable(items) by {
      forall i | 0 <= i < |items| && i < LoggedRankings
        ensures !items[i].Null? && !items[i].Undefined?
      {
      }
    }
  }

  /** Fixing an already fixed payload changes nothing. */
  lemma FixRankingsIdempotent(payload: JsValue)
    requires FixRankings(payload).Some?
    ensures FixRankings(FixRankings(payload).value) == FixRankings(payload)
  {
  }

  /**
   * `getPopularityRankings()` against a server that answers `reply`: the
   * answer always carries an array `rankings`, and it is the failure answer
   * exactly when the request failed or the payload is not an object or array.
   */
  function GetPopularityRankings(baseUrl: string, reply: FetchReply): (r: JsValue)
    ensures r.Obj? && Get(r, "rankings").Arr?
    ensures var run := ApiFetch(baseUrl, "/cards/popularity", GetConfig, reply, None);
      && (run.result.Err? ==> r == FailedRankings)
      && (run.result.Ok? ==>
            var payload := UnwrapPopularity(run.result.value.data);
            && (FixRankings(payload).None? ==> r == FailedRankings)
            && (FixRankings(payload).Some? ==> r == FixRankings(payload).value))
  {
    var run := ApiFetch(baseUrl, "/cards/popularity", GetConfig, reply, None);
    match run.result
    case Err(_) => FailedRankings
    case Ok(response) =>
      match FixRankings(UnwrapPopularity(response.data))
      case None => FailedRankings
      case Some(fixed) => fixed
  }

  /**
   * A payload without its own `data` key is answered the same whether the
   * server sends it bare or wrapped in a `{data: ...}` envelope.
   */
  lemma PopularityEnvelopeIsTransparent(baseUrl: string, code: int, text: string, payload: map<string, JsValue>)
    requires IsOk(code) && "data" !in payload
    ensures GetPopularityRankings(baseUrl, Responded(code, text, Ok(Obj(map["data" := Obj(payload)])))) ==
      GetPopularityRankings(baseUrl, Responded(code, text, Ok(Obj(payload))))
  {
  }

  /** A failed request, or a reply whose body cannot be parsed, is answered with the empty, unsuccessful rankings. */
  lemma PopularityFailureIsEmpty(baseUrl: string, code: int, text: string, body: Result<JsValue, Thrown>)
    requires !IsOk(code) || body.Err?
    ensures GetPopularityRankings(baseUrl, Responded(code, text, body)) == FailedRankings
    ensures Get(FailedRankings, "rankings") == Arr([]) && Get(FailedRankings, "success") == Bool(false)
  {
  }

  /** A well-formed wrapped payload reaches the caller unchanged. */
  lemma WrappedPayloadPassesThrough(inner: map<string, JsValue>)
    requires "rankings" in inner && inner["rankings"].Arr? && !LoggedEntryUnreadable(inner["rankings"].items)
    ensures FixRankings(UnwrapPopularity(Obj(map["data" := Obj(inner)]))) == Some(Obj(inner))
  {
  }

  /** An envelope whose `data` is `null` is a failure, not an empty success. */
  lemma NullEnvelopeFails()
    ensures FixRankings(UnwrapPopularity(Obj(map["data" := Null]))).None?
  {
  }
}
