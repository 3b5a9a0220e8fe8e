/** Response normalisation: the handler `makeDatakitCallback` wraps around a
    caller's callback, turning the transport's `(error, res, body)` into
    `(error, data)`. */
module ResponseNormaliser {
  import opened JsValues

  /** One invocation of the caller's callback: `callback(error, data)`. */
  datatype Delivery = Delivery(error: Option<string>, data: JsValue)

  /** The `data` the handler computes. `parse` is the host's JSON parser; `None`
      stands for the exception it raises on text that is not JSON. */
  function NormalisedData(parse: string -> Option<JsValue>, error: Option<string>, body: JsValue): (data: JsValue)
    ensures error.Some? ==> data == Null
    ensures data == Null || data == body || (body.Str? && parse(body.s) == Some(data))
    ensures error.None? && TypeOf(body) == "object" ==> data == body
  {
    if error.Some? then Null
    else if TypeOf(body) == "string" then
      match parse(body.s)
      case Some(v) => v
      case None => Null
    else if TypeOf(body) == "object" then body
    else Null
  }

  /** The handler `makeDatakitCallback(callback)` returns, applied to a transport
      result: the list of callback invocations it makes. `hasCallback` is the
      truthiness of `callback`. */
  function DatakitCallback(parse: string -> Option<JsValue>, hasCallback: bool,
                           error: Option<string>, body: JsValue): (calls: seq<Delivery>)
    ensures |calls| == if hasCallback then 1 else 0
    ensures forall c :: c in calls ==> c.error == error
    ensures forall c :: c in calls ==> c.data == NormalisedData(parse, error, body)
  {
    if hasCallback then [Delivery(error, NormalisedData(parse, error, body))] else []
  }

  /** The callback receives data exactly when the transport reported no error and
      the body was either an array or object, or text that parses to a non-null value. */
  lemma DataPresentIff(parse: string -> Option<JsValue>, error: Option<string>, body: JsValue)
    ensures NormalisedData(parse, error, body) != Null <==>
            error.None? &&
            (body.Arr? || body.Obj? ||
             (body.Str? && parse(body.s).Some? && parse(body.s).value != Null))
  {
  }

  /** A transport error reaches the callback as a non-null error with null data. */
  lemma TransportErrorYieldsNullData(parse: string -> Option<JsValue>, message: string, body: JsValue)
    ensures DatakitCallback(parse, true, Some(message), body) == [Delivery(Some(message), Null)]
  {
  }

  /** Text that does not parse is swallowed: no error, null data. */
  lemma UnparsableTextIsSilent(parse: string -> Option<JsValue>, text: string)
    requires parse(text) == None
    ensures DatakitCallback(parse, true, None, Str(text)) == [Delivery(None, Null)]
  {
  }

  /** Text that parses reaches the callback as the parsed value, with no error. */
  lemma ParsedTextDelivered(parse: string -> Option<JsValue>, text: string, v: JsValue)
    requires parse(text) == Some(v)
    ensures DatakitCallback(parse, true, None, Str(text)) == [Delivery(None, v)]
  {
  }

  /** A body of any type other than string or object reaches the callback as null data. */
  lemma ScalarBodyYieldsNull(parse: string -> Option<JsValue>, body: JsValue)
    requires body.Undefined? || body.Bool? || body.Num?
    ensures DatakitCallback(parse, true, None, body) == [Delivery(None, Null)]
  {
  }

  /** A country listing already parsed by the transport reaches the callback
      unchanged, so its first result is still named "France". */
  lemma CountryListingPassesThrough(parse: string -> Option<JsValue>)
    ensures var body := Obj([("results", Arr([Obj([("name", Str("France"))]), Obj([("name", Str("Japan"))])]))]);
      var calls := DatakitCallback(parse, true, None, body);
      && calls == [Delivery(None, body)]
      && Property(calls[0].data, "results").Arr?
      && Property(Property(calls[0].data, "results").items[0], "name") == Str("France")
  {
  }
}
