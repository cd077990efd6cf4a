/** Log fields and the zap field lists the leveled methods pass on. A field
    value is opaque to this layer, so it is a type parameter; the trace id
    that the context-aware methods attach is a plain string parameter. */
module LoggerFields {
  import opened MultiErr
  import opened LoggerZap

  const TraceIdKey: string := "traceID"

  /** `Field`: a key with an untyped value. */
  datatype Field<V> = Field(Key: string, Value: V)

  /** The payload of a `zap.Field`: `zap.Any` of a field value, or
      `zap.String`. */
  datatype ZapValue<V> = AnyValue(value: V) | StringValue(text: string)

  datatype ZapField<V> = ZapField(key: string, value: ZapValue<V>)

  /** `NewField`: key and value are kept as given, without validation. */
  function NewField<V>(key: string, value: V): (f: Field<V>)
    ensures f.Key == key && f.Value == value
  {
    Field(key, value)
  }

  /** `NewErrorField`: an error under the fixed key "error". */
  function NewErrorField<E>(err: E): (f: Field<E>)
    ensures f.Key == "error" && f.Value == err
  {
    Field("error", err)
  }

  /** `getZapFields`: one `zap.Any(f.Key, f.Value)` per field, in order. */
  method GetZapFields<V>(fields: seq<Field<V>>) returns (zapFields: seq<ZapField<V>>)
    ensures |zapFields| == |fields|
    ensures forall i :: 0 <= i < |fields| ==>
              zapFields[i] == ZapField(fields[i].Key, AnyValue(fields[i].Value))
  {
    zapFields := [];
    for i := 0 to |fields|
      invariant |zapFields| == i
      invariant forall j :: 0 <= j < i ==>
                  zapFields[j] == ZapField(fields[j].Key, AnyValue(fields[j].Value))
    {
      zapFields := zapFields + [ZapField(fields[i].Key, AnyValue(fields[i].Value))];
    }
  }

  /** `getZapFieldsWithCtx`: the same list, then the trace id under
      "traceID", appended even when a "traceID" field is already there. */
  method GetZapFieldsWithCtx<V>(traceId: string, fields: seq<Field<V>>)
    returns (zapFields: seq<ZapField<V>>)
    ensures |zapFields| == |fields| + 1
    ensures forall i :: 0 <= i < |fields| ==>
              zapFields[i] == ZapField(fields[i].Key, AnyValue(fields[i].Value))
    ensures zapFields[|fields|] == ZapField(TraceIdKey, StringValue(traceId))
  {
    zapFields := GetZapFields(fields);
    zapFields := zapFields + [ZapField(TraceIdKey, StringValue(traceId))];
  }

  /** `Logger`: the project's wrapper around a zap logger. */
  datatype Logger = Logger(inner: ZapLogger)

  /** `NewLogger`: the error of `GetLogger`, or its logger, wrapped. */
  function NewLogger(c: LoggerConfig, buildError: Option<string>): (r: Result<Logger>)
    ensures r.Err? <==> GetLogger(c, buildError).Err?
    ensures r.Err? ==> r.errors == GetLogger(c, buildError).errors
    ensures r.Ok? ==> r.value.inner == GetLogger(c, buildError).value
  {
    match GetLogger(c, buildError)
    case Err(errs) => Err(errs)
    case Ok(l) => Ok(Logger(l))
  }
}
