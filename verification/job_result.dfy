/**
 `CollectorJobResult`: the record a collector job produces, stored as a JSON
 object under six keys, and its nested `Error` type, a JSON object that names
 the error under `_name`.
 */
module JobResults {
  import opened Optional
  import opened Json

  const NameKey := "_name"

  /** `CollectorJobResult.Error`: a JSON object that carries the error's name under `_name`. */
  datatype Error = Error(fields: JsonObject)

  /** `Error.getName`. */
  function GetName(e: Error): Cast<Option<string>>
  {
    GetString(e.fields, NameKey)
  }

  /** `new Error(name)`: an object holding `_name` and nothing else; a null name is stored as JSON null. */
  function NewError(name: Option<string>): (e: Error)
    ensures GetName(e) == Ok(name)
    ensures e.fields.Keys == {NameKey}
  {
    Error(map[NameKey := StringOrNull(name)])
  }

  /**
   `Error.fromJson`: no error for a null object or a missing/null `_name`; a
   fresh `Error` holding only the name otherwise. A `_name` of another JSON
   type fails the cast inside `getString`.
   */
  function ErrorFromJson(o: Option<JsonObject>): (r: Cast<Option<Error>>)
    ensures o.None? ==> r == Ok(None)
    ensures o.Some? ==> (r == Ok(None) <==> GetString(o.value, NameKey) == Ok(None))
    ensures o.Some? ==> (r == ClassCast <==> GetString(o.value, NameKey) == ClassCast)
    ensures r.Ok? && r.value.Some? ==>
              && o.Some?
              && r.value.value.fields.Keys == {NameKey}
              && GetName(r.value.value) == GetString(o.value, NameKey)
  {
    match o
    case None => Ok(None)
    case Some(m) =>
      match GetString(m, NameKey)
      case ClassCast => ClassCast
      case Ok(None()) => Ok(None)
      case Ok(Some(n)) => Ok(Some(NewError(Some(n))))
  }

  /**
   `fromJson` ends with `error.mergeIn(newError)`, which copies the new error
   into the ARGUMENT: the argument already holds that very `_name`, so the merge
   leaves it as it was, and the returned error gains none of the argument's
   other fields.
   */
  lemma {:induction false} FromJsonMergeChangesNothing(m: JsonObject)
    requires ErrorFromJson(Some(m)).Ok? && ErrorFromJson(Some(m)).value.Some?
    ensures MergeIn(m, ErrorFromJson(Some(m)).value.value.fields) == m
    ensures ErrorFromJson(Some(m)).value.value.fields == map[NameKey := m[NameKey]]
  {
    var e := ErrorFromJson(Some(m)).value.value;
    assert m[NameKey].JStr?;
    assert e == NewError(Some(m[NameKey].s));
  }

  /** An `Error` read back through `fromJson` is an error with the same name, unless the name is null. */
  lemma ErrorJsonRoundTrip(name: Option<string>)
    ensures name.None? ==> ErrorFromJson(Some(NewError(name).fields)) == Ok(None)
    ensures name.Some? ==> ErrorFromJson(Some(NewError(name).fields)) == Ok(Some(NewError(name)))
  {
  }

  const RequestIdKey := "requestId"
  const SourceKey := "source"
  const QualityKey := "quality"
  const CreatedKey := "created"
  const ResultKey := "result"
  const ErrorKey := "error"

  /** The six keys both constructors write. */
  const FieldKeys: set<string> := {RequestIdKey, SourceKey, QualityKey, CreatedKey, ResultKey, ErrorKey}

  predicate HoldsString(d: JsonObject, key: string)
  {
    key !in d || d[key].JNull? || d[key].JStr?
  }

  predicate HoldsObject(d: JsonObject, key: string)
  {
    key !in d || d[key].JNull? || d[key].JObj?
  }

  /** Every accessor of the record reads its key without a failed cast. */
  predicate WellTyped(d: JsonObject)
  {
    && HoldsString(d, RequestIdKey)
    && HoldsString(d, SourceKey)
    && HoldsString(d, QualityKey)
    && HoldsString(d, CreatedKey)
    && HoldsObject(d, ResultKey)
    && HoldsObject(d, ErrorKey)
  }

  /** The Java class: a wrapper around the JSON object `data`. */
  datatype CollectorJobResult = CollectorJobResult(data: JsonObject)

  /** The records the two constructors can build: only typed values are ever stored. */
  type JobResult = r: CollectorJobResult | WellTyped(r.data) witness CollectorJobResult(map[])

  /** A string-valued key read with `getString`, which cannot fail on a key that holds a string or null. */
  function StringAt(d: JsonObject, key: string): (v: Option<string>)
    requires HoldsString(d, key)
    ensures GetString(d, key) == Ok(v)
  {
    if key in d && d[key].JStr? then Some(d[key].s) else None
  }

  /** An object-valued key read with `getJsonObject`, which cannot fail on a key that holds an object or null. */
  function ObjectAt(d: JsonObject, key: string): (v: Option<JsonObject>)
    requires HoldsObject(d, key)
    ensures GetJsonObject(d, key) == Ok(v)
  {
    if key in d && d[key].JObj? then Some(d[key].fields) else None
  }

  function RequestId(r: JobResult): Option<string> { StringAt(r.data, RequestIdKey) }
  function Source(r: JobResult): Option<string> { StringAt(r.data, SourceKey) }
  function Quality(r: JobResult): Option<string> { StringAt(r.data, QualityKey) }
  function Created(r: JobResult): Option<string> { StringAt(r.data, CreatedKey) }
  function Result(r: JobResult): Option<JsonObject> { ObjectAt(r.data, ResultKey) }

  /** `getError`: the stored error object, read back through `Error.fromJson`. */
  function GetError(r: JobResult): Cast<Option<Error>>
  {
    ErrorFromJson(ObjectAt(r.data, ErrorKey))
  }

  /** The JSON object `put(KEY_ERROR, error)` stores for a nullable `Error`. */
  function ErrorFields(error: Option<Error>): Option<JsonObject>
  {
    match error
    case None => None
    case Some(e) => Some(e.fields)
  }

  /**
   The six-argument constructor: every key is written, nulls as JSON null, and
   each accessor gives back exactly its argument.
   */
  function New(requestId: Option<string>, source: Option<string>, quality: Option<string>,
               created: Option<string>, result: Option<JsonObject>, error: Option<Error>): (r: JobResult)
    ensures r.data.Keys == FieldKeys
    ensures RequestId(r) == requestId
    ensures Source(r) == source
    ensures Quality(r) == quality
    ensures Created(r) == created
    ensures Result(r) == result
    ensures ObjectAt(r.data, ErrorKey) == ErrorFields(error)
  {
    CollectorJobResult(map[
      RequestIdKey := StringOrNull(requestId),
      SourceKey := StringOrNull(source),
      QualityKey := StringOrNull(quality),
      CreatedKey := StringOrNull(created),
      ResultKey := ObjectOrNull(result),
      ErrorKey := ObjectOrNull(ErrorFields(error))])
  }

  /** `toJson`: the backing object itself. */
  function ToJson(r: JobResult): JsonObject
  {
    r.data
  }

  /**
   The JSON constructor: each of the six keys is read with its typed getter
   (any failed cast aborts the construction) and written back; everything
   else in the input is dropped.
   */
  function FromJson(o: JsonObject): (r: Cast<JobResult>)
    ensures r.Ok? <==>
              && GetString(o, RequestIdKey).Ok?
              && GetString(o, SourceKey).Ok?
              && GetString(o, QualityKey).Ok?
              && GetString(o, CreatedKey).Ok?
              && GetJsonObject(o, ResultKey).Ok?
              && GetJsonObject(o, ErrorKey).Ok?
    ensures r.Ok? ==>
              && r.value.data.Keys == FieldKeys
              && GetString(o, RequestIdKey) == Ok(RequestId(r.value))
              && GetString(o, SourceKey) == Ok(Source(r.value))
              && GetString(o, QualityKey) == Ok(Quality(r.value))
              && GetString(o, CreatedKey) == Ok(Created(r.value))
              && GetJsonObject(o, ResultKey) == Ok(Result(r.value))
              && GetJsonObject(o, ErrorKey) == Ok(ObjectAt(r.value.data, ErrorKey))
  {
    var requestId := GetString(o, RequestIdKey);
    var source := GetString(o, SourceKey);
    var quality := GetString(o, QualityKey);
    var created := GetString(o, CreatedKey);
    var result := GetJsonObject(o, ResultKey);
    var error := GetJsonObject(o, ErrorKey);
    if requestId.ClassCast? || source.ClassCast? || quality.ClassCast? || created.ClassCast?
       || result.ClassCast? || error.ClassCast?
    then ClassCast
    else
      var e := match error.value case None => None case Some(m) => Some(Error(m));
      Ok(New(requestId.value, source.value, quality.value, created.value, result.value, e))
  }

  /**
   `new CollectorJobResult(r.toJson())` has the same six fields as `r`, and is
   the very same record when `r` came from a constructor (all six keys written).
   */
  lemma {:induction false} JsonRoundTrip(r: JobResult)
    ensures FromJson(ToJson(r)).Ok?
    ensures var r' := FromJson(ToJson(r)).value;
            && RequestId(r') == RequestId(r)
            && Source(r') == Source(r)
            && Quality(r') == Quality(r)
            && Created(r') == Created(r)
            && Result(r') == Result(r)
            && GetError(r') == GetError(r)
    ensures r.data.Keys == FieldKeys ==> FromJson(ToJson(r)) == Ok(r)
  {
    var d := r.data;
    var r' := FromJson(d).value;
    if d.Keys == FieldKeys {
      forall k | k in d
        ensures r'.data[k] == d[k]
      {
      }
      assert r'.data == d;
    }
  }

  /** `getError` on a record built with `new Error(n)` gives an error named `n` back; built with null, it gives none. */
  lemma GetErrorRoundTrip(requestId: Option<string>, source: Option<string>, quality: Option<string>,
                          created: Option<string>, result: Option<JsonObject>, name: string)
    ensures GetError(New(requestId, source, quality, created, result, Some(NewError(Some(name)))))
            == Ok(Some(NewError(Some(name))))
    ensures GetError(New(requestId, source, quality, created, result, None)) == Ok(None)
  {
    ErrorJsonRoundTrip(Some(name));
  }

  /** An `Error` constructed with a null name is invisible to `getError`. */
  lemma NullNamedErrorIsNoError(requestId: Option<string>, source: Option<string>, quality: Option<string>,
                                created: Option<string>, result: Option<JsonObject>)
    ensures GetError(New(requestId, source, quality, created, result, Some(NewError(None)))) == Ok(None)
  {
    ErrorJsonRoundTrip(None);
  }
}
