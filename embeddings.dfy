/**
 * The embeddings adapter `NvidiaEmbeddings`: it sends texts to the embeddings endpoint,
 * retrying a failed request with exponential backoff, and returns one vector per text.
 *
 * The HTTP exchange is a parameter: `post(payload, i)` is the outcome of the i-th attempt
 * (the vectors, or the text of the error thrown, a malformed body included). The waits
 * between attempts are returned as their base lengths in milliseconds.
 */
module Embeddings {
  import opened Wrappers
  import opened Js

  const DefaultBaseUrl: string := "https://integrate.api.nvidia.com/v1/embeddings"
  const DefaultModel: string := "nvidia/nv-embedcode-7b-v1"
  const DefaultInputType: string := "query"
  const DefaultEncodingFormat: string := "float"
  const DefaultTruncate: string := "NONE"
  const DefaultMaxRetries: int := 3

  /** The constructor fields that are configuration and so are not sent as extra options. */
  const ExcludedKeys: set<string> :=
    {"apiKey", "baseUrl", "model", "inputType", "encodingFormat", "truncate", "maxRetries"}

  type Vector = seq<real>

  /** The outcome of one request: the `embedding` of every item of the body's `data`, or
      the text of the error thrown. */
  datatype Attempt = Ok(vectors: seq<Vector>) | Err(description: string)

  /** The outcome of the i-th attempt with a given payload. */
  type Post = (Object, nat) -> Attempt

  /** `text: string | string[]` */
  datatype EmbedInput = One(text: string) | Many(texts: seq<string>)

  /** `Array.isArray(text) ? text : [text]` */
  function Texts(input: EmbedInput): (r: seq<string>)
    ensures input.One? ==> r == [input.text]
    ensures input.Many? ==> r == input.texts
  {
    match input
    case One(text) => [text]
    case Many(texts) => texts
  }

  function StringValues(texts: seq<string>): (r: seq<Value>)
    ensures |r| == |texts| && forall i | 0 <= i < |texts| :: r[i] == Str(texts[i])
    decreases |texts|
  {
    if texts == [] then [] else [Str(texts[0])] + StringValues(texts[1..])
  }

  function Pow2(n: nat): (r: nat)
    ensures r >= 1
  {
    if n == 0 then 1 else 2 * Pow2(n - 1)
  }

  /** The wait after the i-th failed attempt, `2 ** i * 1000` ms, without its random part. */
  function Backoff(i: nat): nat {
    Pow2(i) * 1000
  }

  /** The waits after attempts `first`, `first + 1`, ... up to but not including `bound`. */
  function Backoffs(first: nat, bound: int): (r: seq<nat>)
    ensures |r| == (if first <= bound then bound - first else 0)
    ensures forall j | 0 <= j < |r| :: r[j] == Backoff(first + j)
    decreases bound - first
  {
    if first >= bound then [] else [Backoff(first)] + Backoffs(first + 1, bound)
  }

  function ExhaustedMessage(maxRetries: int, error: string): string {
    "Error al generar embeddings después de " + IntToDecimal(maxRetries) + " intentos: " + error
  }

  /** The result of the retry loop and the waits it performed. */
  datatype RetryRun = RetryRun(result: Result<seq<Vector>, string>, waits: seq<nat>)

  /** The retry loop from attempt `i` on, `error` being the last error seen. */
  function RetryFrom(payload: Object, post: Post, maxRetries: int, i: nat, error: string): RetryRun
    decreases maxRetries - i
  {
    if i >= maxRetries then RetryRun(Failure(ExhaustedMessage(maxRetries, error)), [])
    else
      match post(payload, i)
      case Ok(vectors) => RetryRun(Success(vectors), [])
      case Err(e) =>
        var rest := RetryFrom(payload, post, maxRetries, i + 1, e);
        RetryRun(rest.result, [Backoff(i)] + rest.waits)
  }

  function Retry(payload: Object, post: Post, maxRetries: int): RetryRun {
    RetryFrom(payload, post, maxRetries, 0, "")
  }

  /** The first attempt that succeeds gives the result, after one wait per failed attempt
      before it, each twice as long as the previous one. */
  lemma {:induction false} RetryFromFirstSuccess(payload: Object, post: Post, maxRetries: int, i: nat, error: string, k: nat)
    requires i <= k < maxRetries && post(payload, k).Ok?
    requires forall j | i <= j < k :: post(payload, j).Err?
    ensures RetryFrom(payload, post, maxRetries, i, error) == RetryRun(Success(post(payload, k).vectors), Backoffs(i, k))
    decreases k - i
  {
    if i < k {
      RetryFromFirstSuccess(payload, post, maxRetries, i + 1, post(payload, i).description, k);
    }
  }

  lemma RetryFirstSuccess(payload: Object, post: Post, maxRetries: int, k: nat)
    requires k < maxRetries && post(payload, k).Ok?
    requires forall j | 0 <= j < k :: post(payload, j).Err?
    ensures Retry(payload, post, maxRetries) == RetryRun(Success(post(payload, k).vectors), Backoffs(0, k))
  {
    RetryFromFirstSuccess(payload, post, maxRetries, 0, "", k);
  }

  /** When every allowed attempt fails, the error names the number of attempts and the
      last error (none when no attempt was allowed), after a wait for each attempt, the
      last one included. */
  lemma {:induction false} RetryFromExhausted(payload: Object, post: Post, maxRetries: int, i: nat, error: string)
    requires forall j | i <= j < maxRetries :: post(payload, j).Err?
    ensures RetryFrom(payload, post, maxRetries, i, error) == RetryRun(
      Failure(ExhaustedMessage(maxRetries, if i < maxRetries then post(payload, maxRetries - 1).description else error)),
      Backoffs(i, maxRetries))
    decreases maxRetries - i
  {
    if i < maxRetries {
      RetryFromExhausted(payload, post, maxRetries, i + 1, post(payload, i).description);
    }
  }

  lemma RetryExhausted(payload: Object, post: Post, maxRetries: int)
    requires forall j | 0 <= j < maxRetries :: post(payload, j).Err?
    ensures Retry(payload, post, maxRetries) == RetryRun(
      Failure(ExhaustedMessage(maxRetries, if maxRetries > 0 then post(payload, maxRetries - 1).description else "")),
      Backoffs(0, maxRetries))
  {
    RetryFromExhausted(payload, post, maxRetries, 0, "");
  }

  /** No attempt at or beyond `maxRetries` is ever made. */
  lemma {:induction false} RetryFromIgnoresLaterAttempts(payload: Object, post: Post, post': Post, maxRetries: int, i: nat, error: string)
    requires forall j | i <= j < maxRetries :: post(payload, j) == post'(payload, j)
    ensures RetryFrom(payload, post, maxRetries, i, error) == RetryFrom(payload, post', maxRetries, i, error)
    decreases maxRetries - i
  {
    if i < maxRetries && post(payload, i).Err? {
      RetryFromIgnoresLaterAttempts(payload, post, post', maxRetries, i + 1, post(payload, i).description);
    }
  }

  class NvidiaEmbeddings {
    const apiKey: string
    const baseUrl: string
    const modelName: string
    const inputType: string
    const encodingFormat: string
    const truncate: string
    const maxRetries: int
    /** Every other constructor field, sent with each request. */
    const defaultOptions: Object

    ghost predicate Valid() {
      defaultOptions.Keys !! ExcludedKeys
    }

    constructor (fields: Object)
      requires "apiKey" in fields && fields["apiKey"].Str?
      requires OptionalString(fields, "baseUrl") && OptionalString(fields, "model")
      requires OptionalString(fields, "inputType") && OptionalString(fields, "encodingFormat")
      requires OptionalString(fields, "truncate") && OptionalInteger(fields, "maxRetries")
      ensures Valid()
      ensures apiKey == fields["apiKey"].s
      ensures baseUrl == StringOr(fields, "baseUrl", DefaultBaseUrl)
      ensures modelName == StringOr(fields, "model", DefaultModel)
      ensures inputType == StringOr(fields, "inputType", DefaultInputType)
      ensures encodingFormat == StringOr(fields, "encodingFormat", DefaultEncodingFormat)
      ensures truncate == StringOr(fields, "truncate", DefaultTruncate)
      ensures maxRetries == IntegerOr(fields, "maxRetries", DefaultMaxRetries)
      ensures defaultOptions == fields - ExcludedKeys
    {
      apiKey := fields["apiKey"].s;
      baseUrl := StringOr(fields, "baseUrl", DefaultBaseUrl);
      modelName := StringOr(fields, "model", DefaultModel);
      inputType := StringOr(fields, "inputType", DefaultInputType);
      encodingFormat := StringOr(fields, "encodingFormat", DefaultEncodingFormat);
      truncate := StringOr(fields, "truncate", DefaultTruncate);
      maxRetries := IntegerOr(fields, "maxRetries", DefaultMaxRetries);
      defaultOptions := fields - ExcludedKeys;
    }

    /** `{model, input, input_type, encoding_format, truncate, ...defaultOptions}` */
    function EmbeddingPayload(input: EmbedInput): Object {
      map[
        "model" := Str(modelName),
        "input" := Arr(StringValues(Texts(input))),
        "input_type" := Str(inputType),
        "encoding_format" := Str(encodingFormat),
        "truncate" := Str(truncate)
      ] + defaultOptions
    }

    /** The model and truncation always come from the configuration; the texts, input type
        and encoding format do unless an extra option of the same wire name overrides
        them; every extra option is sent unchanged, and nothing else is. */
    lemma EmbeddingPayloadSpec(input: EmbedInput)
      requires Valid()
      ensures var p := EmbeddingPayload(input);
        && p.Keys == {"model", "input", "input_type", "encoding_format", "truncate"} + defaultOptions.Keys
        && p["model"] == Str(modelName)
        && p["truncate"] == Str(truncate)
        && ("input" !in defaultOptions ==> p["input"] == Arr(StringValues(Texts(input))))
        && ("input_type" !in defaultOptions ==> p["input_type"] == Str(inputType))
        && ("encoding_format" !in defaultOptions ==> p["encoding_format"] == Str(encodingFormat))
        && (forall k | k in defaultOptions :: p[k] == defaultOptions[k])
    {
      assert "model" in ExcludedKeys && "truncate" in ExcludedKeys;
    }

    /** `embeddingWithRetry`: up to `maxRetries` attempts, waiting after each failure. */
    method EmbeddingWithRetry(input: EmbedInput, post: Post) returns (result: Result<seq<Vector>, string>, waits: seq<nat>)
      ensures RetryRun(result, waits) == Retry(EmbeddingPayload(input), post, maxRetries)
    {
      var payload := EmbeddingPayload(input);
      ghost var run := Retry(payload, post, maxRetries);
      var error := "";
      waits := [];
      var i := 0;
      while i < maxRetries
        invariant 0 <= i
        invariant run.result == RetryFrom(payload, post, maxRetries, i, error).result
        invariant run.waits == waits + RetryFrom(payload, post, maxRetries, i, error).waits
        decreases maxRetries - i
      {
        match post(payload, i) {
          case Ok(vectors) =>
            return Success(vectors), waits;
          case Err(e) =>
            Associate(waits, [Backoff(i)], RetryFrom(payload, post, maxRetries, i + 1, e).waits);
            error := e;
            waits := waits + [Backoff(i)];
        }
        i := i + 1;
      }
      assert waits + [] == waits;
      result := Failure(ExhaustedMessage(maxRetries, error));
    }

    /** `embedQuery`: the first vector returned for the text (`undefined` when the body
        holds none). */
    method EmbedQuery(text: string, post: Post) returns (r: Result<Option<Vector>, string>, waits: seq<nat>)
      ensures var run := Retry(EmbeddingPayload(One(text)), post, maxRetries);
        && waits == run.waits
        && (r.Failure? <==> run.result.Failure?)
        && (r.Failure? ==> r.error == run.result.error)
        && (r.Success? ==> (r.value.Some? <==> |run.result.value| > 0))
        && (r.Success? && r.value.Some? ==> r.value.value == run.result.value[0])
    {
      var embeddings;
      embeddings, waits := EmbeddingWithRetry(One(text), post);
      match embeddings {
        case Failure(e) => r := Failure(e);
        case Success(vectors) => r := Success(if |vectors| > 0 then Some(vectors[0]) else None);
      }
    }

    /** `embedDocuments`: the vectors for all documents, in one request. */
    method EmbedDocuments(documents: seq<string>, post: Post) returns (r: Result<seq<Vector>, string>, waits: seq<nat>)
      ensures RetryRun(r, waits) == Retry(EmbeddingPayload(Many(documents)), post, maxRetries)
    {
      r, waits := EmbeddingWithRetry(Many(documents), post);
    }
  }
}
