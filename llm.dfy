/**
 * The completion model adapter `NvidiaLlama4`: each prompt is sent as a single user
 * message to the chat-completions endpoint, and the reply (whole or streamed) becomes text.
 *
 * The HTTP exchange is a parameter, as for the chat model: `post` is the reply to a
 * non-streaming request and `stream` the chunks a streaming request delivers.
 */
module Llm {
  import opened Wrappers
  import opened Js
  import opened Utils
  import opened EventStream

  const DefaultBaseUrl: string := "https://integrate.api.nvidia.com/v1/chat/completions"
  const DefaultModel: string := "meta/llama-4-maverick-17b-128e-instruct"

  /** The constructor fields that are configuration rather than model options. */
  const ConfigKeys: set<string> := {"apiKey", "baseUrl", "model", "streaming"}

  const ApiErrorPrefix: string := "Error al llamar a la API de NVIDIA Llama4: "
  const NoTextError: string := "No se pudo generar texto con el modelo"

  /** A non-streaming request: the response body, or the text of the error thrown. */
  type Post = Payload -> Result<Response, string>

  /** A streaming request: the chunks delivered and how the stream ended. */
  type Stream = Payload -> StreamReply

  /** The one message a prompt is sent as. */
  function PromptMessages(prompt: string): seq<NvidiaMessage> {
    [NvidiaMessage(User, WireText(prompt))]
  }

  /** `Promise.all` over settled outcomes: every value in order, or the error of a failed
      one. The first failure in prompt order is taken; which rejection wins in the source
      depends on timing. */
  function All<T>(outcomes: seq<Result<T, string>>): Result<seq<T>, string>
    decreases |outcomes|
  {
    if outcomes == [] then Success([])
    else
      match outcomes[0]
      case Failure(e) => Failure(e)
      case Success(v) =>
        match All(outcomes[1..])
        case Failure(e) => Failure(e)
        case Success(rest) => Success([v] + rest)
  }

  /** All succeed exactly when every outcome does, keeping each value at its position;
      otherwise the error is that of one of the failed outcomes. */
  lemma {:induction false} AllSpec<T>(outcomes: seq<Result<T, string>>)
    ensures All(outcomes).Success? <==> forall i | 0 <= i < |outcomes| :: outcomes[i].Success?
    ensures All(outcomes).Success? ==> |All(outcomes).value| == |outcomes|
    ensures All(outcomes).Success? ==>
      forall i | 0 <= i < |outcomes| :: All(outcomes).value[i] == outcomes[i].value
    ensures All(outcomes).Failure? ==> exists i | 0 <= i < |outcomes| :: outcomes[i] == Failure(All(outcomes).error)
    decreases |outcomes|
  {
    if outcomes != [] {
      var tail := outcomes[1..];
      AllSpec(tail);
      assert forall i | 1 <= i < |outcomes| :: tail[i - 1] == outcomes[i];
      if outcomes[0].Success? && All(outcomes).Failure? {
        var j :| 0 <= j < |tail| && tail[j] == Failure(All(outcomes).error);
        assert outcomes[j + 1] == Failure(All(outcomes).error);
      }
    }
  }

  class NvidiaLlama4 {
    const apiKey: string
    const baseUrl: string
    const modelName: string
    const streaming: bool
    /** The constructor fields minus the configuration keys. */
    const defaultOptions: Object

    /** The configuration keys never reach the request as defaults. */
    ghost predicate Valid() {
      defaultOptions.Keys !! ConfigKeys
    }

    constructor (fields: Object)
      requires "apiKey" in fields && fields["apiKey"].Str?
      requires OptionalString(fields, "baseUrl") && OptionalString(fields, "model")
      requires OptionalBool(fields, "streaming")
      ensures Valid()
      ensures apiKey == fields["apiKey"].s
      ensures baseUrl == StringOr(fields, "baseUrl", DefaultBaseUrl)
      ensures modelName == StringOr(fields, "model", DefaultModel)
      ensures streaming == BoolOr(fields, "streaming", false)
      ensures defaultOptions == fields - ConfigKeys
    {
      apiKey := fields["apiKey"].s;
      baseUrl := StringOr(fields, "baseUrl", DefaultBaseUrl);
      modelName := StringOr(fields, "model", DefaultModel);
      streaming := BoolOr(fields, "streaming", false);
      defaultOptions := fields - ConfigKeys;
    }

    /** The request body for one prompt. The extra `images` assignment for non-empty call
        images changes nothing: the merged options already carry that very value. */
    function GetParams(prompt: string, options: Object, stream: bool): (p: Payload)
      ensures p == Payload(RequestParams(defaultOptions, options, modelName), PromptMessages(prompt), stream)
      ensures "model" in p.params && p.params["model"] == Str(modelName)
      ensures p.params.Keys <= WireNames
    {
      RequestParamsSpec(defaultOptions, options, modelName);
      var payload := Payload(RequestParams(defaultOptions, options, modelName), PromptMessages(prompt), stream);
      if "images" in options && NonEmptyLength(options["images"]) then
        ImagesAlreadySent(options);
        payload.(params := payload.params["images" := options["images"]])
      else
        payload
    }

    /** Non-empty call images are already among the parameters, under the same value. */
    lemma ImagesAlreadySent(options: Object)
      requires "images" in options && NonEmptyLength(options["images"])
      ensures var params := RequestParams(defaultOptions, options, modelName);
        "images" in params && params["images"] == options["images"] &&
        params["images" := options["images"]] == params
    {
      RequestParamsSpec(defaultOptions, options, modelName);
      var images := OptionNames[8];
      assert images in OptionNames && images.camel == "images" && images.wire == "images";
    }

    /** Call images that are not `undefined` are sent as given, an empty array included;
        without the key, the configured default images are sent, if any. */
    lemma GetParamsImages(prompt: string, options: Object, stream: bool)
      ensures var p := GetParams(prompt, options, stream);
        && ("images" in options ==> ("images" in p.params <==> Defined(options, "images")))
        && (Defined(options, "images") ==> p.params["images"] == options["images"])
        && ("images" !in options ==> ("images" in p.params <==> Defined(defaultOptions, "images")))
        && ("images" !in options && Defined(defaultOptions, "images") ==> p.params["images"] == defaultOptions["images"])
    {
      RequestParamsSpec(defaultOptions, options, modelName);
      var images := OptionNames[8];
      assert images in OptionNames && images.camel == "images" && images.wire == "images";
    }

    /** One prompt of `_generate`: the list holding its single generation, or the
        wrapped error. */
    function GenerateOne(prompt: string, options: Object, post: Post): (r: Result<seq<Generation>, string>)
      ensures var reply := post(GetParams(prompt, options, false));
        && (r.Success? <==> reply.Success?)
        && (r.Success? ==> r.value == [GenerationOf(reply.value)])
        && (r.Failure? ==> r.error == ApiErrorPrefix + reply.error)
    {
      match post(GetParams(prompt, options, false))
      case Failure(e) => Failure(ApiErrorPrefix + e)
      case Success(response) => Success([GenerationOf(response)])
    }

    /** `prompts.map(...)`: each prompt's outcome, in prompt order. */
    function Outcomes(prompts: seq<string>, options: Object, post: Post): (r: seq<Result<seq<Generation>, string>>)
      ensures |r| == |prompts|
      ensures forall i | 0 <= i < |prompts| :: r[i] == GenerateOne(prompts[i], options, post)
      decreases |prompts|
    {
      if prompts == [] then []
      else [GenerateOne(prompts[0], options, post)] + Outcomes(prompts[1..], options, post)
    }

    /** `_generate`: `Promise.all` over the prompts, each sent on its own. */
    function Generate(prompts: seq<string>, options: Object, post: Post): Result<seq<seq<Generation>>, string> {
      All(Outcomes(prompts, options, post))
    }

    /** The batch succeeds exactly when every prompt does, and then holds each prompt's
        single generation at its position; a failed batch reports the error of one of its
        prompts. */
    lemma GenerateSpec(prompts: seq<string>, options: Object, post: Post)
      ensures var r := Generate(prompts, options, post);
        && (r.Success? <==> forall i | 0 <= i < |prompts| :: GenerateOne(prompts[i], options, post).Success?)
        && (r.Success? ==> |r.value| == |prompts|)
        && (r.Success? ==> forall i | 0 <= i < |prompts| :: r.value[i] == GenerateOne(prompts[i], options, post).value)
        && (r.Failure? ==> exists i | 0 <= i < |prompts| :: GenerateOne(prompts[i], options, post) == Failure(r.error))
    {
      var outcomes := Outcomes(prompts, options, post);
      AllSpec(outcomes);
      if All(outcomes).Failure? {
        var i :| 0 <= i < |outcomes| && outcomes[i] == Failure(All(outcomes).error);
        assert GenerateOne(prompts[i], options, post) == Failure(All(outcomes).error);
      }
    }

    /** A batch of one prompt is that prompt's single generation, or its wrapped error. */
    lemma GenerateSingle(prompt: string, options: Object, post: Post)
      ensures var reply := post(GetParams(prompt, options, false));
        && (reply.Failure? ==> Generate([prompt], options, post) == Failure(ApiErrorPrefix + reply.error))
        && (reply.Success? ==> Generate([prompt], options, post) == Success([[GenerationOf(reply.value)]]))
    {
      var outcomes := Outcomes([prompt], options, post);
      assert outcomes == [GenerateOne(prompt, options, post)];
      assert outcomes[1..] == [];
      match GenerateOne(prompt, options, post) {
        case Failure(_) =>
        case Success(v) =>
          assert All(outcomes[1..]) == Success([]);
          assert [v] + [] == [v];
          assert All(outcomes) == Success([v]);
          assert v == [GenerationOf(post(GetParams(prompt, options, false)).value)];
      }
    }

    /** `_call`: the concatenated non-empty streamed texts when streaming; otherwise the
        text of the generation for the prompt, which must not be empty. */
    method Call(prompt: string, options: Object, post: Post, stream: Stream, parse: Parser)
      returns (r: Result<string, string>)
      ensures streaming ==>
        var outcome := StreamOutcome(parse, stream(GetParams(prompt, options, true)));
        && (r.Success? <==> outcome.Success?)
        && (r.Success? ==> r.value == Join(outcome.value))
        && (r.Failure? ==> r.error == outcome.error)
      ensures !streaming ==>
        var reply := post(GetParams(prompt, options, false));
        && (r.Success? ==> reply.Success? && r.value != "" && Carries(reply.value, r.value))
        && (reply.Failure? ==> r == Failure(ApiErrorPrefix + reply.error))
        && (reply.Success? && ResponseText(reply.value) == "" ==> r == Failure(NoTextError))
        && (reply.Success? && ResponseText(reply.value) != "" ==> r == Success(ResponseText(reply.value)))
    {
      if streaming {
        var outcome := ReadStream(parse, stream(GetParams(prompt, options, true)));
        if outcome.Failure? {
          return Failure(outcome.error);
        }
        var responseText := ConcatStreamed(outcome.value);
        return Success(responseText);
      } else {
        var response := Generate([prompt], options, post);
        GenerateSingle(prompt, options, post);
        if response.Failure? {
          return Failure(response.error);
        }
        var generations: seq<seq<Generation>> := response.value;
        var text := generations[0][0].text;
        if text == "" {
          return Failure(NoTextError);
        }
        return Success(text);
      }
    }
  }
}
