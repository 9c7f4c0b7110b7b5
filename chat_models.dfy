/**
 * The chat model adapter `ChatNvidiaLlama4`: it turns framework messages and call options
 * into a chat-completions request, and the reply (whole or streamed) into text.
 *
 * The HTTP exchange is a parameter: `post` is the reply to a non-streaming request
 * (the body, or the text of the error the request threw) and `stream` the chunks a
 * streaming request delivers.
 */
module ChatModels {
  import opened Wrappers
  import opened Js
  import opened Utils
  import opened EventStream

  const DefaultBaseUrl: string := "https://integrate.api.nvidia.com/v1/chat/completions"
  const DefaultModel: string := "meta/llama-4-maverick-17b-128e-instruct"

  /** The constructor fields that are configuration rather than model options. */
  const ConfigKeys: set<string> := {"apiKey", "baseUrl", "model", "streaming"}

  const ApiErrorPrefix: string := "Error al llamar a la API de NVIDIA Llama4: "
  const NoTextError: string := "No se pudo generar texto con el modelo de chat"

  /** A non-streaming request: the response body, or the text of the error thrown. */
  type Post = Payload -> Result<Response, string>

  /** A streaming request: the chunks delivered and how the stream ended. */
  type Stream = Payload -> StreamReply

  class ChatNvidiaLlama4 {
    const apiKey: string
    const baseUrl: string
    const modelName: string
    const streaming: bool
    /** The constructor fields minus the configuration keys. */
    const defaultOptions: Object

    /** The configuration keys never reach the request as defaults. */
    ghost predicate Valid() {
      defaultOptions.Keys !! ConfigKeys
    }

    constructor (fields: Object)
      requires "apiKey" in fields && fields["apiKey"].Str?
      requires OptionalString(fields, "baseUrl") && OptionalString(fields, "model")
      requires OptionalBool(fields, "streaming")
      ensures Valid()
      ensures apiKey == fields["apiKey"].s
      ensures baseUrl == StringOr(fields, "baseUrl", DefaultBaseUrl)
      ensures modelName == StringOr(fields, "model", DefaultModel)
      ensures streaming == BoolOr(fields, "streaming", false)
      ensures defaultOptions == fields - ConfigKeys
    {
      apiKey := fields["apiKey"].s;
      baseUrl := StringOr(fields, "baseUrl", DefaultBaseUrl);
      modelName := StringOr(fields, "model", DefaultModel);
      streaming := BoolOr(fields, "streaming", false);
      defaultOptions := fields - ConfigKeys;
    }

    /** The request body: the merged options as wire parameters, the formatted messages,
        and the stream flag. The model is always the configured one. */
    function GetParams(messages: seq<BaseMessage>, options: Object, stream: bool): (p: Payload)
      ensures p.params == RequestParams(defaultOptions, options, modelName)
      ensures "model" in p.params && p.params["model"] == Str(modelName)
      ensures p.params.Keys <= WireNames
      ensures |p.messages| == |messages|
      ensures forall i | 0 <= i < |messages| :: p.messages[i] == FormatMessage(messages[i])
      ensures p.stream == stream
    {
      RequestParamsSpec(defaultOptions, options, modelName);
      Payload(RequestParams(defaultOptions, options, modelName), FormatMessagesForNvidia(messages), stream)
    }

    /** `_generate`: one generation from a non-streaming request, or the wrapped error. */
    function Generate(messages: seq<BaseMessage>, options: Object, post: Post): (r: Result<Generation, string>)
      ensures var reply := post(GetParams(messages, options, false));
        && (r.Success? <==> reply.Success?)
        && (r.Success? ==> r.value == GenerationOf(reply.value))
        && (r.Failure? ==> r.error == ApiErrorPrefix + reply.error)
    {
      match post(GetParams(messages, options, false))
      case Failure(e) => Failure(ApiErrorPrefix + e)
      case Success(response) => Success(GenerationOf(response))
    }

    /** `_call`: the concatenated streamed texts when streaming; otherwise the text of the
        single generation, which must not be empty. */
    method Call(messages: seq<BaseMessage>, options: Object, post: Post, stream: Stream, parse: Parser)
      returns (r: Result<string, string>)
      ensures streaming ==>
        var outcome := StreamOutcome(parse, stream(GetParams(messages, options, true)));
        && (r.Success? <==> outcome.Success?)
        && (r.Success? ==> r.value == Join(outcome.value))
        && (r.Failure? ==> r.error == outcome.error)
      ensures !streaming ==>
        var reply := post(GetParams(messages, options, false));
        && (r.Success? ==> reply.Success? && r.value != "" && Carries(reply.value, r.value))
        && (reply.Failure? ==> r == Failure(ApiErrorPrefix + reply.error))
        && (reply.Success? && ResponseText(reply.value) == "" ==> r == Failure(NoTextError))
        && (reply.Success? && ResponseText(reply.value) != "" ==> r == Success(ResponseText(reply.value)))
    {
      if streaming {
        var outcome := ReadStream(parse, stream(GetParams(messages, options, true)));
        if outcome.Failure? {
          return Failure(outcome.error);
        }
        var responseText := ConcatStreamed(outcome.value);
        return Success(responseText);
      } else {
        var response := Generate(messages, options, post);
        if response.Failure? {
          return Failure(response.error);
        }
        if response.value.text == "" {
          return Failure(NoTextError);
        }
        return Success(response.value.text);
      }
    }
  }
}
