/**
 * The translations shared by the adapters: camelCase options to wire parameters,
 * framework messages to provider messages, and a provider response to its text.
 */
module Utils {
  import opened Wrappers
  import opened Js

  // ---------------------------------------------------------------------------
  // Option mapping

  /** A camelCase option and the wire parameter it is sent as. */
  datatype OptionName = OptionName(camel: string, wire: string)

  /** The nine options, in the order the source copies them. */
  const OptionNames: seq<OptionName> := [
    OptionName("model", "model"),
    OptionName("maxTokens", "max_tokens"),
    OptionName("temperature", "temperature"),
    OptionName("topP", "top_p"),
    OptionName("topK", "top_k"),
    OptionName("presencePenalty", "presence_penalty"),
    OptionName("frequencyPenalty", "frequency_penalty"),
    OptionName("stop", "stop"),
    OptionName("images", "images")
  ]

  const WireNames: set<string> := set n | n in OptionNames :: n.wire

  /** No two options share a wire name. */
  predicate DistinctWires(names: seq<OptionName>) {
    forall i, j | 0 <= i < j < |names| :: names[i].wire != names[j].wire
  }

  /** `if (options.camel !== undefined) result.wire = options.camel` */
  function CopyOption(result: Object, options: Object, name: OptionName): Object {
    if Defined(options, name.camel) then result[name.wire := options[name.camel]] else result
  }

  /** The copies of `names`, done in order into an empty record. */
  function CopyOptions(options: Object, names: seq<OptionName>): Object
    decreases |names|
  {
    if names == [] then map[]
    else CopyOption(CopyOptions(options, names[..|names| - 1]), options, names[|names| - 1])
  }

  /** A wire name is written exactly when some option copied under it is defined. */
  lemma {:induction false} CopyOptionsDomain(options: Object, names: seq<OptionName>)
    ensures forall w :: w in CopyOptions(options, names) <==>
      exists i | 0 <= i < |names| :: names[i].wire == w && Defined(options, names[i].camel)
    decreases |names|
  {
    if names != [] {
      var prefix, last := names[..|names| - 1], names[|names| - 1];
      CopyOptionsDomain(options, prefix);
      forall w ensures w in CopyOptions(options, names) <==>
        exists i | 0 <= i < |names| :: names[i].wire == w && Defined(options, names[i].camel)
      {
        if w in CopyOptions(options, names) {
          if !(w == last.wire && Defined(options, last.camel)) {
            assert w in CopyOptions(options, prefix);
            var i :| 0 <= i < |prefix| && prefix[i].wire == w && Defined(options, prefix[i].camel);
            assert names[i] == prefix[i];
          }
        }
        if exists i | 0 <= i < |names| :: names[i].wire == w && Defined(options, names[i].camel) {
          var i :| 0 <= i < |names| && names[i].wire == w && Defined(options, names[i].camel);
          if i < |prefix| {
            assert prefix[i] == names[i];
          }
        }
      }
    }
  }

  /** With distinct wire names, a defined option is found unchanged under its wire name. */
  lemma {:induction false} CopyOptionsValue(options: Object, names: seq<OptionName>, i: nat)
    requires DistinctWires(names) && i < |names| && Defined(options, names[i].camel)
    ensures names[i].wire in CopyOptions(options, names)
    ensures CopyOptions(options, names)[names[i].wire] == options[names[i].camel]
    decreases |names|
  {
    var prefix, last := names[..|names| - 1], names[|names| - 1];
    if i < |prefix| {
      assert prefix[i] == names[i];
      assert names[i].wire != last.wire;
      CopyOptionsValue(options, prefix, i);
    }
  }

  /** `convertOptionsToNvidiaParams` as a value: the nine copies in order. */
  function NvidiaParams(options: Object): Object {
    CopyOptions(options, OptionNames)
  }

  /** Each of the nine options appears under its wire name exactly when it is not
      undefined, with its value unchanged, and no other key appears. */
  lemma NvidiaParamsSpec(options: Object)
    ensures forall n | n in OptionNames :: n.wire in NvidiaParams(options) <==> Defined(options, n.camel)
    ensures forall n | n in OptionNames && Defined(options, n.camel) :: NvidiaParams(options)[n.wire] == options[n.camel]
    ensures NvidiaParams(options).Keys <= WireNames
  {
    assert DistinctWires(OptionNames);
    CopyOptionsDomain(options, OptionNames);
    forall n | n in OptionNames
      ensures n.wire in NvidiaParams(options) <==> Defined(options, n.camel)
      ensures Defined(options, n.camel) ==> NvidiaParams(options)[n.wire] == options[n.camel]
    {
      var i :| 0 <= i < |OptionNames| && OptionNames[i] == n;
      if Defined(options, n.camel) {
        CopyOptionsValue(options, OptionNames, i);
      }
    }
    forall w | w in NvidiaParams(options) ensures w in WireNames {
      var j :| 0 <= j < |OptionNames| && OptionNames[j].wire == w && Defined(options, OptionNames[j].camel);
      assert OptionNames[j] in OptionNames;
    }
  }

  /** One more copy extends the fold by one name. */
  lemma CopyOptionsStep(options: Object, names: seq<OptionName>, k: nat)
    requires k < |names|
    ensures CopyOptions(options, names[..k + 1]) == CopyOption(CopyOptions(options, names[..k]), options, names[k])
  {
    assert names[..k + 1][..k] == names[..k];
  }

  /** The fold over the table, written out as nine copies. */
  lemma NvidiaParamsUnrolled(options: Object)
    ensures NvidiaParams(options) == CopyOption(
        CopyOption(
          CopyOption(
            CopyOption(
              CopyOption(
                CopyOption(
                  CopyOption(
                    CopyOption(
                      CopyOption(
                        map[],
                        options, OptionName("model", "model")),
                      options, OptionName("maxTokens", "max_tokens")),
                    options, OptionName("temperature", "temperature")),
                  options, OptionName("topP", "top_p")),
                options, OptionName("topK", "top_k")),
              options, OptionName("presencePenalty", "presence_penalty")),
            options, OptionName("frequencyPenalty", "frequency_penalty")),
          options, OptionName("stop", "stop")),
        options, OptionName("images", "images"))
  {
    assert OptionNames[..0] == [];
    CopyOptionsStep(options, OptionNames, 0);
    CopyOptionsStep(options, OptionNames, 1);
    CopyOptionsStep(options, OptionNames, 2);
    CopyOptionsStep(options, OptionNames, 3);
    CopyOptionsStep(options, OptionNames, 4);
    CopyOptionsStep(options, OptionNames, 5);
    CopyOptionsStep(options, OptionNames, 6);
    CopyOptionsStep(options, OptionNames, 7);
    CopyOptionsStep(options, OptionNames, 8);
    assert OptionNames[..9] == OptionNames;
  }

  /** The record the source fills field by field. */
  method ConvertOptionsToNvidiaParams(options: Object) returns (result: Object)
    ensures result == NvidiaParams(options)
  {
    result := map[];
    if Defined(options, "model") { result := result["model" := options["model"]]; }
    if Defined(options, "maxTokens") { result := result["max_tokens" := options["maxTokens"]]; }
    if Defined(options, "temperature") { result := result["temperature" := options["temperature"]]; }
    if Defined(options, "topP") { result := result["top_p" := options["topP"]]; }
    if Defined(options, "topK") { result := result["top_k" := options["topK"]]; }
    if Defined(options, "presencePenalty") { result := result["presence_penalty" := options["presencePenalty"]]; }
    if Defined(options, "frequencyPenalty") { result := result["frequency_penalty" := options["frequencyPenalty"]]; }
    if Defined(options, "stop") { result := result["stop" := options["stop"]]; }
    if Defined(options, "images") { result := result["images" := options["images"]]; }
    NvidiaParamsUnrolled(options);
  }

  /** Options that define none of the nine fields give no parameters at all. */
  lemma NvidiaParamsOfNothing(options: Object)
    requires forall n | n in OptionNames :: !Defined(options, n.camel)
    ensures NvidiaParams(options) == map[]
  {
    var r := NvidiaParams(options);
    NvidiaParamsSpec(options);
    assert r.Keys == {};
  }

  /** `convertOptionsToNvidiaParams({...defaults, ...options, model: modelName})`: the
      request parameters both adapters build. */
  function RequestParams(defaults: Object, options: Object, modelName: string): Object {
    NvidiaParams(defaults + options + map["model" := Str(modelName)])
  }

  /** A key other than "model" of the merged options comes from the call options when they
      have it, and from the defaults otherwise. */
  lemma MergedKey(defaults: Object, options: Object, modelName: string, key: string)
    requires key != "model"
    ensures var merged := defaults + options + map["model" := Str(modelName)];
      && (Defined(merged, key) <==> if key in options then Defined(options, key) else Defined(defaults, key))
      && (Defined(merged, key) ==> merged[key] == Get(defaults + options, key))
  {
  }

  /** The configured model is always sent, whatever the call options say; every other
      option is taken from the call options when they have the key (an explicit
      `undefined` there drops the default) and from the defaults otherwise. */
  lemma RequestParamsSpec(defaults: Object, options: Object, modelName: string)
    ensures "model" in RequestParams(defaults, options, modelName)
    ensures RequestParams(defaults, options, modelName)["model"] == Str(modelName)
    ensures forall n | n in OptionNames && n.camel != "model" ::
      n.wire in RequestParams(defaults, options, modelName) <==>
        if n.camel in options then Defined(options, n.camel) else Defined(defaults, n.camel)
    ensures forall n | n in OptionNames && n.camel != "model" && n.wire in RequestParams(defaults, options, modelName) ::
      RequestParams(defaults, options, modelName)[n.wire] == Get(defaults + options, n.camel)
    ensures RequestParams(defaults, options, modelName).Keys <= WireNames
  {
    var merged := defaults + options + map["model" := Str(modelName)];
    var params := NvidiaParams(merged);
    NvidiaParamsSpec(merged);
    assert OptionNames[0] in OptionNames;
    forall n | n in OptionNames && n.camel != "model"
      ensures n.wire in params <==> if n.camel in options then Defined(options, n.camel) else Defined(defaults, n.camel)
      ensures n.wire in params ==> params[n.wire] == Get(defaults + options, n.camel)
    {
      MergedKey(defaults, options, modelName, n.camel);
    }
  }

  // ---------------------------------------------------------------------------
  // Messages

  /** One part of a multimodal content array; `OtherPart` is any part whose type is
      neither "text" nor "image_url". */
  datatype ContentPart = TextPart(text: string) | ImageUrlPart(imageUrl: ImageUrl) | OtherPart

  /** The `image_url` of an image part: an object `{url}`, or the url as a plain string. */
  datatype ImageUrl = UrlObject(url: string) | UrlString(url: string)

  /** `part.image_url.url`: a plain-string `image_url` has no `url` property. */
  function UrlOf(imageUrl: ImageUrl): (r: Option<string>)
    ensures r.Some? <==> imageUrl.UrlObject?
    ensures r.Some? ==> r.value == imageUrl.url
  {
    match imageUrl
    case UrlObject(u) => Some(u)
    case UrlString(_) => None
  }

  datatype Content = Plain(text: string) | Complex(parts: seq<ContentPart>)

  /** A framework message, tagged by the class it was built with. */
  datatype BaseMessage =
    | SystemMessage(content: Content)
    | HumanMessage(content: Content)
    | AIMessage(content: Content)
    | ChatMessage(role: string, content: Content)
    | OtherMessage(content: Content)

  datatype Role = System | User | Assistant

  function RoleName(role: Role): string {
    match role
    case System => "system"
    case User => "user"
    case Assistant => "assistant"
  }

  /** An entry of a provider content array: a string, or `{type: "image", image_url: {url}}`.
      An image whose url is `None` is sent as `{type: "image", image_url: {}}`, because
      `JSON.stringify` drops the `undefined` url. */
  datatype WirePart = PlainText(text: string) | Image(url: Option<string>)

  /** Provider message content. `Uncast` is a content array sent on unchanged, which is
      what `content as string` does to an array at run time. */
  datatype WireContent = WireText(text: string) | WireParts(parts: seq<WirePart>) | Uncast(rawParts: seq<ContentPart>)

  datatype NvidiaMessage = NvidiaMessage(role: Role, content: WireContent)

  /** The multimodal parts a human message sends: texts become strings, image_url parts
      become image entries with the same url, any other part is dropped. */
  function FormatParts(parts: seq<ContentPart>): (r: seq<WirePart>)
    ensures |r| <= |parts|
    decreases |parts|
  {
    if parts == [] then []
    else
      var rest := FormatParts(parts[1..]);
      match parts[0]
      case TextPart(t) => [PlainText(t)] + rest
      case ImageUrlPart(i) => [Image(UrlOf(i))] + rest
      case OtherPart => rest
  }

  lemma {:induction false} FormatPartsAppend(a: seq<ContentPart>, b: seq<ContentPart>)
    ensures FormatParts(a + b) == FormatParts(a) + FormatParts(b)
    decreases |a|
  {
    if a == [] {
      assert a + b == b;
    } else {
      assert (a + b)[1..] == a[1..] + b;
      FormatPartsAppend(a[1..], b);
    }
  }

  /** The loop of the multimodal branch, which pushes one entry per kept part. */
  method FormatMultimodalContent(parts: seq<ContentPart>) returns (content: seq<WirePart>)
    ensures content == FormatParts(parts)
  {
    content := [];
    for i := 0 to |parts|
      invariant content == FormatParts(parts[..i])
    {
      FormatPartsAppend(parts[..i], [parts[i]]);
      assert parts[..i + 1] == parts[..i] + [parts[i]];
      match parts[i] {
        case TextPart(t) => content := content + [PlainText(t)];
        case ImageUrlPart(imageUrl) => content := content + [Image(UrlOf(imageUrl))];
        case OtherPart =>
      }
    }
    assert parts[..|parts|] == parts;
  }

  /** The parts a human message keeps: the text and image_url parts, in order. */
  function KeptParts(parts: seq<ContentPart>): seq<ContentPart> {
    if parts == [] then []
    else if parts[0].OtherPart? then KeptParts(parts[1..])
    else [parts[0]] + KeptParts(parts[1..])
  }

  function ToWirePart(part: ContentPart): WirePart
    requires !part.OtherPart?
  {
    if part.TextPart? then PlainText(part.text) else Image(UrlOf(part.imageUrl))
  }

  /** Entry i of the formatted content is kept part i, converted: the order of the parts is
      preserved and nothing but the dropped parts is lost. */
  lemma {:induction false} FormatPartsIsKeptParts(parts: seq<ContentPart>)
    ensures |FormatParts(parts)| == |KeptParts(parts)|
    ensures forall i | 0 <= i < |KeptParts(parts)| ::
      !KeptParts(parts)[i].OtherPart? && FormatParts(parts)[i] == ToWirePart(KeptParts(parts)[i])
    decreases |parts|
  {
    if parts != [] {
      FormatPartsIsKeptParts(parts[1..]);
    }
  }

  /** The framework parts a provider content array reads back as. */
  function UnformatParts(parts: seq<WirePart>): (r: seq<ContentPart>)
    ensures |r| == |parts|
  {
    if parts == [] then []
    else
      var first :=
        if parts[0].PlainText? then TextPart(parts[0].text)
        else if parts[0].url.Some? then ImageUrlPart(UrlObject(parts[0].url.value))
        else ImageUrlPart(UrlString(""));
      [first] + UnformatParts(parts[1..])
  }

  /** Every provider content array is produced, unchanged, from the parts it reads back as. */
  lemma {:induction false} FormatUnformatParts(parts: seq<WirePart>)
    ensures FormatParts(UnformatParts(parts)) == parts
    decreases |parts|
  {
    if parts != [] {
      FormatUnformatParts(parts[1..]);
      assert UnformatParts(parts)[1..] == UnformatParts(parts[1..]);
    }
  }

  /** `content.toString()`: a string is itself, and an array of part objects prints
      "[object Object]" for each part, separated by commas. */
  function ContentToString(content: Content): (r: string)
    ensures content.Plain? ==> r == content.text
    ensures content.Complex? ==> r == ObjectArrayString(|content.parts|)
  {
    match content
    case Plain(s) => s
    case Complex(parts) => ObjectArrayString(|parts|)
  }

  function ObjectArrayString(n: nat): string {
    if n == 0 then "" else if n == 1 then "[object Object]" else ObjectArrayString(n - 1) + ",[object Object]"
  }

  const ObjectText: string := "[object Object]"

  lemma {:induction false} ObjectArrayStringLength(n: nat)
    ensures |ObjectArrayString(n)| == if n == 0 then 0 else 16 * n - 1
  {
    if n > 1 {
      ObjectArrayStringLength(n - 1);
    }
  }

  /** n copies of "[object Object]", each after the first preceded by a comma. */
  lemma {:induction false} ObjectArrayStringSpec(n: nat)
    ensures |ObjectArrayString(n)| == if n == 0 then 0 else 16 * n - 1
    ensures forall k | 0 <= k < n :: ObjectArrayString(n)[16 * k..16 * k + 15] == ObjectText
    ensures forall k | 1 <= k < n :: ObjectArrayString(n)[16 * k - 1] == ','
  {
    ObjectArrayStringLength(n);
    if n > 1 {
      ObjectArrayStringSpec(n - 1);
      var prev := ObjectArrayString(n - 1);
      assert ObjectArrayString(n) == prev + "," + ObjectText;
      ObjectArrayStringBlocks(prev, n);
    }
  }

  /** The blocks and commas of `prev`, followed by one more comma and block. */
  lemma ObjectArrayStringBlocks(prev: string, n: nat)
    requires n > 1 && |prev| == 16 * (n - 1) - 1
    requires forall k | 0 <= k < n - 1 :: prev[16 * k..16 * k + 15] == ObjectText
    requires forall k | 1 <= k < n - 1 :: prev[16 * k - 1] == ','
    ensures var r := prev + "," + ObjectText;
      && (forall k | 0 <= k < n :: r[16 * k..16 * k + 15] == ObjectText)
      && (forall k | 1 <= k < n :: r[16 * k - 1] == ',')
  {
    var r := prev + "," + ObjectText;
    forall k | 0 <= k < n ensures r[16 * k..16 * k + 15] == ObjectText {
      if k < n - 1 {
        assert r[16 * k..16 * k + 15] == prev[16 * k..16 * k + 15];
      } else {
        assert r[16 * k..16 * k + 15] == r[|prev| + 1..];
      }
    }
    forall k | 1 <= k < n ensures r[16 * k - 1] == ',' {
      if k < n - 1 {
        assert r[16 * k - 1] == prev[16 * k - 1];
      }
    }
  }

  /** `content as string`: no conversion happens at run time. */
  function CastToString(content: Content): WireContent {
    match content
    case Plain(s) => WireText(s)
    case Complex(parts) => Uncast(parts)
  }

  /** The role of a chat message with a free-form role: only "system" and "assistant" are kept. */
  function ChatRole(role: string): (r: Role)
    ensures r == System <==> role == "system"
    ensures r == Assistant <==> role == "assistant"
  {
    if role == "system" then System else if role == "assistant" then Assistant else User
  }

  function FormatMessage(message: BaseMessage): NvidiaMessage {
    match message
    case SystemMessage(c) => NvidiaMessage(System, CastToString(c))
    case HumanMessage(Plain(s)) => NvidiaMessage(User, WireText(s))
    case HumanMessage(Complex(parts)) => NvidiaMessage(User, WireParts(FormatParts(parts)))
    case AIMessage(c) => NvidiaMessage(Assistant, WireText(ContentToString(c)))
    case ChatMessage(role, c) => NvidiaMessage(ChatRole(role), CastToString(c))
    case OtherMessage(c) => NvidiaMessage(User, WireText(ContentToString(c)))
  }

  /** The role each message class is sent with: system for system messages and chat
      messages with role "system", assistant for AI messages and chat messages with role
      "assistant", and user for everything else. */
  lemma FormatMessageRole(message: BaseMessage)
    ensures FormatMessage(message).role == System <==>
      message.SystemMessage? || (message.ChatMessage? && message.role == "system")
    ensures FormatMessage(message).role == Assistant <==>
      message.AIMessage? || (message.ChatMessage? && message.role == "assistant")
    ensures FormatMessage(message).role == User <==>
      message.HumanMessage? || message.OtherMessage? ||
      (message.ChatMessage? && message.role != "system" && message.role != "assistant")
  {
  }

  /** The content each message class is sent with, for every kind of content: system and
      chat messages pass it on as it is, human messages send their parts formatted, and AI
      and other messages send its string form. */
  lemma FormatMessageContent(message: BaseMessage)
    ensures (message.SystemMessage? || message.ChatMessage?) && message.content.Plain? ==>
      FormatMessage(message).content == WireText(message.content.text)
    ensures (message.SystemMessage? || message.ChatMessage?) && message.content.Complex? ==>
      FormatMessage(message).content == Uncast(message.content.parts)
    ensures message.HumanMessage? && message.content.Complex? ==>
      FormatMessage(message).content == WireParts(FormatParts(message.content.parts))
    ensures (message.AIMessage? || message.OtherMessage?) && message.content.Complex? ==>
      FormatMessage(message).content == WireText(ObjectArrayString(|message.content.parts|))
  {
  }

  /** One provider message per framework message, in the same order. */
  function FormatMessagesForNvidia(messages: seq<BaseMessage>): (r: seq<NvidiaMessage>)
    ensures |r| == |messages|
    ensures forall i | 0 <= i < |messages| :: r[i] == FormatMessage(messages[i])
    decreases |messages|
  {
    if messages == [] then [] else [FormatMessage(messages[0])] + FormatMessagesForNvidia(messages[1..])
  }

  lemma {:induction false} FormatMessagesAppend(a: seq<BaseMessage>, b: seq<BaseMessage>)
    ensures FormatMessagesForNvidia(a + b) == FormatMessagesForNvidia(a) + FormatMessagesForNvidia(b)
  {
    var l, r := FormatMessagesForNvidia(a + b), FormatMessagesForNvidia(a) + FormatMessagesForNvidia(b);
    assert |l| == |r|;
    forall i | 0 <= i < |l| ensures l[i] == r[i] {
      if i < |a| {
        assert (a + b)[i] == a[i];
      } else {
        assert (a + b)[i] == b[i - |a|];
      }
    }
  }

  /** The framework message a provider message with text or (for the user) parts comes from. */
  function MessageFor(m: NvidiaMessage): BaseMessage
    requires m.content.WireText? || (m.role == User && m.content.WireParts?)
  {
    match m.role
    case System => SystemMessage(Plain(m.content.text))
    case Assistant => AIMessage(Plain(m.content.text))
    case User =>
      if m.content.WireText? then HumanMessage(Plain(m.content.text))
      else HumanMessage(Complex(UnformatParts(m.content.parts)))
  }

  /** Each provider role is reached by its own message class, with its content unchanged. */
  lemma FormatMessageFor(m: NvidiaMessage)
    requires m.content.WireText? || (m.role == User && m.content.WireParts?)
    ensures FormatMessage(MessageFor(m)) == m
  {
    if m.content.WireParts? {
      FormatUnformatParts(m.content.parts);
    }
  }

  /** A chat message whose role is a provider role name keeps that role and its text;
      any other role string becomes "user". */
  lemma ChatMessageRoles(role: string, text: string)
    ensures forall r: Role :: role == RoleName(r) ==> FormatMessage(ChatMessage(role, Plain(text))) == NvidiaMessage(r, WireText(text))
    ensures (forall r: Role :: role != RoleName(r)) ==> FormatMessage(ChatMessage(role, Plain(text))).role == User
  {
  }

  /** String content is sent unchanged, whatever the message class. */
  lemma PlainContentKept(message: BaseMessage)
    requires message.content.Plain?
    ensures FormatMessage(message).content == WireText(message.content.text)
  {
  }

  // ---------------------------------------------------------------------------
  // Responses

  datatype ResponseMessage = ResponseMessage(content: Option<string>)

  datatype Choice = Choice(message: Option<ResponseMessage>, finishReason: Option<string>)

  /** The parts of a chat-completions response body the adapters read. */
  datatype Response = Response(choices: Option<seq<Choice>>, usage: Option<Value>)

  /** `choices?.[0]` */
  function FirstChoice(response: Response): Option<Choice> {
    if response.choices.Some? && |response.choices.value| > 0 then Some(response.choices.value[0]) else None
  }

  /** The response carries `text` at `choices[0].message.content`. */
  predicate Carries(response: Response, text: string) {
    && FirstChoice(response).Some?
    && FirstChoice(response).value.message.Some?
    && FirstChoice(response).value.message.value.content == Some(text)
  }

  /** `choices?.[0]?.message?.content || ""`: a missing step anywhere gives "". */
  function ResponseText(response: Response): (text: string)
    ensures text != "" ==> Carries(response, text)
    ensures text == "" ==> forall t | Carries(response, t) :: t == ""
  {
    match FirstChoice(response)
    case None => ""
    case Some(choice) =>
      match choice.message
      case None => ""
      case Some(m) => m.content.GetOr("")
  }

  datatype AIResult = AIResult(content: string, finishReason: Option<string>, tokenUsage: Option<Value>)

  function ConvertResponseToLangChainMessage(response: Response): (r: AIResult)
    ensures r.content == ResponseText(response)
    ensures r.finishReason == FinishReason(response)
    ensures r.tokenUsage == response.usage
  {
    AIResult(ResponseText(response), FinishReason(response), response.usage)
  }

  /** A generation: its text and the optional metadata copied from the response. */
  datatype Generation = Generation(text: string, finishReason: Option<string>, tokenUsage: Option<Value>)

  /** The body of a chat-completions request: `{...params, messages, stream}`. The nine
      option names never clash with "messages" or "stream", so the three parts are disjoint. */
  datatype Payload = Payload(params: Object, messages: seq<NvidiaMessage>, stream: bool)

  /** `choices?.[0]?.finish_reason` */
  function FinishReason(response: Response): (r: Option<string>)
    ensures FirstChoice(response).Some? ==> r == FirstChoice(response).value.finishReason
    ensures FirstChoice(response).None? ==> r == None
  {
    match FirstChoice(response)
    case None => None
    case Some(choice) => choice.finishReason
  }

  /** The generation both adapters build from a response: the message text as the model
      reply carries it ("" when absent), and the finish reason and usage copied over. */
  function GenerationOf(response: Response): (g: Generation)
    ensures g.text != "" ==> Carries(response, g.text)
    ensures g.text == "" ==> forall t | Carries(response, t) :: t == ""
    ensures g.finishReason == FinishReason(response)
    ensures g.tokenUsage == response.usage
  {
    Generation(ResponseText(response), FinishReason(response), response.usage)
  }
}
