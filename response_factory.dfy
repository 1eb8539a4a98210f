/**
 * The response objects a call can be projected into, and the factory that
 * builds one from a provider's payload array by the name of the method called.
 */
module Dtos {
  import opened Wrappers
  import opened Php

  /** The response classes; every one carries `raw` and `usage`. */
  datatype Response =
    | TextResponse(content: string, raw: seq<Entry>, usage: seq<Entry>, toolCalls: seq<Entry>)
    | ImageResponse(images: seq<Entry>, raw: seq<Entry>, usage: seq<Entry>)
    | EmbeddingsResponse(embeddings: seq<Entry>, raw: seq<Entry>, usage: seq<Entry>)
    | RecommendResponse(recommendations: seq<Entry>, raw: seq<Entry>, usage: seq<Entry>)
    | VisionResponse(content: string, raw: seq<Entry>, usage: seq<Entry>)
    | TranscribeResponse(text: string, raw: seq<Entry>, usage: seq<Entry>)
    | SpeakResponse(audio: string, format: string, raw: seq<Entry>, usage: seq<Entry>)
    | BaseResponse(raw: seq<Entry>, usage: seq<Entry>)

  /** `(string) ($payload[$k] ?? $default)`. */
  function StringField(payload: seq<Entry>, k: string, default: string): string {
    StringOf(Coalesce(payload, StrKey(k), Str(default)))
  }

  /** `(array) ($payload[$k] ?? [])`. */
  function ArrayField(payload: seq<Entry>, k: string): seq<Entry> {
    ToArray(Coalesce(payload, StrKey(k), Arr([])))
  }

  /** `ResponseFactory::make($method, $payload)`. */
  function Make(call: string, payload: seq<Entry>): (r: Response)
    ensures r.raw == ArrayField(payload, "raw") && r.usage == ArrayField(payload, "usage")
    ensures call in {"text", "chat", "summarize"} <==> r.TextResponse?
    ensures call == "image" <==> r.ImageResponse?
    ensures call == "embeddings" <==> r.EmbeddingsResponse?
    ensures call == "recommend" <==> r.RecommendResponse?
    ensures call == "vision" <==> r.VisionResponse?
    ensures call == "transcribe" <==> r.TranscribeResponse?
    ensures call == "speak" <==> r.SpeakResponse?
  {
    var raw := ArrayField(payload, "raw");
    var usage := ArrayField(payload, "usage");
    match call
    case "text" => TextResponse(StringField(payload, "content", ""), raw, usage, ArrayField(payload, "tool_calls"))
    case "chat" => TextResponse(StringField(payload, "content", ""), raw, usage, ArrayField(payload, "tool_calls"))
    case "summarize" => TextResponse(StringField(payload, "content", ""), raw, usage, ArrayField(payload, "tool_calls"))
    case "image" => ImageResponse(ArrayField(payload, "images"), raw, usage)
    case "embeddings" => EmbeddingsResponse(ArrayField(payload, "embeddings"), raw, usage)
    case "recommend" => RecommendResponse(ArrayField(payload, "recommendations"), raw, usage)
    case "vision" => VisionResponse(StringField(payload, "content", ""), raw, usage)
    case "transcribe" => TranscribeResponse(StringField(payload, "text", ""), raw, usage)
    case "speak" => SpeakResponse(StringField(payload, "audio", ""), StringField(payload, "format", "mp3"), raw, usage)
    case _ => BaseResponse(raw, usage)
  }

  /** `toArray()`: `raw` and `usage`, then the variant's own fields. */
  function ResponseArray(d: Response): seq<Entry> {
    var base := [Entry(StrKey("raw"), Arr(d.raw)), Entry(StrKey("usage"), Arr(d.usage))];
    base +
      match d
      case TextResponse(content, _, _, toolCalls) =>
        [Entry(StrKey("content"), Str(content)), Entry(StrKey("tool_calls"), Arr(toolCalls))]
      case ImageResponse(images, _, _) => [Entry(StrKey("images"), Arr(images))]
      case EmbeddingsResponse(embeddings, _, _) => [Entry(StrKey("embeddings"), Arr(embeddings))]
      case RecommendResponse(recommendations, _, _) => [Entry(StrKey("recommendations"), Arr(recommendations))]
      case VisionResponse(content, _, _) => [Entry(StrKey("content"), Str(content))]
      case TranscribeResponse(text, _, _) => [Entry(StrKey("text"), Str(text))]
      case SpeakResponse(audio, format, _, _) => [Entry(StrKey("audio"), Str(audio)), Entry(StrKey("format"), Str(format))]
      case BaseResponse(_, _) => []
  }

  /** The keys of a call's response besides `raw` and `usage`. */
  function Fields(call: string): seq<string> {
    match call
    case "text" => ["content", "tool_calls"]
    case "chat" => ["content", "tool_calls"]
    case "summarize" => ["content", "tool_calls"]
    case "image" => ["images"]
    case "embeddings" => ["embeddings"]
    case "recommend" => ["recommendations"]
    case "vision" => ["content"]
    case "transcribe" => ["text"]
    case "speak" => ["audio", "format"]
    case _ => []
  }

  /** A field the response types as a string (the others are arrays). */
  predicate StringTyped(k: string) {
    k in {"content", "text", "audio", "format"}
  }

  /** Every field the call reads is present with the type its response declares. */
  predicate WellTyped(call: string, payload: seq<Entry>) {
    forall k :: k in ["raw", "usage"] + Fields(call) ==>
      match Get(payload, StrKey(k))
      case Some(Str(_)) => StringTyped(k)
      case Some(Arr(_)) => !StringTyped(k)
      case _ => false
  }

  /** With no payload every field takes its default: empty strings and arrays, and format mp3. */
  lemma MakeDefaults(call: string)
    ensures var d := Make(call, []);
      && d.raw == [] && d.usage == []
      && (d.TextResponse? ==> d.content == "" && d.toolCalls == [])
      && (d.ImageResponse? ==> d.images == [])
      && (d.EmbeddingsResponse? ==> d.embeddings == [])
      && (d.RecommendResponse? ==> d.recommendations == [])
      && (d.VisionResponse? ==> d.content == "")
      && (d.TranscribeResponse? ==> d.text == "")
      && (d.SpeakResponse? ==> d.audio == "" && d.format == "mp3")
  {
  }

  /** The entries `$p[$k]` for the keys `ks`, in that order. */
  function Picked(payload: seq<Entry>, ks: seq<string>): (r: seq<Entry>)
    ensures |r| == |ks|
  {
    seq(|ks|, i requires 0 <= i < |ks| => Entry(StrKey(ks[i]), Coalesce(payload, StrKey(ks[i]), Null)))
  }

  /** A field present with its declared type is read back unchanged. */
  lemma FieldRead(call: string, payload: seq<Entry>, k: string)
    requires WellTyped(call, payload) && k in ["raw", "usage"] + Fields(call)
    ensures StringTyped(k) ==> Str(StringField(payload, k, "mp3")) == Coalesce(payload, StrKey(k), Null)
    ensures StringTyped(k) ==> Str(StringField(payload, k, "")) == Coalesce(payload, StrKey(k), Null)
    ensures !StringTyped(k) ==> Arr(ArrayField(payload, k)) == Coalesce(payload, StrKey(k), Null)
  {
    match Get(payload, StrKey(k))
    case Some(_) =>
    case None =>
  }

  /** An array holding, key by key, the entries picked for `ks`. */
  lemma PickedFrom(payload: seq<Entry>, ks: seq<string>, out: seq<Entry>)
    requires |out| == |ks|
    requires forall i :: 0 <= i < |ks| ==> out[i] == Entry(StrKey(ks[i]), Coalesce(payload, StrKey(ks[i]), Null))
    ensures out == Picked(payload, ks)
  {
  }

  lemma ToArrayText(payload: seq<Entry>)
    requires WellTyped("text", payload)
    ensures ResponseArray(Make("text", payload)) == Picked(payload, ["raw", "usage"] + Fields("text"))
  {
    FieldRead("text", payload, "raw");
    FieldRead("text", payload, "usage");
    FieldRead("text", payload, "content");
    FieldRead("text", payload, "tool_calls");
    PickedFrom(payload, ["raw", "usage"] + Fields("text"), ResponseArray(Make("text", payload)));
  }

  lemma ToArrayChat(payload: seq<Entry>)
    requires WellTyped("chat", payload)
    ensures ResponseArray(Make("chat", payload)) == Picked(payload, ["raw", "usage"] + Fields("chat"))
  {
    FieldRead("chat", payload, "raw");
    FieldRead("chat", payload, "usage");
    FieldRead("chat", payload, "content");
    FieldRead("chat", payload, "tool_calls");
    PickedFrom(payload, ["raw", "usage"] + Fields("chat"), ResponseArray(Make("chat", payload)));
  }

  lemma ToArraySummarize(payload: seq<Entry>)
    requires WellTyped("summarize", payload)
    ensures ResponseArray(Make("summarize", payload)) == Picked(payload, ["raw", "usage"] + Fields("summarize"))
  {
    FieldRead("summarize", payload, "raw");
    FieldRead("summarize", payload, "usage");
    FieldRead("summarize", payload, "content");
    FieldRead("summarize", payload, "tool_calls");
    PickedFrom(payload, ["raw", "usage"] + Fields("summarize"), ResponseArray(Make("summarize", payload)));
  }

  lemma ToArrayImage(payload: seq<Entry>)
    requires WellTyped("image", payload)
    ensures ResponseArray(Make("image", payload)) == Picked(payload, ["raw", "usage"] + Fields("image"))
  {
    FieldRead("image", payload, "raw");
    FieldRead("image", payload, "usage");
    FieldRead("image", payload, "images");
    PickedFrom(payload, ["raw", "usage"] + Fields("image"), ResponseArray(Make("image", payload)));
  }

  lemma ToArrayEmbeddings(payload: seq<Entry>)
    requires WellTyped("embeddings", payload)
    ensures ResponseArray(Make("embeddings", payload)) == Picked(payload, ["raw", "usage"] + Fields("embeddings"))
  {
    FieldRead("embeddings", payload, "raw");
    FieldRead("embeddings", payload, "usage");
    FieldRead("embeddings", payload, "embeddings");
    PickedFrom(payload, ["raw", "usage"] + Fields("embeddings"), ResponseArray(Make("embeddings", payload)));
  }

  lemma ToArrayRecommend(payload: seq<Entry>)
    requires WellTyped("recommend", payload)
    ensures ResponseArray(Make("recommend", payload)) == Picked(payload, ["raw", "usage"] + Fields("recommend"))
  {
    FieldRead("recommend", payload, "raw");
    FieldRead("recommend", payload, "usage");
    FieldRead("recommend", payload, "recommendations");
    PickedFrom(payload, ["raw", "usage"] + Fields("recommend"), ResponseArray(Make("recommend", payload)));
  }

  lemma ToArrayVision(payload: seq<Entry>)
    requires WellTyped("vision", payload)
    ensures ResponseArray(Make("vision", payload)) == Picked(payload, ["raw", "usage"] + Fields("vision"))
  {
    FieldRead("vision", payload, "raw");
    FieldRead("vision", payload, "usage");
    FieldRead("vision", payload, "content");
    PickedFrom(payload, ["raw", "usage"] + Fields("vision"), ResponseArray(Make("vision", payload)));
  }

  lemma ToArrayTranscribe(payload: seq<Entry>)
    requires WellTyped("transcribe", payload)
    ensures ResponseArray(Make("transcribe", payload)) == Picked(payload, ["raw", "usage"] + Fields("transcribe"))
  {
    FieldRead("transcribe", payload, "raw");
    FieldRead("transcribe", payload, "usage");
    FieldRead("transcribe", payload, "text");
    PickedFrom(payload, ["raw", "usage"] + Fields("transcribe"), ResponseArray(Make("transcribe", payload)));
  }

  lemma ToArraySpeak(payload: seq<Entry>)
    requires WellTyped("speak", payload)
    ensures ResponseArray(Make("speak", payload)) == Picked(payload, ["raw", "usage"] + Fields("speak"))
  {
    FieldRead("speak", payload, "raw");
    FieldRead("speak", payload, "usage");
    FieldRead("speak", payload, "audio");
    FieldRead("speak", payload, "format");
    PickedFrom(payload, ["raw", "usage"] + Fields("speak"), ResponseArray(Make("speak", payload)));
  }

  /**
   * `make($m, $p)->toArray()` gives back exactly `raw`, `usage` and the
   * method's own fields of a well-typed payload, in that order.
   */
  lemma ToArrayOfMake(call: string, payload: seq<Entry>)
    requires WellTyped(call, payload)
    ensures ResponseArray(Make(call, payload)) == Picked(payload, ["raw", "usage"] + Fields(call))
  {
    match call
    case "text" => ToArrayText(payload);
    case "chat" => ToArrayChat(payload);
    case "summarize" => ToArraySummarize(payload);
    case "image" => ToArrayImage(payload);
    case "embeddings" => ToArrayEmbeddings(payload);
    case "recommend" => ToArrayRecommend(payload);
    case "vision" => ToArrayVision(payload);
    case "transcribe" => ToArrayTranscribe(payload);
    case "speak" => ToArraySpeak(payload);
    case _ =>
      FieldRead(call, payload, "raw");
      FieldRead(call, payload, "usage");
      PickedFrom(payload, ["raw", "usage"] + Fields(call), ResponseArray(Make(call, payload)));
  }

  /** The call names whose response is `d`'s class. */
  predicate MadeBy(call: string, d: Response) {
    match d
    case TextResponse(_, _, _, _) => call in {"text", "chat", "summarize"}
    case ImageResponse(_, _, _) => call == "image"
    case EmbeddingsResponse(_, _, _) => call == "embeddings"
    case RecommendResponse(_, _, _) => call == "recommend"
    case VisionResponse(_, _, _) => call == "vision"
    case TranscribeResponse(_, _, _) => call == "transcribe"
    case SpeakResponse(_, _, _, _) => call == "speak"
    case BaseResponse(_, _) => Fields(call) == []
  }

  /** A string entry no earlier entry shadows is what the string field reads. */
  lemma StringAt(a: seq<Entry>, i: nat, k: string, s: string)
    requires i < |a| && a[i] == Entry(StrKey(k), Str(s))
    requires forall j :: 0 <= j < i ==> a[j].key != StrKey(k)
    ensures StringField(a, k, "") == s && StringField(a, k, "mp3") == s
  {
    GetFirst(a, i);
  }

  /** An array entry no earlier entry shadows is what the array field reads. */
  lemma ArrayAt(a: seq<Entry>, i: nat, k: string, e: seq<Entry>)
    requires i < |a| && a[i] == Entry(StrKey(k), Arr(e))
    requires forall j :: 0 <= j < i ==> a[j].key != StrKey(k)
    ensures ArrayField(a, k) == e
  {
    GetFirst(a, i);
  }

  /** The text and speak responses: both of their own fields are read back. */
  lemma ReadBackPair(d: Response)
    requires d.TextResponse? || d.SpeakResponse?
    ensures d.TextResponse? ==>
      StringField(ResponseArray(d), "content", "") == d.content && ArrayField(ResponseArray(d), "tool_calls") == d.toolCalls
    ensures d.SpeakResponse? ==>
      StringField(ResponseArray(d), "audio", "") == d.audio && StringField(ResponseArray(d), "format", "mp3") == d.format
  {
    var a := ResponseArray(d);
    if d.TextResponse? {
      StringAt(a, 2, "content", d.content);
      ArrayAt(a, 3, "tool_calls", d.toolCalls);
    } else {
      StringAt(a, 2, "audio", d.audio);
      StringAt(a, 3, "format", d.format);
    }
  }

  /** The responses with one field of their own: it is read back. */
  lemma ReadBackSingle(d: Response)
    requires !(d.TextResponse? || d.SpeakResponse? || d.BaseResponse?)
    ensures d.ImageResponse? ==> ArrayField(ResponseArray(d), "images") == d.images
    ensures d.EmbeddingsResponse? ==> ArrayField(ResponseArray(d), "embeddings") == d.embeddings
    ensures d.RecommendResponse? ==> ArrayField(ResponseArray(d), "recommendations") == d.recommendations
    ensures d.VisionResponse? ==> StringField(ResponseArray(d), "content", "") == d.content
    ensures d.TranscribeResponse? ==> StringField(ResponseArray(d), "text", "") == d.text
  {
    var a := ResponseArray(d);
    match d
    case ImageResponse(images, _, _) => ArrayAt(a, 2, "images", images);
    case EmbeddingsResponse(embeddings, _, _) => ArrayAt(a, 2, "embeddings", embeddings);
    case RecommendResponse(recommendations, _, _) => ArrayAt(a, 2, "recommendations", recommendations);
    case VisionResponse(content, _, _) => StringAt(a, 2, "content", content);
    case TranscribeResponse(text, _, _) => StringAt(a, 2, "text", text);
  }

  /** Every field of a response is read back from its own array. */
  lemma ReadBack(d: Response)
    ensures ArrayField(ResponseArray(d), "raw") == d.raw && ArrayField(ResponseArray(d), "usage") == d.usage
    ensures d.TextResponse? ==>
      StringField(ResponseArray(d), "content", "") == d.content && ArrayField(ResponseArray(d), "tool_calls") == d.toolCalls
    ensures d.ImageResponse? ==> ArrayField(ResponseArray(d), "images") == d.images
    ensures d.EmbeddingsResponse? ==> ArrayField(ResponseArray(d), "embeddings") == d.embeddings
    ensures d.RecommendResponse? ==> ArrayField(ResponseArray(d), "recommendations") == d.recommendations
    ensures d.VisionResponse? ==> StringField(ResponseArray(d), "content", "") == d.content
    ensures d.TranscribeResponse? ==> StringField(ResponseArray(d), "text", "") == d.text
    ensures d.SpeakResponse? ==>
      StringField(ResponseArray(d), "audio", "") == d.audio && StringField(ResponseArray(d), "format", "mp3") == d.format
  {
    var a := ResponseArray(d);
    ArrayAt(a, 0, "raw", d.raw);
    ArrayAt(a, 1, "usage", d.usage);
    if d.TextResponse? || d.SpeakResponse? {
      ReadBackPair(d);
    } else if !d.BaseResponse? {
      ReadBackSingle(d);
    }
  }

  /** Building from a response's own array, by a method that builds its class, gives it back. */
  lemma MakeOfToArray(call: string, d: Response)
    requires MadeBy(call, d)
    ensures Make(call, ResponseArray(d)) == d
  {
    ReadBack(d);
    var r := Make(call, ResponseArray(d));
    if d.BaseResponse? {
      assert call !in {"text", "chat", "summarize", "image", "embeddings", "recommend", "vision", "transcribe", "speak"};
    }
  }
}
