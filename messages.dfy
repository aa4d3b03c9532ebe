/** Formatting a message for the Groq chat API (Groq.format_message).

    format_message builds its dictionary from the message's content, and
    only afterwards appends the JSON directive to the message's own content.
    The dictionary therefore keeps the content as it was, and the directive
    reaches the request only through the image branch, which reads the
    message again; the message itself gains the directive on every call.
    `FormatMessage` is that method, proved against `FormattedMessage`;
    `FormattedMessageIntended` is the variant that sends the directive. */
module Messages {
  import opened Values
  import opened AudioInput

  /** An image attachment; only the external images_to_message reads it. */
  datatype Image = Image(ref: nat)

  /** agno.models.message.Message. This adapter writes only `content`. */
  class Message {
    const role: string
    var content: Value
    const name: Option<string>
    const toolCallId: Option<string>
    const toolCalls: Value
    const images: Option<seq<Image>>
    const audio: Option<seq<Audio>>

    constructor (role: string, content: Value, name: Option<string>, toolCallId: Option<string>,
                 toolCalls: Value, images: Option<seq<Image>>, audio: Option<seq<Audio>>)
      ensures this.role == role && this.content == content && this.name == name
      ensures this.toolCallId == toolCallId && this.toolCalls == toolCalls
      ensures this.images == images && this.audio == audio
    {
      this.role, this.content, this.name, this.toolCallId := role, content, name, toolCallId;
      this.toolCalls, this.images, this.audio := toolCalls, images, audio;
    }
  }

  const JsonDirective := "\n\nYour output should be in JSON format."
  const TranscriptionModel := "whisper-large-v3-turbo"
  const TranscriptionPrefix := "Audio Transcription: "
  const MessageKeys: set<string> := {"role", "content", "name", "tool_call_id", "tool_calls"}

  /** A system message with text content, while the model asks for a JSON
      object (`response_format["type"] == "json_object"`). */
  predicate WantsJson(role: string, content: Value, responseFormat: Option<Dict>): (b: bool)
    // a missing "type" key reads as None, which is not "json_object"
    ensures b ==> responseFormat.Some? && "type" in responseFormat.value
    ensures role != "system" || !content.Str? ==> !b
  {
    && role == "system"
    && content.Str?
    && responseFormat.Some?
    && "type" in responseFormat.value
    && responseFormat.value["type"] == Str("json_object")
  }

  /** The message's content after one call of format_message. */
  function ContentAfterFormat(role: string, content: Value, responseFormat: Option<Dict>): (c: Value)
    ensures WantsJson(role, content, responseFormat) ==> c == Str(content.s + JsonDirective)
    ensures !WantsJson(role, content, responseFormat) ==> c == content
    ensures c.Str? <==> content.Str?
  {
    if WantsJson(role, content, responseFormat) then Str(content.s + JsonDirective) else content
  }

  predicate HasImages(images: Option<seq<Image>>) {
    images.Some? && images.value != []
  }

  /** The text part that opens multi-part content. */
  function TextPart(text: string): Value {
    Mapping(map["type" := Str("text"), "text" := Str(text)])
  }

  /** The content that replaces the dictionary's when the message has audio:
      the transcription of its first audio, unless preparing the request or
      the transcription call fails (the error is logged and swallowed). */
  function Transcription(audio: Option<seq<Audio>>, fs: FileSystem,
                         transcribe: TranscriptionRequest -> Result<string, string>): (t: Option<string>)
    ensures t.Some? ==> audio.Some? && audio.value != []
    ensures t.Some? <==>
              && audio.Some? && audio.value != []
              && var request := PrepareTranscription(AudioList(audio.value), None, None, None, Some("text"), Null, TranscriptionModel, fs);
              && request.Ok? && transcribe(request.value).Ok?
    // the content then reads "Audio Transcription: " and the result
    ensures t.Some? ==>
              t.value == TranscriptionPrefix + transcribe(PrepareTranscription(AudioList(audio.value), None, None, None,
                                                                                Some("text"), Null, TranscriptionModel, fs).value).value
  {
    if audio.Some? && audio.value != [] then
      var request := PrepareTranscription(AudioList(audio.value), None, None, None, Some("text"), Null, TranscriptionModel, fs);
      if request.Ok? && transcribe(request.value).Ok? then Some(TranscriptionPrefix + transcribe(request.value).value)
      else None
    else None
  }

  /** The dictionary format_message returns, given the content it records
      first (`recorded`) and the content the image branch reads (`current`). */
  function Assemble(m: Message, recorded: Value, current: Value, imagesToMessage: seq<Image> -> seq<Value>,
                    transcription: Option<string>): (d: Dict)
    ensures forall k :: k in d ==> k in MessageKeys && d[k] != Null
    ensures "role" in d && d["role"] == Str(m.role)
    ensures ("name" in d <==> m.name.Some?) && ("name" in d ==> d["name"] == Str(m.name.value))
    ensures ("tool_call_id" in d <==> m.toolCallId.Some?) && ("tool_call_id" in d ==> d["tool_call_id"] == Str(m.toolCallId.value))
    ensures ("tool_calls" in d <==> m.toolCalls != Null) && ("tool_calls" in d ==> d["tool_calls"] == m.toolCalls)
    // a transcription replaces the content
    ensures transcription.Some? ==> "content" in d && d["content"] == Str(transcription.value)
    // images turn text content into a text part followed by the images
    ensures transcription.None? && HasImages(m.images) && current.Str? ==>
              "content" in d && d["content"] == List([TextPart(current.s)] + imagesToMessage(m.images.value))
    // otherwise the recorded content is kept, if it is not None
    ensures transcription.None? && !(HasImages(m.images) && current.Str?) ==>
              ("content" in d <==> recorded != Null) && ("content" in d ==> d["content"] == recorded)
  {
    var base := DropNone(map[
      "role" := Str(m.role),
      "content" := recorded,
      "name" := FromText(m.name),
      "tool_call_id" := FromText(m.toolCallId),
      "tool_calls" := m.toolCalls]);
    var withImages :=
      if HasImages(m.images) && current.Str?
      then base["content" := List([TextPart(current.s)] + imagesToMessage(m.images.value))]
      else base;
    if transcription.Some? then withImages["content" := Str(transcription.value)] else withImages
  }

  /** What format_message returns for message `m` whose content is
      `content` when it is called: the dictionary records that content, and
      the image branch reads the content with the directive appended. */
  function FormattedMessage(m: Message, content: Value, responseFormat: Option<Dict>,
                            imagesToMessage: seq<Image> -> seq<Value>, fs: FileSystem,
                            transcribe: TranscriptionRequest -> Result<string, string>): (d: Dict)
    ensures forall k :: k in d ==> k in MessageKeys && d[k] != Null
    // without images or a transcription the content sent is the one the message had, directive or not
    ensures !HasImages(m.images) && Transcription(m.audio, fs, transcribe).None? ==>
              ("content" in d <==> content != Null) && ("content" in d ==> d["content"] == content)
    // with images the text part already carries the directive
    ensures HasImages(m.images) && content.Str? && Transcription(m.audio, fs, transcribe).None? ==>
              "content" in d
              && d["content"] == List([TextPart(ContentAfterFormat(m.role, content, responseFormat).s)]
                                      + imagesToMessage(m.images.value))
  {
    Assemble(m, content, ContentAfterFormat(m.role, content, responseFormat), imagesToMessage,
             Transcription(m.audio, fs, transcribe))
  }

  /** The evidently intended format_message: the directive is part of the
      content that is sent, and the message is left as it is. */
  function FormattedMessageIntended(m: Message, content: Value, responseFormat: Option<Dict>,
                                    imagesToMessage: seq<Image> -> seq<Value>, fs: FileSystem,
                                    transcribe: TranscriptionRequest -> Result<string, string>): (d: Dict)
    ensures forall k :: k in d ==> k in MessageKeys && d[k] != Null
    ensures WantsJson(m.role, content, responseFormat) && !HasImages(m.images) &&
            Transcription(m.audio, fs, transcribe).None? ==>
              "content" in d && d["content"] == Str(content.s + JsonDirective)
  {
    var current := ContentAfterFormat(m.role, content, responseFormat);
    Assemble(m, current, current, imagesToMessage, Transcription(m.audio, fs, transcribe))
  }

  /** Groq.format_message. */
  method FormatMessage(m: Message, responseFormat: Option<Dict>, imagesToMessage: seq<Image> -> seq<Value>,
                       fs: FileSystem, transcribe: TranscriptionRequest -> Result<string, string>)
    returns (d: Dict)
    modifies m`content
    ensures m.content == ContentAfterFormat(m.role, old(m.content), responseFormat)
    ensures d == FormattedMessage(m, old(m.content), responseFormat, imagesToMessage, fs, transcribe)
  {
    ghost var recorded := m.content;
    d := map[
      "role" := Str(m.role),
      "content" := m.content,
      "name" := FromText(m.name),
      "tool_call_id" := FromText(m.toolCallId),
      "tool_calls" := m.toolCalls];
    d := DropNone(d);

    if WantsJson(m.role, m.content, responseFormat) {
      m.content := Str(m.content.s + JsonDirective);
    }
    assert m.content == ContentAfterFormat(m.role, recorded, responseFormat);

    if m.images.Some? && |m.images.value| > 0 {
      if m.content.Str? {
        d := d["content" := List([TextPart(m.content.s)] + imagesToMessage(m.images.value))];
      }
    }
    ghost var withImages := d;

    ghost var transcription := Transcription(m.audio, fs, transcribe);
    if m.audio.Some? && |m.audio.value| > 0 {
      var request := PrepareTranscription(AudioList(m.audio.value), None, None, None, Some("text"), Null,
                                          TranscriptionModel, fs);
      if request.Ok? {
        var outcome := transcribe(request.value);
        if outcome.Ok? {
          d := d["content" := Str(TranscriptionPrefix + outcome.value)];
        }
      }
    }
    assert d == if transcription.Some? then withImages["content" := Str(transcription.value)] else withImages;
  }

  /** Formatting one JSON-mode system message twice, as a retry or a second
      turn does: the message gains the directive twice, the first request
      carries none and the second carries it once. */
  method FormatTwice(m: Message, responseFormat: Option<Dict>, imagesToMessage: seq<Image> -> seq<Value>,
                     fs: FileSystem, transcribe: TranscriptionRequest -> Result<string, string>)
    returns (first: Dict, second: Dict)
    requires WantsJson(m.role, m.content, responseFormat)
    requires !HasImages(m.images) && (m.audio.None? || m.audio.value == [])
    modifies m`content
    ensures m.content == Str(old(m.content).s + JsonDirective + JsonDirective)
    ensures "content" in first && first["content"] == old(m.content)
    ensures "content" in second && second["content"] == Str(old(m.content).s + JsonDirective)
  {
    ghost var original := m.content;
    first := FormatMessage(m, responseFormat, imagesToMessage, fs, transcribe);
    assert Transcription(m.audio, fs, transcribe).None?;
    assert "content" in first && first["content"] == original;
    ghost var once := m.content;
    second := FormatMessage(m, responseFormat, imagesToMessage, fs, transcribe);
    assert "content" in second && second["content"] == once;
    assert m.content == Str(original.s + JsonDirective + JsonDirective);
  }

  /** The first request built for a JSON-mode system message without images
      or audio does not end with the directive. */
  lemma DirectiveMissingFromRequest(m: Message, responseFormat: Option<Dict>,
                                    imagesToMessage: seq<Image> -> seq<Value>, fs: FileSystem,
                                    transcribe: TranscriptionRequest -> Result<string, string>)
    requires m.role == "system" && responseFormat == Some(map["type" := Str("json_object")])
    requires !HasImages(m.images) && m.audio.None?
    ensures var d := FormattedMessage(m, Str("List three colours."), responseFormat, imagesToMessage, fs, transcribe);
            && d["content"] == Str("List three colours.")
            && !EndsWith(d["content"].s, JsonDirective)
    ensures var d := FormattedMessageIntended(m, Str("List three colours."), responseFormat, imagesToMessage, fs, transcribe);
            d["content"] == Str("List three colours." + JsonDirective) && EndsWith(d["content"].s, JsonDirective)
  {
  }

  predicate EndsWith(s: string, suffix: string) {
    |suffix| <= |s| && s[|s| - |suffix|..] == suffix
  }
}
