/** Audio input: where the bytes of an Audio value come from
    (Groq._format_audio_for_message) and the request transcribe_audio sends,
    up to the SDK call. The file system is a map from paths of regular files
    to their contents; the content of an audio URL is an input, fetched
    before the adapter looks at it. */
module AudioInput {
  import opened Values

  /** What an Audio value's `content` holds: bytes, or some other object. */
  datatype Content = RawBytes(data: Bytes) | NotBytes

  /** agno.media.Audio, as far as this adapter reads it. */
  datatype Audio = Audio(
    content: Option<Content>,
    url: Option<string>,
    urlContent: Option<Bytes>,
    filepath: Option<string>,
    format: Option<string>)

  type FileSystem = map<string, Bytes>

  /** Embedded bytes, when `content` is non-empty bytes. */
  function EmbeddedBytes(a: Audio): Option<Bytes> {
    if a.content.Some? && a.content.value.RawBytes? && a.content.value.data != [] then Some(a.content.value.data) else None
  }

  /** The fetched content of the URL, when there is a URL and it has content. */
  function UrlBytes(a: Audio): Option<Bytes> {
    if a.url.Some? && a.urlContent.Some? then a.urlContent else None
  }

  /** Groq._format_audio_for_message. */
  function AudioBytes(a: Audio, fs: FileSystem): (r: Option<Bytes>)
    // embedded bytes win
    ensures EmbeddedBytes(a).Some? ==> r == EmbeddedBytes(a)
    // then the URL's content
    ensures EmbeddedBytes(a).None? && UrlBytes(a).Some? ==> r == UrlBytes(a)
    // the file is read only when neither is there
    ensures EmbeddedBytes(a).None? && UrlBytes(a).None? && a.filepath.Some? ==>
              r == (if a.filepath.value in fs then Some(fs[a.filepath.value]) else None)
    // nothing comes out of nothing, and a missing file gives nothing
    ensures r.None? <==> EmbeddedBytes(a).None? && UrlBytes(a).None? && (a.filepath.None? || a.filepath.value !in fs)
  {
    if EmbeddedBytes(a).Some? then EmbeddedBytes(a)
    else if UrlBytes(a).Some? then UrlBytes(a)
    else if a.filepath.Some? then
      if a.filepath.value in fs then Some(fs[a.filepath.value]) else None
    else None
  }

  /** The `audio_data` argument of transcribe_audio. */
  datatype AudioData = RawAudio(data: Bytes) | SingleAudio(audio: Audio) | AudioList(items: seq<Audio>)

  /** What is uploaded: the bytes, or the empty list itself when an empty
      list was passed (it falls through to the raw-bytes branch). */
  datatype Upload = UploadBytes(data: Bytes) | UploadEmptyList

  /** The arguments of `client.audio.transcriptions.create`. */
  datatype TranscriptionRequest = TranscriptionRequest(fileName: string, upload: Upload, model: string, params: Dict)

  const ProcessingError := "Failed to process audio data"
  const DefaultFormat := "mp3"

  /** The Audio value transcribe_audio reads, if any: the value itself, or
      the first of a non-empty list. */
  function ChosenAudio(data: AudioData): (c: Option<Audio>)
    // only the first of a list is read; raw bytes and an empty list carry none
    ensures c.Some? <==> data.SingleAudio? || (data.AudioList? && data.items != [])
    ensures data.SingleAudio? ==> c == Some(data.audio)
    ensures data.AudioList? && data.items != [] ==> c == Some(data.items[0])
  {
    match data
    case SingleAudio(a) => Some(a)
    case AudioList(items) => if items != [] then Some(items[0]) else None
    case RawAudio(_) => None
  }

  /** The file format the upload is named with. */
  function FileFormat(data: AudioData, fileFormat: Option<string>): (f: string)
    ensures TruthyText(fileFormat) ==> f == fileFormat.value
    ensures !TruthyText(fileFormat) && ChosenAudio(data).Some? && TruthyText(ChosenAudio(data).value.format) ==>
              f == ChosenAudio(data).value.format.value
    ensures f == DefaultFormat || f == OrEmpty(fileFormat) || (ChosenAudio(data).Some? && f == OrEmpty(ChosenAudio(data).value.format))
    ensures f != ""
  {
    var chosen :=
      if !TruthyText(fileFormat) && ChosenAudio(data).Some? && TruthyText(ChosenAudio(data).value.format)
      then ChosenAudio(data).value.format
      else fileFormat;
    if TruthyText(chosen) then chosen.value else DefaultFormat
  }

  /** The optional transcription parameters, each sent only when given. */
  function TranscriptionParams(language: Option<string>, prompt: Option<string>, responseFormat: Option<string>,
                               temperature: Value): (p: Dict)
    ensures "language" in p <==> TruthyText(language)
    ensures "prompt" in p <==> TruthyText(prompt)
    ensures "response_format" in p <==> TruthyText(responseFormat)
    ensures "temperature" in p <==> temperature != Null
    ensures forall k :: k in p ==> k in {"language", "prompt", "response_format", "temperature"}
    ensures "language" in p ==> p["language"] == Str(language.value)
    ensures "prompt" in p ==> p["prompt"] == Str(prompt.value)
    ensures "response_format" in p ==> p["response_format"] == Str(responseFormat.value)
    ensures "temperature" in p ==> p["temperature"] == temperature
  {
    var p1: Dict := if TruthyText(language) then map["language" := Str(language.value)] else map[];
    var p2 := if TruthyText(prompt) then p1["prompt" := Str(prompt.value)] else p1;
    var p3 := if TruthyText(responseFormat) then p2["response_format" := Str(responseFormat.value)] else p2;
    if temperature != Null then p3["temperature" := temperature] else p3
  }

  /** transcribe_audio up to the SDK call: the request it sends, or the
      ValueError it raises before any network traffic. */
  function PrepareTranscription(data: AudioData, fileFormat: Option<string>, language: Option<string>,
                                prompt: Option<string>, responseFormat: Option<string>, temperature: Value,
                                model: string, fs: FileSystem): (r: Result<TranscriptionRequest, string>)
    // it fails exactly when an Audio value yields no bytes, and then with one message
    ensures r.Err? <==> ChosenAudio(data).Some? && AudioBytes(ChosenAudio(data).value, fs).None?
    ensures r.Err? ==> r.error == ProcessingError
    // otherwise the bytes of the chosen audio, or the raw argument, are uploaded
    ensures r.Ok? && ChosenAudio(data).Some? ==> r.value.upload == UploadBytes(AudioBytes(ChosenAudio(data).value, fs).value)
    ensures r.Ok? && data.RawAudio? ==> r.value.upload == UploadBytes(data.data)
    ensures r.Ok? && data.AudioList? && data.items == [] ==> r.value.upload == UploadEmptyList
    // as "audio.<format>", mp3 unless a format is given or carried by the audio
    ensures r.Ok? ==> r.value.fileName == "audio." + FileFormat(data, fileFormat)
    ensures r.Ok? ==> r.value.model == model
    ensures r.Ok? ==> r.value.params == TranscriptionParams(language, prompt, responseFormat, temperature)
  {
    var upload :=
      match data
      case RawAudio(bytes) => Ok(UploadBytes(bytes))
      case AudioList(items) =>
        if items == [] then Ok(UploadEmptyList)
        else if AudioBytes(items[0], fs).None? then Err(ProcessingError)
        else Ok(UploadBytes(AudioBytes(items[0], fs).value))
      case SingleAudio(a) =>
        if AudioBytes(a, fs).None? then Err(ProcessingError)
        else Ok(UploadBytes(AudioBytes(a, fs).value));
    if upload.Err? then Err(upload.error)
    else
      Ok(TranscriptionRequest(
        "audio." + FileFormat(data, fileFormat),
        upload.value,
        model,
        TranscriptionParams(language, prompt, responseFormat, temperature)))
  }

  /** An Audio value with only a path that is not a file fails before any
      request is built. */
  lemma MissingFileFails(path: string, format: Option<string>, fs: FileSystem, model: string)
    requires path !in fs
    ensures PrepareTranscription(SingleAudio(Audio(None, None, None, Some(path), format)), None, None, None,
                                 Some("text"), Null, model, fs)
            == Err(ProcessingError)
  {
  }
}
