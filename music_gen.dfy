/**
  * The music client `generate_and_save_music` (music_gen.py): the API-key
  * guard, the request it sends to the generative-audio service, how it picks
  * the `audio_file.url` out of the JSON reply, the dispatch between an inline
  * `data:` URI and a download, and the rule that only a completed file write
  * returns true.
  *
  * The collaborators (the POST to the service, the GET of a download URL and
  * `base64.b64decode`) are not modelled; their outcomes are the parameters in
  * `Services`. The filesystem is a `Disk` object that the method updates.
  */
module MusicGen {
  import opened Wrappers
  import opened Strings

  newtype byte = b: int | 0 <= b < 256

  const FalApiUrl: string := "https://fal.run/fal-ai/stable-audio"
  const ApiRequestTimeoutSeconds: int := 120
  const AudioDownloadTimeoutSeconds: int := 60
  /** The placeholder value that counts as "no key configured". */
  const PlaceholderKey: string := "YOUR_FAL_API_KEY_HERE"
  const DiffusionSteps: int := 50
  const DataScheme: string := "data:"

  /** A JSON value, as `json` decodes it into Python objects. */
  datatype Json =
    | JNull
    | JBool(b: bool)
    | JNum(n: int)
    | JStr(s: string)
    | JArr(items: seq<Json>)
    | JObj(fields: map<string, Json>)

  /** Python truthiness of a decoded JSON value. */
  predicate Truthy(j: Json) {
    match j
    case JNull => false
    case JBool(b) => b
    case JNum(n) => n != 0
    case JStr(s) => s != ""
    case JArr(items) => |items| > 0
    case JObj(fields) => |fields| > 0
  }

  /** A POST sent to the generation service. */
  datatype Post = Post(url: string, headers: map<string, string>, body: Json, timeoutSeconds: int)

  /** A GET of a download URL. */
  datatype Get = Get(url: string, timeoutSeconds: int)

  /**
    * What `requests.post` can give back: a timeout, a failure to connect (any
    * other `RequestException`), or a response with a status code and a body
    * that `response.json()` either decodes or does not.
    */
  datatype PostOutcome = PostTimeout | PostConnectionError | PostResponse(status: int, body: Option<Json>)

  /** What `requests.get` plus reading `.content` can give back. */
  datatype GetOutcome = GetTimeout | GetConnectionError | GetResponse(status: int, content: seq<byte>)

  /**
    * The collaborators, as total functions of what they are asked:
    * `b64decode` yields `None` where `base64.b64decode` raises.
    */
  datatype Services = Services(
    post: Post -> PostOutcome,
    get: Get -> GetOutcome,
    b64decode: string -> Option<seq<byte>>)

  /** `raise_for_status` raises for client (4xx) and server (5xx) errors only. */
  predicate RaisesForStatus(status: int) {
    400 <= status < 600
  }

  /** The key guard: a key is usable unless it is missing, empty or the placeholder. */
  predicate ApiKeyConfigured(key: Option<string>) {
    !(key.None? || key.value == "" || key.value == PlaceholderKey)
  }

  /** The JSON body of the generation request. */
  function Payload(prompt: string, durationSeconds: int): (j: Json)
    ensures j.JObj? && j.fields.Keys == {"prompt", "seconds_total", "steps"}
    ensures j.fields["prompt"] == JStr(prompt)
    ensures j.fields["seconds_total"] == JNum(durationSeconds)
    ensures j.fields["steps"] == JNum(50)
  {
    JObj(map["prompt" := JStr(prompt), "seconds_total" := JNum(durationSeconds), "steps" := JNum(DiffusionSteps)])
  }

  /** The request headers. */
  function Headers(key: string): (h: map<string, string>)
    ensures h.Keys == {"Authorization", "Content-Type"}
    ensures HasPrefix(h["Authorization"], "Key ") && h["Authorization"][4..] == key
    ensures h["Content-Type"] == "application/json"
  {
    map["Authorization" := "Key " + key, "Content-Type" := "application/json"]
  }

  /** The key an `Authorization` header value carries, if it is of the `Key <key>` form. */
  function AuthorizationKey(value: string): (r: Option<string>)
    ensures r.Some? <==> HasPrefix(value, "Key ")
    ensures r.Some? ==> value == "Key " + r.value
  {
    if HasPrefix(value, "Key ") then Some(value[4..]) else None
  }

  /** The whole request the client sends for one generation. */
  function MusicRequest(key: string, prompt: string, durationSeconds: int): (r: Post)
    ensures r.url == FalApiUrl && r.timeoutSeconds == 120
    ensures r.body == Payload(prompt, durationSeconds) && r.headers == Headers(key)
  {
    Post(FalApiUrl, Headers(key), Payload(prompt, durationSeconds), ApiRequestTimeoutSeconds)
  }

  /** The service is told exactly which key was configured. */
  lemma AuthorizationRoundTrip(key: string, prompt: string, durationSeconds: int)
    ensures AuthorizationKey(MusicRequest(key, prompt, durationSeconds).headers["Authorization"]) == Some(key)
  {
    assert MusicRequest(key, prompt, durationSeconds).headers["Authorization"][4..] == key;
  }

  // ----- Reading `audio_file.url` from the reply -----

  /**
    * The three ways `api_response_data.get("audio_file", {}).get("url")`
    * followed by `if not audio_url` and the string operations on it can go:
    * a falsy URL (music_gen.py:72-75), a value on which a method call or a slice
    * raises and the catch-all handler returns (music_gen.py:160-162), or a URL.
    */
  datatype UrlLookup = UrlMissing | UrlUnusable | UrlFound(url: string)

  /** The reply is a JSON object whose `audio_file` is itself an object. */
  ghost predicate HasAudioFileObject(data: Json) {
    data.JObj? && "audio_file" in data.fields && data.fields["audio_file"].JObj?
  }

  /** The `audio_file.url` entry of the reply, where both levels exist. */
  ghost function UrlEntry(data: Json): Json
    requires HasAudioFileObject(data) && "url" in data.fields["audio_file"].fields
  {
    data.fields["audio_file"].fields["url"]
  }

  function LookupAudioUrl(data: Json): (r: UrlLookup)
    ensures r.UrlFound? <==>
      HasAudioFileObject(data) && "url" in data.fields["audio_file"].fields &&
      UrlEntry(data).JStr? && UrlEntry(data).s != ""
    ensures r.UrlFound? ==> r.url != "" && UrlEntry(data) == JStr(r.url)
    ensures r.UrlMissing? <==>
      data.JObj? &&
      ("audio_file" !in data.fields ||
       (HasAudioFileObject(data) && ("url" !in data.fields["audio_file"].fields || !Truthy(UrlEntry(data)))))
  {
    if !data.JObj? then UrlUnusable
    else
      var audioFile := if "audio_file" in data.fields then data.fields["audio_file"] else JObj(map[]);
      if !audioFile.JObj? then UrlUnusable
      else
        var url := if "url" in audioFile.fields then audioFile.fields["url"] else JNull;
        if !Truthy(url) then UrlMissing
        else if url.JStr? then UrlFound(url.s)
        else UrlUnusable
  }

  // ----- Inline data URI or download -----

  /**
    * Where the audio comes from: the encoded text of a `data:` URI (everything
    * after its first comma), a `data:` URI without a comma (the two-name
    * unpacking of `split(",", 1)` raises `ValueError`), or a URL to fetch.
    */
  datatype AudioSource = Inline(encoded: string) | MalformedDataUri | Remote(url: string)

  function ClassifyAudioUrl(url: string): (r: AudioSource)
    ensures r.Remote? <==> !HasPrefix(url, DataScheme)
    ensures r.Remote? ==> r.url == url
    ensures r.MalformedDataUri? <==> HasPrefix(url, DataScheme) && ',' !in url
    ensures r.Inline? ==>
      |r.encoded| < |url| &&
      var header := url[..|url| - |r.encoded| - 1];
      url == header + [','] + r.encoded && ',' !in header
  {
    if HasPrefix(url, DataScheme) then
      match SplitOnce(url, ',')
      case None => MalformedDataUri
      case Some((header, encoded)) => Inline(encoded)
    else
      Remote(url)
  }

  /** Why the client returns false. */
  datatype Failure =
    | MissingKey
    | ApiTimeout
    | ApiHttpError(status: int)
    | ApiUnreachable
    | ApiNotJson
    | NoAudioUrl
    | UnexpectedError
    | BadDataUri
    | DownloadTimeout
    | DownloadHttpError(status: int)
    | DownloadUnreachable
    | NoContent

  /** The audio bytes obtained, or why there are none. */
  datatype Retrieval = Retrieved(content: seq<byte>) | Failed(why: Failure)

  /** The bytes behind an audio URL: decoded inline, or downloaded. */
  function FetchAudio(svc: Services, url: string): (r: Retrieval)
    ensures HasPrefix(url, DataScheme) ==> r.Failed? ==> r.why == BadDataUri
    ensures !HasPrefix(url, DataScheme) ==> r.Failed? ==> r.why.DownloadTimeout? || r.why.DownloadHttpError? || r.why.DownloadUnreachable?
    ensures HasPrefix(url, DataScheme) && ',' !in url ==> r == Failed(BadDataUri)
    ensures !HasPrefix(url, DataScheme) ==>
      var g := svc.get(Get(url, AudioDownloadTimeoutSeconds));
      (r.Retrieved? <==> g.GetResponse? && !RaisesForStatus(g.status)) &&
      (r.Retrieved? ==> r.content == g.content)
  {
    match ClassifyAudioUrl(url)
    case MalformedDataUri => Failed(BadDataUri)
    case Inline(encoded) =>
      (match svc.b64decode(encoded)
       case None => Failed(BadDataUri)
       case Some(content) => Retrieved(content))
    case Remote(u) =>
      match svc.get(Get(u, AudioDownloadTimeoutSeconds))
      case GetTimeout => Failed(DownloadTimeout)
      case GetConnectionError => Failed(DownloadUnreachable)
      case GetResponse(status, content) =>
        if RaisesForStatus(status) then Failed(DownloadHttpError(status)) else Retrieved(content)
  }

  /**
    * Everything `generate_and_save_music` does before it writes: the key
    * guard, the request, the reply, the URL and the audio bytes, which must be
    * non-empty to be saved.
    */
  function Retrieve(apiKey: Option<string>, svc: Services, prompt: string, durationSeconds: int): (r: Retrieval)
    ensures r.Retrieved? ==> ApiKeyConfigured(apiKey) && |r.content| > 0
    ensures !ApiKeyConfigured(apiKey) ==> r == Failed(MissingKey)
  {
    if !ApiKeyConfigured(apiKey) then Failed(MissingKey)
    else
      match svc.post(MusicRequest(apiKey.value, prompt, durationSeconds))
      case PostTimeout => Failed(ApiTimeout)
      case PostConnectionError => Failed(ApiUnreachable)
      case PostResponse(status, body) =>
        if RaisesForStatus(status) then Failed(ApiHttpError(status))
        else if body.None? then Failed(ApiNotJson)
        else
          match LookupAudioUrl(body.value)
          case UrlMissing => Failed(NoAudioUrl)
          case UrlUnusable => Failed(UnexpectedError)
          case UrlFound(url) =>
            var fetched := FetchAudio(svc, url);
            if fetched.Retrieved? && |fetched.content| == 0 then Failed(NoContent) else fetched
  }

  /** A missing, empty or placeholder key fails before any collaborator is consulted. */
  lemma MissingKeyMakesNoRequest(apiKey: Option<string>, svc: Services, other: Services, prompt: string, durationSeconds: int)
    requires apiKey.None? || apiKey == Some("") || apiKey == Some(PlaceholderKey)
    ensures Retrieve(apiKey, svc, prompt, durationSeconds) == Failed(MissingKey)
    ensures Retrieve(apiKey, svc, prompt, durationSeconds) == Retrieve(apiKey, other, prompt, durationSeconds)
  {
  }

  /**
    * A `data:` URI carries as its encoded payload exactly the text after its
    * first comma, later commas included; the header before it is dropped.
    */
  lemma {:induction false} InlinePayloadAfterFirstComma(header: string, encoded: string)
    requires HasPrefix(header, DataScheme) && ',' !in header
    ensures ClassifyAudioUrl(header + [','] + encoded) == Inline(encoded)
  {
    var url := header + [','] + encoded;
    assert url[..|DataScheme|] == header[..|DataScheme|];
    SplitOnceUnique(url, ',', header, encoded);
  }

  /**
    * The bytes of a `data:` URI are `b64decode` of the text after its first
    * comma, and a payload the decoder rejects fails as a bad data URI.
    */
  lemma InlineDecodesPayload(svc: Services, header: string, encoded: string)
    requires HasPrefix(header, DataScheme) && ',' !in header
    ensures FetchAudio(svc, header + [','] + encoded) ==
      match svc.b64decode(encoded)
      case None => Failed(BadDataUri)
      case Some(content) => Retrieved(content)
  {
    InlinePayloadAfterFirstComma(header, encoded);
  }

  /** Decoding a `data:` URI consults only the decoder, never the downloader. */
  lemma InlineNeverDownloads(svc: Services, otherGet: Get -> GetOutcome, url: string)
    requires HasPrefix(url, DataScheme)
    ensures FetchAudio(svc.(get := otherGet), url) == FetchAudio(svc, url)
  {
  }

  /** Any other URL is downloaded as given, and the decoder is not consulted. */
  lemma RemoteNeverDecodes(svc: Services, otherDecode: string -> Option<seq<byte>>, url: string)
    requires !HasPrefix(url, DataScheme)
    ensures FetchAudio(svc.(b64decode := otherDecode), url) == FetchAudio(svc, url)
    ensures svc.get(Get(url, AudioDownloadTimeoutSeconds)).GetResponse? && !RaisesForStatus(svc.get(Get(url, AudioDownloadTimeoutSeconds)).status)
      ==> FetchAudio(svc, url) == Retrieved(svc.get(Get(url, AudioDownloadTimeoutSeconds)).content)
  {
  }

  /**
    * The audio bytes are obtained exactly when the key is usable, the reply
    * is a successful JSON reply with a usable `audio_file.url`, and the bytes
    * behind that URL are non-empty; every other path fails.
    */
  lemma RetrievalSucceedsExactly(apiKey: Option<string>, svc: Services, prompt: string, durationSeconds: int, content: seq<byte>)
    ensures Retrieve(apiKey, svc, prompt, durationSeconds) == Retrieved(content) <==>
      ApiKeyConfigured(apiKey) &&
      var reply := svc.post(MusicRequest(apiKey.value, prompt, durationSeconds));
      reply.PostResponse? && !RaisesForStatus(reply.status) && reply.body.Some? &&
      LookupAudioUrl(reply.body.value).UrlFound? &&
      FetchAudio(svc, LookupAudioUrl(reply.body.value).url) == Retrieved(content) && |content| > 0
  {
  }

  // ----- The filesystem and the client itself -----

  /**
    * The files on disk. Writing to a path in `unwritable` raises `OSError`
    * (creating its directory, opening it or writing it fails).
    */
  class Disk {
    var files: map<string, seq<byte>>
    const unwritable: set<string>

    constructor (files0: map<string, seq<byte>>, unwritable0: set<string>)
      ensures files == files0 && unwritable == unwritable0
    {
      files := files0;
      unwritable := unwritable0;
    }

    /** Create the parent directory if needed and write `content` to `path`. */
    method WriteFile(path: string, content: seq<byte>) returns (ok: bool)
      modifies this`files
      ensures ok <==> path !in unwritable
      ensures files == if ok then old(files)[path := content] else old(files)
    {
      ok := path !in unwritable;
      if ok {
        files := files[path := content];
      }
    }
  }

  /**
    * `generate_and_save_music`: true exactly when the audio was obtained and
    * written to `outputFilepath`; on false the disk is as it was.
    */
  method GenerateAndSaveMusic(apiKey: Option<string>, svc: Services, prompt: string, durationSeconds: int,
                              outputFilepath: string, disk: Disk) returns (ok: bool)
    modifies disk`files
    ensures ok <==> Retrieve(apiKey, svc, prompt, durationSeconds).Retrieved? && outputFilepath !in disk.unwritable
    ensures disk.files ==
      if ok then old(disk.files)[outputFilepath := Retrieve(apiKey, svc, prompt, durationSeconds).content]
      else old(disk.files)
  {
    if !ApiKeyConfigured(apiKey) {
      return false;
    }
    var request := MusicRequest(apiKey.value, prompt, durationSeconds);
    var audioContent: Option<seq<byte>> := None;

    var response := svc.post(request);
    if !response.PostResponse? || RaisesForStatus(response.status) || response.body.None? {
      return false;
    }
    var audioUrl := LookupAudioUrl(response.body.value);
    if !audioUrl.UrlFound? {
      return false;
    }

    var source := ClassifyAudioUrl(audioUrl.url);
    if source.MalformedDataUri? {
      return false;
    } else if source.Inline? {
      var decoded := svc.b64decode(source.encoded);
      if decoded.None? {
        return false;
      }
      audioContent := decoded;
    } else {
      var download := svc.get(Get(source.url, AudioDownloadTimeoutSeconds));
      if !download.GetResponse? || RaisesForStatus(download.status) {
        return false;
      }
      audioContent := Some(download.content);
    }

    if audioContent.Some? && |audioContent.value| > 0 {
      ok := disk.WriteFile(outputFilepath, audioContent.value);
    } else {
      ok := false;
    }
  }
}
