# Audio quiz prompt builder and music client, modelled in Dafny

This project models two parts of the audio-quiz generator.

The first is the **prompt builder** (`prompt.py`). It resolves the optional quiz theme, mood and target age to their defaults with Python `or`, so both `None` and `""` fall back. It splices the script and the three resolved values into the user-prompt template. It returns a dictionary with the keys `prompt`, `json_out_example` and `system_prompt`; the last two are fixed texts.

The second is the **music client** `generate_and_save_music` (`music_gen.py`). It refuses to run without a usable Fal.ai API key. It sends the generation request (prompt, `seconds_total`, 50 steps, `Key <key>` authorization). It reads `audio_file.url` from the JSON reply. It then either decodes an inline `data:` URI (the payload after the first comma, base64-decoded; see section 3 of RFC 2397) or downloads the URL. It writes non-empty audio to the output path and returns true only when that write succeeds.

Files:

- `wrappers.dfy`: module `Wrappers`, an `Option` type for Python's `Optional` and `None`.
- `strings.dfy`: module `Strings`. It holds `startswith`, the first index of a character, `split(sep, 1)` unpacked into two names, and "text occurs at offset".
- `prompt.dfy`: module `Prompt`, the prompt builder. It is pure, so it is written as functions and lemmas.
- `music_gen.py` becomes `music_gen.dfy`, module `MusicGen`. The decision procedure is the pure function `Retrieve`, over abstract outcomes of the collaborators. The collaborators are the HTTP POST, the download GET and `base64.b64decode`, passed in as the total functions of a `Services` value. The step-by-step flow is the method `GenerateAndSaveMusic`. It assigns the local `audioContent` in its branches and writes through a `Disk` object. Its contract ties its result and the new disk contents to `Retrieve`.

## Model

| member | source | states |
|---|---|---|
| `Strings.IndexOf` | music_gen.py:84 | Gives the position of the first occurrence of the character: it is there and no earlier position holds it. Gives none exactly when the character does not occur. |
| `Strings.SplitOnce` | music_gen.py:84 | `split(",", 1)` unpacked into two names. It gives a pair exactly when the separator occurs; the input is then head + separator + tail, with no separator in the head. With no separator the unpacking fails. |
| `Strings.SplitOnceUnique` | music_gen.py:84 | Any decomposition of the input as head + separator + tail, with a separator-free head, is the one `SplitOnce` returns. |
| `Prompt.Resolve` | prompt.py:27-29 | `v or default`: a non-empty given value is returned unchanged, `None` or `""` gives the default, and a non-empty default never yields `""`. |
| `Prompt.QuizThemeDefault` | prompt.py:27 | A missing or empty theme resolves to "Educational Quiz"; a non-empty theme passes through unchanged. |
| `Prompt.MoodDefault` | prompt.py:28 | A missing or empty mood resolves to "Playful and Engaging"; a non-empty mood passes through unchanged. |
| `Prompt.TargetAgeDefault` | prompt.py:29 | A missing or empty target age resolves to "Children"; a non-empty value passes through unchanged. |
| `Prompt.UserPromptLayout` | prompt.py:33-44 | The user prompt contains the script verbatim. After it come the `## Quiz Theme:` line, then the `## Overall Mood:` line, then the `## Target Audience:` line, in that order. Each is a whole line carrying its resolved value. |
| `Prompt.CreateMusicGenPrompt` | prompt.py:117-121 | The result has exactly the keys `prompt`, `json_out_example` and `system_prompt`. `prompt` is the built user prompt over the resolved values, and the other two are the fixed texts. |
| `Prompt.FixedTextsIgnoreInput` | prompt.py:48-115 | `system_prompt` and `json_out_example` are the same for every two inputs. |
| `MusicGen.Payload` | music_gen.py:43-47 | The request body is a JSON object with exactly the keys `prompt`, `seconds_total` and `steps`. They carry the prompt unchanged, the duration unchanged, and 50. |
| `MusicGen.Headers` | music_gen.py:48-51 | There are exactly two headers. `Authorization` is `Key ` followed by the key, and `Content-Type` is `application/json`. |
| `MusicGen.MusicRequest` | music_gen.py:58-63 | The request goes to the Fal.ai stable-audio URL with a 120-second timeout, carrying that body and those headers. |
| `MusicGen.AuthorizationRoundTrip` | music_gen.py:49 | Reading the `Key <key>` header back gives exactly the configured key. |
| `MusicGen.LookupAudioUrl` | music_gen.py:70-77 | A URL is found exactly when the reply is an object whose `audio_file` is an object with a non-empty string `url`, and it is that string. The URL is "missing" exactly when the reply is an object and either `audio_file` is absent or its `url` is absent or falsy. Every other shape makes a later method call or slice raise. |
| `MusicGen.ClassifyAudioUrl` | music_gen.py:80-90 | A URL without the `data:` prefix is fetched unchanged. A `data:` URL without a comma is malformed. Otherwise the encoded payload is the text after the first comma: the dropped header holds no comma, and later commas stay in the payload. |
| `MusicGen.InlinePayloadAfterFirstComma` | music_gen.py:80-85 | For every comma-free `data:` header and every payload, `header + "," + payload` yields exactly that payload as inline data. |
| `MusicGen.FetchAudio` | music_gen.py:80-116 | A `data:` URL without a comma fails as a bad data URI, and a `data:` URL can fail only that way. Any other URL yields bytes exactly when the download gives a non-error response, and then exactly the downloaded content; a download timeout, HTTP error or connection error fails, and only with one of those reasons. |
| `MusicGen.InlineDecodesPayload` | music_gen.py:84-89 | For a comma-free `data:` header, the bytes of `header + "," + payload` are exactly `b64decode` of the payload, and a payload the decoder rejects fails as a bad data URI. |
| `MusicGen.InlineNeverDownloads` | music_gen.py:80-89 | The result for a `data:` URL does not depend on the downloader. |
| `MusicGen.RemoteNeverDecodes` | music_gen.py:90-116 | The result for any other URL does not depend on the decoder. A successful download yields exactly the downloaded content. |
| `MusicGen.Retrieve` | music_gen.py:37-138 | Audio is obtained only with a usable key, and it is never empty. A missing, empty or placeholder key fails as `MissingKey`. |
| `MusicGen.MissingKeyMakesNoRequest` | music_gen.py:37-39 | With a `None`, empty or placeholder key the result is `MissingKey` whatever the collaborators would answer, so no request is made. |
| `MusicGen.RetrievalSucceedsExactly` | music_gen.py:55-162 | Content is obtained exactly when all of these hold: the key is usable, and the POST gives a non-error JSON reply. The reply has a usable `audio_file.url`. The bytes behind that URL are exactly that content, and they are non-empty. Every exception path and the empty-content path fail. |
| `MusicGen.Disk.WriteFile` | music_gen.py:121-134 | The write succeeds exactly when the path is writable. The file then holds the content, and nothing else changes. On `OSError` the files are unchanged. |
| `MusicGen.GenerateAndSaveMusic` | music_gen.py:19-162 | Returns true exactly when `Retrieve` obtains audio and the write to the output path succeeds. The file then holds that audio. On false the disk is unchanged. |

## Left out

- The audio mixing, overlay, looping and attenuation pipeline is not part of this model. It is in none of the modelled files, and it works on floating-point audio.
- `dialogue_gen.py` is not part of this model. It is one HTTP GET, `raise_for_status` and a chunked write loop, all plumbing.
- `call_openai_api.py` and `main.py` are not part of this model. The first wraps the foreign OpenAI client and `json.loads`; the second is a command-line driver.
- The `__main__` example blocks and all `print` logging are left out, including the truncated prompt and URL in log lines.
- HTTP transport, timeouts and `base64.b64decode` are uninterpreted. Their outcomes are the functions of `Services`. The two timeouts (120 s and 60 s) appear only as values carried in the requests.
- The API key is read from the environment at import time (music_gen.py:12). In the model it is a parameter of `Retrieve` and `GenerateAndSaveMusic`.
- JSON numbers are integers in the model. A fractional number is represented by any integer with the same truthiness; the only question asked of it is whether it is truthy.
- `MusicGen.Disk.WriteFile`: `os.makedirs` is folded into the single writable-or-not outcome of the path. A failed write leaves all files unchanged, so a partially written or truncated file after `OSError` is not modelled.
- `MusicGen.Retrieve`: failure reasons follow the `except` clause that logs them. With requests 2.27 or later, a non-JSON body is caught by the `RequestException` clause rather than the `JSONDecodeError` clause. Both return false; the model names the reason `ApiNotJson`.
- `generate_and_save_music` reports failure only as `False`; the `Failure` reasons of the model name the `except` clause or check that would log each one. `create_music_gen_prompt` returns three keys, including `json_out_example`.
