# SqsProcessor: WhatsApp webhook intake, modelled in Dafny

`SqsProcessor` is an AWS Lambda handler that reads batches of SQS records. Each
record holds the raw webhook event of a WhatsApp provider.

For every record it:

1. parses the body as a JSON tree;
2. decides whether the event comes from Whapi (a non-empty `channel_id`) or
   from the official Meta API (`object` and `entry` both present);
3. for a media message (image, video, audio, voice or document), downloads the
   media and stores it in an S3 bucket under `{folder}/{yyyy-MM}/{guid}{ext}`,
   then rewrites the media node in place (`link` for Whapi, `url` for Meta) to
   the stored object's URL;
4. sends the serialised tree to the processed queue.

Meta media are fetched from an authenticated endpoint. The bearer token comes
from a credentials function that is invoked synchronously. Failures inside a
normaliser are caught, and the event is forwarded anyway. A failure outside
the normalisers ends the batch: the exception is rethrown and SQS retries.

The project has one module per part of the program:

- `Wrappers`: `Option`.
- `Text`: the .NET string operations the code relies on: `IsNullOrWhiteSpace`,
  `Trim`, `ToLower`, and `Replace` with `OrdinalIgnoreCase`.
- `Json`: three pieces.
  - The JSON tree, with path selection and in-place member update.
  - The C# indexers with their null-conditional chains (`Nav`, `Walk`). A
    string indexer throws on anything but an object. An int indexer throws on
    anything but an array, and on an index out of range. A JSON null reads as
    a null reference.
  - A `JsonDocument` class whose tree the normalisers change in place.
- `Effects`: the external calls. They are the credentials invoke, the media
  GET, the S3 PUT and the SQS send. The module also holds the oracle outcomes
  each record observes, because the outside world is not visible to the model.
- `Media`: `ObterExtensao`, the token cleaning and headers,
  `DownloadESalvarNoS3` as a function, and the reading of the credentials
  reply (`ObterTokenMeta`).
- `Normalize` and `NormalizeProperties`: `ProcessarWhapi` and
  `ProcessarMetaOficial` as functions from the tree and the outcomes to the new
  tree and the calls issued, with their properties.
- `Intake`: format detection, `ProcessMessageAsync` as a function
  (`MessageStep`), and `FunctionHandler` over a batch (`Batch`), with their
  rules.
- `Processor`: the class `SqsProcessor`. Its methods run the code step by step
  over a `JsonDocument`, and append each external call to a `trace` field in
  issue order. Each method is proved to produce exactly the trace and tree
  that the functions above describe.

### Behaviour of the code worth noting

These follow from the code as written, and the model keeps them.

- **A body that does not parse is fatal.** `JsonNode.Parse` at
  Function.cs:62 is outside any `try`. Its exception reaches `FunctionHandler`,
  which rethrows it and ends the batch. `Intake.MessageRules` states this:
  `Malformed` gives `Failed`.
- **A failed Meta download still rewrites `url`.** `DownloadESalvarNoS3`
  answers the URL it was given on failure. For Meta that URL is the media
  endpoint built from the id (Function.cs:156-160). The media node's `url` is
  therefore set to the endpoint, although the comment at Function.cs:230 speaks
  of returning the original on failure.
  `NormalizeProperties.MetaFallbackWritesEndpoint` states this.
- **A failed Whapi download writes the link back as a string.** On failure,
  Whapi writes back the link's `ToString()` text as a JSON string.
  - When the link was a string, the tree is unchanged
    (`NormalizeProperties.WhapiFallbackUnchanged`).
  - When the link was a number or another non-string, its kind changes.
- **Token cleaning is a single pass.** `Replace("Bearer ", "",
  OrdinalIgnoreCase)` does not rescan, so a prefix can reappear.
  `"BeBearer arer x"` becomes `"Bearer x"`
  (`Media.CleanTokenSinglePass`). A token with one leading `"Bearer "` and no
  other occurrence loses exactly that prefix
  (`Media.BearerPrefixStrippedOnce`).

## Model

| member | source | states |
|---|---|---|
| Processor.SqsProcessor.FunctionHandler | Function.cs:35-52 | A null event does nothing. Otherwise the trace grows by exactly the calls of `Batch` over the records' steps, and the outcome (completed, or aborted at a record) is `Batch`'s. |
| Processor.SqsProcessor.ProcessRecord | Function.cs:39-44 | One loop turn adds the calls and gives the status of step i of the batch. |
| Processor.SqsProcessor.ProcessMessage | Function.cs:57-91 | The trace grows by exactly `MessageStep`'s calls, and the status is `MessageStep`'s. |
| Processor.SqsProcessor.NormaliseAndSend | Function.cs:69-90 | For a known shape: the normaliser's calls, then one send of the resulting tree, and the status `Forward` gives (published exactly when the send succeeds). |
| Processor.SqsProcessor.RunNormaliser | Function.cs:69-78 | The probed format picks the normaliser. The document's tree and the trace change exactly as `Normalise` describes. |
| Processor.SqsProcessor.ProcessWhapi | Function.cs:96-125 | The document's tree becomes `Whapi`'s tree, and the trace grows by `Whapi`'s calls. |
| Processor.SqsProcessor.ProcessMetaOfficial | Function.cs:130-171 | The document's tree becomes `MetaOfficial`'s tree, and the trace grows by its calls. |
| Processor.SqsProcessor.StoreMetaMedia | Function.cs:149-161 | Once a media id is found: one broker invoke, then, with a non-empty token, the download's calls and the `url` write, exactly as `MetaStore` describes. |
| Processor.SqsProcessor.DownloadESalvarNoS3 | Function.cs:208-261 | Issues exactly the calls of `DownloadAndStore` (the GET, then the PUT when the response succeeded and its body opened), and returns its URL. |
| Processor.FindWhapiMedia | Function.cs:100-111 | The `AsArray`, count and indexer reads of `ProcessarWhapi` find exactly the media reference `MediaOf` gives for messages[0] and "link". |
| Processor.FindMetaMedia | Function.cs:134-147 | The reads of `ProcessarMetaOficial` find exactly `MediaOf`'s media reference for the first message and "id", and the business id of entry[0] when there is one. |
| Processor.ReadEntry | Function.cs:134-138 | The three chains through entry[0]: when none throws, the message and the business id are what the paths lead to; when one throws, no message exists along the path. |
| Processor.ReadMedia | Function.cs:104-111 | The reads of "type", of the member named by it and of its locator field give exactly `MediaOf`'s reference, with a null or a throw anywhere giving none. |
| Processor.MetaNavigation | Function.cs:134-136 | The chain from the root to entry[0], continued to the message or to "id", equals the walk along the full path. |
| Json.JsonDocument.SetMember | Function.cs:116 | `node[key] = value` replaces the tree by its update at owner + key. |
| Json.SetMemberEffect | Function.cs:116 | After setting a member of an object node, that member holds the new value, and every path that parts from it reads as before. |
| Json.Index | Function.cs:100 | An indexer access throws exactly on a wrong node kind or an out-of-range index. It finds exactly a child that exists and is not JSON null. |
| Json.WalkFinds | Function.cs:136 | A `?.` chain finds a node exactly when the path selects a non-null node, and then it is that node. |
| Json.LastValue | Function.cs:193-195 | `TryGetProperty` on the reply: none exactly when no member has the name; otherwise the value of a member with that name that no later member shares. |
| Json.UpdateThenSelect | Function.cs:116 | After writing at a writable path, the path reads the written value. |
| Json.UpdateElsewhere | Function.cs:116 | A write at one path leaves every diverging path as it was. |
| Text.Trim | Function.cs:220 | The result is no longer than the input and has no white space at either end. It is empty exactly when the input is blank, and equals the input when the input has no white space at its ends. |
| Text.RemoveIgnoreCase | Function.cs:220 | `Replace(pattern, "", OrdinalIgnoreCase)` in one left-to-right pass: the result is never longer than the input. |
| Text.RemoveIgnoreCaseShrinks | Function.cs:220 | Only whole occurrences are deleted: the text shrinks by a whole number of pattern lengths. |
| Text.RemoveIgnoreCaseIdentity | Function.cs:220 | `Replace` with `OrdinalIgnoreCase` leaves the text unchanged exactly when the pattern does not occur in it. |
| Intake.Detect | Function.cs:66-83 | Throws exactly when the root is not an object. Whapi exactly when `channel_id` has non-empty text, with that id. Meta exactly when there is no channel id and `object` and `entry` are both present and non-null. |
| Intake.MessageStep | Function.cs:57-91 | A record issues calls exactly when it has a known shape. A skipped or ignored record issues none. A published record's last call sends its body, and its send succeeded. A failed record that issued calls ended with a send, and that send failed. |
| Intake.MessageRules | Function.cs:57-91 | A blank body or a `null` document is skipped, and an unknown shape is ignored, without calls. A malformed body or a non-object document fails. A known shape sends its normalised tree exactly once, as the last call, and is published exactly when that send succeeds. |
| Intake.NormaliseSendsNothing | Function.cs:96-171 | Neither normaliser sends to the queue. |
| Intake.SendsAppend | Function.cs:86-90 | The sends of two traces run one after the other are the sends of each, concatenated. |
| Intake.Batch | Function.cs:39-51 | An aborted batch stops at a record that failed. |
| Intake.BatchStopsAtFirstFailure | Function.cs:39-51 | The batch completes exactly when no record fails, and then issues all records' calls. It is aborted at i exactly when record i fails and none before it does, and then issues the calls of records 0..i only. |
| Intake.BatchOutcomeIsFirstFailure | Function.cs:39-51 | The outcome half of the above, by induction on the records. |
| Intake.BatchCallsUpToStop | Function.cs:39-51 | The calls half of the above, by induction on the records. |
| Normalize.MediaOf | Function.cs:103-113 | A reference is found exactly when the message's `type` text is a media kind and the field of the member of that name has non-empty text. The reference then has that kind, that member (an object) as its node, and that text as its locator. |
| Normalize.Whapi | Function.cs:96-125 | Calls are issued exactly when messages[0] has a media link. Without one, the tree is unchanged. With one, the first call GETs the link with no token, and at most a PUT follows. No other kind of call is made. |
| Normalize.MetaOfficial | Function.cs:130-171 | Calls are issued exactly when the first message has a media id. Without one, the tree is unchanged. With one, the first call asks the broker for entry[0].id. |
| Normalize.MetaStore | Function.cs:149-161 | The broker is asked first, for the business id. Nothing more happens, and the tree is unchanged, exactly when there is no non-empty token. At most a GET and a PUT follow. |
| NormalizeProperties.WhapiUnchanged | Function.cs:100-113 | `ProcessarWhapi` leaves the tree as it is and calls nothing when: `messages` is not a non-empty array; or the type is not a media kind; or the link is missing, null or empty. |
| NormalizeProperties.WhapiRewritesLink | Function.cs:113-116 | With a media reference, the calls are one download-and-store of the link, fetched with no Authorization and no User-Agent. The link holds the result, and every other path is unchanged. |
| NormalizeProperties.WhapiFallbackUnchanged | Function.cs:113-116 | When the transfer fails and the link was a string, the tree is unchanged. |
| NormalizeProperties.MetaUnchanged | Function.cs:134-148 | `ProcessarMetaOficial` leaves the tree as it is and calls nothing when: the first message is missing or null; or its type is not a media kind; or the media id is missing, null or empty. |
| NormalizeProperties.MetaWithoutToken | Function.cs:149-153 | With a media id but no usable token, the only call is the broker invoke, and the tree is unchanged. |
| NormalizeProperties.MetaRewritesUrl | Function.cs:149-160 | With a media id and a token, the calls are: the broker invoke for entry[0].id, then a GET of the media endpoint with `Bearer <cleaned token>` and the fixed User-Agent. The `url` member holds the stored URL, and every other path is unchanged. |
| NormalizeProperties.MetaFallbackWritesEndpoint | Function.cs:156-160 | When the transfer fails, `url` is set to the media endpoint that was tried. |
| Media.Extension | Function.cs:263-273 | The extension is `.jpg`, `.mp4`, `.ogg` (audio or voice) or `.pdf` exactly for the matching lower-cased type, and `.bin` exactly for every other type. |
| Media.MediaKindExtension | Function.cs:263-273 | Every type either normaliser accepts as media gets a real extension, never `.bin`. |
| Media.CleanToken | Function.cs:220 | The cleaned token is no longer than the token and has no white space at its ends. Without a `Bearer ` occurrence, it is the trimmed token. |
| Media.BearerPrefixStrippedOnce | Function.cs:220-221 | A token `"Bearer " + t`, with no other occurrence in t, is sent as the trimmed t. |
| Media.CleanTokenSinglePass | Function.cs:220 | The single-pass removal turns `"BeBearer arer x"` into `"Bearer x"`. |
| Media.RequestHeaders | Function.cs:218-223 | Authorization is set exactly when the token is non-empty, with scheme Bearer and the cleaned token as parameter. The User-Agent is set exactly then, and is the fixed one. The parameter is no longer than the token, and is the trimmed token when that has no `Bearer `. |
| Media.DownloadAndStore | Function.cs:215-260 | The first call is the GET. A PUT follows exactly when the status is 2xx and the body opened, under `{folder}/{month}/{id}{ext}`. The URL is the S3 URL exactly when the PUT completed, and the source URL otherwise. |
| Media.MetaToken | Function.cs:189-196 | A token exists only for an object reply whose `Sucesso` is `true` and whose `Token` is a string, and is that string. Such a reply always gives it. |

## Left out

- I/O is not modelled. The SQS, S3, Lambda and HTTP clients, the clock and the
  Guid generator are replaced by per-record oracle outcomes (`Outcomes`), and
  each call is recorded in a trace instead of being made.
- Asynchrony is not modelled: every `await` is sequential.
- Logging is left out, because nothing reads the log.
- Configuration is left out. `BUCKET_NAME` is a constructor parameter. The
  queue URL and the credentials function's name are not modelled.
- The HTTP details are left out because they do not affect the model's
  results: the TLS setting, the 60-second timeout, the PUT's content type and
  content length, and `HttpCompletionOption`.
- JSON text is not modelled, in either direction:
  - Parsing a body is an oracle per record (`Parse`).
  - The send carries the tree rather than its `ToJsonString()` text.
  - `Render` (used by `ToString()` on non-strings) is compact and does not
    escape strings.
  - Duplicate member names are allowed in the tree, although the parser would
    reject them.
- `Text.ToLower` handles ASCII letters only. The media kinds are ASCII, so the
  table of extensions is the same.
- A record whose body is a null reference is not modelled: SQS always delivers
  a body string.
- Processor.SqsProcessor.ProcessMessage: a failed send is still recorded in the
  trace, as the call that was attempted. The record's status is then `Failed`.
- Media.RequestHeaders: the GET is recorded with its token, and its headers are
  derived from it rather than stored.
- Text.Trim: its contract does not state that the result is a contiguous
  slice of the input. The slices of `TrimStart` and `TrimEnd` state it
  separately.
- NormalizeProperties.MetaWithoutToken: this follows directly from the
  definition of `MetaStore`. It is stated for completeness.
