/**
 * The media helpers of SqsProcessor: the extension table (ObterExtensao),
 * the download-and-store step with its fallback (DownloadESalvarNoS3) and
 * the reading of the credentials function's answer (ObterTokenMeta).
 */
module Media {
  import opened Wrappers
  import opened Text
  import opened Json
  import opened Effects

  /** The message types that carry media. */
  const MediaKinds: set<string> := {"image", "video", "audio", "voice", "document"}

  const BearerPrefix := "Bearer "
  const UserAgent := "PostmanRuntime/7.29.2"
  const StorageHost := ".s3.sa-east-1.amazonaws.com/"

  /** ObterExtensao: the file extension chosen from the lower-cased message type alone. */
  function Extension(url: string, kind: string): (ext: string)
    ensures ext == ".jpg" <==> ToLower(kind) == "image"
    ensures ext == ".mp4" <==> ToLower(kind) == "video"
    ensures ext == ".ogg" <==> ToLower(kind) == "audio" || ToLower(kind) == "voice"
    ensures ext == ".pdf" <==> ToLower(kind) == "document"
    ensures ext == ".bin" <==> ToLower(kind) !in MediaKinds
  {
    var t := ToLower(kind);
    if t == "image" then ".jpg"
    else if t == "video" then ".mp4"
    else if t == "audio" || t == "voice" then ".ogg"
    else if t == "document" then ".pdf"
    else ".bin"
  }

  /** Every type that the normalisers treat as media gets a real extension, never ".bin". */
  lemma MediaKindExtension(url: string, kind: string)
    requires kind in MediaKinds
    ensures Extension(url, kind) != ".bin"
  {
    assert forall i | 0 <= i < |kind| :: !('A' <= kind[i] <= 'Z');
    LowerCaseKept(kind);
  }

  /** HttpResponseMessage.IsSuccessStatusCode. */
  predicate IsSuccessStatus(status: int) {
    200 <= status <= 299
  }

  /**
   * The token put in the Authorization header: every case-insensitive
   * "Bearer " removed in one left-to-right pass, then trimmed.
   */
  function CleanToken(token: string): (r: string)
    ensures |r| <= |token|
    ensures r == [] || (!IsWhiteSpace(r[0]) && !IsWhiteSpace(r[|r| - 1]))
    ensures !ContainsIgnoreCase(token, BearerPrefix) ==> r == Trim(token)
  {
    RemoveIgnoreCaseIdentity(token, BearerPrefix);
    Trim(RemoveIgnoreCase(token, BearerPrefix))
  }

  /** A token sent as "Bearer <t>" loses that one prefix, so the header carries the scheme exactly once. */
  lemma BearerPrefixStrippedOnce(t: string)
    requires !ContainsIgnoreCase(t, BearerPrefix)
    ensures CleanToken(BearerPrefix + t) == Trim(t)
  {
    var s := BearerPrefix + t;
    assert StartsWithIgnoreCase(s, BearerPrefix);
    assert s[|BearerPrefix|..] == t;
    RemoveIgnoreCaseIdentity(t, BearerPrefix);
  }

  /** The pass does not rescan: removing an inner "Bearer " can join a new one. */
  lemma CleanTokenSinglePass()
    ensures CleanToken("BeBearer arer x") == "Bearer x"
  {
    var t := "Bearer arer x";
    assert "BeBearer arer x" == ['B'] + (['e'] + t);
    RemovesInnerPrefix(t);
    TrimKeepsBearer("Bearer x");
  }

  /** Helper: trimming leaves a text with no white space at its ends as it is. */
  lemma TrimKeepsBearer(t: string)
    requires t == "Bearer x"
    ensures Trim(t) == t
  {
    assert !IsWhiteSpace(t[0]) && !IsWhiteSpace(t[|t| - 1]);
  }

  /** Helper: the one pass over the example token: "B" and "e" are kept, the "Bearer " after them is removed. */
  lemma RemovesInnerPrefix(t: string)
    requires t == "Bearer arer x"
    ensures RemoveIgnoreCase(['B'] + (['e'] + t), BearerPrefix) == "Bearer x"
  {
    var s1 := ['e'] + t;
    var s := ['B'] + s1;
    RemovesAfterE(t);
    assert s[0] == 'B' && s[1..] == s1;
    assert s[2] == t[0];
    assert Upper(s[2]) != Upper(BearerPrefix[2]);
    assert !StartsWithIgnoreCase(s, BearerPrefix);
    BearerSpelled();
  }

  /** Helper: the joined text, spelled out. */
  lemma BearerSpelled()
    ensures ['B'] + (['e'] + "arer x") == "Bearer x"
  {
    var joined := ['B'] + (['e'] + "arer x");
    assert forall k | 0 <= k < 8 :: joined[k] == "Bearer x"[k];
  }

  /** Helper: "e" is kept and the "Bearer " after it is removed. */
  lemma RemovesAfterE(t: string)
    requires t == "Bearer arer x"
    ensures RemoveIgnoreCase(['e'] + t, BearerPrefix) == ['e'] + "arer x"
  {
    var s := ['e'] + t;
    RemovesAtStart(t);
    assert s[0] == 'e' && s[1..] == t;
    assert Upper(s[0]) != Upper(BearerPrefix[0]);
    assert !StartsWithIgnoreCase(s, BearerPrefix);
  }

  /** Helper: a leading "Bearer " is removed and the short rest is kept. */
  lemma RemovesAtStart(s: string)
    requires s == "Bearer arer x"
    ensures RemoveIgnoreCase(s, BearerPrefix) == "arer x"
  {
    var rest := s[|BearerPrefix|..];
    assert rest == "arer x";
    assert !ContainsIgnoreCase(rest, BearerPrefix) by {
      assert forall i | 0 <= i <= |rest| :: |rest[i..]| < |BearerPrefix|;
    }
    RemoveIgnoreCaseIdentity(rest, BearerPrefix);
    assert StartsWithIgnoreCase(s, BearerPrefix);
  }

  /** The headers set on the media GET: with a non-empty token, a Bearer header and the fixed User-Agent; without, neither. */
  function RequestHeaders(request: Request): (h: Headers)
    ensures h.authorization.Some? <==> request.token.Some? && request.token.value != ""
    ensures h.userAgent.Some? <==> h.authorization.Some?
    ensures h.authorization.Some? ==> && h.authorization.value.scheme == "Bearer"
                                      && |h.authorization.value.parameter| <= |request.token.value|
                                      && h.userAgent == Some(UserAgent)
    ensures h.authorization.Some? ==> h.authorization.value.parameter == CleanToken(request.token.value)
    ensures h.authorization.Some? && !ContainsIgnoreCase(request.token.value, BearerPrefix) ==>
              h.authorization.value.parameter == Trim(request.token.value)
  {
    if request.token.Some? && request.token.value != "" then
      Headers(Some(Authorization("Bearer", CleanToken(request.token.value))), Some(UserAgent))
    else Headers(None, None)
  }

  /** The object key: {folder}/{yyyy-MM}/{id}{extension}. */
  function ObjectKey(folder: string, month: string, objectId: string, ext: string): string {
    folder + "/" + month + "/" + objectId + ext
  }

  /** The public URL of a stored object. */
  function StorageUrl(bucket: string, key: string): string {
    "https://" + bucket + StorageHost + key
  }

  /** The media was fetched with a success status and the PUT completed. */
  predicate Stored(transfer: Transfer) {
    transfer.Responded? && IsSuccessStatus(transfer.status) && transfer.body == PutSucceeded
  }

  /** What the download-and-store step issued, and the URL it returns. */
  datatype Transferred = Transferred(calls: seq<Call>, url: string)

  /**
   * DownloadESalvarNoS3: GET the URL, and on a success status stream the body
   * into the bucket under a fresh key. Any failure returns the source URL.
   */
  function DownloadAndStore(url: string, folder: string, kind: string, token: Option<string>,
                            bucket: string, io: Outcomes): (d: Transferred)
    ensures 1 <= |d.calls| <= 2 && d.calls[0] == HttpGet(Request(url, token))
    ensures !Stored(io.transfer) ==> d.url == url
    ensures Stored(io.transfer) ==>
              d.url == StorageUrl(bucket, ObjectKey(folder, io.month, io.objectId, Extension(url, kind)))
    ensures |d.calls| == 2 <==> io.transfer.Responded? && IsSuccessStatus(io.transfer.status)
                                && io.transfer.body != StreamFailed
    ensures |d.calls| == 2 ==>
              d.calls[1] == PutObject(bucket, ObjectKey(folder, io.month, io.objectId, Extension(url, kind)))
  {
    var get := HttpGet(Request(url, token));
    match io.transfer
    case SendFailed => Transferred([get], url)
    case Responded(status, body) =>
      if !IsSuccessStatus(status) then Transferred([get], url)
      else
        var key := ObjectKey(folder, io.month, io.objectId, Extension(url, kind));
        match body
        case StreamFailed => Transferred([get], url)
        case PutFailed => Transferred([get, PutObject(bucket, key)], url)
        case PutSucceeded => Transferred([get, PutObject(bucket, key)], StorageUrl(bucket, key))
  }

  /**
   * ObterTokenMeta, after the invoke: the token is read only from an object
   * whose (last) "Sucesso" is true and whose "Token" is a string. A missing
   * "Token" or a value of the wrong kind throws and is caught; a JSON null
   * "Token" reads as null. Every such case gives no token.
   */
  function MetaToken(reply: BrokerReply): (token: Option<string>)
    ensures token.Some? ==> && reply.Payload? && reply.document.Some? && reply.document.value.JObject?
                            && LastValue(reply.document.value.members, "Sucesso") == Some(JBool(true))
                            && LastValue(reply.document.value.members, "Token") == Some(JString(token.value))
    ensures (&& reply.Payload? && reply.document.Some? && reply.document.value.JObject?
             && LastValue(reply.document.value.members, "Sucesso") == Some(JBool(true))
             && LastValue(reply.document.value.members, "Token").Some?
             && LastValue(reply.document.value.members, "Token").value.JString?)
            ==> token == Some(LastValue(reply.document.value.members, "Token").value.s)
  {
    match reply
    case InvokeFailed => None
    case Payload(None) => None
    case Payload(Some(root)) =>
      if !root.JObject? then None
      else
        match LastValue(root.members, "Sucesso")
        case Some(JBool(true)) =>
          (match LastValue(root.members, "Token")
           case Some(JString(t)) => Some(t)
           case _ => None)
        case _ => None
  }
}
