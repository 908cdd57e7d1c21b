/**
 * The two provider normalisers, ProcessarWhapi and ProcessarMetaOficial, as
 * functions from the parsed tree (and the outcomes of the calls they make)
 * to the tree they serialise and the calls they issue. Each reads the first
 * message's type and media node and, when it finds a media reference,
 * rewrites exactly one member of that node; every failure on the way is
 * caught and leaves the tree as it was.
 */
module Normalize {
  import opened Wrappers
  import opened Json
  import opened Effects
  import opened Media

  /** A media reference found in a message: its type, the path of its media node, the text of the field read. */
  datatype MediaRef = MediaRef(kind: string, node: Path, locator: string)

  /** The tree a normaliser serialises, and the calls it issued on the way. */
  datatype Normalized = Normalized(tree: Json, calls: seq<Call>)

  /** messages[0] of a Whapi event. */
  const WhapiMessage: Path := [Member("messages"), Element(0)]

  /** entry[0].changes[0].value.messages[0] of a Meta event. */
  const MetaMessage: Path :=
    [Member("entry"), Element(0), Member("changes"), Element(0), Member("value"), Member("messages"), Element(0)]

  /** entry[0].id of a Meta event: the business account, used as the storage folder. */
  const MetaBusiness: Path := [Member("entry"), Element(0), Member("id")]

  /** The text a `?.ToString()` chain yields for the node at p, with null (missing, or JSON null) read as "". */
  function TextAt(root: Json, p: Path): string {
    if Select(root, p).Some? && Select(root, p).value != JNull then NodeText(Select(root, p).value) else ""
  }

  /**
   * The media reference of the message at path message: the message is an
   * object whose "type" names a media kind, the member of that name is an
   * object, and its member field has non-empty text.
   */
  function MediaOf(root: Json, message: Path, field: string): (m: Option<MediaRef>)
    ensures m.Some? ==> && m.value.kind in MediaKinds
                        && m.value.kind == TextAt(root, message + [Member("type")])
                        && m.value.node == message + [Member(m.value.kind)]
                        && Select(root, m.value.node).Some? && Select(root, m.value.node).value.JObject?
                        && m.value.locator == TextAt(root, m.value.node + [Member(field)]) != ""
    ensures (var kind := TextAt(root, message + [Member("type")]);
             kind in MediaKinds && TextAt(root, message + [Member(kind), Member(field)]) != "") ==> m.Some?
  {
    MediaPaths(root, message, field);
    match Select(root, message)
    case None => None
    case Some(msg) =>
      match Index(msg, Member("type"))
      case Found(t) =>
        var kind := NodeText(t);
        if kind !in MediaKinds then None
        else
          (match Index(msg, Member(kind))
           case Found(media) =>
             if !media.JObject? then None
             else
               (match Index(media, Member(field))
                case Found(l) =>
                  if NodeText(l) == "" then None
                  else
                    MediaFound(root, message, msg, kind, media, field);
                    Some(MediaRef(kind, message + [Member(kind)], NodeText(l)))
                case _ => None)
           case _ => None)
      case _ => None
  }

  /**
   * Helper for MediaOf: when the paths from the message to its type and to
   * the media field lead to texts, the reads from the message node find them.
   */
  lemma MediaPaths(root: Json, message: Path, field: string)
    ensures var kind := TextAt(root, message + [Member("type")]);
            kind in MediaKinds && TextAt(root, message + [Member(kind), Member(field)]) != "" ==>
              && Select(root, message).Some?
              && var msg := Select(root, message).value;
                 && Index(msg, Member("type")).Found? && NodeText(Index(msg, Member("type")).node) == kind
                 && Index(msg, Member(kind)).Found? && Index(msg, Member(kind)).node.JObject?
                 && var media := Index(msg, Member(kind)).node;
                    && Index(media, Member(field)).Found?
                    && NodeText(Index(media, Member(field)).node) == TextAt(root, message + [Member(kind), Member(field)])
  {
    var kind := TextAt(root, message + [Member("type")]);
    var fieldPath := message + [Member(kind), Member(field)];
    if kind in MediaKinds && TextAt(root, fieldPath) != "" {
      var leaf := Select(root, fieldPath).value;
      SelectAppend(root, message, [Member(kind), Member(field)]);
      var msg := Select(root, message).value;
      SelectAppend(root, message, [Member("type")]);
      SelectOne(msg, Member("type"));
      assert Index(msg, Member("type")).Found? by {
        assert kind != "";
      }
      assert [Member(kind), Member(field)] == [Member(kind)] + [Member(field)];
      SelectAppend(msg, [Member(kind)], [Member(field)]);
      SelectOne(msg, Member(kind));
      var media := Child(msg, Member(kind)).value;
      SelectOne(media, Member(field));
      assert Child(media, Member(field)) == Some(leaf);
    }
  }

  /** Helper for MediaOf: the nodes it met are the nodes at the longer paths. */
  lemma MediaFound(root: Json, message: Path, msg: Json, kind: string, media: Json, field: string)
    requires Select(root, message) == Some(msg)
    requires Index(msg, Member("type")).Found? && NodeText(Index(msg, Member("type")).node) == kind
    requires Index(msg, Member(kind)) == Found(media)
    ensures TextAt(root, message + [Member("type")]) == kind
    ensures Select(root, message + [Member(kind)]) == Some(media)
    ensures Select(root, message + [Member(kind)] + [Member(field)]) == Select(media, [Member(field)])
  {
    SelectAppend(root, message, [Member("type")]);
    SelectAppend(root, message, [Member(kind)]);
    SelectAppend(root, message + [Member(kind)], [Member(field)]);
  }

  /**
   * ProcessarWhapi: with a media reference in messages[0], the media node's
   * "link" is set to what the download-and-store step returns for that link,
   * the channel as folder and no token; otherwise nothing happens.
   */
  function Whapi(root: Json, channelId: string, bucket: string, io: Outcomes): (r: Normalized)
    ensures r.calls == [] <==> MediaOf(root, WhapiMessage, "link").None?
    ensures r.calls == [] ==> r.tree == root
    ensures r.calls != [] ==> && |r.calls| <= 2
                              && r.calls[0] == HttpGet(Request(MediaOf(root, WhapiMessage, "link").value.locator, None))
    ensures forall c | c in r.calls :: c.HttpGet? || c.PutObject?
  {
    match MediaOf(root, WhapiMessage, "link")
    case None => Normalized(root, [])
    case Some(m) =>
      var d := DownloadAndStore(m.locator, channelId, m.kind, None, bucket, io);
      Normalized(Update(root, m.node + [Member("link")], JString(d.url)), d.calls)
  }

  /** The URL a Meta media id is fetched from. */
  function MediaEndpoint(mediaId: string): string {
    "https://api.chakrahq.com/v1/whatsapp/v19.0/media/" + mediaId + "/show"
  }

  /** entry[0].id as text, or null. */
  function BusinessId(root: Json): Option<string> {
    if Select(root, MetaBusiness).Some? && Select(root, MetaBusiness).value != JNull
    then Some(NodeText(Select(root, MetaBusiness).value)) else None
  }

  /**
   * ProcessarMetaOficial: with a media reference (a non-empty media "id") in
   * the first message, the credentials function is asked for a token; with a
   * non-empty token the media node's "url" is set to what the
   * download-and-store step returns for the media endpoint, the business id
   * as folder and that token; otherwise nothing is written.
   */
  function MetaOfficial(root: Json, bucket: string, io: Outcomes): (r: Normalized)
    ensures r.calls == [] <==> MediaOf(root, MetaMessage, "id").None?
    ensures r.calls == [] ==> r.tree == root
    ensures r.calls != [] ==> r.calls[0] == InvokeBroker(BusinessId(root))
  {
    match MediaOf(root, MetaMessage, "id")
    case None => Normalized(root, [])
    case Some(m) => MetaStore(root, m, BusinessId(root), bucket, io)
  }

  /** ProcessarMetaOficial once the media reference m was found, for the business id read from entry[0]. */
  function MetaStore(root: Json, m: MediaRef, business: Option<string>, bucket: string, io: Outcomes): (r: Normalized)
    ensures 1 <= |r.calls| <= 3 && r.calls[0] == InvokeBroker(business)
    ensures |r.calls| == 1 <==> MetaToken(io.broker).None? || MetaToken(io.broker) == Some("")
    ensures |r.calls| == 1 ==> r.tree == root
    ensures forall i | 1 <= i < |r.calls| :: r.calls[i].HttpGet? || r.calls[i].PutObject?
  {
    var token := MetaToken(io.broker);
    if token.None? || token.value == "" then Normalized(root, [InvokeBroker(business)])
    else
      var d := DownloadAndStore(MediaEndpoint(m.locator), business.GetOr(""), m.kind, token, bucket, io);
      Normalized(Update(root, m.node + [Member("url")], JString(d.url)), [InvokeBroker(business)] + d.calls)
  }
}

module NormalizeProperties {
  import opened Wrappers
  import opened Json
  import opened Effects
  import opened Media
  import opened Normalize

  /** Helper: a message at the end of a path with a leading array step sits in a non-empty array. */
  lemma MessageInArray(root: Json, list: Path, rest: Path)
    requires Select(root, list + [Element(0)] + rest).Some?
    ensures Select(root, list).Some? && Select(root, list).value.JArray? && |Select(root, list).value.items| > 0
  {
    SelectAppend(root, list + [Element(0)], rest);
    SelectAppend(root, list, [Element(0)]);
  }

  /**
   * ProcessarWhapi leaves the event as it is, and calls nothing, when
   * "messages" is missing, null, not an array or empty; when the first
   * message's type is not a media kind; or when the media node's "link" is
   * missing, null or empty.
   */
  lemma WhapiUnchanged(root: Json, channelId: string, bucket: string, io: Outcomes)
    ensures var kind := TextAt(root, WhapiMessage + [Member("type")]);
            (|| !(Select(root, [Member("messages")]).Some? && Select(root, [Member("messages")]).value.JArray?
                  && |Select(root, [Member("messages")]).value.items| > 0)
             || kind !in MediaKinds
             || TextAt(root, WhapiMessage + [Member(kind), Member("link")]) == "")
            ==> Whapi(root, channelId, bucket, io) == Normalized(root, [])
  {
    var m := MediaOf(root, WhapiMessage, "link");
    if m.Some? {
      assert WhapiMessage == [Member("messages")] + [Element(0)] + [];
      MessageInArray(root, [Member("messages")], []);
      assert Select(root, m.value.node).value != JNull;
      assert m.value.node + [Member("link")] == WhapiMessage + [Member(m.value.kind), Member("link")];
    }
  }

  /**
   * With a media reference, ProcessarWhapi issues exactly the calls of one
   * download-and-store of the link (channel as folder, no token), sets the
   * media node's "link" to its result, and changes nothing off that member.
   */
  lemma WhapiRewritesLink(root: Json, channelId: string, bucket: string, io: Outcomes)
    requires MediaOf(root, WhapiMessage, "link").Some?
    ensures var m := MediaOf(root, WhapiMessage, "link").value;
            var d := DownloadAndStore(m.locator, channelId, m.kind, None, bucket, io);
            var r := Whapi(root, channelId, bucket, io);
            && r.calls == d.calls
            && d.calls[0] == HttpGet(Request(m.locator, None))
            && RequestHeaders(d.calls[0].request) == Headers(None, None)
            && Select(r.tree, m.node + [Member("link")]) == Some(JString(d.url))
            && forall q | Diverge(m.node + [Member("link")], q) :: Select(r.tree, q) == Select(root, q)
  {
    var m := MediaOf(root, WhapiMessage, "link").value;
    var d := DownloadAndStore(m.locator, channelId, m.kind, None, bucket, io);
    SetMemberEffect(root, m.node, "link", JString(d.url));
  }

  /**
   * When the download or the store fails and the link was a JSON string,
   * ProcessarWhapi writes that same string back: the tree is unchanged.
   */
  lemma WhapiFallbackUnchanged(root: Json, channelId: string, bucket: string, io: Outcomes)
    requires MediaOf(root, WhapiMessage, "link").Some? && !Stored(io.transfer)
    requires var m := MediaOf(root, WhapiMessage, "link").value;
             Select(root, m.node + [Member("link")]).Some? && Select(root, m.node + [Member("link")]).value.JString?
    ensures Whapi(root, channelId, bucket, io).tree == root
  {
    var m := MediaOf(root, WhapiMessage, "link").value;
    UpdateSame(root, m.node + [Member("link")], JString(m.locator));
  }

  /**
   * ProcessarMetaOficial leaves the event as it is, and calls nothing, when
   * entry[0].changes[0].value.messages[0] is missing or null, when its type is
   * not a media kind, or when the media node's "id" is missing, null or empty.
   */
  lemma MetaUnchanged(root: Json, bucket: string, io: Outcomes)
    ensures var kind := TextAt(root, MetaMessage + [Member("type")]);
            (|| Select(root, MetaMessage).None? || Select(root, MetaMessage) == Some(JNull)
             || kind !in MediaKinds
             || TextAt(root, MetaMessage + [Member(kind), Member("id")]) == "")
            ==> MetaOfficial(root, bucket, io) == Normalized(root, [])
  {
    var m := MediaOf(root, MetaMessage, "id");
    if m.Some? {
      SelectAppend(root, MetaMessage, [Member(m.value.kind)]);
      assert m.value.node + [Member("id")] == MetaMessage + [Member(m.value.kind), Member("id")];
    }
  }

  /**
   * With a media id but no usable token (the broker failed, said no, or gave
   * an empty token), ProcessarMetaOficial asks the broker once and does
   * nothing more: no GET, no PUT, the tree unchanged.
   */
  lemma MetaWithoutToken(root: Json, bucket: string, io: Outcomes)
    requires MediaOf(root, MetaMessage, "id").Some?
    requires MetaToken(io.broker).None? || MetaToken(io.broker) == Some("")
    ensures MetaOfficial(root, bucket, io) == Normalized(root, [InvokeBroker(BusinessId(root))])
  {
  }

  /**
   * With a media id and a non-empty token, ProcessarMetaOficial asks the
   * broker for entry[0].id, GETs the media endpoint with the cleaned token
   * as Bearer credentials, sets the media node's "url" to the
   * download-and-store result, and changes nothing off that member.
   */
  lemma MetaRewritesUrl(root: Json, bucket: string, io: Outcomes)
    requires MediaOf(root, MetaMessage, "id").Some?
    requires MetaToken(io.broker).Some? && MetaToken(io.broker).value != ""
    ensures var m := MediaOf(root, MetaMessage, "id").value;
            var token := MetaToken(io.broker).value;
            var d := DownloadAndStore(MediaEndpoint(m.locator), BusinessId(root).GetOr(""), m.kind, Some(token), bucket, io);
            var r := MetaOfficial(root, bucket, io);
            && r.calls == [InvokeBroker(BusinessId(root))] + d.calls
            && r.calls[1] == HttpGet(Request(MediaEndpoint(m.locator), Some(token)))
            && RequestHeaders(r.calls[1].request) == Headers(Some(Authorization("Bearer", CleanToken(token))), Some(UserAgent))
            && Select(r.tree, m.node + [Member("url")]) == Some(JString(d.url))
            && forall q | Diverge(m.node + [Member("url")], q) :: Select(r.tree, q) == Select(root, q)
  {
    var m := MediaOf(root, MetaMessage, "id").value;
    var token := MetaToken(io.broker);
    var d := DownloadAndStore(MediaEndpoint(m.locator), BusinessId(root).GetOr(""), m.kind, token, bucket, io);
    SetMemberEffect(root, m.node, "url", JString(d.url));
  }

  /**
   * When the Meta download or store fails, "url" is still written: it gets
   * the media endpoint that was tried, not the event's original value.
   */
  lemma MetaFallbackWritesEndpoint(root: Json, bucket: string, io: Outcomes)
    requires MediaOf(root, MetaMessage, "id").Some? && !Stored(io.transfer)
    requires MetaToken(io.broker).Some? && MetaToken(io.broker).value != ""
    ensures var m := MediaOf(root, MetaMessage, "id").value;
            Select(MetaOfficial(root, bucket, io).tree, m.node + [Member("url")]) == Some(JString(MediaEndpoint(m.locator)))
  {
    var m := MediaOf(root, MetaMessage, "id").value;
    SetMemberEffect(root, m.node, "url", JString(MediaEndpoint(m.locator)));
  }
}
