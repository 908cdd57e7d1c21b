/**
 * SqsProcessor as the code runs it: one record after another, each parsed
 * into a document that the chosen normaliser changes in place and that is
 * then sent on. Every external call is appended to a trace in the order it
 * is issued; each method is proved to issue the calls, and leave the
 * document, that the functions of Normalize and Intake describe.
 */
module Processor {
  import opened Wrappers
  import opened Text
  import opened Json
  import opened Effects
  import opened Media
  import opened Normalize
  import opened Intake

  /** The path after entry[0] down to the first message of a Meta event. */
  const MetaMessageFromEntry: Path := [Member("changes"), Element(0), Member("value"), Member("messages"), Element(0)]

  class SqsProcessor {
    /** BUCKET_NAME, fixed when the process starts. */
    const bucket: string
    /** Every external call issued so far, in order. */
    var trace: seq<Call>

    constructor (bucket: string)
      ensures this.bucket == bucket && trace == []
    {
      this.bucket := bucket;
      trace := [];
    }

    /**
     * FunctionHandler: a null event (or null record list) does nothing;
     * otherwise the records are processed in order and the first failure
     * ends the loop with its exception rethrown.
     */
    method FunctionHandler(event: Option<seq<Record>>) returns (outcome: BatchOutcome)
      modifies this
      ensures event.None? ==> outcome == Completed && trace == old(trace)
      ensures event.Some? ==> && trace == old(trace) + Batch(Steps(event.value, bucket)).calls
                              && outcome == Batch(Steps(event.value, bucket)).outcome
    {
      if event.None? {
        return Completed;
      }
      var records := event.value;
      ghost var steps := Steps(records, bucket);
      var i := 0;
      while i < |records|
        invariant 0 <= i <= |records|
        invariant NoFailureBefore(steps, i)
        invariant trace == old(trace) + StepCalls(steps[..i])
      {
        ghost var before := trace;
        var status := ProcessRecord(records, i, steps);
        StepCallsExtend(old(trace), before, trace, steps, i);
        if status.Failed? {
          BatchStopsAtFirstFailure(steps);
          return Aborted(i);
        }
        i := i + 1;
      }
      assert steps[..i] == steps;
      BatchStopsAtFirstFailure(steps);
      return Completed;
    }

    /** One turn of the loop: record i is processed as step i of the batch describes. */
    method ProcessRecord(records: seq<Record>, i: nat, ghost steps: seq<Step>) returns (status: Status)
      requires i < |records| && steps == Steps(records, bucket)
      modifies this
      ensures trace == old(trace) + steps[i].calls
      ensures status == steps[i].status
    {
      status := ProcessMessage(records[i]);
    }

    /**
     * ProcessMessageAsync: skip a blank body or a `null` document; let a
     * parse failure or a non-object document throw; normalise a Whapi or a
     * Meta event in place and send the result; ignore any other shape.
     */
    method ProcessMessage(rec: Record) returns (status: Status)
      modifies this
      ensures trace == old(trace) + MessageStep(rec, bucket).calls
      ensures status == MessageStep(rec, bucket).status
    {
      if IsBlank(rec.body) {
        return Skipped;
      }
      if rec.parse.Malformed? {
        return Failed;
      }
      var doc := new JsonDocument(rec.parse.root);
      if doc.root == JNull {
        return Skipped;
      }
      var format := Detect(doc.root);                         // channel_id, object and entry probed
      match format {
        case NotAnObject =>                                   // the indexer threw
          return Failed;
        case Unknown =>
          return Ignored;
        case WhapiStyle(_) =>
        case MetaOfficialStyle =>
      }
      status := NormaliseAndSend(doc, format, rec.io);
    }

    /**
     * The rest of ProcessMessageAsync for a known shape: run the chosen
     * normaliser on the document, then send the serialised tree on.
     */
    method NormaliseAndSend(doc: JsonDocument, format: Format, io: Outcomes) returns (status: Status)
      requires format.WhapiStyle? || format.MetaOfficialStyle?
      modifies this, doc
      ensures trace == old(trace) + Forward(Normalise(old(doc.root), format, bucket, io), io.sendOk).calls
      ensures status == Forward(Normalise(old(doc.root), format, bucket, io), io.sendOk).status
    {
      ghost var normalised := Normalise(doc.root, format, bucket, io);
      ghost var before := trace;
      RunNormaliser(doc, format, io);
      var payload := doc.root;
      trace := trace + [SendMessage(payload)];
      status := if io.sendOk then Published(payload) else Failed;
      assert trace == before + (normalised.calls + [SendMessage(normalised.tree)]);
    }

    /** The normaliser the probe chose, run on the document. */
    method RunNormaliser(doc: JsonDocument, format: Format, io: Outcomes)
      requires format.WhapiStyle? || format.MetaOfficialStyle?
      modifies this, doc
      ensures doc.root == Normalise(old(doc.root), format, bucket, io).tree
      ensures trace == old(trace) + Normalise(old(doc.root), format, bucket, io).calls
    {
      if format.WhapiStyle? {
        ProcessWhapi(doc, format.channelId, io);
      } else {
        ProcessMetaOfficial(doc, io);
      }
    }

    /**
     * ProcessarWhapi: take messages[0] of the "messages" array, find its
     * media link; download and store it and set "link" to the result. Every
     * exception on the way is caught and leaves the document as it is.
     */
    method ProcessWhapi(doc: JsonDocument, channelId: string, io: Outcomes)
      modifies this, doc
      ensures doc.root == Whapi(old(doc.root), channelId, bucket, io).tree
      ensures trace == old(trace) + Whapi(old(doc.root), channelId, bucket, io).calls
    {
      var media := FindWhapiMedia(doc.root);
      if media.None? {
        return;
      }
      var stored := DownloadESalvarNoS3(media.value.locator, channelId, media.value.kind, None, io);
      doc.SetMember(media.value.node, "link", JString(stored));
    }

    /**
     * ProcessarMetaOficial: read entry[0] and its id, walk to the first
     * message, find its media id; ask the broker for a token; with a token,
     * download and store the media endpoint and set "url". Every exception on
     * the way is caught and leaves the document as it is.
     */
    method ProcessMetaOfficial(doc: JsonDocument, io: Outcomes)
      modifies this, doc
      ensures doc.root == MetaOfficial(old(doc.root), bucket, io).tree
      ensures trace == old(trace) + MetaOfficial(old(doc.root), bucket, io).calls
    {
      var business, media := FindMetaMedia(doc.root);
      if media.None? {
        return;
      }
      StoreMetaMedia(doc, business, media.value, io);
    }

    /**
     * ProcessarMetaOficial once a media id was found: ask the broker for a
     * token for the business id; with a non-empty token, download and store
     * the media endpoint and set the media node's "url" to the result.
     */
    method StoreMetaMedia(doc: JsonDocument, business: Option<string>, media: MediaRef, io: Outcomes)
      modifies this, doc
      ensures doc.root == MetaStore(old(doc.root), media, business, bucket, io).tree
      ensures trace == old(trace) + MetaStore(old(doc.root), media, business, bucket, io).calls
    {
      trace := trace + [InvokeBroker(business)];
      var token := MetaToken(io.broker);
      if token.None? || token.value == "" {
        return;
      }
      ghost var asked := trace;
      var stored := DownloadESalvarNoS3(MediaEndpoint(media.locator), business.GetOr(""), media.kind, token, io);
      ghost var fetched := DownloadAndStore(MediaEndpoint(media.locator), business.GetOr(""), media.kind, token, bucket, io).calls;
      assert trace == old(trace) + ([InvokeBroker(business)] + fetched) by {
        assert asked == old(trace) + [InvokeBroker(business)];
        assert trace == asked + fetched;
      }
      doc.SetMember(media.node, "url", JString(stored));
    }

    /**
     * DownloadESalvarNoS3: GET the URL (with the token's headers); on a
     * success status open the body and PUT it under a fresh key in the
     * bucket, then answer the object's URL. Any failure answers the URL it
     * was given.
     */
    method DownloadESalvarNoS3(url: string, folder: string, kind: string, token: Option<string>, io: Outcomes)
      returns (stored: string)
      modifies this
      ensures trace == old(trace) + DownloadAndStore(url, folder, kind, token, bucket, io).calls
      ensures stored == DownloadAndStore(url, folder, kind, token, bucket, io).url
    {
      trace := trace + [HttpGet(Request(url, token))];
      if io.transfer.SendFailed? || !IsSuccessStatus(io.transfer.status) {
        return url;
      }
      if io.transfer.body.StreamFailed? {
        return url;
      }
      var key := ObjectKey(folder, io.month, io.objectId, Extension(url, kind));
      trace := trace + [PutObject(bucket, key)];
      if io.transfer.body.PutFailed? {
        return url;
      }
      return StorageUrl(bucket, key);
    }
  }

  /**
   * The reads of ProcessarWhapi: "messages" as an array (AsArray throws on
   * anything else), its first element when there is one, and that
   * message's media reference.
   */
  method FindWhapiMedia(root: Json) returns (media: Option<MediaRef>)
    ensures media == MediaOf(root, WhapiMessage, "link")
  {
    SelectAppend(root, [Member("messages")], [Element(0)]);
    SelectOne(root, Member("messages"));
    var messages := Index(root, Member("messages"));
    if !messages.Found? {                                     // thrown and caught, or null
      return None;
    }
    SelectOne(messages.node, Element(0));
    if !messages.node.JArray? || |messages.node.items| == 0 { // AsArray() threw, or no messages
      return None;
    }
    var first := Index(messages.node, Element(0));
    WalkAppend(Found(root), [Member("messages")], [Element(0)]);
    media := ReadMedia(root, WhapiMessage, first, "link");
  }

  /**
   * The reads of ProcessarMetaOficial before any call: entry[0]'s id and the
   * media reference of the first message. A chain that throws is caught and
   * ends the step just as a missing media reference does.
   */
  method FindMetaMedia(root: Json) returns (business: Option<string>, media: Option<MediaRef>)
    ensures media == MediaOf(root, MetaMessage, "id")
    ensures media.Some? ==> business == BusinessId(root)
  {
    var reached, message;
    reached, business, message := ReadEntry(root);
    if !reached {
      if root != JNull {
        WalkFinds(root, MetaMessage);
      }
      return None, None;
    }
    media := ReadMedia(root, MetaMessage, message, "id");
  }

  /**
   * The chains from the root through entry[0]: its id, then the first
   * message. When one of them throws, reached is false and no message is
   * found; otherwise both are what the paths lead to.
   */
  method ReadEntry(root: Json) returns (reached: bool, business: Option<string>, message: Nav)
    ensures !reached ==> root == JNull || !Walk(Found(root), MetaMessage).Found?
    ensures reached ==> root != JNull && message == Walk(Found(root), MetaMessage) && business == BusinessId(root)
  {
    var entries := Index(root, Member("entry"));
    if entries.Threw? {                                       // jsonNode["entry"] threw
      return false, None, Threw;
    }
    MetaNavigation(root);
    var entry := Walk(entries, [Element(0)]);
    if entry.Threw? {                                         // entry is not an array, or is empty
      WalkStops(entry, MetaMessageFromEntry);
      return false, None, Threw;
    }
    business := None;
    if entry.Found? {
      var id := Index(entry.node, Member("id"));
      if id.Threw? {                                          // entry[0] is not an object
        WalkStops(id, MetaMessageFromEntry[1..]);
        return false, None, Threw;
      }
      if id.Found? {
        business := Some(NodeText(id.node));
      }
    }
    WalkFinds(root, MetaBusiness);
    message := Walk(entry, MetaMessageFromEntry);
    reached := true;
  }

  /**
   * The media reference of the message a chain of accesses reached: its
   * "type" names a media kind and the member of that name has a non-empty
   * field. Any access that throws, or meets null, gives none.
   */
  method ReadMedia(ghost root: Json, message: Path, msg: Nav, field: string) returns (media: Option<MediaRef>)
    requires root != JNull && msg == Walk(Found(root), message)
    ensures media == MediaOf(root, message, field)
  {
    WalkFinds(root, message);
    if !msg.Found? {
      return None;
    }
    var typeNode := Index(msg.node, Member("type"));
    if !typeNode.Found? {
      return None;
    }
    var kind := NodeText(typeNode.node);
    if kind !in MediaKinds {
      return None;
    }
    var mediaNode := Index(msg.node, Member(kind));
    if !mediaNode.Found? {
      return None;
    }
    var locator := Index(mediaNode.node, Member(field));
    if !locator.Found? || NodeText(locator.node) == "" {
      return None;
    }
    return Some(MediaRef(kind, message + [Member(kind)], NodeText(locator.node)));
  }

  /** The chains of ProcessarMetaOficial, piece by piece, are the chains along MetaMessage and MetaBusiness. */
  lemma MetaNavigation(root: Json)
    ensures var entry := Walk(Index(root, Member("entry")), [Element(0)]);
            && Walk(Found(root), MetaMessage) == Walk(entry, MetaMessageFromEntry)
            && Walk(Found(root), MetaBusiness) == Walk(entry, [Member("id")])
  {
    var first := [Member("entry"), Element(0)];
    assert Walk(Found(root), [Member("entry")]) == Index(root, Member("entry"));
    WalkAppend(Found(root), [Member("entry")], [Element(0)]);
    assert MetaMessage == first + MetaMessageFromEntry;
    WalkAppend(Found(root), first, MetaMessageFromEntry);
    assert MetaBusiness == first + [Member("id")];
    WalkAppend(Found(root), first, [Member("id")]);
  }
}
