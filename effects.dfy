/**
 * What the intake code asks of the outside world, and what the outside
 * world answers. The calls are recorded in the order they are issued; the
 * answers are given to the model as per-message outcomes, since the AWS
 * services, the HTTP server, the clock and the id generator cannot be seen.
 */
module Effects {
  import opened Wrappers
  import opened Json

  /** An Authorization header: AuthenticationHeaderValue(scheme, parameter). */
  datatype Authorization = Authorization(scheme: string, parameter: string)

  /** The headers of the media GET that the code sets: Authorization and User-Agent, when set. */
  datatype Headers = Headers(authorization: Option<Authorization>, userAgent: Option<string>)

  /**
   * The media GET: its URL and the token it was built with; the headers it
   * carries follow from the token (Media.RequestHeaders).
   */
  datatype Request = Request(url: string, token: Option<string>)

  /** One external call, as issued. */
  datatype Call =
    | InvokeBroker(metaId: Option<string>)       // Lambda invoke of the credentials function with {MetaId}
    | HttpGet(request: Request)                  // HttpClient.SendAsync
    | PutObject(bucket: string, key: string)     // S3 PutObjectAsync
    | SendMessage(body: Json)                    // SQS SendMessageAsync to the processed queue (the serialised tree)

  /** The answer of the credentials function: the invoke threw, or its payload parsed to a document, or did not parse. */
  datatype BrokerReply = InvokeFailed | Payload(document: Option<Json>)

  /** After a success status: opening the body stream threw, the PUT threw, or the PUT completed. */
  datatype BodyOutcome = StreamFailed | PutFailed | PutSucceeded

  /** The media transfer: the send threw (bad URL, network, timeout), or a response came back with a status. */
  datatype Transfer = SendFailed | Responded(status: int, body: BodyOutcome)

  /**
   * Everything outside the code that one message's processing observes: the
   * broker's answer, the transfer's outcome, DateTime.Now formatted yyyy-MM,
   * the fresh Guid formatted "N", and whether the final queue send succeeds.
   */
  datatype Outcomes = Outcomes(broker: BrokerReply, transfer: Transfer, month: string, objectId: string, sendOk: bool)
}
