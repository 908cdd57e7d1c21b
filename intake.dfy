/**
 * The dispatcher and the batch handler (ProcessMessageAsync and
 * FunctionHandler) as functions: what one record leads to, and what a batch
 * of records leads to, given the outcomes of the calls they make.
 */
module Intake {
  import opened Wrappers
  import opened Text
  import opened Json
  import opened Effects
  import opened Media
  import opened Normalize

  /** JsonNode.Parse on a body that is not blank: it throws, or it gives a tree (JNull for the text `null`). */
  datatype Parse = Malformed | Parsed(root: Json)

  /** One SQS record: its MessageId, its Body, what parsing the body gives, and the outcomes of the calls made for it. */
  datatype Record = Record(messageId: string, body: string, parse: Parse, io: Outcomes)

  /** Which provider shape an event has, or that probing it threw. */
  datatype Format = NotAnObject | WhapiStyle(channelId: string) | MetaOfficialStyle | Unknown

  /** Present: the member exists and is not JSON null. */
  predicate Present(root: Json, key: string) {
    Select(root, [Member(key)]).Some? && Select(root, [Member(key)]).value != JNull
  }

  /**
   * The probe of ProcessMessageAsync: `jsonNode["channel_id"]` throws unless
   * the root is an object; a non-empty channel_id text means Whapi, whatever
   * else is present; otherwise "object" and "entry" both present mean Meta.
   */
  function Detect(root: Json): (f: Format)
    ensures f.NotAnObject? <==> !root.JObject?
    ensures f.WhapiStyle? <==> root.JObject? && TextAt(root, [Member("channel_id")]) != ""
    ensures f.WhapiStyle? ==> f.channelId == TextAt(root, [Member("channel_id")])
    ensures f.MetaOfficialStyle? <==> && root.JObject? && TextAt(root, [Member("channel_id")]) == ""
                                      && Present(root, "object") && Present(root, "entry")
  {
    SelectOne(root, Member("channel_id"));
    SelectOne(root, Member("object"));
    SelectOne(root, Member("entry"));
    var channel := Index(root, Member("channel_id"));
    if channel.Threw? then NotAnObject
    else
      var channelId := if channel.Found? then NodeText(channel.node) else "";
      var official := Index(root, Member("object")).Found? && Index(root, Member("entry")).Found?;
      if channelId != "" then WhapiStyle(channelId)
      else if official then MetaOfficialStyle
      else Unknown
  }

  /** What became of one record: skipped (blank or null), ignored (unknown shape), sent on, or failed. */
  datatype Status = Skipped | Ignored | Published(body: Json) | Failed

  /** The calls one record led to, and what became of it. */
  datatype Step = Step(calls: seq<Call>, status: Status)

  /** The normaliser's calls, then the send of its tree; the send's failure is the record's failure. */
  function Forward(n: Normalized, sendOk: bool): Step {
    Step(n.calls + [SendMessage(n.tree)], if sendOk then Published(n.tree) else Failed)
  }

  /** What the normaliser for a known shape gives. */
  function Normalise(root: Json, f: Format, bucket: string, io: Outcomes): Normalized
    requires f.WhapiStyle? || f.MetaOfficialStyle?
  {
    if f.WhapiStyle? then Whapi(root, f.channelId, bucket, io) else MetaOfficial(root, bucket, io)
  }

  /**
   * ProcessMessageAsync. A blank body or a `null` document is skipped; a
   * body that does not parse, or a document that is not an object, throws
   * (nothing catches it here); an unknown shape is ignored; a known shape is
   * normalised and its tree is sent on.
   */
  function MessageStep(rec: Record, bucket: string): (s: Step)
    ensures s.calls != [] <==> KnownShape(rec)
    ensures s.status.Skipped? || s.status.Ignored? ==> s.calls == []
    ensures s.status.Published? ==> rec.io.sendOk && s.calls != [] && s.calls[|s.calls| - 1] == SendMessage(s.status.body)
    ensures s.status.Failed? && s.calls != [] ==> !rec.io.sendOk && s.calls[|s.calls| - 1].SendMessage?
  {
    if IsBlank(rec.body) then Step([], Skipped)
    else
      match rec.parse
      case Malformed => Step([], Failed)
      case Parsed(root) =>
        if root == JNull then Step([], Skipped)
        else
          match Detect(root)
          case NotAnObject => Step([], Failed)
          case Unknown => Step([], Ignored)
          case WhapiStyle(_) => Forward(Normalise(root, Detect(root), bucket, rec.io), rec.io.sendOk)
          case MetaOfficialStyle => Forward(Normalise(root, Detect(root), bucket, rec.io), rec.io.sendOk)
  }

  /** The bodies sent to the processed queue, in order. */
  function Sends(calls: seq<Call>): (bodies: seq<Json>)
    ensures |bodies| <= |calls|
    ensures (forall i | 0 <= i < |calls| :: !calls[i].SendMessage?) ==> bodies == []
  {
    if calls == [] then []
    else (if calls[0].SendMessage? then [calls[0].body] else []) + Sends(calls[1..])
  }

  lemma {:induction false} SendsAppend(a: seq<Call>, b: seq<Call>)
    ensures Sends(a + b) == Sends(a) + Sends(b)
  {
    if a != [] {
      assert (a + b)[0] == a[0] && (a + b)[1..] == a[1..] + b;
      SendsAppend(a[1..], b);
    } else {
      assert a + b == b;
    }
  }

  /** The download-and-store step never sends: it issues a GET and perhaps a PUT. */
  lemma TransferSendsNothing(d: Transferred)
    requires 1 <= |d.calls| <= 2 && d.calls[0].HttpGet? && (|d.calls| == 2 ==> d.calls[1].PutObject?)
    ensures Sends(d.calls) == []
  {
    var tail := d.calls[1..];
    if tail != [] {
      assert tail[1..] == [];
    }
  }

  /** The normalisers never send: their calls are broker invocations, GETs and PUTs. */
  lemma NormaliseSendsNothing(root: Json, f: Format, bucket: string, io: Outcomes)
    requires f.WhapiStyle? || f.MetaOfficialStyle?
    ensures Sends(Normalise(root, f, bucket, io).calls) == []
  {
    if f.WhapiStyle? {
      match MediaOf(root, WhapiMessage, "link")
      case None =>
      case Some(m) =>
        TransferSendsNothing(DownloadAndStore(m.locator, f.channelId, m.kind, None, bucket, io));
    } else {
      match MediaOf(root, MetaMessage, "id")
      case None =>
      case Some(m) => MetaStoreSendsNothing(root, m, BusinessId(root), bucket, io);
    }
  }

  /** Helper: after the media lookup, the Meta normaliser invokes the broker and perhaps GETs and PUTs. */
  lemma MetaStoreSendsNothing(root: Json, m: MediaRef, business: Option<string>, bucket: string, io: Outcomes)
    ensures Sends(MetaStore(root, m, business, bucket, io).calls) == []
  {
    var token := MetaToken(io.broker);
    var ask := [InvokeBroker(business)];
    assert Sends(ask) == [] by { assert ask[1..] == []; }
    if token.Some? && token.value != "" {
      var d := DownloadAndStore(MediaEndpoint(m.locator), business.GetOr(""), m.kind, token, bucket, io);
      TransferSendsNothing(d);
      SendsAppend(ask, d.calls);
    }
  }

  /** A record of a known shape: not blank, parsed, and probed as Whapi or Meta. */
  predicate KnownShape(rec: Record) {
    && !IsBlank(rec.body) && rec.parse.Parsed? && rec.parse.root != JNull
    && (Detect(rec.parse.root).WhapiStyle? || Detect(rec.parse.root).MetaOfficialStyle?)
  }

  /**
   * The skip and publish rules of ProcessMessageAsync: blank bodies and
   * `null` documents are skipped and unknown shapes ignored, all without any
   * call; unparseable bodies and non-object documents fail without any call;
   * a known shape sends its normalised tree exactly once, as the last call,
   * and is published exactly when that send succeeds.
   */
  lemma MessageRules(rec: Record, bucket: string)
    ensures var s := MessageStep(rec, bucket);
            && (IsBlank(rec.body) ==> s == Step([], Skipped))
            && (!IsBlank(rec.body) && rec.parse == Parsed(JNull) ==> s == Step([], Skipped))
            && (!IsBlank(rec.body) && rec.parse.Malformed? ==> s == Step([], Failed))
            && (!IsBlank(rec.body) && rec.parse.Parsed? && rec.parse.root != JNull ==>
                  (Detect(rec.parse.root).Unknown? ==> s == Step([], Ignored))
                  && (Detect(rec.parse.root).NotAnObject? ==> s == Step([], Failed)))
            && (!KnownShape(rec) ==> Sends(s.calls) == [])
            && (KnownShape(rec) ==>
                  var tree := Normalise(rec.parse.root, Detect(rec.parse.root), bucket, rec.io).tree;
                  && Sends(s.calls) == [tree]
                  && s.calls[|s.calls| - 1] == SendMessage(tree)
                  && (s.status == Published(tree) <==> rec.io.sendOk)
                  && (s.status.Failed? <==> !rec.io.sendOk))
  {
    var s := MessageStep(rec, bucket);
    if KnownShape(rec) {
      var root := rec.parse.root;
      var n := Normalise(root, Detect(root), bucket, rec.io);
      NormaliseSendsNothing(root, Detect(root), bucket, rec.io);
      SendsAppend(n.calls, [SendMessage(n.tree)]);
    }
  }

  /** How a batch ends: every record handled, or the exception of record index rethrown. */
  datatype BatchOutcome = Completed | Aborted(index: nat)

  datatype BatchRun = BatchRun(calls: seq<Call>, outcome: BatchOutcome)

  /** What each record of a batch leads to, in order. */
  function Steps(records: seq<Record>, bucket: string): (steps: seq<Step>)
    ensures |steps| == |records|
    ensures forall i | 0 <= i < |records| :: steps[i] == MessageStep(records[i], bucket)
  {
    seq(|records|, i requires 0 <= i < |records| => MessageStep(records[i], bucket))
  }

  /**
   * FunctionHandler over the records' steps, front to back: a failing record
   * ends the batch with its exception rethrown, and no later record is touched.
   */
  function Batch(steps: seq<Step>): (r: BatchRun)
    ensures r.outcome.Aborted? ==> r.outcome.index < |steps| && steps[r.outcome.index].status.Failed?
    decreases |steps|
  {
    if steps == [] then BatchRun([], Completed)
    else if steps[0].status.Failed? then BatchRun(steps[0].calls, Aborted(0))
    else
      var rest := Batch(steps[1..]);
      BatchRun(steps[0].calls + rest.calls,
               match rest.outcome
               case Completed => Completed
               case Aborted(i) => Aborted(i + 1))
  }

  /** The calls of the steps, in order (built from the back, as a loop over them accumulates). */
  function StepCalls(steps: seq<Step>): seq<Call>
    decreases |steps|
  {
    if steps == [] then [] else StepCalls(steps[..|steps| - 1]) + steps[|steps| - 1].calls
  }

  /** A trace that held the calls of the first i steps and then gained step i's calls holds those of the first i + 1. */
  lemma StepCallsExtend(start: seq<Call>, before: seq<Call>, after: seq<Call>, steps: seq<Step>, i: nat)
    requires i < |steps|
    requires before == start + StepCalls(steps[..i])
    requires after == before + steps[i].calls
    ensures after == start + StepCalls(steps[..i + 1])
  {
    assert steps[..i + 1][..i] == steps[..i];
  }

  lemma {:induction false} StepCallsCons(steps: seq<Step>)
    requires steps != []
    ensures StepCalls(steps) == steps[0].calls + StepCalls(steps[1..])
    decreases |steps|
  {
    if |steps| > 1 {
      var init := steps[..|steps| - 1];
      var last := steps[|steps| - 1];
      var tail := steps[1..];
      StepCallsCons(init);
      assert init[0] == steps[0];
      assert init[1..] == tail[..|tail| - 1];
      assert tail[|tail| - 1] == last;
      calc {
        StepCalls(steps);
        StepCalls(init) + last.calls;
        (steps[0].calls + StepCalls(init[1..])) + last.calls;
        steps[0].calls + (StepCalls(init[1..]) + last.calls);
        steps[0].calls + StepCalls(tail);
      }
    } else {
      assert steps[..0] == [] && steps[1..] == [];
    }
  }

  /** No step before index i failed. */
  predicate NoFailureBefore(steps: seq<Step>, i: nat)
    requires i <= |steps|
  {
    forall j | 0 <= j < i :: !steps[j].status.Failed?
  }

  /**
   * The batch stops at its first failing record, and only there: it is
   * aborted at i exactly when record i fails and no earlier one does, and it
   * completes exactly when no record fails. Its calls are those of the
   * records up to and including the one it stopped at, in order.
   */
  lemma BatchStopsAtFirstFailure(steps: seq<Step>)
    ensures Batch(steps).outcome.Completed? <==> NoFailureBefore(steps, |steps|)
    ensures Batch(steps).outcome.Completed? ==> Batch(steps).calls == StepCalls(steps)
    ensures forall i | 0 <= i < |steps| ::
              Batch(steps).outcome == Aborted(i) <==> steps[i].status.Failed? && NoFailureBefore(steps, i)
    ensures Batch(steps).outcome.Aborted? ==>
              Batch(steps).calls == StepCalls(steps[..Batch(steps).outcome.index + 1])
  {
    BatchOutcomeIsFirstFailure(steps);
    BatchCallsUpToStop(steps);
  }

  /** The outcome half: aborted at the first failing record, completed when there is none. */
  lemma {:induction false} BatchOutcomeIsFirstFailure(steps: seq<Step>)
    ensures Batch(steps).outcome.Completed? <==> NoFailureBefore(steps, |steps|)
    ensures forall i | 0 <= i < |steps| ::
              Batch(steps).outcome == Aborted(i) <==> steps[i].status.Failed? && NoFailureBefore(steps, i)
    decreases |steps|
  {
    if steps != [] && !steps[0].status.Failed? {
      var r := Batch(steps);
      var tail := steps[1..];
      BatchOutcomeIsFirstFailure(tail);
      assert NoFailureBefore(steps, |steps|) <==> NoFailureBefore(tail, |tail|) by {
        assert forall j | 0 < j < |steps| :: steps[j] == tail[j - 1];
      }
      forall i | 0 <= i < |steps|
        ensures r.outcome == Aborted(i) <==> steps[i].status.Failed? && NoFailureBefore(steps, i)
      {
        if i > 0 {
          assert steps[i] == tail[i - 1];
          assert NoFailureBefore(steps, i) <==> NoFailureBefore(tail, i - 1) by {
            assert forall j | 0 < j < i :: steps[j] == tail[j - 1];
          }
        }
      }
    }
  }

  /** The calls half: those of every record when completed, of the records up to the stop when aborted. */
  lemma {:induction false} BatchCallsUpToStop(steps: seq<Step>)
    ensures Batch(steps).outcome.Completed? ==> Batch(steps).calls == StepCalls(steps)
    ensures Batch(steps).outcome.Aborted? ==>
              Batch(steps).calls == StepCalls(steps[..Batch(steps).outcome.index + 1])
    decreases |steps|
  {
    if steps != [] {
      var r := Batch(steps);
      if steps[0].status.Failed? {
        assert steps[..1] == [steps[0]];
        assert steps[..1][..0] == [];
      } else {
        var tail := steps[1..];
        BatchCallsUpToStop(tail);
        StepCallsCons(steps);
        if r.outcome.Aborted? {
          var k := r.outcome.index;
          var prefix := steps[..k + 1];
          StepCallsCons(prefix);
          assert prefix[1..] == tail[..k];
        }
      }
    }
  }
}
