/**
 * `pullMessages`: one pull cycle on the Gmail push subscription. Each pulled
 * notification is resolved with `fetchMessage`, strictly in order; the truthy
 * ack ids are collected and acknowledged in one batched call at the end. A
 * throw anywhere in the loop ends the cycle before anything is acknowledged.
 */
module PubSubPull {
  import opened Js
  import opened GmailFetch

  /** The pull request: subscription name and batch bound. */
  datatype PullRequest = PullRequest(subscription: string, maxMessages: nat)

  /** One `receivedMessages` entry; `data` is the notification's JSON text. */
  datatype ReceivedMessage = ReceivedMessage(ackId: string, data: string)

  /** The pull response; `receivedMessages` is absent when nothing is pending. */
  datatype PullResponse = PullResponse(receivedMessages: Option<seq<ReceivedMessage>>)

  /** The batched acknowledge request. */
  datatype AckRequest = AckRequest(subscription: string, ackIds: seq<string>)

  /** The subscriber client: each call answers or throws. */
  datatype PubSub = PubSub(
    pull: PullRequest -> Result<PullResponse>,
    acknowledge: AckRequest -> Outcome)

  /**
   * What one cycle did: the pull request it sent, the acknowledge request it
   * sent if any, and the error that ended it if any.
   */
  datatype PullCycle = PullCycle(pulled: PullRequest, acknowledged: Option<AckRequest>, failure: Option<Error>)

  const SubscriptionName := "projects/gmail-webhook-454508/subscriptions/MailHook-sub"
  const MaxMessages: nat := 1
  const Request := PullRequest(SubscriptionName, MaxMessages)

  /** `response.receivedMessages || []`. */
  function Batch(response: PullResponse): seq<ReceivedMessage> {
    response.receivedMessages.GetOr([])
  }

  /** The loop body for one notification: parse its data, read `historyId`, fetch. */
  function ProcessNotification(m: ReceivedMessage, parse: Parser, gmail: GmailApi, decode: Decoder): (r: Result<MessageInfo>)
    ensures parse(m.data).Throw? ==> r == Throw(parse(m.data).error)
    ensures parse(m.data).Ok? && Nullish(parse(m.data).value) ==> r.Throw?
    ensures parse(m.data).Ok? && !Nullish(parse(m.data).value) ==>
      r == FetchMessage(gmail, decode, Get(parse(m.data).value, "historyId").value)
  {
    var data :- parse(m.data);
    var historyId :- Get(data, "historyId");
    FetchMessage(gmail, decode, historyId)
  }

  /**
   * Reference definition of the acknowledgement list: the truthy ack ids of
   * the batch, in batch order.
   */
  function TruthyAckIds(batch: seq<ReceivedMessage>): (r: seq<string>)
    ensures |r| <= |batch|
    ensures forall k :: 0 <= k < |r| ==> r[k] != ""
    ensures forall x :: x in r <==> exists i :: 0 <= i < |batch| && batch[i].ackId == x && x != ""
    ensures (forall i :: 0 <= i < |batch| ==> batch[i].ackId != "") ==>
      r == seq(|batch|, i requires 0 <= i < |batch| => batch[i].ackId)
    decreases |batch|
  {
    if |batch| == 0 then []
    else
      var rest := TruthyAckIds(batch[1..]);
      assert forall i :: 1 <= i < |batch| ==> batch[i] == batch[1..][i - 1];
      if batch[0].ackId != "" then [batch[0].ackId] + rest else rest
  }

  /** A single notification contributes its ack id exactly when that id is truthy. */
  lemma TruthyAckIdsSingle(m: ReceivedMessage)
    ensures TruthyAckIds([m]) == if m.ackId != "" then [m.ackId] else []
  {
  }

  /**
   * The ack ids of a concatenation are the ack ids of each half, in order:
   * together with the single-notification case this fixes the order and the
   * multiplicity of every id collected.
   */
  lemma {:induction false} TruthyAckIdsAppend(a: seq<ReceivedMessage>, b: seq<ReceivedMessage>)
    ensures TruthyAckIds(a + b) == TruthyAckIds(a) + TruthyAckIds(b)
    decreases |a|
  {
    if |a| > 0 {
      assert (a + b)[0] == a[0];
      assert (a + b)[1..] == a[1..] + b;
      TruthyAckIdsAppend(a[1..], b);
    } else {
      assert a + b == b;
    }
  }

  /** The loop body as one step, with the parser, Gmail client and decoder fixed. */
  function Processor(parse: Parser, gmail: GmailApi, decode: Decoder): ReceivedMessage -> Result<MessageInfo> {
    m => ProcessNotification(m, parse, gmail, decode)
  }

  /** Notification `i` is the first of the batch to throw, and it throws `e`. */
  predicate FirstFailure(batch: seq<ReceivedMessage>, process: ReceivedMessage -> Result<MessageInfo>, i: int, e: Error) {
    && 0 <= i < |batch|
    && process(batch[i]) == Throw(e)
    && forall j :: 0 <= j < i ==> process(batch[j]).Ok?
  }

  /**
   * The `for` loop as a fold: the ack ids collected, or the first error thrown.
   * A throw discards what was collected so far.
   */
  function CollectAcks(batch: seq<ReceivedMessage>, process: ReceivedMessage -> Result<MessageInfo>): (r: Result<seq<string>>)
    ensures r.Ok? <==> forall i :: 0 <= i < |batch| ==> process(batch[i]).Ok?
    ensures r.Ok? ==> r.value == TruthyAckIds(batch)
    ensures r.Throw? ==> exists i :: FirstFailure(batch, process, i, r.error)
    decreases |batch|
  {
    if |batch| == 0 then Ok([])
    else
      match process(batch[0])
      case Throw(e) =>
        assert FirstFailure(batch, process, 0, e);
        Throw(e)
      case Ok(_) =>
        match CollectAcks(batch[1..], process)
        case Throw(e) =>
          var i :| FirstFailure(batch[1..], process, i, e);
          assert FirstFailure(batch, process, i + 1, e);
          Throw(e)
        case Ok(rest) =>
          Ok(if batch[0].ackId != "" then [batch[0].ackId] + rest else rest)
  }

  /** `pullMessages()`. */
  function PullMessages(pubsub: PubSub, parse: Parser, gmail: GmailApi, decode: Decoder): (r: PullCycle)
    ensures r.pulled == PullRequest(SubscriptionName, 1)
    ensures pubsub.pull(Request).Throw? ==>
      r.acknowledged.None? && r.failure == Some(pubsub.pull(Request).error)
    ensures pubsub.pull(Request).Ok? ==>
      var batch := Batch(pubsub.pull(Request).value);
      && (r.acknowledged.Some? <==>
            CollectAcks(batch, Processor(parse, gmail, decode)).Ok? && TruthyAckIds(batch) != [])
      && (r.acknowledged.Some? ==> r.acknowledged.value == AckRequest(SubscriptionName, TruthyAckIds(batch)))
      && (CollectAcks(batch, Processor(parse, gmail, decode)).Throw? ==>
            r.failure == Some(CollectAcks(batch, Processor(parse, gmail, decode)).error))
      && (CollectAcks(batch, Processor(parse, gmail, decode)).Ok? ==>
            r.failure == (match r.acknowledged
                          case None => None
                          case Some(req) => if pubsub.acknowledge(req).Fail? then Some(pubsub.acknowledge(req).error) else None))
  {
    match pubsub.pull(Request)
    case Throw(e) => PullCycle(Request, None, Some(e))
    case Ok(response) =>
      match CollectAcks(Batch(response), Processor(parse, gmail, decode))
      case Throw(e) => PullCycle(Request, None, Some(e))
      case Ok(ackIds) =>
        if |ackIds| == 0 then PullCycle(Request, None, None)
        else
          var req := AckRequest(SubscriptionName, ackIds);
          match pubsub.acknowledge(req)
          case Pass => PullCycle(Request, Some(req), None)
          case Fail(e) => PullCycle(Request, Some(req), Some(e))
  }

  /**
   * If any notification of the batch throws, the cycle ends with that error
   * and no notification of the batch is acknowledged.
   */
  lemma FailureAcknowledgesNothing(pubsub: PubSub, parse: Parser, gmail: GmailApi, decode: Decoder, response: PullResponse, i: nat)
    requires pubsub.pull(Request) == Ok(response)
    requires i < |Batch(response)| && ProcessNotification(Batch(response)[i], parse, gmail, decode).Throw?
    ensures PullMessages(pubsub, parse, gmail, decode).acknowledged.None?
    ensures PullMessages(pubsub, parse, gmail, decode).failure.Some?
  {
  }

  /**
   * When every notification is processed, each truthy ack id is collected,
   * whether its notification resolved to a valid record or to `{ valid: false }`.
   */
  lemma EveryTruthyAckIdCollected(batch: seq<ReceivedMessage>, process: ReceivedMessage -> Result<MessageInfo>, i: nat)
    requires forall k :: 0 <= k < |batch| ==> process(batch[k]).Ok?
    requires i < |batch| && batch[i].ackId != ""
    ensures CollectAcks(batch, process).Ok?
    ensures batch[i].ackId in CollectAcks(batch, process).value
  {
    assert batch[i].ackId in TruthyAckIds(batch);
  }

  /** An absent `receivedMessages` is an empty batch: nothing is fetched or acknowledged. */
  lemma AbsentBatchIsEmpty(pubsub: PubSub, parse: Parser, gmail: GmailApi, decode: Decoder)
    requires pubsub.pull(Request) == Ok(PullResponse(None))
    ensures PullMessages(pubsub, parse, gmail, decode) == PullCycle(Request, None, None)
  {
  }

  /**
   * The acknowledgement list depends on the ack ids alone: two fully processed
   * batches with the same ack ids acknowledge the same list, whatever their
   * notifications resolved to.
   */
  lemma AcksIndependentOfRecords(b1: seq<ReceivedMessage>, b2: seq<ReceivedMessage>, process: ReceivedMessage -> Result<MessageInfo>)
    requires |b1| == |b2| && forall i :: 0 <= i < |b1| ==> b1[i].ackId == b2[i].ackId
    requires forall i :: 0 <= i < |b1| ==> process(b1[i]).Ok? && process(b2[i]).Ok?
    ensures CollectAcks(b1, process) == CollectAcks(b2, process)
  {
    SameAckIds(b1, b2);
  }

  lemma {:induction false} SameAckIds(b1: seq<ReceivedMessage>, b2: seq<ReceivedMessage>)
    requires |b1| == |b2| && forall i :: 0 <= i < |b1| ==> b1[i].ackId == b2[i].ackId
    ensures TruthyAckIds(b1) == TruthyAckIds(b2)
    decreases |b1|
  {
    if |b1| > 0 {
      SameAckIds(b1[1..], b2[1..]);
    }
  }
}
