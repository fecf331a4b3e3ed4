/**
 * app/agents/negotiation_agent.py: one agent bargains with one seller for
 * at most three rounds. Each round it sends the generated message (logged
 * only when the send succeeds), reads the seller's reply (logged when not
 * empty), extracts a price from it, adopts that price when it is lower, and
 * stops once the adopted price is at or below the target.
 *
 * What each round consumes from outside is an input: the generated message,
 * what `get_seller_response` returned, and the random discount draw of the
 * price heuristic. Timestamps of the log entries and the two-second pause
 * between rounds are not modelled.
 */
module Negotiation {
  import opened Wrappers
  import opened Schema
  import opened BaseAgents
  import opened Goofish
  import opened PriceExtraction

  /** The key under which `execute` looks up the shared service in its task data. */
  const ServiceKey: string := "goofish_service"

  /** The error returned when the task data holds no service under `ServiceKey` (咸鱼服务实例: "Xianyu service instance" missing). */
  const MissingServiceError: string := "缺少咸鱼服务实例"

  /** What one round consumes: the generated message, the seller's reply, the discount draw. */
  datatype RoundInput = RoundInput(message: string, reply: Option<string>, discount: real)

  /** `random.uniform(5, 15)` lies in [5, 15]. */
  predicate ValidRounds(rounds: seq<RoundInput>) {
    forall i :: 0 <= i < |rounds| ==> 5.0 <= rounds[i].discount <= 15.0
  }

  /** The task data: the product, the target price (0 when missing) and whatever services were passed, by key. */
  datatype NegotiationTask = NegotiationTask(productInfo: ProductInfo, targetPrice: Option<real>, services: map<string, GoofishService>)

  /** The reply of `execute`: a finished negotiation, or a failure with no final price. */
  datatype NegotiationResult =
    | Negotiated(sellerId: string, finalPrice: real, conversationHistory: seq<MessageEntry>, rounds: nat)
    | NegotiationFailed(error: string, failedSellerId: Option<string>)

  /** How a negotiation ended: the price, the whole conversation log, and how many rounds ran. */
  datatype SessionEnd = SessionEnd(price: real, history: seq<MessageEntry>, roundsRun: nat)

  function Bump(e: SessionEnd): SessionEnd {
    e.(roundsRun := e.roundsRun + 1)
  }

  /**
   * The rounds of `_negotiate_with_seller` from price `price` and log
   * `history`, where `canSend` is what `send_message_to_seller` answers
   * (it depends only on the service's driver and login). The price never
   * rises, stays positive when it starts positive, and at most the given
   * rounds run.
   */
  function Session(price: real, target: real, canSend: bool, history: seq<MessageEntry>,
                   rounds: seq<RoundInput>): (e: SessionEnd)
    requires ValidRounds(rounds)
    ensures e.price <= price
    ensures price > 0.0 ==> e.price > 0.0
    ensures e.roundsRun <= |rounds|
    decreases |rounds|
  {
    if rounds == [] then SessionEnd(price, history, 0)
    else
      var r := rounds[0];
      var sent := if canSend then history + [MessageEntry("sent", r.message)] else history;
      if r.reply.Some? && r.reply.value != "" then
        var received := sent + [MessageEntry("received", r.reply.value)];
        var newPrice := ExtractPrice(r.reply.value, price, r.discount);
        if newPrice != 0.0 && newPrice < price then
          if newPrice <= target then SessionEnd(newPrice, received, 1)
          else Bump(Session(newPrice, target, canSend, received, rounds[1..]))
        else Bump(Session(price, target, canSend, received, rounds[1..]))
      else Bump(Session(price, target, canSend, sent, rounds[1..]))
  }

  /**
   * A negotiation ends before its last round only by reaching the target:
   * the price then is at most the target and strictly below where it
   * started. Conversely, a negotiation that ends above the target ran every
   * round.
   */
  lemma {:induction false} SessionStopsOnlyAtTarget(price: real, target: real, canSend: bool,
                                                    history: seq<MessageEntry>, rounds: seq<RoundInput>)
    requires ValidRounds(rounds)
    ensures var e := Session(price, target, canSend, history, rounds);
      e.roundsRun < |rounds| ==> e.price <= target && e.price < price
    decreases |rounds|
  {
    if rounds != [] {
      var r := rounds[0];
      var sent := if canSend then history + [MessageEntry("sent", r.message)] else history;
      if r.reply.Some? && r.reply.value != "" {
        var received := sent + [MessageEntry("received", r.reply.value)];
        var newPrice := ExtractPrice(r.reply.value, price, r.discount);
        if newPrice != 0.0 && newPrice < price {
          if newPrice > target {
            SessionStopsOnlyAtTarget(newPrice, target, canSend, received, rounds[1..]);
          }
        } else {
          SessionStopsOnlyAtTarget(price, target, canSend, received, rounds[1..]);
        }
      } else {
        SessionStopsOnlyAtTarget(price, target, canSend, sent, rounds[1..]);
      }
    }
  }

  /** The price after one round, when the round does not end the negotiation: lowered only by a smaller, non-zero extracted price. */
  function RoundPrice(price: real, r: RoundInput): real
    requires 5.0 <= r.discount <= 15.0
  {
    if r.reply.Some? && r.reply.value != "" then
      var newPrice := ExtractPrice(r.reply.value, price, r.discount);
      if newPrice != 0.0 && newPrice < price then newPrice else price
    else price
  }

  /** Round `r`, entered at `price`, lowers the price to the target or below: the loop breaks after it. */
  predicate ReachesTarget(price: real, target: real, r: RoundInput)
    requires 5.0 <= r.discount <= 15.0
  {
    && r.reply.Some? && r.reply.value != ""
    && var newPrice := ExtractPrice(r.reply.value, price, r.discount);
       newPrice != 0.0 && newPrice < price && newPrice <= target
  }

  /** The price on entering round `j` when none of the rounds before it ended the negotiation. */
  function PriceBefore(price: real, rounds: seq<RoundInput>, j: nat): real
    requires ValidRounds(rounds) && j <= |rounds|
    decreases j
  {
    if j == 0 then price else PriceBefore(RoundPrice(price, rounds[0]), rounds[1..], j - 1)
  }

  /** The log after a round: the sent message when the seller can be messaged, then the seller's reply when there is one. */
  function RoundLog(canSend: bool, history: seq<MessageEntry>, r: RoundInput): seq<MessageEntry> {
    var sent := if canSend then history + [MessageEntry("sent", r.message)] else history;
    if r.reply.Some? && r.reply.value != "" then sent + [MessageEntry("received", r.reply.value)] else sent
  }

  /** A round that does not reach the target hands its `RoundPrice` and `RoundLog` to the remaining rounds. */
  lemma SessionContinues(price: real, target: real, canSend: bool, history: seq<MessageEntry>, rounds: seq<RoundInput>)
    requires ValidRounds(rounds) && rounds != [] && !ReachesTarget(price, target, rounds[0])
    ensures Session(price, target, canSend, history, rounds)
      == Bump(Session(RoundPrice(price, rounds[0]), target, canSend, RoundLog(canSend, history, rounds[0]), rounds[1..]))
  {
  }

  /**
   * The break of the round loop: when round `j` is the first to lower the
   * price to the target or below, exactly `j + 1` rounds run and the
   * negotiation ends at that round's price.
   */
  lemma {:induction false} SessionStopsAtFirstTargetRound(price: real, target: real, canSend: bool,
                                                          history: seq<MessageEntry>, rounds: seq<RoundInput>, j: nat)
    requires ValidRounds(rounds) && j < |rounds|
    requires forall i :: 0 <= i < j ==> !ReachesTarget(PriceBefore(price, rounds, i), target, rounds[i])
    requires ReachesTarget(PriceBefore(price, rounds, j), target, rounds[j])
    ensures var e := Session(price, target, canSend, history, rounds);
      e.roundsRun == j + 1 && e.price == RoundPrice(PriceBefore(price, rounds, j), rounds[j])
    decreases j
  {
    if j > 0 {
      var next := RoundPrice(price, rounds[0]);
      assert !ReachesTarget(PriceBefore(price, rounds, 0), target, rounds[0]);
      forall i | 0 <= i < j - 1
        ensures !ReachesTarget(PriceBefore(next, rounds[1..], i), target, rounds[1..][i])
      {
        assert PriceBefore(price, rounds, i + 1) == PriceBefore(next, rounds[1..], i);
        assert rounds[1..][i] == rounds[i + 1];
      }
      assert PriceBefore(price, rounds, j) == PriceBefore(next, rounds[1..], j - 1);
      SessionContinues(price, target, canSend, history, rounds);
      var h := RoundLog(canSend, history, rounds[0]);
      SessionStopsAtFirstTargetRound(next, target, canSend, h, rounds[1..], j - 1);
    }
  }

  /** Without a round that reaches the target, every round runs and the price is the one the rounds lead to. */
  lemma {:induction false} SessionRunsAllRounds(price: real, target: real, canSend: bool,
                                                history: seq<MessageEntry>, rounds: seq<RoundInput>)
    requires ValidRounds(rounds)
    requires forall i :: 0 <= i < |rounds| ==> !ReachesTarget(PriceBefore(price, rounds, i), target, rounds[i])
    ensures var e := Session(price, target, canSend, history, rounds);
      e.roundsRun == |rounds| && e.price == PriceBefore(price, rounds, |rounds|)
    decreases |rounds|
  {
    if rounds != [] {
      var next := RoundPrice(price, rounds[0]);
      assert !ReachesTarget(PriceBefore(price, rounds, 0), target, rounds[0]);
      forall i | 0 <= i < |rounds| - 1
        ensures !ReachesTarget(PriceBefore(next, rounds[1..], i), target, rounds[1..][i])
      {
        assert PriceBefore(price, rounds, i + 1) == PriceBefore(next, rounds[1..], i);
        assert rounds[1..][i] == rounds[i + 1];
      }
      assert PriceBefore(price, rounds, |rounds|) == PriceBefore(next, rounds[1..], |rounds| - 1);
      SessionContinues(price, target, canSend, history, rounds);
      var h := RoundLog(canSend, history, rounds[0]);
      SessionRunsAllRounds(next, target, canSend, h, rounds[1..]);
    }
  }

  /**
   * Whatever the replies, the log only grows: it keeps the old entries as a
   * prefix, gains at most two entries per round that ran, and gains a
   * "sent" entry only when sending works.
   */
  lemma {:induction false} SessionLogBound(price: real, target: real, canSend: bool,
                                           history: seq<MessageEntry>, rounds: seq<RoundInput>)
    requires ValidRounds(rounds)
    ensures var e := Session(price, target, canSend, history, rounds);
      && |history| <= |e.history| <= |history| + 2 * e.roundsRun
      && e.history[..|history|] == history
      && LogsRounds(e.history, |history|, canSend)
    decreases |rounds|
  {
    if rounds != [] {
      var r := rounds[0];
      var sent := if canSend then history + [MessageEntry("sent", r.message)] else history;
      var e := Session(price, target, canSend, history, rounds);
      RoundLogged(history, canSend, sent, r.message, r.reply);
      if r.reply.Some? && r.reply.value != "" {
        var received := sent + [MessageEntry("received", r.reply.value)];
        var newPrice := ExtractPrice(r.reply.value, price, r.discount);
        if newPrice != 0.0 && newPrice < price && newPrice <= target {
          assert e == SessionEnd(newPrice, received, 1);
        } else {
          var next := if newPrice != 0.0 && newPrice < price then newPrice else price;
          SessionLogBound(next, target, canSend, received, rounds[1..]);
          var rest := Session(next, target, canSend, received, rounds[1..]);
          assert e == Bump(rest);
          LogExtends(history, received, rest.history, canSend);
        }
      } else {
        SessionLogBound(price, target, canSend, sent, rounds[1..]);
        var rest := Session(price, target, canSend, sent, rounds[1..]);
        assert e == Bump(rest);
        LogExtends(history, sent, rest.history, canSend);
      }
    }
  }

  /** One round's entries: the message when sending works, then the reply when there is one. */
  lemma RoundLogged(history: seq<MessageEntry>, canSend: bool, sent: seq<MessageEntry>, message: string, reply: Option<string>)
    requires sent == if canSend then history + [MessageEntry("sent", message)] else history
    ensures |sent| == |history| + (if canSend then 1 else 0)
    ensures sent[..|history|] == history && LogsRounds(sent, |history|, canSend)
    ensures reply.Some? ==>
      var received := sent + [MessageEntry("received", reply.value)];
      received[..|history|] == history && LogsRounds(received, |history|, canSend)
  {
    assert sent[..|history|] == history;
    if reply.Some? {
      var received := sent + [MessageEntry("received", reply.value)];
      assert received[..|history|] == history;
    }
  }

  /** A log extending `mid`, which extends `history`, extends `history`, with the same kinds of new entries. */
  lemma LogExtends(history: seq<MessageEntry>, mid: seq<MessageEntry>, full: seq<MessageEntry>, canSend: bool)
    requires |history| <= |mid| <= |full|
    requires mid[..|history|] == history && full[..|mid|] == mid
    requires LogsRounds(mid, |history|, canSend) && LogsRounds(full, |mid|, canSend)
    ensures full[..|history|] == history && LogsRounds(full, |history|, canSend)
  {
    assert full[..|history|] == full[..|mid|][..|history|];
    forall k | |history| <= k < |full|
      ensures full[k].kind == "received" || (canSend && full[k].kind == "sent")
    {
      if k < |mid| {
        assert full[k] == full[..|mid|][k];
      }
    }
  }

  /** Starting from an empty log, three rounds log at most six entries and report at most three rounds. */
  lemma ThreeRoundsAtMostSixEntries(price: real, target: real, canSend: bool, rounds: seq<RoundInput>)
    requires ValidRounds(rounds) && |rounds| == 3
    ensures var e := Session(price, target, canSend, [], rounds);
      |e.history| <= 6 && |e.history| / 2 <= 3
  {
    SessionLogBound(price, target, canSend, [], rounds);
  }

  /**
   * A seller who answers the first round with the third canned reply ("at
   * most 10 kuai cheaper") ends the negotiation at once at price 10 whenever
   * the price was above 10 and the target is at least 10.
   */
  lemma TenKuaiReplyEndsAtTen(price: real, target: real, canSend: bool,
                              history: seq<MessageEntry>, rounds: seq<RoundInput>)
    requires ValidRounds(rounds) && rounds != []
    requires rounds[0].reply == Some(CannedReplies[2])
    requires price > 10.0 && target >= 10.0
    ensures var e := Session(price, target, canSend, history, rounds);
      e.price == 10.0 && e.roundsRun == 1
  {
    assert CannedReplies[2] == TenKuaiReply;
    CannedDiscountReplyReadsAsTen(rounds[0].discount, price);
  }

  /** Every reply is one the simulated service gives: present, and one of the canned texts. */
  predicate CannedRounds(rounds: seq<RoundInput>) {
    forall i :: 0 <= i < |rounds| ==> rounds[i].reply.Some? && rounds[i].reply.value in CannedReplies
  }

  /** The entries from index `from` on: "sent" entries only when sending works, and replies as "received". */
  predicate LogsRounds(entries: seq<MessageEntry>, from: nat, canSend: bool) {
    forall k :: from <= k < |entries| ==>
      (entries[k].kind == "received" || (canSend && entries[k].kind == "sent"))
  }

  /**
   * With the simulated service's replies, every round that runs logs the
   * reply, and logs the message too exactly when sending works: the log
   * grows by two entries per round with a logged-in service and by one
   * without, and holds no "sent" entry without one.
   */
  lemma {:induction false} SessionLogShape(price: real, target: real, canSend: bool,
                                           history: seq<MessageEntry>, rounds: seq<RoundInput>)
    requires ValidRounds(rounds) && CannedRounds(rounds)
    ensures var e := Session(price, target, canSend, history, rounds);
      && |history| <= |e.history|
      && e.history[..|history|] == history
      && |e.history| == |history| + (if canSend then 2 else 1) * e.roundsRun
      && LogsRounds(e.history, |history|, canSend)
    decreases |rounds|
  {
    if rounds != [] {
      var r := rounds[0];
      var sent := if canSend then history + [MessageEntry("sent", r.message)] else history;
      assert r.reply.value in CannedReplies;
      assert r.reply.value != "";
      var received := sent + [MessageEntry("received", r.reply.value)];
      var newPrice := ExtractPrice(r.reply.value, price, r.discount);
      var e := Session(price, target, canSend, history, rounds);
      RoundLogged(history, canSend, sent, r.message, r.reply);
      if newPrice != 0.0 && newPrice < price && newPrice <= target {
        assert e == SessionEnd(newPrice, received, 1);
      } else {
        var next := if newPrice != 0.0 && newPrice < price then newPrice else price;
        assert CannedRounds(rounds[1..]);
        SessionLogShape(next, target, canSend, received, rounds[1..]);
        var rest := Session(next, target, canSend, received, rounds[1..]);
        assert e == Bump(rest);
        LogExtends(history, received, rest.history, canSend);
      }
    }
  }

  /**
   * The reported `rounds` (half the log length, rounded down) equals the
   * rounds that ran only when sending works; without a logged-in service
   * it reports half of them.
   */
  lemma ReportedRounds(price: real, target: real, canSend: bool, rounds: seq<RoundInput>)
    requires ValidRounds(rounds) && CannedRounds(rounds)
    ensures var e := Session(price, target, canSend, [], rounds);
      |e.history| / 2 == if canSend then e.roundsRun else e.roundsRun / 2
  {
    SessionLogShape(price, target, canSend, [], rounds);
  }

  class NegotiationAgent {
    const base: BaseAgent
    const sellerId: string
    var goofishService: GoofishService?
    var conversationHistory: seq<MessageEntry>
    const maxRounds: nat

    /** A new agent of type "negotiation_agent" for `sellerId`: no service, an empty log, at most three rounds. */
    constructor (agentId: string, sellerId: string, now: int)
      ensures fresh(base)
      ensures base.agentId == agentId && base.agentType == "negotiation_agent" && base.status == "idle"
      ensures this.sellerId == sellerId && goofishService == null && conversationHistory == [] && maxRounds == 3
    {
      base := new BaseAgent(agentId, "negotiation_agent", now);
      this.sellerId := sellerId;
      goofishService := null;
      conversationHistory := [];
      maxRounds := 3;
    }

    /**
     * `_negotiate_with_seller(product_info, target_price)`: runs the rounds
     * and returns the final price; the log ends as `Session` says.
     */
    method NegotiateWithSeller(productInfo: ProductInfo, targetPrice: real, rounds: seq<RoundInput>)
      returns (finalPrice: real)
      requires goofishService != null
      requires maxRounds <= |rounds| && ValidRounds(rounds)
      modifies this
      ensures goofishService == old(goofishService)
      ensures var e := Session(productInfo.price, targetPrice, goofishService.SendMessageToSeller(sellerId, ""),
                               old(conversationHistory), rounds[..maxRounds]);
        finalPrice == e.price && conversationHistory == e.history
    {
      var currentPrice := productInfo.price;
      var plan := rounds[..maxRounds];
      ghost var canSend := goofishService.SendMessageToSeller(sellerId, "");
      ghost var whole := Session(currentPrice, targetPrice, canSend, conversationHistory, plan);
      for roundNum := 0 to maxRounds
        invariant goofishService == old(goofishService)
        invariant var rest := Session(currentPrice, targetPrice, canSend, conversationHistory, plan[roundNum..]);
          whole.price == rest.price && whole.history == rest.history
      {
        var r := plan[roundNum];
        assert plan[roundNum..][1..] == plan[roundNum + 1..];
        var success := goofishService.SendMessageToSeller(sellerId, r.message);
        if success {
          conversationHistory := conversationHistory + [MessageEntry("sent", r.message)];
        }
        var response := r.reply;
        if response.Some? && response.value != "" {
          conversationHistory := conversationHistory + [MessageEntry("received", response.value)];
          var newPrice := ExtractPrice(response.value, currentPrice, r.discount);
          if newPrice != 0.0 && newPrice < currentPrice {
            currentPrice := newPrice;
            if currentPrice <= targetPrice {
              break;
            }
          }
        }
      }
      return currentPrice;
    }

    /**
     * `execute(task_data)`. Without a service under "goofish_service" it
     * fails with "缺少咸鱼服务实例" and leaves the status at "initializing";
     * an exception raised while negotiating (`fault`) fails with its text
     * and status "failed"; otherwise the negotiation runs and the reply
     * carries the final price, the log and half the log length as rounds.
     */
    method Execute(task: NegotiationTask, rounds: seq<RoundInput>, fault: Option<string>, now: int)
      returns (result: NegotiationResult)
      requires maxRounds <= |rounds| && ValidRounds(rounds)
      modifies this, base
      ensures ServiceKey !in task.services ==>
        && result == NegotiationFailed(MissingServiceError, None)
        && base.status == "initializing"
        && goofishService == old(goofishService) && conversationHistory == old(conversationHistory)
      ensures ServiceKey in task.services && fault.Some? ==>
        && result == NegotiationFailed(fault.value, None)
        && base.status == "failed"
        && conversationHistory == old(conversationHistory)
      ensures ServiceKey in task.services && fault.None? ==>
        var svc := task.services[ServiceKey];
        var e := Session(task.productInfo.price, task.targetPrice.GetOr(0.0), svc.hasDriver && svc.isLoggedIn,
                         old(conversationHistory), rounds[..maxRounds]);
        && goofishService == svc
        && result == Negotiated(sellerId, e.price, e.history, |e.history| / 2)
        && base.status == "completed"
    {
      base.UpdateStatus("initializing", now);
      var productInfo := task.productInfo;
      var targetPrice := task.targetPrice.GetOr(0.0);
      if ServiceKey !in task.services {
        return NegotiationFailed(MissingServiceError, None);
      }
      goofishService := task.services[ServiceKey];

      base.UpdateStatus("negotiating", now);
      if fault.Some? {
        base.UpdateStatus("failed", now);
        return NegotiationFailed(fault.value, None);
      }
      var finalPrice := NegotiateWithSeller(productInfo, targetPrice, rounds);

      base.UpdateStatus("completed", now);
      return Negotiated(sellerId, finalPrice, conversationHistory, |conversationHistory| / 2);
    }
  }
}
