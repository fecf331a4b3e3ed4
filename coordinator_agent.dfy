/**
 * app/agents/coordinator_agent.py: the coordinator runs one comparison
 * task. It creates a progress record, runs the search agent, negotiates
 * with the sellers of the first five products, picks the best deal, and
 * moves the record through fixed status/percentage checkpoints.
 *
 * The concurrent fan-out is abstracted: the sessions run one after the
 * other on the data the coordinator builds, and whether the whole batch
 * hit the timeout is an input. What each session would read from its
 * seller (its rounds, or a fault) is an input too. The task id (a uuid in
 * the source) is passed in.
 *
 * The import of `XianyuService` inside `_parallel_negotiate` is modelled
 * by `serviceClasses`, the set of class names the service module
 * defines. `GoofishServiceClasses` is that set as the repository has it.
 */
module Coordinator {
  import opened Wrappers
  import opened Text
  import opened Schema
  import opened BaseAgents
  import opened Goofish
  import opened DeepSeek
  import opened Search
  import opened Negotiation

  /** `settings.MAX_CONCURRENT_AGENTS`. */
  const MaxConcurrentAgents: nat := 5

  /** `settings.AGENT_TIMEOUT`, in seconds: the batch limit behind the `timedOut` input. */
  const AgentTimeout: nat := 300

  /** The target price is this share of the price ceiling. */
  const TargetRatio: real := 0.8

  /** The key under which the coordinator passes the shared service to each session. */
  const SharedServiceKey: string := "xianyu_service"

  /** The error every slot gets when the batch times out (谈判超时: "negotiation timed out"). */
  const TimeoutError: string := "谈判超时"

  /** The class `_parallel_negotiate` imports from the service module. */
  const XianyuClass: string := "XianyuService"

  /** The classes app/services/goofish_service.py defines. */
  const GoofishServiceClasses: set<string> := {"GoofishService"}

  /** The text of the `ImportError` raised when `XianyuClass` is missing (Python appends the module's file path). */
  const ImportErrorText: string := "cannot import name 'XianyuService' from 'app.services.goofish_service'"

  // ---------------------------------------------------------------------
  // Candidate selection and session data
  // ---------------------------------------------------------------------

  /** The products negotiated: the first `min(len(products), 5)`. */
  function SelectCandidates(products: seq<ProductInfo>): (selected: seq<ProductInfo>)
    ensures |selected| == if |products| < MaxConcurrentAgents then |products| else MaxConcurrentAgents
    ensures selected == products[..|selected|]
  {
    products[..if |products| < MaxConcurrentAgents then |products| else MaxConcurrentAgents]
  }

  /** The task data each session receives: its product, the target, and the shared service under "xianyu_service". */
  function SessionTaskData(product: ProductInfo, targetPrice: real, shared: GoofishService): NegotiationTask {
    NegotiationTask(product, Some(targetPrice), map[SharedServiceKey := shared])
  }

  /**
   * A session run on the data the coordinator builds never finds its
   * service: the key it reads is not the key the coordinator writes, so it
   * fails with the missing-service error whatever else happens.
   */
  method SessionOnCoordinatorData(product: ProductInfo, targetPrice: real, shared: GoofishService,
                                  rounds: seq<RoundInput>, fault: Option<string>, now: int)
    returns (result: NegotiationResult)
    requires 3 <= |rounds| && ValidRounds(rounds)
    ensures result == NegotiationFailed(MissingServiceError, None)
  {
    var agent := new NegotiationAgent("negotiation", product.sellerId, now);
    var data := SessionTaskData(product, targetPrice, shared);
    assert ServiceKey !in data.services;
    result := agent.Execute(data, rounds, fault, now);
  }

  // ---------------------------------------------------------------------
  // Result assembly
  // ---------------------------------------------------------------------

  /** What `gather(..., return_exceptions=True)` yields for one session. */
  datatype SlotOutcome = Returned(result: NegotiationResult) | Raised(error: string)

  /** The result recorded for one slot: a returned result as is, an exception as a failure naming the seller. */
  function SlotResult(slot: SlotOutcome, sellerId: string): NegotiationResult {
    match slot
    case Returned(r) => r
    case Raised(e) => NegotiationFailed(e, Some(sellerId))
  }

  /** The result list of `_parallel_negotiate`: one entry per selected product, in order. */
  function GatheredResults(selected: seq<ProductInfo>, slots: seq<SlotOutcome>, timedOut: bool): (rs: seq<NegotiationResult>)
    requires |selected| <= |slots|
    ensures |rs| == |selected|
  {
    if timedOut then seq(|selected|, _ => NegotiationFailed(TimeoutError, None))
    else seq(|selected|, i requires 0 <= i < |selected| => SlotResult(slots[i], selected[i].sellerId))
  }

  /**
   * Without a timeout slot i carries session i's result, or a failure with
   * the exception text and seller i's id. With a timeout every slot is the
   * timeout failure, even a slot whose session had finished successfully.
   */
  lemma GatheredResultsBySlot(selected: seq<ProductInfo>, slots: seq<SlotOutcome>, timedOut: bool, i: nat)
    requires |selected| <= |slots| && i < |selected|
    ensures var r := GatheredResults(selected, slots, timedOut)[i];
      && (timedOut ==> r == NegotiationFailed(TimeoutError, None))
      && (!timedOut && slots[i].Returned? ==> r == slots[i].result)
      && (!timedOut && slots[i].Raised? ==> r == NegotiationFailed(slots[i].error, Some(selected[i].sellerId)))
  {
  }

  /** A timeout discards finished work: no slot reports a completed negotiation, whatever the sessions returned. */
  lemma TimeoutDiscardsFinishedWork(selected: seq<ProductInfo>, slots: seq<SlotOutcome>)
    requires |selected| <= |slots|
    ensures forall i :: 0 <= i < |selected| ==> !GatheredResults(selected, slots, true)[i].Negotiated?
  {
  }

  /** What `gather` collects from `n` sessions run on the coordinator's data: each returns the missing-service failure. */
  function MissingServiceSlots(n: nat): (slots: seq<SlotOutcome>)
    ensures |slots| == n
    ensures forall i :: 0 <= i < n ==> slots[i] == Returned(NegotiationFailed(MissingServiceError, None))
  {
    seq(n, _ => Returned(NegotiationFailed(MissingServiceError, None)))
  }

  /** No session on the coordinator's data negotiates: each result is the missing-service failure, or the timeout failure. */
  lemma NoSessionNegotiates(selected: seq<ProductInfo>, timedOut: bool)
    ensures forall i :: 0 <= i < |selected| ==>
      GatheredResults(selected, MissingServiceSlots(|selected|), timedOut)[i]
        == NegotiationFailed(if timedOut then TimeoutError else MissingServiceError, None)
  {
  }

  /** The round inputs and faults of the sessions: one each for the first five products, each with at least three rounds. */
  predicate ValidSessionInputs(sessionRounds: seq<seq<RoundInput>>, faults: seq<Option<string>>) {
    && MaxConcurrentAgents <= |sessionRounds| && MaxConcurrentAgents <= |faults|
    && forall i :: 0 <= i < |sessionRounds| ==> 3 <= |sessionRounds[i]| && ValidRounds(sessionRounds[i])
  }

  // ---------------------------------------------------------------------
  // The best deal
  // ---------------------------------------------------------------------

  /** The negotiated price of product `i`, when it has a successful negotiation. */
  function Settled(negotiations: seq<NegotiationResult>, i: nat): Option<real> {
    if i < |negotiations| && negotiations[i].Negotiated? then Some(negotiations[i].finalPrice) else None
  }

  /** `x < best_price`, where None stands for the initial `float('inf')`. */
  predicate Beats(x: real, bestPrice: Option<real>) {
    bestPrice.None? || x < bestPrice.value
  }

  /** The state of `_find_best_deal` after some iterations: the products (prices as overwritten), the best index and price. */
  datatype DealScan = DealScan(products: seq<ProductInfo>, best: Option<nat>, bestPrice: Option<real>)

  /**
   * `_find_best_deal` after its first `n` iterations. In iteration i a
   * successful negotiation that beats the best price makes product i the
   * best and overwrites its price; then the product's (possibly
   * overwritten) price competes on its own. Only product i's price can
   * change in iteration i, and the best price is always the best product's
   * current price.
   */
  function ScanDeals(products: seq<ProductInfo>, negotiations: seq<NegotiationResult>, n: nat): (st: DealScan)
    requires n <= |products|
    ensures |st.products| == |products|
    ensures forall j :: n <= j < |products| ==> st.products[j] == products[j]
    ensures st.best.Some? ==> st.best.value < n && st.bestPrice == Some(st.products[st.best.value].price)
    ensures st.best.None? <==> n == 0
    ensures st.best.None? <==> st.bestPrice.None?
  {
    if n == 0 then DealScan(products, None, None)
    else ListedStep(DealStep(ScanDeals(products, negotiations, n - 1), negotiations, n - 1), n - 1)
  }

  /** The first half of iteration i: a successful negotiation beating the best price wins and overwrites the price. */
  function DealStep(st: DealScan, negotiations: seq<NegotiationResult>, i: nat): DealScan
    requires i < |st.products|
  {
    match Settled(negotiations, i)
    case Some(f) =>
      if Beats(f, st.bestPrice) then DealScan(st.products[i := st.products[i].(price := f)], Some(i), Some(f))
      else st
    case None => st
  }

  /** The second half of iteration i: the product's current price competes. */
  function ListedStep(st: DealScan, i: nat): DealScan
    requires i < |st.products|
  {
    if Beats(st.products[i].price, st.bestPrice)
    then st.(best := Some(i), bestPrice := Some(st.products[i].price))
    else st
  }

  /**
   * A product's price is overwritten exactly when its negotiation
   * succeeded with a price beating the best price of the products before
   * it; then it becomes that negotiated price.
   */
  lemma {:induction false} ScanOverwrites(products: seq<ProductInfo>, negotiations: seq<NegotiationResult>, n: nat, i: nat)
    requires i < n <= |products|
    ensures ScanDeals(products, negotiations, n).products[i] ==
      if Settled(negotiations, i).Some? && Beats(Settled(negotiations, i).value, ScanDeals(products, negotiations, i).bestPrice)
      then products[i].(price := Settled(negotiations, i).value)
      else products[i]
    decreases n
  {
    var prev := ScanDeals(products, negotiations, n - 1);
    assert ScanDeals(products, negotiations, n) == ListedStep(DealStep(prev, negotiations, n - 1), n - 1);
    StepProducts(prev, negotiations, n - 1);
    if i < n - 1 {
      ScanOverwrites(products, negotiations, n - 1, i);
    } else {
      assert prev.products[i] == products[i];
    }
  }

  /** One iteration changes at most the price of its own product, and only when its negotiation wins. */
  lemma StepProducts(st: DealScan, negotiations: seq<NegotiationResult>, i: nat)
    requires i < |st.products|
    ensures var next := ListedStep(DealStep(st, negotiations, i), i);
      && |next.products| == |st.products|
      && (forall j :: 0 <= j < |st.products| && j != i ==> next.products[j] == st.products[j])
      && next.products[i] ==
           if Settled(negotiations, i).Some? && Beats(Settled(negotiations, i).value, st.bestPrice)
           then st.products[i].(price := Settled(negotiations, i).value)
           else st.products[i]
  {
  }

  /** The price a product competes with: the negotiated price when there is one, else the listed price. */
  function Effective(products: seq<ProductInfo>, negotiations: seq<NegotiationResult>, i: nat): real
    requires i < |products|
  {
    if Settled(negotiations, i).Some? then Settled(negotiations, i).value else products[i].price
  }

  /** No negotiation ends above its product's listed price (what `Session` guarantees). */
  predicate SettledNotAbove(products: seq<ProductInfo>, negotiations: seq<NegotiationResult>) {
    forall i :: 0 <= i < |products| && Settled(negotiations, i).Some? ==> Settled(negotiations, i).value <= products[i].price
  }

  /**
   * The best deal of a scan of the first `n` products is the first of least
   * effective price: its price is at most every product's effective price
   * and strictly below that of every earlier one.
   */
  predicate StableMinimum(products: seq<ProductInfo>, negotiations: seq<NegotiationResult>, n: nat, st: DealScan)
    requires n <= |products|
  {
    n > 0 ==>
      && st.best.Some? && st.best.value < n
      && st.bestPrice == Some(Effective(products, negotiations, st.best.value))
      && (forall i :: 0 <= i < n ==> Effective(products, negotiations, st.best.value) <= Effective(products, negotiations, i))
      && (forall i :: 0 <= i < st.best.value ==> Effective(products, negotiations, st.best.value) < Effective(products, negotiations, i))
  }

  /**
   * When no negotiation ends above its listed price, the best deal is the
   * first product of least effective price.
   */
  lemma {:induction false} ScanFindsStableMinimum(products: seq<ProductInfo>, negotiations: seq<NegotiationResult>, n: nat)
    requires n <= |products|
    requires SettledNotAbove(products, negotiations)
    ensures StableMinimum(products, negotiations, n, ScanDeals(products, negotiations, n))
  {
    if n > 0 {
      ScanFindsStableMinimum(products, negotiations, n - 1);
      var prev := ScanDeals(products, negotiations, n - 1);
      assert ScanDeals(products, negotiations, n) == ListedStep(DealStep(prev, negotiations, n - 1), n - 1);
      assert prev.products[n - 1] == products[n - 1];
      StepKeepsStableMinimum(products, negotiations, n - 1, prev);
    }
  }

  /** One iteration of the scan extends the stable minimum from the first `i` products to the first `i + 1`. */
  lemma StepKeepsStableMinimum(products: seq<ProductInfo>, negotiations: seq<NegotiationResult>, i: nat, prev: DealScan)
    requires i < |products| && i < |prev.products| && prev.products[i] == products[i]
    requires Settled(negotiations, i).Some? ==> Settled(negotiations, i).value <= products[i].price
    requires prev.bestPrice.None? <==> i == 0
    requires StableMinimum(products, negotiations, i, prev)
    ensures StableMinimum(products, negotiations, i + 1, ListedStep(DealStep(prev, negotiations, i), i))
  {
    var e := Effective(products, negotiations, i);
    StepBest(prev, negotiations, i, e);
    var next := ListedStep(DealStep(prev, negotiations, i), i);
    if Beats(e, prev.bestPrice) {
      forall j | 0 <= j < i + 1
        ensures e <= Effective(products, negotiations, j)
      {
      }
    } else {
      var b := prev.best.value;
      forall j | 0 <= j < i + 1
        ensures Effective(products, negotiations, b) <= Effective(products, negotiations, j)
      {
      }
    }
  }

  /**
   * When the negotiated price is not above the listed one, an iteration
   * makes its product the best exactly when its effective price `e` beats
   * the best price so far, and then `e` is the new best price.
   */
  lemma StepBest(st: DealScan, negotiations: seq<NegotiationResult>, i: nat, e: real)
    requires i < |st.products|
    requires Settled(negotiations, i).Some? ==> Settled(negotiations, i).value <= st.products[i].price
    requires e == if Settled(negotiations, i).Some? then Settled(negotiations, i).value else st.products[i].price
    ensures var next := ListedStep(DealStep(st, negotiations, i), i);
      if Beats(e, st.bestPrice) then next.best == Some(i) && next.bestPrice == Some(e)
      else next.best == st.best && next.bestPrice == st.bestPrice
  {
  }

  /** Index `b` holds the first product of least listed price. */
  predicate FirstCheapest(products: seq<ProductInfo>, b: int) {
    && 0 <= b < |products|
    && (forall i :: 0 <= i < |products| ==> products[b].price <= products[i].price)
    && (forall i :: 0 <= i < b ==> products[b].price < products[i].price)
  }

  /**
   * The comparison of products negotiated by sessions on the coordinator's
   * data: the negotiations are the gathered missing-service failures, and
   * the best deal is the scan's pick, the first product of least listed price.
   */
  predicate ComparedAsListed(taskId: string, products: seq<ProductInfo>, timedOut: bool, r: CoordinatorResult) {
    && products != []
    && var negotiations := GatheredResults(SelectCandidates(products), MissingServiceSlots(|SelectCandidates(products)|), timedOut);
       var b := ScanDeals(products, negotiations, |products|).best.value;
       && r == Compared(taskId, products, Some(negotiations), Some(products[b]))
       && FirstCheapest(products, b)
  }

  /** When no negotiation succeeded the scan overwrites no price. */
  lemma ScanKeepsPrices(products: seq<ProductInfo>, negotiations: seq<NegotiationResult>)
    requires forall i :: 0 <= i < |negotiations| ==> !negotiations[i].Negotiated?
    ensures ScanDeals(products, negotiations, |products|).products == products
  {
    var st := ScanDeals(products, negotiations, |products|);
    forall i | 0 <= i < |products|
      ensures st.products[i] == products[i]
    {
      assert Settled(negotiations, i).None?;
      ScanOverwrites(products, negotiations, |products|, i);
    }
  }

  /** When no negotiation succeeded the best deal is the first product of least listed price, its price untouched. */
  lemma ScanWithoutDeals(products: seq<ProductInfo>, negotiations: seq<NegotiationResult>)
    requires products != []
    requires forall i :: 0 <= i < |negotiations| ==> !negotiations[i].Negotiated?
    ensures var st := ScanDeals(products, negotiations, |products|);
      st.products == products && FirstCheapest(products, st.best.value)
  {
    ScanKeepsPrices(products, negotiations);
    forall i | 0 <= i < |products|
      ensures Settled(negotiations, i).None? && Effective(products, negotiations, i) == products[i].price
    {
    }
    assert SettledNotAbove(products, negotiations);
    ScanFindsStableMinimum(products, negotiations, |products|);
    ListedMinimumIsFirstCheapest(products, negotiations, ScanDeals(products, negotiations, |products|));
  }

  /** A stable minimum over effective prices that are the listed ones picks the first product of least listed price. */
  lemma ListedMinimumIsFirstCheapest(products: seq<ProductInfo>, negotiations: seq<NegotiationResult>, st: DealScan)
    requires products != []
    requires forall i :: 0 <= i < |products| ==> Effective(products, negotiations, i) == products[i].price
    requires StableMinimum(products, negotiations, |products|, st)
    ensures st.best.Some? && FirstCheapest(products, st.best.value)
  {
  }

  // ---------------------------------------------------------------------
  // The coordinator
  // ---------------------------------------------------------------------

  /** One progress update: the status and percentage it set. */
  datatype Checkpoint = Checkpoint(status: TaskStatus, progress: real)

  /** The first two checkpoints of every run: the record is created, then the search starts. */
  const SearchStarted: seq<Checkpoint> := [Checkpoint(Initializing, 0.0), Checkpoint(Searching, 10.0)]

  /** The checkpoints after the search of a run whose search found nothing. */
  const NoProductsTail: seq<Checkpoint> := [Checkpoint(Searching, 30.0), Checkpoint(TaskStatus.Completed, 100.0)]

  /** The checkpoints after the search of a run that raised while negotiating. */
  const NegotiationRaisedTail: seq<Checkpoint> :=
    [Checkpoint(Searching, 30.0), Checkpoint(Communicating, 40.0), Checkpoint(Failed, 0.0)]

  /** The checkpoints after the search of a run that compared prices. */
  const ComparedTail: seq<Checkpoint> :=
    [Checkpoint(Searching, 30.0), Checkpoint(Communicating, 40.0), Checkpoint(Comparing, 80.0), Checkpoint(TaskStatus.Completed, 100.0)]

  /** Checkpoints logged in two stages read as one path. */
  lemma JoinPath(before: seq<Checkpoint>, first: seq<Checkpoint>, rest: seq<Checkpoint>)
    ensures (before + first) + rest == before + (first + rest)
  {
  }

  /** Logging the next checkpoint of a path extends the logged prefix of that path by one. */
  lemma LogStep(log: seq<Checkpoint>, path: seq<Checkpoint>, k: nat)
    requires k < |path|
    ensures (log + path[..k]) + [path[k]] == log + path[..k + 1]
    ensures k + 1 == |path| ==> (log + path[..k]) + [path[k]] == log + path
  {
    assert path[..k + 1] == path[..k] + [path[k]];
  }

  /** The logged prefix of a path followed by the rest of it is the whole path. */
  lemma LogRest(log: seq<Checkpoint>, path: seq<Checkpoint>, k: nat)
    requires k <= |path|
    ensures (log + path[..k]) + path[k..] == log + path
  {
    assert path == path[..k] + path[k..];
  }

  /** The checkpoints after the search, by how the run ended. */
  function TailOf(r: CoordinatorResult): seq<Checkpoint> {
    match r
    case CoordinatorFailed(Some(_), _) => [Checkpoint(Failed, 0.0)]
    case CoordinatorFailed(None, _) => NegotiationRaisedTail
    case Compared(_, _, None, _) => NoProductsTail
    case Compared(_, _, Some(_), _) => ComparedTail
  }

  /** All checkpoints of a run, by how it ended. */
  function PathOf(r: CoordinatorResult): (path: seq<Checkpoint>)
    ensures |path| >= 3
  {
    SearchStarted + TailOf(r)
  }

  /** The message a run leaves on its record, by how it ended. */
  function FinalMessage(r: CoordinatorResult): string {
    match r
    case CoordinatorFailed(Some(_), e) => "搜索失败: " + e
    case CoordinatorFailed(None, e) => "执行失败: " + e
    case Compared(_, _, None, _) => "未找到符合条件的商品"
    case Compared(_, _, Some(_), _) => "比价完成"
  }

  /** A task's record once the run ended as `r`: the last checkpoint's status and progress, and the final message. */
  function Concluded(rec: TaskProgress, r: CoordinatorResult): (c: TaskProgress)
    ensures c.taskId == rec.taskId && c.createdAt == rec.createdAt && c.productsFound == rec.productsFound
    ensures c.status == TailOf(r)[|TailOf(r)| - 1].status && c.progress == TailOf(r)[|TailOf(r)| - 1].progress
    ensures c.message == FinalMessage(r)
  {
    var last := TailOf(r)[|TailOf(r)| - 1];
    rec.(status := last.status, message := FinalMessage(r), progress := last.progress)
  }

  /** The record a run concludes with does not depend on the status, message and progress it held before. */
  lemma ConcludedRestamps(rec: TaskProgress, status: TaskStatus, message: string, progress: real, r: CoordinatorResult)
    ensures Concluded(rec.(status := status, message := message, progress := progress), r) == Concluded(rec, r)
  {
  }

  /**
   * Every run starts at INITIALIZING 0 and never sets LOGGING_IN; a run
   * ends FAILED at 0 exactly when it failed and COMPLETED at 100 otherwise,
   * and progress never goes down on a run that does not fail.
   */
  lemma CheckpointPathsShape(r: CoordinatorResult)
    ensures PathOf(r)[0] == Checkpoint(Initializing, 0.0)
    ensures forall c :: c in PathOf(r) ==> c.status != LoggingIn
    ensures r.CoordinatorFailed? <==> PathOf(r)[|PathOf(r)| - 1] == Checkpoint(Failed, 0.0)
    ensures r.Compared? <==> PathOf(r)[|PathOf(r)| - 1] == Checkpoint(TaskStatus.Completed, 100.0)
    ensures r.Compared? ==> forall i, j :: 0 <= i < j < |PathOf(r)| ==> PathOf(r)[i].progress <= PathOf(r)[j].progress
  {
  }

  /** The reply of `execute`; a failure raised while negotiating carries no task id. */
  datatype CoordinatorResult =
    | Compared(taskId: string, products: seq<ProductInfo>, negotiations: Option<seq<NegotiationResult>>, bestDeal: Option<ProductInfo>)
    | CoordinatorFailed(failedTaskId: Option<string>, error: string)

  /**
   * What `execute` reports for task `taskId`: a failed search names the
   * task; a failure without task id is the missing `XianyuService`; a
   * comparison found no products and has no best deal, or negotiated the
   * first five products, none successfully, and its best deal is the
   * first product of least price.
   */
  ghost predicate ReportedOutcome(taskId: string, serviceClasses: set<string>, r: CoordinatorResult) {
    && (r.CoordinatorFailed? && r.failedTaskId.Some? ==> r.failedTaskId.value == taskId)
    && (r.CoordinatorFailed? && r.failedTaskId.None? ==> XianyuClass !in serviceClasses && r.error == ImportErrorText)
    && (r.Compared? ==>
          && r.taskId == taskId
          && (r.negotiations.None? <==> r.products == [])
          && (r.negotiations.None? ==> r.bestDeal.None?)
          && (r.negotiations.Some? ==>
                && XianyuClass in serviceClasses
                && |r.negotiations.value| == |SelectCandidates(r.products)|
                && (forall i :: 0 <= i < |r.negotiations.value| ==> !r.negotiations.value[i].Negotiated?)
                && exists b :: FirstCheapest(r.products, b) && r.bestDeal == Some(r.products[b])))
  }

  class CoordinatorAgent {
    const base: BaseAgent
    var taskProgress: map<string, TaskProgress>
    var activeAgents: map<string, SearchAgent>
    /** Every progress update made so far, in order. */
    ghost var checkpoints: seq<Checkpoint>

    /** A new coordinator of type "coordinator_agent" with no tasks and no active agents. */
    constructor (agentId: string, now: int)
      ensures fresh(base)
      ensures base.agentId == agentId && base.agentType == "coordinator_agent" && base.status == "idle"
      ensures taskProgress == map[] && activeAgents == map[] && checkpoints == []
    {
      base := new BaseAgent(agentId, "coordinator_agent", now);
      taskProgress := map[];
      activeAgents := map[];
      checkpoints := [];
    }

    /**
     * `_update_progress`: for a known task, sets status, message and
     * progress of its record and nothing else; an unknown id changes
     * nothing.
     */
    method UpdateProgress(taskId: string, status: TaskStatus, message: string, progress: real)
      modifies this
      ensures taskId in old(taskProgress) ==>
        && taskProgress == old(taskProgress)[taskId := old(taskProgress)[taskId].(status := status, message := message, progress := progress)]
        && checkpoints == old(checkpoints) + [Checkpoint(status, progress)]
      ensures taskId !in old(taskProgress) ==> taskProgress == old(taskProgress) && checkpoints == old(checkpoints)
      ensures activeAgents == old(activeAgents)
    {
      if taskId in taskProgress {
        taskProgress := taskProgress[taskId := taskProgress[taskId].(status := status, message := message, progress := progress)];
        checkpoints := checkpoints + [Checkpoint(status, progress)];
      }
    }

    /** `get_task_progress`: the record of a known task, None for an unknown id. */
    function GetTaskProgress(taskId: string): (r: Option<TaskProgress>)
      reads this
      ensures r.Some? <==> taskId in taskProgress
      ensures r.Some? ==> r.value == taskProgress[taskId]
    {
      if taskId in taskProgress then Some(taskProgress[taskId]) else None
    }

    /**
     * `_parallel_negotiate`: without `XianyuService` in the service module
     * the import raises before anything else happens. Otherwise one
     * negotiation agent per selected product runs on the data the
     * coordinator builds (target 0.8 × max price, the shared service under
     * "xianyu_service"); none of them finds its service, so each returns
     * the missing-service failure. `timedOut` says whether the gather
     * outlasted `AgentTimeout` seconds, in which case every session counts
     * as timed out. The shared service ends closed.
     */
    method ParallelNegotiate(taskId: string, products: seq<ProductInfo>, maxPrice: real, serviceClasses: set<string>,
                             sessionRounds: seq<seq<RoundInput>>, faults: seq<Option<string>>, timedOut: bool, now: int)
      returns (outcome: Result<seq<NegotiationResult>>, ghost sessions: seq<NegotiationTask>)
      requires ValidSessionInputs(sessionRounds, faults)
      ensures XianyuClass !in serviceClasses ==> outcome == Failure(ImportErrorText) && sessions == []
      ensures XianyuClass in serviceClasses ==>
        var selected := SelectCandidates(products);
        && outcome == Success(GatheredResults(selected, MissingServiceSlots(|selected|), timedOut))
        && |sessions| == |selected|
        && forall i :: 0 <= i < |sessions| ==>
             && sessions[i].productInfo == selected[i]
             && sessions[i].targetPrice == Some(maxPrice * TargetRatio)
             && sessions[i].services.Keys == {SharedServiceKey}
             && !sessions[i].services[SharedServiceKey].hasDriver
    {
      var targetPrice := maxPrice * TargetRatio;
      var selected := SelectCandidates(products);
      sessions := [];
      if XianyuClass !in serviceClasses {
        return Failure(ImportErrorText), sessions;
      }
      var shared := new GoofishService();

      var slots: seq<SlotOutcome> := [];
      for i := 0 to |selected|
        invariant |sessions| == i && |slots| == i
        invariant forall k :: 0 <= k < i ==> sessions[k] == SessionTaskData(selected[k], targetPrice, shared)
        invariant forall k :: 0 <= k < i ==> slots[k] == Returned(NegotiationFailed(MissingServiceError, None))
        invariant !shared.hasDriver
      {
        var agent := new NegotiationAgent("negotiation_" + taskId + "_" + NatToString(i), selected[i].sellerId, now);
        var data := SessionTaskData(selected[i], targetPrice, shared);
        assert ServiceKey !in data.services;
        var r := agent.Execute(data, sessionRounds[i], faults[i], now);
        sessions := sessions + [data];
        slots := slots + [Returned(r)];
      }
      assert slots == MissingServiceSlots(|selected|);
      var results := Gather(selected, slots, timedOut);
      shared.Close();
      return Success(results), sessions;
    }

    /**
     * The result loop after `asyncio.gather(..., return_exceptions=True)`:
     * a slot holding an exception becomes a failure naming its seller, and
     * a batch that timed out gives the timeout failure in every slot.
     */
    method Gather(selected: seq<ProductInfo>, slots: seq<SlotOutcome>, timedOut: bool) returns (results: seq<NegotiationResult>)
      requires |selected| <= |slots|
      ensures results == GatheredResults(selected, slots, timedOut)
    {
      if timedOut {
        return seq(|selected|, _ => NegotiationFailed(TimeoutError, None));
      }
      results := [];
      for i := 0 to |selected|
        invariant results == GatheredResults(selected, slots, false)[..i]
      {
        match slots[i] {
          case Raised(e) =>
            results := results + [NegotiationFailed(e, Some(selected[i].sellerId))];
          case Returned(r) =>
            results := results + [r];
        }
      }
      assert GatheredResults(selected, slots, false)[..|selected|] == GatheredResults(selected, slots, false);
    }

    /**
     * `_find_best_deal(products, negotiations)` over the product list in
     * place: the products end with the prices `ScanDeals` overwrote, and the
     * best product is returned, None exactly when there are no products.
     */
    method FindBestDeal(products: array<ProductInfo>, negotiations: seq<NegotiationResult>) returns (best: Option<ProductInfo>)
      modifies products
      ensures var st := ScanDeals(old(products[..]), negotiations, products.Length);
        && products[..] == st.products
        && best == (if st.best.Some? then Some(st.products[st.best.value]) else None)
      ensures best.None? <==> products.Length == 0
    {
      ghost var original := products[..];
      var bestProduct: Option<ProductInfo> := None;
      var bestPrice: Option<real> := None;
      ghost var scan := ScanDeals(original, negotiations, 0);
      for i := 0 to products.Length
        invariant scan == ScanDeals(original, negotiations, i)
        invariant products[..] == scan.products && bestPrice == scan.bestPrice
        invariant bestProduct == if scan.best.Some? then Some(scan.products[scan.best.value]) else None
      {
        var product := products[i];
        if i < |negotiations| {
          var negotiation := negotiations[i];
          if negotiation.Negotiated? {
            var finalPrice := negotiation.finalPrice;
            if bestPrice.None? || finalPrice < bestPrice.value {
              bestPrice := Some(finalPrice);
              ghost var listed := products[..];
              products[i] := products[i].(price := finalPrice);
              assert products[..] == listed[i := listed[i].(price := finalPrice)];
              product := products[i];
              bestProduct := Some(product);
            }
          }
        }
        scan := DealStep(scan, negotiations, i);
        assert products[..] == scan.products && product == scan.products[i];
        if bestPrice.None? || product.price < bestPrice.value {
          bestPrice := Some(product.price);
          bestProduct := Some(product);
        }
        scan := ListedStep(scan, i);
      }
      return bestProduct;
    }

    /**
     * The part of `execute` after a successful search, over the products it
     * found: report the count; stop if there are none; otherwise negotiate,
     * and if that does not raise, pick the best deal over the products.
     * Only the task's own record changes, and it ends as `Concluded` says.
     */
    method CompareFound(taskId: string, products: seq<ProductInfo>, maxPrice: real, serviceClasses: set<string>,
                        sessionRounds: seq<seq<RoundInput>>, faults: seq<Option<string>>, timedOut: bool, now: int)
      returns (result: CoordinatorResult)
      requires taskId in taskProgress
      requires ValidSessionInputs(sessionRounds, faults)
      modifies this
      ensures taskProgress == old(taskProgress)[taskId := Concluded(old(taskProgress)[taskId], result)]
      ensures activeAgents == old(activeAgents)
      ensures checkpoints == old(checkpoints) + TailOf(result)
      ensures products == [] ==> result == Compared(taskId, [], None, None)
      ensures products != [] && XianyuClass !in serviceClasses ==>
        result == CoordinatorFailed(None, ImportErrorText)
      ensures products != [] && XianyuClass in serviceClasses ==> ComparedAsListed(taskId, products, timedOut, result)
    {
      ghost var before := checkpoints;
      UpdateProgress(taskId, Searching, "找到 " + NatToString(|products|) + " 个商品", 30.0);
      if products == [] {
        UpdateProgress(taskId, TaskStatus.Completed, "未找到符合条件的商品", 100.0);
        result := Compared(taskId, [], None, None);
        assert checkpoints == before + TailOf(result);
        return;
      }
      result := NegotiateAndCompare(taskId, products, maxPrice, serviceClasses, sessionRounds, faults, timedOut, now);
      LogRest(before, TailOf(result), 1);
    }

    /**
     * The part of `execute` once products were found: COMMUNICATING at 40,
     * the negotiations, then either FAILED at 0 with the exception text or
     * the comparison. No session negotiates, so the prices stay as listed
     * and the best deal is the first product of least price.
     */
    method NegotiateAndCompare(taskId: string, products: seq<ProductInfo>, maxPrice: real, serviceClasses: set<string>,
                               sessionRounds: seq<seq<RoundInput>>, faults: seq<Option<string>>, timedOut: bool, now: int)
      returns (result: CoordinatorResult)
      requires taskId in taskProgress && products != []
      requires ValidSessionInputs(sessionRounds, faults)
      modifies this
      ensures taskProgress == old(taskProgress)[taskId := Concluded(old(taskProgress)[taskId], result)]
      ensures activeAgents == old(activeAgents)
      ensures result.CoordinatorFailed? || result.negotiations.Some?
      ensures checkpoints == old(checkpoints) + TailOf(result)[1..]
      ensures XianyuClass !in serviceClasses ==> result == CoordinatorFailed(None, ImportErrorText)
      ensures XianyuClass in serviceClasses ==> ComparedAsListed(taskId, products, timedOut, result)
    {
      ghost var before := checkpoints;
      ghost var rec := taskProgress[taskId];
      UpdateProgress(taskId, Communicating, "开始与卖家沟通...", 40.0);
      ghost var communicating := taskProgress;
      var negotiated, _ := ParallelNegotiate(taskId, products, maxPrice, serviceClasses, sessionRounds, faults, timedOut, now);
      if negotiated.Failure? {
        UpdateProgress(taskId, Failed, "执行失败: " + negotiated.error, 0.0);
        result := CoordinatorFailed(None, negotiated.error);
        assert taskProgress[taskId] == Concluded(rec, result);
        assert TailOf(result)[1..] == [Checkpoint(Communicating, 40.0), Checkpoint(Failed, 0.0)];
        return;
      }
      result := CompareGathered(taskId, products, negotiated.value, timedOut);
      ConcludedRestamps(rec, Communicating, "开始与卖家沟通...", 40.0, result);
      assert taskProgress == communicating[taskId := Concluded(communicating[taskId], result)];
      assert TailOf(result)[1..] == [Checkpoint(Communicating, 40.0)] + ComparedTail[2..];
    }

    /**
     * The comparison that follows sessions run on the coordinator's data:
     * none of them negotiated, so no price is overwritten and the best deal
     * is the first product of least listed price.
     */
    method CompareGathered(taskId: string, products: seq<ProductInfo>, negotiations: seq<NegotiationResult>, ghost timedOut: bool)
      returns (result: CoordinatorResult)
      requires taskId in taskProgress && products != []
      requires negotiations == GatheredResults(SelectCandidates(products), MissingServiceSlots(|SelectCandidates(products)|), timedOut)
      modifies this
      ensures taskProgress == old(taskProgress)[taskId := Concluded(old(taskProgress)[taskId], result)]
      ensures activeAgents == old(activeAgents)
      ensures checkpoints == old(checkpoints) + ComparedTail[2..]
      ensures ComparedAsListed(taskId, products, timedOut, result)
    {
      NoSessionNegotiates(SelectCandidates(products), timedOut);
      ScanWithoutDeals(products, negotiations);
      result := ConcludeComparison(taskId, products, negotiations);
    }

    /**
     * The end of a run whose negotiations did not raise: COMPARING at 80,
     * the best deal over the products, then COMPLETED at 100 with "比价完成"
     * ("comparison finished").
     */
    method ConcludeComparison(taskId: string, products: seq<ProductInfo>, negotiations: seq<NegotiationResult>)
      returns (result: CoordinatorResult)
      requires taskId in taskProgress && products != []
      modifies this
      ensures taskProgress == old(taskProgress)[taskId := Concluded(old(taskProgress)[taskId], result)]
      ensures activeAgents == old(activeAgents)
      ensures checkpoints == old(checkpoints) + ComparedTail[2..]
      ensures var st := ScanDeals(products, negotiations, |products|);
        result == Compared(taskId, st.products, Some(negotiations), Some(st.products[st.best.value]))
    {
      ghost var before := checkpoints;
      UpdateProgress(taskId, Comparing, "分析比价结果...", 80.0);
      var productList := new ProductInfo[|products|](i requires 0 <= i < |products| => products[i]);
      assert productList[..] == products;
      var bestDeal := FindBestDeal(productList, negotiations);

      UpdateProgress(taskId, TaskStatus.Completed, "比价完成", 100.0);
      assert checkpoints == before + ComparedTail[2..];
      result := Compared(taskId, productList[..], Some(negotiations), bestDeal);
    }

    /**
     * The search step of `execute`: a search agent "search_<task id>" is
     * created, registered among the active agents and run on the task
     * data. Progress records are untouched; a search with bad credentials
     * fails with the validation error. What a successful search returns is
     * stated by `SearchAgent.Execute`.
     */
    method RunSearch(taskId: string, task: SearchTask, client: DeepSeekClient, outcomes: seq<ApiOutcome>,
                     loads: string -> Option<Analysis>, login: LoginOutcome, pages: seq<ScrapedPage>,
                     draws: seq<seq<MockDraw>>, now: int)
      returns (searchAgent: SearchAgent, searchResult: SearchResult)
      requires 3 <= |outcomes| && MaxKeywords <= |pages|
      requires ValidSearchDraws(draws, task.maxPrice.GetOr(0.0))
      modifies this, client
      ensures fresh(searchAgent) && fresh(searchAgent.goofishService) && searchAgent.base.agentId == "search_" + taskId
      ensures activeAgents == old(activeAgents)["search_" + taskId := searchAgent]
      ensures taskProgress == old(taskProgress) && checkpoints == old(checkpoints)
      ensures task.credentials.Failure? ==> searchResult == SearchFailed(task.credentials.error)
    {
      searchAgent := NewSearchAgent(taskId, now);
      searchResult := searchAgent.Execute(task, client, outcomes, loads, login, pages, draws, now);
    }

    /** Creates the search agent "search_<task id>" and registers it among the active agents. */
    method NewSearchAgent(taskId: string, now: int) returns (searchAgent: SearchAgent)
      modifies this
      ensures fresh(searchAgent) && fresh(searchAgent.base) && fresh(searchAgent.goofishService)
      ensures searchAgent.base.agentId == "search_" + taskId
      ensures activeAgents == old(activeAgents)["search_" + taskId := searchAgent]
      ensures taskProgress == old(taskProgress) && checkpoints == old(checkpoints)
    {
      searchAgent := new SearchAgent("search_" + taskId, now);
      activeAgents := activeAgents[searchAgent.base.agentId := searchAgent];
    }

    /** The start of `execute`: the task's record is created ("初始化比价任务...", "initialising the comparison task") and the search announced ("正在搜索商品...", "searching for products"). */
    method StartTask(taskId: string, now: int)
      modifies this
      ensures taskProgress == old(taskProgress)[taskId :=
        NewTaskProgress(taskId, Initializing, now, message := "初始化比价任务...").(status := Searching, message := "正在搜索商品...", progress := 10.0)]
      ensures checkpoints == old(checkpoints) + SearchStarted
      ensures activeAgents == old(activeAgents)
    {
      taskProgress := taskProgress[taskId := NewTaskProgress(taskId, Initializing, now, message := "初始化比价任务...")];
      checkpoints := checkpoints + [Checkpoint(Initializing, 0.0)];
      UpdateProgress(taskId, Searching, "正在搜索商品...", 10.0);
      assert checkpoints == old(checkpoints) + SearchStarted;
    }

    /**
     * The part of `execute` after the search: a failed search ends FAILED
     * at 0 with "搜索失败: " ("search failed: ") and the error; otherwise
     * the comparison over the products found.
     */
    method FinishRun(taskId: string, searchResult: SearchResult, maxPrice: real, serviceClasses: set<string>,
                     sessionRounds: seq<seq<RoundInput>>, faults: seq<Option<string>>, timedOut: bool, now: int)
      returns (result: CoordinatorResult)
      requires taskId in taskProgress
      requires ValidSessionInputs(sessionRounds, faults)
      modifies this
      ensures taskProgress == old(taskProgress)[taskId := Concluded(old(taskProgress)[taskId], result)]
      ensures activeAgents == old(activeAgents)
      ensures checkpoints == old(checkpoints) + TailOf(result)
      ensures searchResult.SearchFailed? ==> result == CoordinatorFailed(Some(taskId), searchResult.error)
      ensures searchResult.SearchSucceeded? ==> result.Compared? || result == CoordinatorFailed(None, ImportErrorText)
      ensures ReportedOutcome(taskId, serviceClasses, result)
    {
      if searchResult.SearchFailed? {
        UpdateProgress(taskId, Failed, "搜索失败: " + searchResult.error, 0.0);
        result := CoordinatorFailed(Some(taskId), searchResult.error);
        return;
      }
      var products := searchResult.products;
      result := CompareFound(taskId, products, maxPrice, serviceClasses, sessionRounds, faults, timedOut, now);
      if products != [] && XianyuClass in serviceClasses {
        NoSessionNegotiates(SelectCandidates(products), timedOut);
        var negotiations := GatheredResults(SelectCandidates(products), MissingServiceSlots(|SelectCandidates(products)|), timedOut);
        var b := ScanDeals(products, negotiations, |products|).best.value;
        assert FirstCheapest(result.products, b) && result.bestDeal == Some(result.products[b]);
      }
    }

    /**
     * `execute(task_data)` for the task id `taskId`. The checkpoints the
     * run passes through identify its outcome: a failed search, no
     * products, an exception while negotiating, or a comparison. The task's
     * record is created afresh and ends as `Concluded` says; no other
     * task's record changes, and the search agent "search_<task id>" stays
     * registered. With the service module as it is
     * (`GoofishServiceClasses`), a run whose search finds any product always
     * ends in the exception path.
     */
    method Execute(taskId: string, task: SearchTask, client: DeepSeekClient, outcomes: seq<ApiOutcome>,
                   loads: string -> Option<Analysis>, login: LoginOutcome, pages: seq<ScrapedPage>,
                   draws: seq<seq<MockDraw>>, serviceClasses: set<string>,
                   sessionRounds: seq<seq<RoundInput>>, faults: seq<Option<string>>, timedOut: bool, now: int)
      returns (result: CoordinatorResult)
      requires 3 <= |outcomes| && MaxKeywords <= |pages|
      requires ValidSearchDraws(draws, task.maxPrice.GetOr(0.0))
      requires ValidSessionInputs(sessionRounds, faults)
      modifies this, client
      ensures taskProgress == old(taskProgress)[taskId :=
        Concluded(NewTaskProgress(taskId, Initializing, now, message := "初始化比价任务..."), result)]
      ensures var searchId := "search_" + taskId;
        && searchId in activeAgents && fresh(activeAgents[searchId])
        && activeAgents[searchId].base.agentId == searchId
        && activeAgents == old(activeAgents)[searchId := activeAgents[searchId]]
      ensures checkpoints == old(checkpoints) + PathOf(result)
      ensures ReportedOutcome(taskId, serviceClasses, result)
      ensures serviceClasses == GoofishServiceClasses ==> result.CoordinatorFailed? || result.products == []
    {
      StartTask(taskId, now);
      var searchAgent, searchResult := RunSearch(taskId, task, client, outcomes, loads, login, pages, draws, now);
      result := FinishRun(taskId, searchResult, task.maxPrice.GetOr(0.0), serviceClasses, sessionRounds, faults, timedOut, now);
      JoinPath(old(checkpoints), SearchStarted, TailOf(result));
      if result.Compared? && result.negotiations.Some? {
        searchAgent.Close();
      }
    }
  }
}
