/**
 * The request handlers that read and write account documents, over a store
 * keyed by shop id. A handler loads the shop's document, changes it step by
 * step and writes it back only where the handler saves it.
 */
module Gateway {
  import opened Optional
  import opened Plans
  import opened Helpers
  import opened Records
  import opened AccountDoc

  type Users = map<string, Record>

  /** A handler's reply together with the store it leaves behind. */
  datatype Outcome<R> = Outcome(reply: R, users: Users)

  /** The shop id the chat endpoint carries on with when the shop query fails. */
  const ShopIdFallback: string := "could not find shop id"

  function ShopKey(shop: Option<string>): (key: string)
    ensures shop.Some? ==> key == shop.value
    ensures shop.None? ==> key == ShopIdFallback
  {
    match shop
    case Some(id) => id
    case None => ShopIdFallback
  }

  /**
   * What the completion service did after admission: failed (at any point),
   * answered directly, or asked for a shop function and then answered; each
   * number is the `total_tokens` that completion reported.
   */
  datatype Completion = Failed | Answered(tokens: nat) | AnsweredViaFunction(first: nat, second: nat)

  /** Tokens charged for a completion: the sum over the completions made. */
  function Cost(c: Completion): (n: nat)
    ensures c.Failed? ==> n == 0
    ensures c.Answered? ==> n == c.tokens
    ensures c.AnsweredViaFunction? ==> n == c.first + c.second
  {
    match c
    case Failed => 0
    case Answered(t) => t
    case AnsweredViaFunction(t1, t2) => t1 + t2
  }

  datatype GptReply =
    | LimitExceeded
    | Replied(model: ChatModel, completionTokens: nat)
    | CouldNotRespond

  /**
   * The chat endpoint: provision and deny an unknown shop; deny a blocked
   * plan; reset; deny when usage has reached the limit; otherwise run the
   * completion and, when it succeeds, charge it and save the document. The
   * reset of a request that is then denied or fails is not saved.
   */
  function Gpt(users: Users, shop: string, today: Day, model: ChatModel, c: Completion): Outcome<GptReply>
  {
    if shop !in users then
      Outcome(LimitExceeded, users[shop := Provisioned(shop, today)])
    else
      var r := users[shop];
      if PlanBlocks(r) then Outcome(LimitExceeded, users)
      else
        var rolled := RolledOver(r, today);
        if rolled.tokenUsage >= rolled.tokenLimit then Outcome(LimitExceeded, users)
        else
          match c
          case Failed => Outcome(CouldNotRespond, users)
          case Answered(t) => Outcome(Replied(model, t), users[shop := Charged(rolled, Cost(c))])
          case AnsweredViaFunction(_, t2) => Outcome(Replied(model, t2), users[shop := Charged(rolled, Cost(c))])
  }

  datatype PageReply = ServerError | UserNotFound | UserSent(user: Record)

  /**
   * The account endpoint: provision an unknown shop; otherwise reconcile the
   * plan with the active subscriptions, apply the limit table and the reset,
   * and save.
   */
  function UserPage(users: Users, shop: Option<string>, today: Day, subscriptions: seq<string>): Outcome<PageReply>
  {
    match shop
    case None => Outcome(ServerError, users)
    case Some(s) =>
      var r := if s in users
               then RolledOver(WithTableLimit(Reconciled(users[s], ActiveName(subscriptions), today)), today)
               else Provisioned(s, today);
      Outcome(UserSent(r), users[s := r])
  }

  /** The start-trial endpoint: known shops only, no provisioning. */
  function StartTrialPage(users: Users, shop: Option<string>, today: Day): Outcome<PageReply>
  {
    match shop
    case None => Outcome(ServerError, users)
    case Some(s) =>
      if s !in users then Outcome(UserNotFound, users)
      else
        var r := TrialStarted(users[s], today);
        Outcome(UserSent(r), users[s := r])
  }

  /** The tail of the basic and premium endpoints: store the new subscription's reference. */
  function SubscribePage(users: Users, shop: Option<string>, id: string): Users
  {
    if shop.Some? && shop.value in users then users[shop.value := Subscribed(users[shop.value], id)] else users
  }

  /** The cancel endpoint; for an unknown shop it throws before changing anything. */
  function CancelPage(users: Users, shop: Option<string>): Users
  {
    if shop.Some? && shop.value in users then users[shop.value := Cancelled(users[shop.value])] else users
  }

  class Store {
    var users: Users

    constructor ()
      ensures users == map[]
    {
      users := map[];
    }

    method HandleGpt(shop: Option<string>, today: Day, prevTokens: Option<int>, c: Completion) returns (reply: GptReply)
      modifies this
      ensures Outcome(reply, users) == Gpt(old(users), ShopKey(shop), today, ChooseModel(prevTokens), c)
    {
      var id := ShopKey(shop);
      var model := ChooseModel(prevTokens);
      if id !in users {
        var user := new Account.Provision(id, today);
        users := users[id := user.Snapshot()];
        return LimitExceeded;
      }
      var user := new Account.Load(users[id]);
      var admitted := user.Admit(today);
      if !admitted {
        return LimitExceeded;
      }
      var tokenUsage := 0;
      match c {
        case Failed =>
          return CouldNotRespond;
        case Answered(t) =>
          tokenUsage := tokenUsage + t;
          reply := Replied(model, t);
        case AnsweredViaFunction(t1, t2) =>
          tokenUsage := tokenUsage + t1;
          tokenUsage := tokenUsage + t2;
          reply := Replied(model, t2);
      }
      user.Charge(tokenUsage);
      users := users[id := user.Snapshot()];
    }

    method HandleUser(shop: Option<string>, today: Day, subscriptions: seq<string>) returns (reply: PageReply)
      modifies this
      ensures Outcome(reply, users) == UserPage(old(users), shop, today, subscriptions)
    {
      if shop.None? {
        return ServerError;
      }
      var id := shop.value;
      var user: Account;
      if id in users {
        user := new Account.Load(users[id]);
        user.ReconcilePlan(ActiveName(subscriptions), today);
        user.ApplyLimitTable();
        user.RollOverForPage(today);
      } else {
        user := new Account.Provision(id, today);
      }
      users := users[id := user.Snapshot()];
      reply := UserSent(user.Snapshot());
    }

    method HandleStartTrial(shop: Option<string>, today: Day) returns (reply: PageReply)
      modifies this
      ensures Outcome(reply, users) == StartTrialPage(old(users), shop, today)
    {
      if shop.None? {
        return ServerError;
      }
      var id := shop.value;
      if id !in users {
        return UserNotFound;
      }
      var user := new Account.Load(users[id]);
      user.StartTrial(today);
      users := users[id := user.Snapshot()];
      reply := UserSent(user.Snapshot());
    }

    method HandleSubscribe(shop: Option<string>, subscriptionRef: string)
      modifies this
      ensures users == SubscribePage(old(users), shop, subscriptionRef)
    {
      if shop.None? || shop.value !in users {
        return;
      }
      var user := new Account.Load(users[shop.value]);
      user.RecordSubscription(subscriptionRef);
      users := users[shop.value := user.Snapshot()];
    }

    method HandleCancel(shop: Option<string>)
      modifies this
      ensures users == CancelPage(old(users), shop)
    {
      if shop.None? || shop.value !in users {
        return;
      }
      var user := new Account.Load(users[shop.value]);
      user.ClearSubscription();
      users := users[shop.value := user.Snapshot()];
    }
  }

  // ---------------------------------------------------------------------
  // Properties of the chat endpoint

  /** Plan none, plan old and an exhausted trial are denied on any day, with nothing charged or saved. */
  lemma GptDeniesBlockedPlans(users: Users, shop: string, today: Day, model: ChatModel, c: Completion)
    requires shop in users && PlanBlocks(users[shop])
    ensures Gpt(users, shop, today, model, c) == Outcome(LimitExceeded, users)
  {
  }

  /** An unknown shop is provisioned and denied, and its next chat request, on any day, is denied with nothing saved. */
  lemma GptFirstContact(users: Users, shop: string, today: Day, later: Day, model: ChatModel, c: Completion, c': Completion)
    requires shop !in users
    ensures var out := Gpt(users, shop, today, model, c);
      out == Outcome(LimitExceeded, users[shop := Provisioned(shop, today)]) &&
      Gpt(out.users, shop, later, model, c') == Outcome(LimitExceeded, out.users)
  {
  }

  /** Past the plan checks, a request is admitted exactly when the reset usage is below the limit. */
  lemma GptAdmitsIffUnderLimit(users: Users, shop: string, today: Day, model: ChatModel, c: Completion)
    requires shop in users && !PlanBlocks(users[shop])
    ensures var rolled := RolledOver(users[shop], today);
      Gpt(users, shop, today, model, c).reply != LimitExceeded <==> rolled.tokenUsage < rolled.tokenLimit
  {
  }

  /** Whether a request is denied does not depend on what the completion will cost, or on the model. */
  lemma GptDecisionIgnoresCost(users: Users, shop: string, today: Day, m1: ChatModel, m2: ChatModel, c1: Completion, c2: Completion)
    ensures Gpt(users, shop, today, m1, c1).reply == LimitExceeded <==> Gpt(users, shop, today, m2, c2).reply == LimitExceeded
  {
  }

  /**
   * A successful request saves the reset document with usage increased by
   * exactly the tokens of its one or two completions, and touches no other shop.
   */
  lemma GptChargesExactCost(users: Users, shop: string, today: Day, model: ChatModel, c: Completion)
    requires Gpt(users, shop, today, model, c).reply.Replied?
    ensures var out := Gpt(users, shop, today, model, c);
      var rolled := RolledOver(users[shop], today);
      shop in users && out.users == users[shop := rolled.(tokenUsage := rolled.tokenUsage + Cost(c))]
  {
  }

  /** The charge is not capped, but it overshoots the limit by less than the cost of the one request. */
  lemma GptOvershootBound(users: Users, shop: string, today: Day, model: ChatModel, c: Completion)
    requires Gpt(users, shop, today, model, c).reply.Replied?
    ensures var after := Gpt(users, shop, today, model, c).users[shop];
      after.tokenUsage < after.tokenLimit + Cost(c)
  {
  }

  /** A known shop's denied or failed request leaves the store as it was: no charge, no saved reset. */
  lemma GptFailureChargesNothing(users: Users, shop: string, today: Day, model: ChatModel, c: Completion)
    requires shop in users
    requires c.Failed? || Gpt(users, shop, today, model, c).reply == LimitExceeded
    ensures Gpt(users, shop, today, model, c).users == users
  {
  }

  /** The reply reports the tokens of the completion that produced the answer. */
  lemma GptReportsLastCompletion(users: Users, shop: string, today: Day, model: ChatModel, c: Completion)
    requires Gpt(users, shop, today, model, c).reply.Replied?
    ensures var reply := Gpt(users, shop, today, model, c).reply;
      reply.model == model &&
      reply.completionTokens == (if c.Answered? then c.tokens else c.second)
  {
  }

  // ---------------------------------------------------------------------
  // Properties of the account endpoint

  /**
   * On a known shop with a canonical plan, the account endpoint appends a
   * plan-log entry exactly when the plan changes, and a reset-log entry
   * exactly when the day has rolled over.
   */
  lemma UserPageLogs(users: Users, shop: string, today: Day, subscriptions: seq<string>)
    requires shop in users && Canonical(users[shop].plan)
    ensures var before := users[shop];
      var after := UserPage(users, Some(shop), today, subscriptions).users[shop];
      (after.plan == before.plan ==> after.planLog == before.planLog) &&
      (after.plan != before.plan ==> after.planLog == before.planLog + [PlanLogEntry("to " + Name(after.plan), today)]) &&
      (before.lastReset == today ==> after.resetLog == before.resetLog && after.tokenUsage == before.tokenUsage) &&
      (before.lastReset != today ==> after.resetLog == before.resetLog + [ResetLogEntry(today, before.tokenUsage)])
  {
    ReconcileLogsIffPlanChanges(users[shop], ActiveName(subscriptions), today);
  }

  /**
   * For a shop already stored before the first visit, a second visit on the
   * same day with the same report appends nothing and keeps the usage.
   */
  lemma UserPageTwiceSameDay(users: Users, shop: string, today: Day, subscriptions: seq<string>)
    requires shop in users && Canonical(users[shop].plan)
    ensures var once := UserPage(users, Some(shop), today, subscriptions).users;
      var twice := UserPage(once, Some(shop), today, subscriptions).users;
      twice[shop].planLog == once[shop].planLog && twice[shop].resetLog == once[shop].resetLog &&
      twice[shop].tokenUsage == once[shop].tokenUsage && twice[shop].trialLeft == once[shop].trialLeft
  {
    var once := UserPage(users, Some(shop), today, subscriptions).users;
    UserPageLogs(users, shop, today, subscriptions);
    ReconcileLogsIffPlanChanges(users[shop], ActiveName(subscriptions), today);
    ReconcileIdempotent(users[shop], ActiveName(subscriptions), today, today);
    UserPageLogs(once, shop, today, subscriptions);
  }
}
