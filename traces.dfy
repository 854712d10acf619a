/**
 * Sequences of requests against the store. Whatever the order of the
 * requests, the logs of a shop only grow, its trial days never rise, and
 * requests on one day reset it at most once.
 */
module Traces {
  import opened Optional
  import opened Plans
  import opened Helpers
  import opened Records
  import opened Gateway

  datatype Request =
    | ChatRequest(shop: Option<string>, today: Day, prevTokens: Option<int>, completion: Completion)
    | AccountRequest(shop: Option<string>, today: Day, subscriptions: seq<string>)
    | TrialRequest(shop: Option<string>, today: Day)
    | SubscribeRequest(shop: Option<string>, subscriptionRef: string)
    | CancelRequest(shop: Option<string>)

  /** The store after one request, handled to completion. */
  function Step(users: Users, q: Request): Users
  {
    match q
    case ChatRequest(shop, today, prev, c) => Gpt(users, ShopKey(shop), today, ChooseModel(prev), c).users
    case AccountRequest(shop, today, subs) => UserPage(users, shop, today, subs).users
    case TrialRequest(shop, today) => StartTrialPage(users, shop, today).users
    case SubscribeRequest(shop, id) => SubscribePage(users, shop, id)
    case CancelRequest(shop) => CancelPage(users, shop)
  }

  /** The store after the requests, one after another. */
  function Run(users: Users, qs: seq<Request>): Users
    decreases |qs|
  {
    if qs == [] then users else Run(Step(users, qs[0]), qs[1..])
  }

  /** Every document is filed under its own shop id, has a canonical plan and at most the initial trial days. */
  ghost predicate ValidStore(users: Users)
  {
    forall k | k in users :: users[k].shopId == k && Canonical(users[k].plan) && users[k].trialLeft <= TrialDays
  }

  /** How a later saved document of a shop relates to an earlier one: append-only logs, trial days never up. */
  predicate Grows(a: Record, b: Record)
  {
    b.shopId == a.shopId && a.planLog <= b.planLog && a.resetLog <= b.resetLog && b.trialLeft <= a.trialLeft
  }

  /** Requests that carry a day carry `d`. */
  predicate OnDay(q: Request, d: Day)
  {
    (q.ChatRequest? || q.AccountRequest? || q.TrialRequest?) ==> q.today == d
  }

  lemma StepPreservesValid(users: Users, q: Request)
    requires ValidStore(users)
    ensures ValidStore(Step(users, q))
  {
    var users' := Step(users, q);
    forall k | k in users'
      ensures users'[k].shopId == k && Canonical(users'[k].plan) && users'[k].trialLeft <= TrialDays
    {
      if k in users && q.AccountRequest? && q.shop == Some(k) {
        assert users'[k].plan == Reconciled(users[k], ActiveName(q.subscriptions), q.today).plan;
      }
    }
  }

  /** Starting from a valid store, every run leaves a valid store: in particular no shop ever has more than five trial days. */
  lemma {:induction false} RunPreservesValid(users: Users, qs: seq<Request>)
    requires ValidStore(users)
    ensures ValidStore(Run(users, qs))
    decreases |qs|
  {
    if qs != [] {
      StepPreservesValid(users, qs[0]);
      RunPreservesValid(Step(users, qs[0]), qs[1..]);
    }
  }

  lemma StepGrows(users: Users, q: Request, k: string)
    requires k in users
    ensures k in Step(users, q) && Grows(users[k], Step(users, q)[k])
  {
  }

  /** No request sequence removes a shop, shortens or rewrites its logs, or gives back a trial day. */
  lemma {:induction false} RunGrows(users: Users, qs: seq<Request>, k: string)
    requires k in users
    ensures k in Run(users, qs) && Grows(users[k], Run(users, qs)[k])
    decreases |qs|
  {
    if qs != [] {
      StepGrows(users, qs[0], k);
      RunGrows(Step(users, qs[0]), qs[1..], k);
    }
  }

  /** One request on day `d`: a shop already reset on `d` is not reset again; otherwise at most one entry is appended, stamping `d`. */
  lemma StepOnDay(users: Users, q: Request, d: Day, k: string)
    requires k in users && OnDay(q, d)
    ensures var after := Step(users, q);
      k in after &&
      (users[k].lastReset == d ==> after[k].resetLog == users[k].resetLog && after[k].lastReset == d) &&
      (after[k].resetLog == users[k].resetLog ||
       (|after[k].resetLog| == |users[k].resetLog| + 1 && after[k].lastReset == d))
  {
  }

  /**
   * Any number of requests on one day append at most one reset-log entry to a
   * shop, and none when it was already reset that day.
   */
  lemma {:induction false} SameDayResetsOnce(users: Users, qs: seq<Request>, d: Day, k: string)
    requires k in users
    requires forall i | 0 <= i < |qs| :: OnDay(qs[i], d)
    ensures k in Run(users, qs)
    ensures |Run(users, qs)[k].resetLog| <= |users[k].resetLog| + 1
    ensures users[k].lastReset == d ==> Run(users, qs)[k].resetLog == users[k].resetLog
    decreases |qs|
  {
    if qs != [] {
      var next := Step(users, qs[0]);
      StepOnDay(users, qs[0], d, k);
      assert forall i | 0 <= i < |qs[1..]| :: OnDay(qs[1..][i], d) by {
        forall i | 0 <= i < |qs[1..]| ensures OnDay(qs[1..][i], d) {
          assert qs[1..][i] == qs[i + 1];
        }
      }
      SameDayResetsOnce(next, qs[1..], d, k);
    }
  }

  /**
   * A shop in an exhausted trial that only sends chat requests is never
   * charged and never saved again: any number of them, on any days, leave
   * the store unchanged.
   */
  lemma {:induction false} ExhaustedTrialStaysDenied(users: Users, qs: seq<Request>, k: string)
    requires k in users && TrialExhausted(users[k])
    requires forall i | 0 <= i < |qs| :: qs[i].ChatRequest? && ShopKey(qs[i].shop) == k
    ensures Run(users, qs) == users
    decreases |qs|
  {
    if qs != [] {
      var q := qs[0];
      GptDeniesBlockedPlans(users, k, q.today, ChooseModel(q.prevTokens), q.completion);
      assert forall i | 0 <= i < |qs[1..]| :: qs[1..][i].ChatRequest? && ShopKey(qs[1..][i].shop) == k by {
        forall i | 0 <= i < |qs[1..]| ensures qs[1..][i].ChatRequest? && ShopKey(qs[1..][i].shop) == k {
          assert qs[1..][i] == qs[i + 1];
        }
      }
      ExhaustedTrialStaysDenied(users, qs[1..], k);
    }
  }
}
