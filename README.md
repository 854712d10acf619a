# Quota and subscription state machine of the GPT assistant app

This project models the per-shop quota and subscription logic of a Shopify
app that sells access to a chat assistant. Each shop has one account
document (`web/models/user.js`). It holds the shop's plan, a log of plan
changes, the billing subscription reference, the remaining trial days, a
daily token limit, the tokens used today, the day of the last reset and a
log of resets. The Express handlers in `web/index.js` read this document,
change it field by field and save it:

- the chat endpoint (`/api/gpt`) provisions unknown shops and runs an
  admission gate: plan checks, a daily reset, then a usage check. After a
  completion succeeds it charges the reported tokens;
- the account endpoint (`/api/user`) reconciles the plan with the billing
  platform's active subscription and applies the plan-to-limit table and
  the daily reset;
- the trial, subscribe and cancel endpoints set the plan to trial, store a
  subscription reference, or clear it.

Layout:

- `plans.dfy` (`Plans`): the plan enumeration with an `Other(name)` case,
  the stored-name round trip and the limit table.
- `helpers.dfy` (`Helpers`): model choice by the 3800-token threshold and
  removal of the 14-character `.myshopify.com` suffix.
- `records.dfy` (`Records`): the document as a value. It has one
  specification function per step (`Provisioned`, `Reconciled`,
  `WithTableLimit`, `RolledOver`, `PlanBlocks`, `TrialStarted`,
  `Subscribed`, `Cancelled`, `Charged`) and lemmas about those steps.
- `account.dfy` (`AccountDoc`): class `Account`, the loaded document. Its
  methods perform each handler's assignments and appends in the source's
  order. Each one is proved to produce the state the matching `Records`
  function describes.
- `gateway.dfy` (`Gateway`): class `Store`, a map from shop id to saved
  document. Its handler methods load a document, run the `Account` methods
  and write the document back only where the source calls `save()`. They
  are proved against the handler functions `Gpt`, `UserPage`,
  `StartTrialPage`, `SubscribePage` and `CancelPage`, and lemmas state the
  chat endpoint's guarantees.
- `traces.dfy` (`Traces`): arbitrary request sequences. Logs are
  append-only, trial days never rise and stay at most five, one day
  resets a shop at most once, and an exhausted trial stays denied.

External inputs are parameters:

- today's day key (`Day`, an integer);
- the shop id query's result (`Option<string>`);
- the names of the active subscriptions (`seq<string>`);
- the new subscription's reference;
- the previous completion's token count (`Option<int>`, `None` for a value
  that does not parse);
- the completion outcome (`Completion`: failed, or the `total_tokens` of
  one or two completions).

Behaviour of the code that the model reproduces:

- A reset-log entry is dated with the day of the reset (`new Date()`,
  web/index.js:236, 441).
- When a rollover spends a trial's last day, `trial_left` becomes 0. The
  chat gate then denies every later request (web/index.js:212-215), and a
  same-day account visit sets the limit to 0 (web/index.js:444-449).
- The chat endpoint saves its reset only when the request succeeds
  (web/index.js:330-331). When a reset is followed by a usage denial or a
  failed completion, the reset is discarded and the store is unchanged.
- Starting the trial logs "to trial" even when the plan already is trial,
  and it always zeroes the usage. Only reconciliation logs exactly when the
  plan changes.
- A subscription whose name is literally "no plan" is treated as no active
  subscription.

## Model

| member | source | states |
|---|---|---|
| Plans.Parse | web/index.js:406 | the stored string of the parsed plan is the reported name, and the plan is canonical (`Other` never spells a known name) |
| Plans.ParseName | web/models/user.js:14-16 | a canonical plan survives being stored as its name and read back |
| Plans.NameInjective | web/index.js:403 | comparing stored plan strings is the same as comparing canonical plans |
| Plans.TableLimit | web/index.js:414-427 | none and old map to 0, basic to 50000, premium to 100000; trial and any other name keep the stored limit |
| Plans.TableLimitIdempotent | web/index.js:414-427 | applying the table twice gives the same limit as once |
| Helpers.ChooseModel | web/index.js:191-195 | the small-context model is chosen iff the previous count parses and is below 3800 |
| Helpers.ChooseModelMonotone | web/index.js:191-195 | a larger previous count never selects the small model when a smaller one did not |
| Helpers.TrimDomain | web/index.js:533 | shorter than 14 characters gives ""; otherwise the handle followed by the last 14 characters is the domain |
| Helpers.TrimDomainRoundTrip | web/index.js:533 | trimming `handle + ".myshopify.com"` gives back `handle` |
| Helpers.TrimDomainSplits | web/index.js:533 | a domain ending in the suffix is its trimmed handle plus the suffix |
| Records.Provisioned | web/index.js:246-253 | a new shop gets plan none, 5 trial days, limit 0, usage 0, empty reference and logs, reset stamped today |
| Records.ActiveName | web/index.js:385-402 | no active name iff the list is empty or its first name is "no plan"; otherwise the first name |
| Records.ReconcileLogsIffPlanChanges | web/index.js:402-412 | one "to <new plan>" entry is appended iff the plan changes; none otherwise; the plan stays canonical |
| Records.ReconcileWithActive | web/index.js:402-406 | with an active subscription the plan becomes its name and only plan and plan log change |
| Records.ReconcileWithoutActive | web/index.js:407-412 | with none active, basic/premium become old with one "to old" entry; all other plans leave the document unchanged |
| Records.ReconcileIdempotent | web/index.js:402-412 | reconciling twice against the same report equals reconciling once |
| Records.LimitAfterVisit | web/index.js:414-450 | after reconcile, table and reset the limit is 0/50000/100000/0 by plan; a trial's limit becomes 0 when its trial days were 0 before the reset and otherwise keeps the stored limit; other names keep theirs |
| Records.RollOverNewDay | web/index.js:432-443 | on a new day the reset log gains exactly (today, old usage); usage is 0; the reset is stamped today; plan and plan log are unchanged |
| Records.RollOverSameDay | web/index.js:444-450 | on the same day only an exhausted trial's limit changes (to 0); usage and logs are untouched |
| Records.RollOverIdempotent | web/index.js:429-450 | a second same-day reset keeps usage, log, stamp and trial days, and can only zero an exhausted trial's limit; a third changes nothing |
| Records.RollOverSpendsOneTrialDay | web/index.js:433-438 | trial days drop by exactly one on a rollover of a trial with days left, and are otherwise unchanged |
| Records.ExhaustedTrialHasNoLimit | web/index.js:432-450 | an exhausted trial has limit 0 after the reset whether or not the day rolled over, and stays exhausted |
| Records.StartTrialEffect | web/index.js:500-503 | plan trial, usage 0, limit 1000, one "to trial" entry whatever the previous plan; trial days and resets untouched |
| Records.PremiumVisitOutranksBasic | web/index.js:402-450 | for the same record and day, a visit that reports an active premium subscription leaves a higher limit than one that reports basic |
| Records.CancelUndoesSubscribe | web/index.js:724 | clearing the reference after storing one over an empty reference restores the document |
| Records.CancelThenReconcileLapses | web/index.js:402-427 | a cancelled basic/premium plan reconciled with no active subscription becomes old with limit 0 |
| AccountDoc.Account.Provision | web/index.js:453-460 | the new document equals `Provisioned(shop, today)` |
| AccountDoc.Account.Load | web/index.js:393-396 | the loaded document equals the stored record |
| AccountDoc.Account.ReconcilePlan | web/index.js:402-412 | the document becomes `Reconciled` of its old state |
| AccountDoc.Account.ApplyLimitTable | web/index.js:414-427 | the document becomes `WithTableLimit` of its old state |
| AccountDoc.Account.RollOverForPage | web/index.js:429-450 | the document becomes `RolledOver` of its old state |
| AccountDoc.Account.Admit | web/index.js:207-244 | plan-blocked documents are denied and left as loaded; otherwise the document is reset and admitted iff usage < limit; the exhausted-trial branch inside this reset is unreachable |
| AccountDoc.Account.Charge | web/index.js:330 | usage grows by exactly the cost; nothing else changes |
| AccountDoc.Account.StartTrial | web/index.js:500-503 | the document becomes `TrialStarted` of its old state |
| AccountDoc.Account.RecordSubscription | web/index.js:595 | only the subscription reference changes, to the new one |
| AccountDoc.Account.ClearSubscription | web/index.js:724 | only the subscription reference changes, to "" |
| Gateway.ShopKey | web/index.js:179-189 | a failed shop query falls back to the id "could not find shop id" |
| Gateway.Cost | web/index.js:272-298 | the charge is the sum of the `total_tokens` of the completions made |
| Gateway.Store.HandleGpt | web/index.js:170-345 | reply and new store equal `Gpt` of the old store, the shop key, the chosen model and the completion |
| Gateway.Store.HandleUser | web/index.js:351-469 | reply and new store equal `UserPage` of the old store |
| Gateway.Store.HandleStartTrial | web/index.js:473-513 | reply and new store equal `StartTrialPage`: unknown shops get "could not find user", with no provisioning |
| Gateway.Store.HandleSubscribe | web/index.js:571-600 | a known shop's reference becomes the new subscription's; otherwise nothing changes |
| Gateway.Store.HandleCancel | web/index.js:681-726 | a known shop's reference is cleared; otherwise nothing changes |
| Gateway.GptDeniesBlockedPlans | web/index.js:207-220 | plan none, plan old and an exhausted trial are denied on any day, with the store unchanged |
| Gateway.GptFirstContact | web/index.js:245-256 | an unknown shop is saved with the default document and denied, and its next request on any day is denied too |
| Gateway.GptAdmitsIffUnderLimit | web/index.js:222-244 | past the plan checks, a request is admitted iff the reset usage is below the limit |
| Gateway.GptDecisionIgnoresCost | web/index.js:241-244 | whether a request is denied does not depend on the completion or the model |
| Gateway.GptChargesExactCost | web/index.js:272-331 | a successful request saves the reset document with usage increased by exactly the completions' tokens, and no other shop changes |
| Gateway.GptOvershootBound | web/index.js:241-331 | after a charge, usage is below the limit plus that one request's cost |
| Gateway.GptFailureChargesNothing | web/index.js:333-344 | a known shop's denied or failed request leaves the store unchanged |
| Gateway.GptReportsLastCompletion | web/index.js:300-320 | the answer comes from the chosen model, and the reply carries the tokens of the completion that produced it |
| Gateway.UserPageLogs | web/index.js:402-450 | an account visit appends exactly one "to <new plan>" entry when the plan changes and none otherwise, and one reset-log entry (today, old usage) exactly when the day rolled over |
| Gateway.UserPageTwiceSameDay | web/index.js:429-450 | for a shop already stored before the first visit, a second same-day visit with the same report adds no log entry and keeps usage and trial days |
| Traces.StepPreservesValid | web/index.js:453-460 | every request keeps each document under its shop id, with a canonical plan and at most 5 trial days |
| Traces.RunPreservesValid | web/index.js:246-253 | every request sequence keeps the store valid, so trial days never exceed the 5 set at provisioning |
| Traces.StepGrows | web/index.js:402-443 | no request removes a shop, rewrites its logs or raises its trial days |
| Traces.RunGrows | web/index.js:432-443 | across any request sequence, both logs only grow by appending and trial days never increase |
| Traces.StepOnDay | web/index.js:429-443 | one request on the reset day appends no reset entry; otherwise it appends at most one and stamps that day |
| Traces.SameDayResetsOnce | web/index.js:222-239 | requests on one day append at most one reset entry per shop, and none once it was reset that day |
| Traces.ExhaustedTrialStaysDenied | web/index.js:212-215 | any number of chat requests from an exhausted trial change nothing |

## Left out

- HTTP routing, Shopify authentication, webhooks, CSP headers and static
  serving (web/index.js:45-71, 729-739): plumbing with no quota logic.
- The OpenAI calls and the function-call dispatch (web/index.js:264-298):
  foreign calls. Only their reported `total_tokens`, or their failure, enters
  the model. A missing `usage` field, which would make the counter NaN, is
  not modelled.
- Shopify GraphQL queries and mutations (shop id, shop info, products,
  active subscriptions, subscription create and cancel): network I/O. Their
  results are parameters. The cancel mutation itself, the subscription
  `status`/`test` flags and the confirmation URL replies are not modelled.
- Gateway.Store.HandleSubscribe: the basic route builds its return URL
  from the trimmed domain (`Helpers.TrimDomain`) and the price 9.99
  (web/index.js:533-568). The premium route uses a fixed return URL and
  the price 18.99 (web/index.js:609-642). Only the stored reference is
  modelled.
- Mongoose persistence: the `User.find({})` scan is a map lookup, so
  duplicate documents for one shop cannot arise. A lookup that throws
  ("could not find user" at web/index.js:258-261 and 463-465) is not
  modelled. An un-awaited `save()` is taken to complete.
- Chat and error log records (web/models/chat.js, web/models/error.js and
  the saves at web/index.js:304-314, 321-327, 335-343): write-only logs
  with no effect on quota.
- Concurrency: concurrent requests race on the same document without
  locking. Each handler is modelled as running alone, so lost updates are
  not captured.
- Day keys: the source compares `Date.toString().substring(0,10)`, a
  local-time key without the year, so dates whose weekday, month and day
  coincide collide. Here a day is an abstract integer compared for
  equality.
- Gateway.GptReply: the `model` field of `Replied` stands for which chat
  model produced the answer's body. The source's reply holds only the
  body and `completionTokens` (web/index.js:300-303, 317-320).
- `Number(...)` parsing of the previous token count: only its outcome,
  a number or NaN, is modelled.
- Gateway.Store.HandleCancel: for an unknown shop the source throws at
  web/index.js:724 after calling the billing platform. The model keeps
  the store unchanged and has no reply.
- Traces.SameDayResetsOnce: states at most one reset per shop per day,
  not exactly one, because a chat request's reset is lost when the
  request is denied or fails.
- The frontend pages (plan.jsx, index.jsx, info.jsx): rendering and UI
  state.
