/**
 * The per-shop account document (web/models/user.js:3-36) as a value, and one
 * function per step the request handlers apply to it. These functions are the
 * specification the imperative document class is proved against.
 */
module Records {
  import opened Optional
  import opened Plans

  /** A calendar-day key; two instants compare equal when their day keys do. */
  type Day = int

  datatype PlanLogEntry = PlanLogEntry(action: string, date: Day)
  datatype ResetLogEntry = ResetLogEntry(date: Day, tokenUsage: nat)

  datatype Record = Record(
    shopId: string,
    created: Day,
    plan: Plan,
    planLog: seq<PlanLogEntry>,
    subscriptionId: string,
    trialLeft: nat,
    tokenLimit: nat,
    tokenUsage: nat,
    lastReset: Day,
    resetLog: seq<ResetLogEntry>)

  /** The document created on first contact from an unknown shop. */
  function Provisioned(shop: string, today: Day): (r: Record)
    ensures r.shopId == shop && r.plan == NoPlan && r.subscriptionId == ""
    ensures r.trialLeft == TrialDays && r.tokenLimit == 0 && r.tokenUsage == 0
    ensures r.lastReset == today && r.planLog == [] && r.resetLog == []
  {
    Record(shop, today, NoPlan, [], "", TrialDays, 0, 0, today, [])
  }

  /** The name the account endpoint uses for an empty list of active subscriptions. */
  const NoPlanSentinel: string := "no plan"

  /**
   * The name the plan is reconciled against: the first active subscription's
   * name, or nothing when the list is empty. A subscription literally named
   * "no plan" is indistinguishable from the empty list.
   */
  function ActiveName(subscriptions: seq<string>): (active: Option<string>)
    ensures active == None <==> |subscriptions| == 0 || subscriptions[0] == NoPlanSentinel
    ensures active.Some? ==> active.value == subscriptions[0]
  {
    var current := if |subscriptions| == 0 then NoPlanSentinel else subscriptions[0];
    if current != NoPlanSentinel then Some(current) else None
  }

  /**
   * Plan reconciliation: an active subscription's name becomes the plan,
   * logged when it differs from the stored name; with none active, a paid
   * tier lapses to `old`, anything else is kept.
   */
  function Reconciled(r: Record, active: Option<string>, today: Day): Record
  {
    match active
    case Some(name) =>
      var log := if Name(r.plan) != name then r.planLog + [PlanLogEntry("to " + name, today)] else r.planLog;
      r.(plan := Parse(name), planLog := log)
    case None =>
      if r.plan == Basic || r.plan == Premium then
        r.(plan := Old, planLog := r.planLog + [PlanLogEntry("to old", today)])
      else r
  }

  /** The plan-to-limit table applied to the stored limit. */
  function WithTableLimit(r: Record): Record
  {
    r.(tokenLimit := TableLimit(r.plan, r.tokenLimit))
  }

  predicate TrialExhausted(r: Record)
  {
    r.plan == Trial && r.trialLeft == 0
  }

  /**
   * The daily reset of the account page. On a new day it logs the usage it
   * clears, zeroes it, stamps today and spends a trial day; on either day an
   * exhausted trial loses its limit.
   */
  function RolledOver(r: Record, today: Day): Record
  {
    var limit := if TrialExhausted(r) then 0 else r.tokenLimit;
    if r.lastReset != today then
      r.(trialLeft := if r.plan == Trial && r.trialLeft > 0 then r.trialLeft - 1 else r.trialLeft,
         tokenLimit := limit,
         resetLog := r.resetLog + [ResetLogEntry(today, r.tokenUsage)],
         tokenUsage := 0,
         lastReset := today)
    else
      r.(tokenLimit := limit)
  }

  /** The plan checks of the chat endpoint, made before any reset. */
  predicate PlanBlocks(r: Record)
  {
    r.plan == NoPlan || TrialExhausted(r) || r.plan == Old
  }

  /** Explicit start of the free trial, whatever the current plan. */
  function TrialStarted(r: Record, today: Day): Record
  {
    r.(plan := Trial, planLog := r.planLog + [PlanLogEntry("to trial", today)], tokenUsage := 0, tokenLimit := TrialLimit)
  }

  function Subscribed(r: Record, id: string): Record
  {
    r.(subscriptionId := id)
  }

  function Cancelled(r: Record): Record
  {
    r.(subscriptionId := "")
  }

  /** The cost of a successful chat completion, added without a cap. */
  function Charged(r: Record, cost: nat): Record
  {
    r.(tokenUsage := r.tokenUsage + cost)
  }

  // ---------------------------------------------------------------------
  // Reconciliation

  /**
   * Reconciling a canonical plan appends exactly one `plan_log` entry, naming
   * the new plan, when the plan changes, and none otherwise.
   */
  lemma ReconcileLogsIffPlanChanges(r: Record, active: Option<string>, today: Day)
    requires Canonical(r.plan)
    ensures var r' := Reconciled(r, active, today);
      Canonical(r'.plan) &&
      (r'.plan == r.plan ==> r'.planLog == r.planLog) &&
      (r'.plan != r.plan ==> r'.planLog == r.planLog + [PlanLogEntry("to " + Name(r'.plan), today)])
  {
    if active.Some? {
      NameInjective(r.plan, Parse(active.value));
    } else {
      assert "to " + Name(Old) == "to old";
    }
  }

  /** With an active subscription the plan becomes its name; only plan and log change. */
  lemma ReconcileWithActive(r: Record, name: string, today: Day)
    ensures var r' := Reconciled(r, Some(name), today);
      Name(r'.plan) == name && r' == r.(plan := r'.plan, planLog := r'.planLog)
  {
  }

  /**
   * With no active subscription basic and premium lapse to old with one
   * "to old" entry; none, trial, old and other names are left as they are.
   */
  lemma ReconcileWithoutActive(r: Record, today: Day)
    ensures var r' := Reconciled(r, None, today);
      (r.plan == Basic || r.plan == Premium ==>
         r' == r.(plan := Old, planLog := r.planLog + [PlanLogEntry("to old", today)])) &&
      (r.plan != Basic && r.plan != Premium ==> r' == r)
  {
  }

  /** Reconciling again against the same report changes nothing more. */
  lemma ReconcileIdempotent(r: Record, active: Option<string>, today: Day, later: Day)
    ensures Reconciled(Reconciled(r, active, today), active, later) == Reconciled(r, active, today)
  {
  }

  /**
   * The limit after the account page's reconciliation, table and reset: fixed
   * by the table for none, basic, premium and old; for a trial, 0 when its
   * trial days were 0 before the reset, and otherwise the stored limit.
   */
  lemma LimitAfterVisit(r: Record, active: Option<string>, today: Day)
    ensures var p := Reconciled(r, active, today);
      var v := RolledOver(WithTableLimit(p), today);
      (p.plan == NoPlan || p.plan == Old ==> v.tokenLimit == 0) &&
      (p.plan == Basic ==> v.tokenLimit == BasicLimit) &&
      (p.plan == Premium ==> v.tokenLimit == PremiumLimit) &&
      (p.plan == Trial ==> v.tokenLimit == if p.trialLeft == 0 then 0 else p.tokenLimit) &&
      (p.plan.Other? ==> v.tokenLimit == p.tokenLimit)
  {
  }

  // ---------------------------------------------------------------------
  // Daily reset

  /**
   * On a new day the reset log gains exactly one entry, today with the usage
   * being cleared; usage becomes zero and the reset is stamped today.
   */
  lemma RollOverNewDay(r: Record, today: Day)
    requires r.lastReset != today
    ensures var r' := RolledOver(r, today);
      r'.resetLog == r.resetLog + [ResetLogEntry(today, r.tokenUsage)] &&
      r'.tokenUsage == 0 && r'.lastReset == today &&
      r'.plan == r.plan && r'.planLog == r.planLog && r'.subscriptionId == r.subscriptionId
  {
  }

  /** On the same day usage, reset log and trial days are untouched; only an exhausted trial's limit drops. */
  lemma RollOverSameDay(r: Record, today: Day)
    requires r.lastReset == today
    ensures RolledOver(r, today) == r.(tokenLimit := if TrialExhausted(r) then 0 else r.tokenLimit)
  {
  }

  /**
   * A second reset on the same day is a no-op for usage, reset log, stamp and
   * trial days; it can only zero the limit of a trial that the first one ended.
   */
  lemma RollOverIdempotent(r: Record, today: Day)
    ensures var once := RolledOver(r, today);
      var twice := RolledOver(once, today);
      twice.tokenUsage == once.tokenUsage && twice.resetLog == once.resetLog &&
      twice.lastReset == once.lastReset && twice.trialLeft == once.trialLeft &&
      (twice.tokenLimit == once.tokenLimit || (TrialExhausted(once) && twice.tokenLimit == 0)) &&
      RolledOver(twice, today) == twice
  {
  }

  /**
   * `trial_left` drops by exactly one per rollover of a trial with days left,
   * and is otherwise unchanged.
   */
  lemma RollOverSpendsOneTrialDay(r: Record, today: Day)
    ensures var r' := RolledOver(r, today);
      r'.trialLeft == if r.lastReset != today && r.plan == Trial && r.trialLeft > 0 then r.trialLeft - 1 else r.trialLeft
  {
  }

  /** An exhausted trial's limit is zero after the reset, whether or not the day rolled over. */
  lemma ExhaustedTrialHasNoLimit(r: Record, today: Day)
    requires TrialExhausted(r)
    ensures RolledOver(r, today).tokenLimit == 0 && TrialExhausted(RolledOver(r, today))
  {
  }

  // ---------------------------------------------------------------------
  // Explicit actions

  /**
   * Starting the trial sets plan, usage and limit and logs "to trial", even
   * when the plan already was trial; trial days and the reset are untouched.
   */
  lemma StartTrialEffect(r: Record, today: Day)
    ensures var r' := TrialStarted(r, today);
      r'.plan == Trial && r'.tokenUsage == 0 && r'.tokenLimit == TrialLimit &&
      r'.planLog == r.planLog + [PlanLogEntry("to trial", today)] &&
      r'.trialLeft == r.trialLeft && r'.lastReset == r.lastReset && r'.resetLog == r.resetLog
  {
  }

  /**
   * For the same record and day, an account visit that finds an active
   * premium subscription leaves a higher limit than one that finds basic.
   */
  lemma PremiumVisitOutranksBasic(r: Record, today: Day)
    ensures var basic := RolledOver(WithTableLimit(Reconciled(r, Some("basic"), today)), today);
      var premium := RolledOver(WithTableLimit(Reconciled(r, Some("premium"), today)), today);
      basic.tokenLimit < premium.tokenLimit
  {
  }

  /** Cancelling after subscribing over an empty reference restores the document; nothing else is touched. */
  lemma CancelUndoesSubscribe(r: Record, id: string)
    requires r.subscriptionId == ""
    ensures Cancelled(Subscribed(r, id)) == r
  {
  }

  /**
   * Cancelling a paid tier, then reconciling once the platform reports no
   * active subscription, lapses the plan to old with a zero limit.
   */
  lemma CancelThenReconcileLapses(r: Record, today: Day)
    requires r.plan == Basic || r.plan == Premium
    ensures var v := RolledOver(WithTableLimit(Reconciled(Cancelled(r), None, today)), today);
      v.plan == Old && v.tokenLimit == 0 && v.subscriptionId == ""
  {
  }
}
