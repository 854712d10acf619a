/**
 * The account document as a handler holds it after loading: its fields are
 * assigned and its logs appended to step by step, then it is saved or
 * dropped. Each method is proved to leave the document in the state the
 * matching function of `Records` describes.
 */
module AccountDoc {
  import opened Optional
  import opened Plans
  import opened Records

  class Account {
    var shopId: string
    var created: Day
    var plan: Plan
    var planLog: seq<PlanLogEntry>
    var subscriptionId: string
    var trialLeft: nat
    var tokenLimit: nat
    var tokenUsage: nat
    var lastReset: Day
    var resetLog: seq<ResetLogEntry>

    /** The document as it would be saved. */
    function Snapshot(): Record
      reads this
    {
      Record(shopId, created, plan, planLog, subscriptionId, trialLeft, tokenLimit, tokenUsage, lastReset, resetLog)
    }

    /** A new document for an unknown shop. */
    constructor Provision(shop: string, today: Day)
      ensures Snapshot() == Provisioned(shop, today)
    {
      shopId := shop;
      created := today;
      plan := NoPlan;
      planLog := [];
      subscriptionId := "";
      trialLeft := TrialDays;
      tokenLimit := 0;
      tokenUsage := 0;
      lastReset := today;
      resetLog := [];
    }

    /** A document loaded from the store. */
    constructor Load(r: Record)
      ensures Snapshot() == r
    {
      shopId := r.shopId;
      created := r.created;
      plan := r.plan;
      planLog := r.planLog;
      subscriptionId := r.subscriptionId;
      trialLeft := r.trialLeft;
      tokenLimit := r.tokenLimit;
      tokenUsage := r.tokenUsage;
      lastReset := r.lastReset;
      resetLog := r.resetLog;
    }

    /** Plan transitions driven by the billing platform's report. */
    method ReconcilePlan(active: Option<string>, today: Day)
      modifies this
      ensures Snapshot() == Reconciled(old(Snapshot()), active, today)
    {
      if active.Some? {
        var currentPlan := active.value;
        if Name(plan) != currentPlan {
          planLog := planLog + [PlanLogEntry("to " + currentPlan, today)];
        }
        plan := Parse(currentPlan);
      } else {
        if plan == Basic || plan == Premium {
          plan := Old;
          planLog := planLog + [PlanLogEntry("to old", today)];
        }
      }
    }

    /** The plan-to-limit `switch`. */
    method ApplyLimitTable()
      modifies this
      ensures Snapshot() == WithTableLimit(old(Snapshot()))
    {
      match plan {
        case NoPlan => tokenLimit := 0;
        case Basic => tokenLimit := BasicLimit;
        case Premium => tokenLimit := PremiumLimit;
        case Old => tokenLimit := 0;
        case _ =>
      }
    }

    /** The account page's copy of the daily reset. */
    method RollOverForPage(today: Day)
      modifies this
      ensures Snapshot() == RolledOver(old(Snapshot()), today)
    {
      if lastReset != today {
        if plan == Trial {
          if trialLeft == 0 {
            tokenLimit := 0;
          } else {
            trialLeft := trialLeft - 1;
          }
        }
        resetLog := resetLog + [ResetLogEntry(today, tokenUsage)];
        tokenUsage := 0;
        lastReset := today;
      } else {
        if plan == Trial {
          if trialLeft == 0 {
            tokenLimit := 0;
          }
        }
      }
    }

    /**
     * The admission gate of the chat endpoint: the plan checks, its own copy
     * of the daily reset, then the usage check. A plan-denied document is left
     * as loaded. The decision never looks at the cost of the coming request.
     */
    method Admit(today: Day) returns (admitted: bool)
      modifies this
      ensures old(PlanBlocks(Snapshot())) ==> !admitted && Snapshot() == old(Snapshot())
      ensures !old(PlanBlocks(Snapshot())) ==> Snapshot() == RolledOver(old(Snapshot()), today)
      ensures admitted <==> !old(PlanBlocks(Snapshot())) && tokenUsage < tokenLimit
    {
      if plan == NoPlan {
        return false;
      }
      if plan == Trial && trialLeft == 0 {
        return false;
      }
      if plan == Old {
        return false;
      }
      if lastReset != today {
        if plan == Trial {
          if trialLeft == 0 {
            // The exhausted-trial branch of this reset copy: the plan checks
            // above have already returned for every document that reaches it.
            assert false;
          } else {
            trialLeft := trialLeft - 1;
          }
        }
        resetLog := resetLog + [ResetLogEntry(today, tokenUsage)];
        tokenUsage := 0;
        lastReset := today;
      }
      if tokenUsage >= tokenLimit {
        return false;
      }
      return true;
    }

    /** Adds the measured cost of a successful completion, without a cap. */
    method Charge(cost: nat)
      modifies this
      ensures Snapshot() == Charged(old(Snapshot()), cost)
    {
      tokenUsage := tokenUsage + cost;
    }

    method StartTrial(today: Day)
      modifies this
      ensures Snapshot() == TrialStarted(old(Snapshot()), today)
    {
      plan := Trial;
      planLog := planLog + [PlanLogEntry("to trial", today)];
      tokenUsage := 0;
      tokenLimit := TrialLimit;
    }

    /** Stores the reference of a subscription just created with the billing platform. */
    method RecordSubscription(id: string)
      modifies this
      ensures Snapshot() == Subscribed(old(Snapshot()), id)
    {
      subscriptionId := id;
    }

    method ClearSubscription()
      modifies this
      ensures Snapshot() == Cancelled(old(Snapshot()))
    {
      subscriptionId := "";
    }
  }
}
