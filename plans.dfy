/**
 * The subscription plan of a shop. The source keeps `plan` as a free string
 * (web/models/user.js:14-16); five names carry meaning and any other name
 * reported by the billing platform is stored verbatim.
 */
module Plans {

  datatype Plan = NoPlan | Trial | Basic | Premium | Old | Other(name: string)

  const TrialDays: nat := 5
  const TrialLimit: nat := 1000
  const BasicLimit: nat := 50000
  const PremiumLimit: nat := 100000

  /** The string stored in the `plan` field for this plan. */
  function Name(p: Plan): string
  {
    match p
    case NoPlan => "none"
    case Trial => "trial"
    case Basic => "basic"
    case Premium => "premium"
    case Old => "old"
    case Other(n) => n
  }

  predicate IsKnownName(s: string)
  {
    s == "none" || s == "trial" || s == "basic" || s == "premium" || s == "old"
  }

  /** A plan value some stored string stands for: `Other` never spells a known name. */
  predicate Canonical(p: Plan)
  {
    p.Other? ==> !IsKnownName(p.name)
  }

  /** Reads a stored or reported plan name. */
  function Parse(s: string): (p: Plan)
    ensures Canonical(p)
    ensures Name(p) == s
  {
    if s == "none" then NoPlan
    else if s == "trial" then Trial
    else if s == "basic" then Basic
    else if s == "premium" then Premium
    else if s == "old" then Old
    else Other(s)
  }

  lemma ParseName(p: Plan)
    requires Canonical(p)
    ensures Parse(Name(p)) == p
  {
  }

  /** Comparing stored strings, as the source does, is comparing canonical plans. */
  lemma NameInjective(p: Plan, q: Plan)
    requires Canonical(p) && Canonical(q)
    ensures Name(p) == Name(q) <==> p == q
  {
    if Name(p) == Name(q) {
      ParseName(p);
      ParseName(q);
    }
  }

  /**
   * The `switch` that follows reconciliation: the four plans it names get a
   * fixed limit; `trial` and any other name fall through and keep `current`.
   */
  function TableLimit(p: Plan, current: nat): (limit: nat)
    ensures p == NoPlan || p == Old ==> limit == 0
    ensures p == Basic ==> limit == BasicLimit
    ensures p == Premium ==> limit == PremiumLimit
    ensures p.Trial? || p.Other? ==> limit == current
  {
    match p
    case NoPlan => 0
    case Basic => BasicLimit
    case Premium => PremiumLimit
    case Old => 0
    case _ => current
  }

  /** Applying the table twice is applying it once. */
  lemma TableLimitIdempotent(p: Plan, current: nat)
    ensures TableLimit(p, TableLimit(p, current)) == TableLimit(p, current)
  {
  }
}
