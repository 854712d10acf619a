/** The two pure expressions of the request handlers. */
module Helpers {
  import opened Optional

  datatype ChatModel = Turbo | Turbo16k

  /** Below this many tokens in the previous completion the small-context model is used. */
  const ModelThreshold: int := 3800

  /**
   * Model choice for a chat completion. `prev` is the previous completion's
   * token count as `Number(...)` reads it; `None` stands for a value that
   * does not parse (NaN), for which the comparison is false.
   */
  function ChooseModel(prev: Option<int>): (m: ChatModel)
    ensures m == Turbo <==> prev.Some? && prev.value < ModelThreshold
  {
    match prev
    case Some(n) => if n < ModelThreshold then Turbo else Turbo16k
    case None => Turbo16k
  }

  /** A larger previous count never selects the small model when a smaller one did not. */
  lemma ChooseModelMonotone(a: int, b: int)
    requires a <= b
    ensures ChooseModel(Some(b)) == Turbo ==> ChooseModel(Some(a)) == Turbo
  {
  }

  const DomainSuffix: string := ".myshopify.com"

  /**
   * The store handle in a shop's domain: drops the last 14 characters, the
   * length of ".myshopify.com", and yields "" for a shorter string, as a
   * slice with a negative end does.
   */
  function TrimDomain(domain: string): (handle: string)
    ensures |domain| < |DomainSuffix| ==> handle == ""
    ensures |domain| >= |DomainSuffix| ==> handle + domain[|domain| - |DomainSuffix|..] == domain
  {
    if |domain| >= 14 then domain[..|domain| - 14] else ""
  }

  /** Trimming undoes appending the suffix. */
  lemma TrimDomainRoundTrip(handle: string)
    ensures TrimDomain(handle + DomainSuffix) == handle
  {
    assert (handle + DomainSuffix)[..|handle|] == handle;
  }

  /** A domain with the suffix is its handle followed by the suffix. */
  lemma TrimDomainSplits(domain: string)
    requires |domain| >= |DomainSuffix| && domain[|domain| - |DomainSuffix|..] == DomainSuffix
    ensures TrimDomain(domain) + DomainSuffix == domain
  {
  }
}
