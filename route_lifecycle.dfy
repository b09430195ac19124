/** The registered forwarding-rule set and its insert/remove primitives. */
module RouteLifecycle {
  import opened RouteTable

  /** The `HashSet<ForwardingRule>` behind the streamer's mutex. */
  class ForwardingRules {
    var registered: set<ForwardingRule>

    constructor ()
      ensures registered == {}
    {
      registered := {};
    }
  }

  /** `HashSet::insert`: reports whether the rule was new. */
  method InsertForwardingRule(rules: ForwardingRules, rule: ForwardingRule) returns (inserted: bool)
    modifies rules`registered
    ensures inserted <==> rule !in old(rules.registered)
    ensures rules.registered == old(rules.registered) + {rule}
  {
    inserted := rule !in rules.registered;
    rules.registered := rules.registered + {rule};
  }

  /** `HashSet::remove`: reports whether the rule was present. */
  method RemoveForwardingRule(rules: ForwardingRules, rule: ForwardingRule) returns (removed: bool)
    modifies rules`registered
    ensures removed <==> rule in old(rules.registered)
    ensures rules.registered == old(rules.registered) - {rule}
  {
    removed := rule in rules.registered;
    rules.registered := rules.registered - {rule};
  }

  /** Inserting an absent rule and removing it again restores the set. */
  lemma InsertThenRemoveRestores(s: set<ForwardingRule>, rule: ForwardingRule)
    requires rule !in s
    ensures (s + {rule}) - {rule} == s
  {
  }
}
