/**
 * Access-control policies as the core controllers and models declare them in a
 * static `$access` property: each action name maps to an ordered list of rules.
 */
module Access {
  import opened Wrappers

  /** One rule: the check to run and, optionally, where to send a request that fails it. */
  datatype Rule = Rule(rule: string, redirect: Option<string>)

  /** A controller's or model's `$access` table: action name to its ordered rules. */
  type AccessTable = map<string, seq<Rule>>
}
