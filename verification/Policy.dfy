/** gateway/policy/policies/tools.rego: the decision rules, as the set of values they produce. */
module Policy {
  import opened Common

  datatype Outcome = Deny | RequiresApproval | Allow

  datatype Decision = Decision(outcome: Outcome, matchedRule: string, reason: string)

  /** `input.principal`: undefined or false, present without usable fields, or an identity. */
  datatype PrincipalInput = NoPrincipal | MalformedPrincipal | Identity(tenantId: string, roles: seq<string>)

  datatype Input = Input(toolName: string, risk: Risk, arguments: Args, principal: PrincipalInput)

  /** ASCII upper case. */
  function Upper(text: string): (upper: string)
    ensures |upper| == |text|
    ensures forall i | 0 <= i < |text| :: upper[i] == if 'a' <= text[i] <= 'z' then text[i] - 'a' + 'A' else text[i]
  {
    if text == "" then ""
    else Upper(text[..|text| - 1])
         + [if 'a' <= text[|text| - 1] <= 'z' then text[|text| - 1] - 'a' + 'A' else text[|text| - 1]]
  }

  /** `input.principal` holds and its tenant and one of its roles qualify. */
  predicate HasRole(p: PrincipalInput, accepted: set<string>) {
    p.Identity? && p.tenantId != "" && exists i | 0 <= i < |p.roles| :: p.roles[i] in accepted
  }

  predicate CallerAuthorized(i: Input) {
    i.principal.NoPrincipal? || HasRole(i.principal, {"user", "operator", "admin"})
  }

  predicate CallerElevated(i: Input) {
    i.principal.NoPrincipal? || HasRole(i.principal, {"operator", "admin"})
  }

  /** The text of a string argument; a rule that needs it fails when it is missing or is not a
      string. */
  function Argument(i: Input, name: string): Option<string> {
    if name in i.arguments && i.arguments[name].JString? then Some(i.arguments[name].text) else None
  }

  predicate DestructiveQuery(text: string) {
    var query := Upper(text);
    || Contains(query, "DROP")
    || Contains(query, "TRUNCATE")
    || (StartsWith(query, "DELETE") && !Contains(query, " WHERE "))
    || (StartsWith(query, "UPDATE") && !Contains(query, " WHERE "))
  }

  predicate Destructive(i: Input) {
    || (i.toolName == "db_query" && Argument(i, "query").Some? && DestructiveQuery(Argument(i, "query").value))
    || (i.toolName == "shell_exec" && Argument(i, "command").Some? && Contains(Argument(i, "command").value, ".."))
  }

  /** The six rules of `decision`: five conditional ones and the default. */
  datatype Rule = InvalidPrincipal | ReadOnlyTool | DestructiveOperation | MutatingTool | DestructiveRiskClass

  predicate Fires(rule: Rule, i: Input) {
    match rule
    case InvalidPrincipal => !i.principal.NoPrincipal? && !CallerAuthorized(i)
    case ReadOnlyTool => i.risk.ReadOnly? && CallerAuthorized(i) && !Destructive(i)
    case DestructiveOperation => Destructive(i) && CallerElevated(i)
    case MutatingTool => i.risk.Mutating? && CallerElevated(i) && !Destructive(i)
    case DestructiveRiskClass => i.risk.Destructive? && CallerElevated(i) && !Destructive(i)
  }

  function ValueOf(rule: Rule): Decision {
    match rule
    case InvalidPrincipal => Decision(Deny, "invalid_principal", "A verified tenant and supported role are required")
    case ReadOnlyTool => Decision(Allow, "read_only_tool", "Read-only tools are allowed")
    case DestructiveOperation =>
      Decision(RequiresApproval, "destructive_operation",
               "Destructive operations require explicit approval and a reason")
    case MutatingTool => Decision(RequiresApproval, "mutating_tool", "Mutating tools require explicit approval")
    case DestructiveRiskClass =>
      Decision(RequiresApproval, "destructive_risk_class", "Destructive tools require explicit approval and a reason")
  }

  const DEFAULT := Decision(Deny, "default_deny", "No policy rule matched")

  /** A value that the document `decision` can take: that of a rule that fires, or the default
      when none does. */
  ghost predicate Yields(i: Input, d: Decision) {
    || (exists rule: Rule :: Fires(rule, i) && ValueOf(rule) == d)
    || (d == DEFAULT && forall rule: Rule :: !Fires(rule, i))
  }

  /** The rules evaluated in order. */
  function Decide(i: Input): Decision {
    if Fires(InvalidPrincipal, i) then ValueOf(InvalidPrincipal)
    else if Fires(ReadOnlyTool, i) then ValueOf(ReadOnlyTool)
    else if Fires(DestructiveOperation, i) then ValueOf(DestructiveOperation)
    else if Fires(MutatingTool, i) then ValueOf(MutatingTool)
    else if Fires(DestructiveRiskClass, i) then ValueOf(DestructiveRiskClass)
    else DEFAULT
  }

  lemma ElevatedIsAuthorized(i: Input)
    ensures CallerElevated(i) ==> CallerAuthorized(i)
  {
    if i.principal.Identity? && HasRole(i.principal, {"operator", "admin"}) {
      var k :| 0 <= k < |i.principal.roles| && i.principal.roles[k] in {"operator", "admin"};
      assert i.principal.roles[k] in {"user", "operator", "admin"};
    }
  }

  /** No two rules fire together, so the evaluation order is immaterial: `decision` takes
      exactly one value on every input. */
  lemma DecisionIsUnique(i: Input, d: Decision)
    ensures Yields(i, d) <==> d == Decide(i)
  {
    ElevatedIsAuthorized(i);
    hide Destructive, CallerElevated, CallerAuthorized;
    if d == Decide(i) && d != DEFAULT {
      var rule := if Fires(InvalidPrincipal, i) then InvalidPrincipal
                  else if Fires(ReadOnlyTool, i) then ReadOnlyTool
                  else if Fires(DestructiveOperation, i) then DestructiveOperation
                  else if Fires(MutatingTool, i) then MutatingTool
                  else DestructiveRiskClass;
      assert Fires(rule, i) && ValueOf(rule) == d;
    }
  }

  /** How far an outcome lets a call go. */
  function Reach(o: Outcome): nat {
    match o case Deny => 0 case RequiresApproval => 1 case Allow => 2
  }

  lemma MoreRoles(p: PrincipalInput, more: seq<string>, accepted: set<string>)
    requires p.Identity? && HasRole(p, accepted)
    ensures HasRole(p.(roles := p.roles + more), accepted)
  {
    var k :| 0 <= k < |p.roles| && p.roles[k] in accepted;
    assert (p.roles + more)[k] in accepted;
  }

  /** Adding roles never moves the outcome towards deny. */
  lemma RolesNeverHurt(i: Input, more: seq<string>)
    requires i.principal.Identity?
    ensures Reach(Decide(i).outcome)
            <= Reach(Decide(i.(principal := i.principal.(roles := i.principal.roles + more))).outcome)
  {
    var j := i.(principal := i.principal.(roles := i.principal.roles + more));
    if CallerAuthorized(i) { MoreRoles(i.principal, more, {"user", "operator", "admin"}); }
    if CallerElevated(i) { MoreRoles(i.principal, more, {"operator", "admin"}); }
    ElevatedIsAuthorized(j);
    assert Destructive(i) == Destructive(j);
  }

  // ----- The rules over the text of the arguments -----

  /** `c` is the capital letter or other character `upper`, in either case. */
  predicate SameLetter(c: char, upper: char) {
    c == upper || ('A' <= upper <= 'Z' && c == upper - 'A' + 'a')
  }

  /** The text reads `word`, in any case, at position `k`. */
  predicate ReadsAt(text: string, word: string, k: nat) {
    k + |word| <= |text| && forall j | 0 <= j < |word| :: SameLetter(text[k + j], word[j])
  }

  predicate Capital(word: string) {
    forall j | 0 <= j < |word| :: !('a' <= word[j] <= 'z')
  }

  lemma UpperReads(text: string, word: string, k: nat)
    requires Capital(word)
    ensures OccursAt(Upper(text), word, k) <==> ReadsAt(text, word, k)
  {
    var upper := Upper(text);
    hide Upper;
    OccurrenceReads(upper, word, k);
    if ReadsAt(text, word, k) {
      assert upper[k..k + |word|] == word;
    }
  }

  /** What makes a database query destructive: DROP or TRUNCATE anywhere, or DELETE or UPDATE at the
      start without a WHERE between spaces, all in any case. */
  lemma DestructiveQueryExactly(text: string)
    ensures DestructiveQuery(text) <==>
              || (exists k: nat | k <= |text| :: ReadsAt(text, "DROP", k) || ReadsAt(text, "TRUNCATE", k))
              || ((ReadsAt(text, "DELETE", 0) || ReadsAt(text, "UPDATE", 0))
                  && forall k: nat | k <= |text| :: !ReadsAt(text, " WHERE ", k))
  {
    forall k: nat
      ensures OccursAt(Upper(text), "DROP", k) <==> ReadsAt(text, "DROP", k)
      ensures OccursAt(Upper(text), "TRUNCATE", k) <==> ReadsAt(text, "TRUNCATE", k)
      ensures OccursAt(Upper(text), " WHERE ", k) <==> ReadsAt(text, " WHERE ", k)
    {
      UpperReads(text, "DROP", k);
      UpperReads(text, "TRUNCATE", k);
      UpperReads(text, " WHERE ", k);
    }
    UpperReads(text, "DELETE", 0);
    UpperReads(text, "UPDATE", 0);
    var upper := Upper(text);
    hide Upper, ReadsAt;
    StartsAtZero(upper, "DELETE");
    StartsAtZero(upper, "UPDATE");
    hide OccursAt;
  }

  lemma StartsAtZero(s: string, prefix: string)
    ensures StartsWith(s, prefix) <==> OccursAt(s, prefix, 0)
  {
  }

  /** The destructive operations: such a database query, or a shell command with "..". */
  predicate Harmful(i: Input) {
    || (&& i.toolName == "db_query" && "query" in i.arguments && i.arguments["query"].JString?
        && var text := i.arguments["query"].text;
           || (exists k: nat | k <= |text| :: ReadsAt(text, "DROP", k) || ReadsAt(text, "TRUNCATE", k))
           || ((ReadsAt(text, "DELETE", 0) || ReadsAt(text, "UPDATE", 0))
               && forall k: nat | k <= |text| :: !ReadsAt(text, " WHERE ", k)))
    || (&& i.toolName == "shell_exec" && "command" in i.arguments && i.arguments["command"].JString?
        && exists k: nat | k <= |i.arguments["command"].text| :: OccursAt(i.arguments["command"].text, "..", k))
  }

  lemma HarmfulExactly(i: Input)
    ensures Destructive(i) <==> Harmful(i)
  {
    if "query" in i.arguments && i.arguments["query"].JString? {
      DestructiveQueryExactly(i.arguments["query"].text);
    }
    hide DestructiveQuery, ReadsAt;
  }

  /** A caller with a tenant and one of these roles. */
  predicate Holds(p: PrincipalInput, roles: set<string>) {
    p.Identity? && p.tenantId != "" && exists k | 0 <= k < |p.roles| :: p.roles[k] in roles
  }

  /** The outcome and the rule for every input, over the text of its arguments.  Without a
      principal in the input every caller counts as an operator. */
  lemma OutcomeCharacterised(i: Input)
    ensures var user := i.principal.NoPrincipal? || Holds(i.principal, {"user", "operator", "admin"});
            var operator := i.principal.NoPrincipal? || Holds(i.principal, {"operator", "admin"});
            var d := Decide(i);
            && (d.outcome.Allow? <==> i.risk.ReadOnly? && !Harmful(i) && user)
            && (d.outcome.RequiresApproval? <==> (!i.risk.ReadOnly? || Harmful(i)) && operator)
            && d.matchedRule == (if !user then "invalid_principal"
                                 else if i.risk.ReadOnly? && !Harmful(i) then "read_only_tool"
                                 else if !operator then "default_deny"
                                 else if Harmful(i) then "destructive_operation"
                                 else if i.risk.Mutating? then "mutating_tool"
                                 else "destructive_risk_class")
  {
    ElevatedIsAuthorized(i);
    HarmfulExactly(i);
    hide Destructive, Harmful;
  }

  /** A query that starts with DELETE or UPDATE, in any case, and has no WHERE is never allowed:
      operators are sent to approval, and other identified callers are denied. */
  lemma UnboundedChangesNeedApproval(i: Input, text: string)
    requires i.toolName == "db_query" && "query" in i.arguments && i.arguments["query"] == JString(text)
    requires ReadsAt(text, "DELETE", 0) || ReadsAt(text, "UPDATE", 0)
    requires forall k: nat :: !ReadsAt(text, " WHERE ", k)
    ensures !Decide(i).outcome.Allow?
    ensures Decide(i).outcome.RequiresApproval?
            <==> i.principal.NoPrincipal? || Holds(i.principal, {"operator", "admin"})
  {
    OutcomeCharacterised(i);
    hide ReadsAt, Decide;
  }

  /** Likewise a query with DROP or TRUNCATE anywhere, and a shell command with "..". */
  lemma DropsNeedApproval(i: Input, name: string, text: string, k: nat)
    requires name in i.arguments && i.arguments[name] == JString(text)
    requires if i.toolName == "db_query"
             then name == "query" && (ReadsAt(text, "DROP", k) || ReadsAt(text, "TRUNCATE", k))
             else i.toolName == "shell_exec" && name == "command" && OccursAt(text, "..", k)
    ensures !Decide(i).outcome.Allow?
    ensures Decide(i).outcome.RequiresApproval?
            <==> i.principal.NoPrincipal? || Holds(i.principal, {"operator", "admin"})
  {
    OutcomeCharacterised(i);
    assert k <= |text|;
    hide Decide;
  }

  /** For instance: a caller with only the role `user` is denied a DELETE of everything. */
  lemma DeleteIsDenied(tenant: string)
    requires tenant != ""
    ensures var everything := map["query" := JString("DELETE FROM orders")];
            var i := Input("db_query", ReadOnly, everything, Identity(tenant, ["user"]));
            Decide(i).outcome.Deny?
  {
    var text := "DELETE FROM orders";
    var i := Input("db_query", ReadOnly, map["query" := JString(text)], Identity(tenant, ["user"]));
    forall k: nat ensures !ReadsAt(text, " WHERE ", k) {
      assert forall j | 0 <= j < |text| :: text[j] != 'W' && text[j] != 'w';
      assert " WHERE "[1] == 'W';
      assert k + 7 <= |text| ==> !SameLetter(text[k + 1], 'W');
    }
    UnboundedChangesNeedApproval(i, text);
    hide ReadsAt, Decide;
  }

  predicate OnlyUser(p: PrincipalInput) {
    p.Identity? && forall k | 0 <= k < |p.roles| :: p.roles[k] == "user"
  }

  /** A caller that holds only the role `user` is allowed read-only, non-destructive calls and
      nothing else, approval included. */
  lemma UserReadsOnly(i: Input)
    requires OnlyUser(i.principal)
    ensures Decide(i).outcome != RequiresApproval
    ensures Decide(i).outcome.Allow? ==> i.risk.ReadOnly? && !Destructive(i)
  {
    OutcomeCharacterised(i);
  }
}
