/** The policy evaluator: built-in safeguards and matching policies each name a verdict,
    and the most restrictive one wins.

    The code folds twice, first over the safeguards and then over their winner and the
    policies. Candidates is the flat list that the two folds are proved equal to. */
module PolicyEvaluator {
  import opened Wrappers

  datatype Verdict =
    | Deny
    | RequireHumanApproval
    | PreauthorizedExternal
    | AllowWithReceipt
    | AllowInternal
    | OtherVerdict(name: string)

  const DEFAULT_PRECEDENCE: seq<Verdict> :=
    [Deny, RequireHumanApproval, PreauthorizedExternal, AllowWithReceipt, AllowInternal]

  // ---------------------------------------------------------------------
  // The most restrictive verdict
  // ---------------------------------------------------------------------

  /** The place of a verdict in the order: its last one, since later ones overwrite. */
  function Rank(order: seq<Verdict>, v: Verdict): (r: nat)
    requires v in order
    ensures r < |order| && order[r] == v
  {
    var last := |order| - 1;
    if order[last] == v then last else Rank(order[..last], v)
  }

  lemma {:induction false} RankIsLast(order: seq<Verdict>, i: nat)
    requires i < |order|
    ensures i <= Rank(order, order[i])
  {
    var last := |order| - 1;
    if order[last] != order[i] {
      RankIsLast(order[..last], i);
    }
  }

  function IfUnknown(order: seq<Verdict>, v: Verdict): seq<Verdict> {
    if v in order then [] else [v]
  }

  /** The verdicts without a rank among the first n. */
  function UnknownTo(order: seq<Verdict>, vs: seq<Verdict>, n: nat): seq<Verdict>
    requires n <= |vs|
  {
    if n == 0 then [] else UnknownTo(order, vs, n - 1) + IfUnknown(order, vs[n - 1])
  }

  function Unknown(order: seq<Verdict>, vs: seq<Verdict>): seq<Verdict> {
    UnknownTo(order, vs, |vs|)
  }

  ghost predicate Known(order: seq<Verdict>, vs: seq<Verdict>) {
    forall v | v in vs :: v in order
  }

  /** min by rank: the first of the least. */
  function Least(order: seq<Verdict>, vs: seq<Verdict>): (r: Verdict)
    requires vs != [] && Known(order, vs)
    ensures r in vs && forall v | v in vs :: Rank(order, r) <= Rank(order, v)
  {
    if |vs| == 1 then vs[0]
    else
      var m := Least(order, vs[..|vs| - 1]);
      var v := vs[|vs| - 1];
      assert vs == vs[..|vs| - 1] + [v];
      if Rank(order, v) < Rank(order, m) then v else m
  }

  datatype Failure = NoVerdict | UnknownVerdicts(verdicts: seq<Verdict>)

  datatype Judgement = Judged(verdict: Verdict) | Failed(failure: Failure)

  function Precedence(order: seq<Verdict>): seq<Verdict> {
    if order == [] then DEFAULT_PRECEDENCE else order
  }

  function Judge(vs: seq<Verdict>, order: seq<Verdict>): Judgement {
    if vs == [] then Failed(NoVerdict)
    else if Unknown(order, vs) != [] then Failed(UnknownVerdicts(Unknown(order, vs)))
    else
      NoneUnknown(order, vs);
      Judged(Least(order, vs))
  }

  /** most_restrictive_verdict: no order, or an empty one, means the default order. */
  function MostRestrictive(vs: seq<Verdict>, order: seq<Verdict>): Judgement {
    Judge(vs, Precedence(order))
  }

  lemma {:induction false} NoneUnknownTo(order: seq<Verdict>, vs: seq<Verdict>, n: nat)
    requires n <= |vs|
    ensures UnknownTo(order, vs, n) == [] <==> forall i | 0 <= i < n :: vs[i] in order
  {
    if n > 0 {
      NoneUnknownTo(order, vs, n - 1);
      var before, last := UnknownTo(order, vs, n - 1), IfUnknown(order, vs[n - 1]);
      assert |before + last| == |before| + |last|;
    }
  }

  lemma NoneUnknown(order: seq<Verdict>, vs: seq<Verdict>)
    ensures Unknown(order, vs) == [] <==> Known(order, vs)
  {
    NoneUnknownTo(order, vs, |vs|);
  }

  lemma {:induction false} UnknownAgrees(order: seq<Verdict>, us: seq<Verdict>, vs: seq<Verdict>, n: nat)
    requires n <= |us| && n <= |vs| && forall i | 0 <= i < n :: us[i] == vs[i]
    ensures UnknownTo(order, us, n) == UnknownTo(order, vs, n)
  {
    if n > 0 {
      UnknownAgrees(order, us, vs, n - 1);
    }
  }

  lemma {:induction false} UnknownJoin(order: seq<Verdict>, us: seq<Verdict>, vs: seq<Verdict>, n: nat)
    requires n <= |vs|
    ensures UnknownTo(order, us + vs, |us| + n) == Unknown(order, us) + UnknownTo(order, vs, n)
  {
    if n == 0 {
      UnknownAgrees(order, us, us + vs, |us|);
    } else {
      UnknownJoin(order, us, vs, n - 1);
    }
  }

  ghost predicate Best(order: seq<Verdict>, vs: seq<Verdict>, v: Verdict)
    requires Known(order, vs)
  {
    v in vs && forall w | w in vs :: Rank(order, v) <= Rank(order, w)
  }

  lemma JudgedIsBest(vs: seq<Verdict>, order: seq<Verdict>)
    ensures Judge(vs, order).Judged? <==> vs != [] && Known(order, vs)
    ensures Judge(vs, order).Judged? ==> Best(order, vs, Judge(vs, order).verdict)
  {
    NoneUnknown(order, vs);
  }

  lemma BestIsUnique(order: seq<Verdict>, vs: seq<Verdict>, u: Verdict, v: Verdict)
    requires Known(order, vs) && Best(order, vs, u) && Best(order, vs, v)
    ensures u == v
  {
    assert order[Rank(order, u)] == u;
  }

  /** The result is the one listed verdict that ranks before every other; there is none
      exactly when the list is empty or holds a verdict without a rank. */
  lemma JudgedIff(vs: seq<Verdict>, order: seq<Verdict>, v: Verdict)
    ensures Judge(vs, order) == Judged(v) <==> Known(order, vs) && Best(order, vs, v)
    ensures Judge(vs, order).Judged? <==> vs != [] && Known(order, vs)
  {
    JudgedIsBest(vs, order);
    if Known(order, vs) && Best(order, vs, v) {
      BestIsUnique(order, vs, v, Judge(vs, order).verdict);
    }
  }

  /** Only which verdicts occur matters: not their order, not how often. */
  lemma OnlyMembershipMatters(us: seq<Verdict>, vs: seq<Verdict>, order: seq<Verdict>)
    requires forall v :: v in us <==> v in vs
    requires Judge(us, order).Judged?
    ensures Judge(vs, order) == Judge(us, order)
  {
    JudgedIff(us, order, Judge(us, order).verdict);
    JudgedIff(vs, order, Judge(us, order).verdict);
  }

  /** Folding a first group down to its winner changes neither the verdict nor the error. */
  lemma NestedIsFlat(us: seq<Verdict>, vs: seq<Verdict>, order: seq<Verdict>)
    requires Judge(us, order).Judged?
    ensures Judge([Judge(us, order).verdict] + vs, order) == Judge(us + vs, order)
  {
    var u := Judge(us, order).verdict;
    JudgedIsBest(us, order);
    NestedUnknown(us, u, vs, order);
    if Unknown(order, vs) == [] {
      NoneUnknown(order, vs);
      NestedLeast(us, u, vs, order);
    } else {
      NestedFails(us, u, vs, order);
    }
  }

  /** The first group adds nothing to the list of unknown verdicts. */
  lemma NestedUnknown(us: seq<Verdict>, u: Verdict, vs: seq<Verdict>, order: seq<Verdict>)
    requires Known(order, us) && u in us
    ensures Unknown(order, us + vs) == Unknown(order, vs) && Unknown(order, [u] + vs) == Unknown(order, vs)
  {
    KnownAddsNothing(us, vs, order);
    KnownAddsNothing([u], vs, order);
  }

  lemma KnownAddsNothing(us: seq<Verdict>, vs: seq<Verdict>, order: seq<Verdict>)
    requires Known(order, us)
    ensures Unknown(order, us + vs) == Unknown(order, vs)
  {
    NoneUnknown(order, us);
    UnknownJoin(order, us, vs, |vs|);
    var all := us + vs;
    assert |all| == |us| + |vs|;
    var unknown := UnknownTo(order, vs, |vs|);
    assert [] + unknown == unknown;
  }

  lemma NestedFails(us: seq<Verdict>, u: Verdict, vs: seq<Verdict>, order: seq<Verdict>)
    requires us != [] && Unknown(order, vs) != []
    requires Unknown(order, us + vs) == Unknown(order, vs) == Unknown(order, [u] + vs)
    ensures Judge([u] + vs, order) == Judge(us + vs, order)
  {
  }

  lemma NestedLeast(us: seq<Verdict>, u: Verdict, vs: seq<Verdict>, order: seq<Verdict>)
    requires Known(order, us) && Known(order, vs) && Best(order, us, u)
    ensures Judge([u] + vs, order) == Judge(us + vs, order)
  {
    var v := Judge([u] + vs, order);
    JudgedIff([u] + vs, order, u);
    JudgedIff([u] + vs, order, v.verdict);
    assert u in [u] + vs;
    JudgedIff(us + vs, order, v.verdict);
  }

  // ---------------------------------------------------------------------
  // Requests
  // ---------------------------------------------------------------------

  /** The keys of a request that the evaluator reads, and any other that a policy names. */
  datatype Key =
    | Principal | Scope | RequestedAction | AuthorityBasis | Confidence | PriorReceiptPresent
    | MemoryClaimedScope | ExplicitHumanApproval | QuantumResultPresent | ConsequenceClass | ToolScope
    | LiveTokenPresent | CostLimit | BackendSelector | BackendName
    | OtherKey(name: string)

  datatype Item =
    | Nothing
    | Flag(flag: bool)
    | Amount(amount: real)
    | Text(text: string)
    | Items(items: seq<Item>)
    | Fields(fields: map<string, string>)

  type Request = map<Key, Item>

  function Get(q: Request, key: Key): Item {
    if key in q then q[key] else Nothing
  }

  predicate Truthy(x: Item) {
    match x
    case Nothing => false
    case Flag(b) => b
    case Amount(n) => n != 0.0
    case Text(s) => s != ""
    case Items(xs) => xs != []
    case Fields(m) => m != map[]
  }

  predicate Says(q: Request, key: Key) {
    Truthy(Get(q, key))
  }

  function AsList(x: Item): seq<Item> {
    match x
    case Nothing => []
    case Items(xs) => xs
    case _ => [x]
  }

  const DENIED_ACTIONS: set<string> := {"use_secret", "move_money", "purchase", "change_billing"}
  const HUMAN_ACTIONS: set<string> := {"send_email", "publish_post", "submit_form", "message_external_party"}
  const EXTERNAL_TOOLS: set<string> := {"github", "email", "crm", "calendar", "qiskit_runtime"}
  const LEVELS: set<string> := {"low", "medium", "high"}

  predicate TextIn(x: Item, texts: set<string>) {
    x.Text? && x.text in texts
  }

  predicate External(q: Request) {
    TextIn(Get(q, ConsequenceClass), LEVELS) ||
    (exists x | x in AsList(Get(q, ToolScope)) :: TextIn(x, EXTERNAL_TOOLS)) ||
    TextIn(Get(q, RequestedAction), HUMAN_ACTIONS)
  }

  // ---------------------------------------------------------------------
  // Policies
  // ---------------------------------------------------------------------

  datatype Conditions = Conditions(repos: seq<string>, paths: seq<string>, featureBranchOnly: bool,
                                   liveToken: bool, costLimit: bool, backend: bool)

  datatype Policy = Policy(id: string, when: map<Key, Item>, conditions: Conditions, verdict: Verdict, receipt: bool)

  predicate ValueMatches(actual: Item, allowed: Item) {
    exists x | x in AsList(actual) :: x in AsList(allowed)
  }

  predicate WhenMatches(wanted: map<Key, Item>, q: Request) {
    forall key | key in wanted :: ValueMatches(Get(q, key), wanted[key])
  }

  function ScopeField(q: Request, name: string): Option<string> {
    var scope := Get(q, Scope);
    if scope.Fields? && name in scope.fields then Some(scope.fields[name]) else None
  }

  predicate StartsWith(s: string, prefix: string) {
    |prefix| <= |s| && s[..|prefix|] == prefix
  }

  predicate AnyPrefix(s: string, prefixes: seq<string>) {
    exists i | 0 <= i < |prefixes| :: StartsWith(s, prefixes[i])
  }

  predicate ConditionsMatch(c: Conditions, q: Request) {
    var repo := ScopeField(q, "repo");
    var path := ScopeField(q, "path");
    var branch := ScopeField(q, "branch");
    var trunk := ScopeField(q, "default_branch");
    (c.repos != [] ==> repo.Some? && repo.value in c.repos) &&
    (c.paths != [] ==> AnyPrefix(if path.Some? then path.value else "", c.paths)) &&
    (c.featureBranchOnly ==>
       branch.Some? && branch.value != "" && branch.value != (if trunk.Some? then trunk.value else "main")) &&
    (c.liveToken ==> Says(q, LiveTokenPresent)) &&
    (c.costLimit ==> TextIn(Get(q, CostLimit), LEVELS)) &&
    (c.backend ==> Says(q, BackendSelector) || Says(q, BackendName))
  }

  predicate Matches(p: Policy, q: Request) {
    WhenMatches(p.when, q) && ConditionsMatch(p.conditions, q)
  }

  function Matching(ps: seq<Policy>, q: Request): seq<Policy> {
    if ps == [] then []
    else Matching(ps[..|ps| - 1], q) + (if Matches(ps[|ps| - 1], q) then [ps[|ps| - 1]] else [])
  }

  lemma {:induction false} MatchingHas(ps: seq<Policy>, q: Request)
    ensures forall p :: p in Matching(ps, q) <==> p in ps && Matches(p, q)
  {
    if ps != [] {
      MatchingHas(ps[..|ps| - 1], q);
      assert ps == ps[..|ps| - 1] + [ps[|ps| - 1]];
    }
  }

  // ---------------------------------------------------------------------
  // Safeguards
  // ---------------------------------------------------------------------

  datatype Reason =
    | MissingPrincipal
    | MissingScope
    | MemoryIsNotScope
    | DeniedByDefault
    | LanguageIsNotAuthority
    | ConfidenceIsNotConsent
    | ReceiptIsNotAuthorization
    | QuantumIsNotPermission
    | NoRuleForExternal
    | NoExternalConsequence

  datatype Finding = Finding(verdict: Verdict, reason: Reason)

  datatype Defaults = Defaults(missingIdentity: Verdict, missingScope: Verdict, externalDefault: Verdict)

  datatype Config = Config(defaults: Defaults, policies: seq<Policy>, order: seq<Verdict>)

  function When(condition: bool, verdict: Verdict, reason: Reason): seq<Finding> {
    if condition then [Finding(verdict, reason)] else []
  }

  predicate DeniedAction(q: Request) {
    TextIn(Get(q, RequestedAction), DENIED_ACTIONS)
  }

  function AboutIdentity(d: Defaults, q: Request): seq<Finding> {
    When(!Says(q, Principal), d.missingIdentity, MissingPrincipal) +
    When(!Says(q, Scope), d.missingScope, MissingScope) +
    When(Says(q, MemoryClaimedScope) && !Says(q, Scope), Deny, MemoryIsNotScope) +
    When(DeniedAction(q), Deny, DeniedByDefault)
  }

  function AboutAuthority(q: Request): seq<Finding> {
    When(Get(q, AuthorityBasis) == Text("language_output") && External(q), RequireHumanApproval,
      LanguageIsNotAuthority) +
    When(Get(q, Confidence) != Nothing && External(q), RequireHumanApproval, ConfidenceIsNotConsent) +
    When(Says(q, PriorReceiptPresent) && External(q) && !Says(q, ExplicitHumanApproval), RequireHumanApproval,
      ReceiptIsNotAuthorization) +
    When(Says(q, QuantumResultPresent) && External(q), if DeniedAction(q) then Deny else RequireHumanApproval,
      QuantumIsNotPermission)
  }

  function Safeguards(d: Defaults, q: Request): seq<Finding> {
    AboutIdentity(d, q) + AboutAuthority(q)
  }

  function VerdictsOf(fs: seq<Finding>): seq<Verdict> {
    seq(|fs|, i requires 0 <= i < |fs| => fs[i].verdict)
  }

  function ReasonsOf(fs: seq<Finding>): seq<Reason> {
    seq(|fs|, i requires 0 <= i < |fs| => fs[i].reason)
  }

  function PolicyVerdicts(ps: seq<Policy>): seq<Verdict> {
    seq(|ps|, i requires 0 <= i < |ps| => ps[i].verdict)
  }

  // ---------------------------------------------------------------------
  // The evaluation, over one flat list
  // ---------------------------------------------------------------------

  /** Every verdict that speaks to the request: the safeguards', then the policies'. */
  function Candidates(e: Config, q: Request): seq<Verdict> {
    VerdictsOf(Safeguards(e.defaults, q)) + PolicyVerdicts(Matching(e.policies, q))
  }

  function Fallback(e: Config, q: Request): Finding {
    if External(q) then Finding(e.defaults.externalDefault, NoRuleForExternal)
    else Finding(AllowInternal, NoExternalConsequence)
  }

  function Decided(e: Config, q: Request): Judgement {
    MostRestrictive(if Candidates(e, q) == [] then [Fallback(e, q).verdict] else Candidates(e, q), e.order)
  }

  predicate Satisfied(v: Verdict, q: Request) {
    match v
    case Deny => false
    case RequireHumanApproval => Says(q, ExplicitHumanApproval)
    case _ => true
  }

  datatype State =
    | Denied | AwaitingHumanApproval | ApprovedAfterHumanReview | ApprovedByPreauth | ApprovedWithReceipt | InternalOnly

  function StateOf(v: Verdict, satisfied: bool): State {
    match v
    case Deny => Denied
    case RequireHumanApproval => if satisfied then ApprovedAfterHumanReview else AwaitingHumanApproval
    case PreauthorizedExternal => ApprovedByPreauth
    case AllowWithReceipt => ApprovedWithReceipt
    case _ => InternalOnly
  }

  predicate Advisory(q: Request) {
    Get(q, RequestedAction) == Text("run_quantum_task") && ScopeField(q, "result_mode") == Some("advisory")
  }

  datatype Outcome = Outcome(verdict: Verdict, executionAllowed: bool, approvalSatisfied: bool, state: State,
                             receiptRequired: bool, advisoryOnly: bool, matched: seq<string>, reasons: seq<Reason>)

  datatype Evaluation = Evaluated(outcome: Outcome) | Raised(failure: Failure)

  function MatchedIds(ps: seq<Policy>): seq<string> {
    seq(|ps|, i requires 0 <= i < |ps| => ps[i].id)
  }

  predicate AnyReceipt(ps: seq<Policy>) {
    exists i | 0 <= i < |ps| :: ps[i].receipt
  }

  /** A receipt is waived only for an internal verdict that no safeguard, no matching
      policy and no external default spoke to. */
  predicate ReceiptNeeded(e: Config, q: Request, v: Verdict) {
    v != AllowInternal || Safeguards(e.defaults, q) != [] || AnyReceipt(Matching(e.policies, q)) ||
    (Candidates(e, q) == [] && External(q))
  }

  function OutcomeOf(e: Config, q: Request, v: Verdict): Outcome {
    Outcome(v, Satisfied(v, q), Satisfied(v, q), StateOf(v, Satisfied(v, q)), ReceiptNeeded(e, q, v), Advisory(q),
            MatchedIds(Matching(e.policies, q)),
            ReasonsOf(Safeguards(e.defaults, q)) + (if Candidates(e, q) == [] then [Fallback(e, q).reason] else []))
  }

  /** What evaluate answers, from the flat verdict. An unknown safeguard verdict is
      reported before an unknown policy verdict. */
  function Answer(e: Config, q: Request): Evaluation {
    var found := Safeguards(e.defaults, q);
    var first := MostRestrictive(VerdictsOf(found), e.order);
    var decided := Decided(e, q);
    if found != [] && first.Failed? then Raised(first.failure)
    else if decided.Failed? then Raised(decided.failure)
    else Evaluated(OutcomeOf(e, q, decided.verdict))
  }

  /** A verdict is reached exactly when every candidate has a rank, and then it is the
      least of them all. */
  lemma AnswersIff(e: Config, q: Request)
    ensures Answer(e, q).Evaluated? <==> Decided(e, q).Judged?
    ensures Decided(e, q).Judged? ==> Answer(e, q).outcome.verdict == Decided(e, q).verdict
  {
    var sv := VerdictsOf(Safeguards(e.defaults, q));
    if sv != [] && Decided(e, q).Judged? {
      PartIsJudged(sv, PolicyVerdicts(Matching(e.policies, q)), Precedence(e.order));
    }
  }

  lemma PartIsJudged(us: seq<Verdict>, vs: seq<Verdict>, order: seq<Verdict>)
    requires us != [] && Judge(us + vs, order).Judged?
    ensures Judge(us, order).Judged?
  {
    JudgedIsBest(us + vs, order);
    assert forall u | u in us :: u in us + vs;
    JudgedIsBest(us, order);
  }

  // ---------------------------------------------------------------------
  // Policies: their order, and adding more of them
  // ---------------------------------------------------------------------

  lemma VerdictSpoken(ps: seq<Policy>, q: Request, v: Verdict)
    ensures v in PolicyVerdicts(Matching(ps, q)) <==> exists p :: p in ps && Matches(p, q) && p.verdict == v
  {
    MatchingHas(ps, q);
    var ms := Matching(ps, q);
    if v in PolicyVerdicts(ms) {
      var i :| 0 <= i < |ms| && ms[i].verdict == v;
      assert ms[i] in ms;
    }
    if p :| p in ps && Matches(p, q) && p.verdict == v {
      var i :| 0 <= i < |ms| && ms[i] == p;
      assert PolicyVerdicts(ms)[i] == v;
    }
  }

  lemma MorePoliciesMoreCandidates(e: Config, f: Config, q: Request)
    requires e.defaults == f.defaults && forall p | p in e.policies :: p in f.policies
    ensures forall v | v in Candidates(e, q) :: v in Candidates(f, q)
  {
    forall v | v in Candidates(e, q) ensures v in Candidates(f, q) {
      VerdictSpoken(e.policies, q, v);
      VerdictSpoken(f.policies, q, v);
      assert v in VerdictsOf(Safeguards(e.defaults, q)) || v in PolicyVerdicts(Matching(e.policies, q));
    }
  }

  lemma EmptyBelow(us: seq<Verdict>, vs: seq<Verdict>)
    requires forall u | u in us :: u in vs
    ensures vs == [] ==> us == []
  {
    if us != [] {
      assert us[0] in us;
    }
  }

  /** Listing the same policies in another order, or twice, changes no verdict. */
  lemma PolicyOrderIsIrrelevant(e: Config, f: Config, q: Request)
    requires e.defaults == f.defaults && e.order == f.order && forall p :: p in e.policies <==> p in f.policies
    requires Decided(e, q).Judged?
    ensures Decided(f, q) == Decided(e, q)
  {
    MorePoliciesMoreCandidates(e, f, q);
    MorePoliciesMoreCandidates(f, e, q);
    if Candidates(e, q) != [] {
      assert Candidates(e, q)[0] in Candidates(f, q);
      OnlyMembershipMatters(Candidates(e, q), Candidates(f, q), Precedence(e.order));
    } else {
      EmptyBelow(Candidates(f, q), Candidates(e, q));
    }
  }

  function WithPolicies(e: Config, extra: seq<Policy>): Config {
    e.(policies := e.policies + extra)
  }

  /** As restrictive as before, or more. */
  ghost predicate AtLeastAsStrict(e: Config, extra: seq<Policy>, q: Request)
    requires Decided(e, q).Judged?
  {
    var after := Decided(WithPolicies(e, extra), q);
    after.Judged? ==>
      (JudgedInOrder(e, q);
       JudgedInOrder(WithPolicies(e, extra), q);
       Rank(Precedence(e.order), after.verdict) <= Rank(Precedence(e.order), Decided(e, q).verdict))
  }

  lemma JudgedInOrder(e: Config, q: Request)
    requires Decided(e, q).Judged?
    ensures Decided(e, q).verdict in Precedence(e.order)
  {
    JudgedIsBest(if Candidates(e, q) == [] then [Fallback(e, q).verdict] else Candidates(e, q), Precedence(e.order));
  }

  /** Once some safeguard or policy speaks, adding policies never loosens the verdict. */
  lemma AddingNeverLoosens(e: Config, extra: seq<Policy>, q: Request)
    requires Decided(e, q).Judged? && Candidates(e, q) != []
    ensures AtLeastAsStrict(e, extra, q)
  {
    var f := WithPolicies(e, extra);
    var order := Precedence(e.order);
    MorePoliciesMoreCandidates(e, f, q);
    if Decided(f, q).Judged? {
      assert Candidates(e, q)[0] in Candidates(f, q);
      JudgedIsBest(Candidates(e, q), order);
      JudgedIsBest(Candidates(f, q), order);
    }
  }

  /** A policy that matches every request. */
  function Always(v: Verdict): Policy {
    Policy("always", map[], Conditions([], [], false, false, false, false), v, false)
  }

  lemma AlwaysMatches(v: Verdict, q: Request)
    ensures Matches(Always(v), q) && Matching([Always(v)], q) == [Always(v)]
  {
    assert [Always(v)][..0] == [];
  }

  lemma {:induction false} MatchingJoin(ps: seq<Policy>, p: Policy, q: Request)
    ensures Matching(ps + [p], q) == Matching(ps, q) + (if Matches(p, q) then [p] else [])
  {
    assert (ps + [p])[..|ps|] == ps;
  }

  /** Exactly when: some candidate exists, or the fallback is already the loosest verdict.
      An external request that nothing speaks to waits for a human; one permissive policy
      that matches it lets it through. */
  lemma AddingNeverLoosensIff(e: Config, q: Request)
    requires Decided(e, q).Judged?
    ensures var order := Precedence(e.order);
      var given := Decided(e, q).verdict;
      (forall extra :: AtLeastAsStrict(e, extra, q)) <==>
      Candidates(e, q) != [] || (given in order && forall v | v in order :: Rank(order, v) <= Rank(order, given))
  {
    var order := Precedence(e.order);
    JudgedInOrder(e, q);
    var given := Decided(e, q).verdict;
    if Candidates(e, q) != [] {
      forall extra ensures AtLeastAsStrict(e, extra, q) {
        AddingNeverLoosens(e, extra, q);
      }
    } else if forall v | v in order :: Rank(order, v) <= Rank(order, given) {
      forall extra ensures AtLeastAsStrict(e, extra, q) {
        LoosestNeverLoosens(e, extra, q);
      }
    } else {
      var v :| v in order && Rank(order, v) > Rank(order, given);
      OneLoosens(e, v, q);
    }
  }

  lemma LoosestNeverLoosens(e: Config, extra: seq<Policy>, q: Request)
    requires Decided(e, q).Judged? && Decided(e, q).verdict in Precedence(e.order)
    requires var order := Precedence(e.order);
      forall v | v in order :: Rank(order, v) <= Rank(order, Decided(e, q).verdict)
    ensures AtLeastAsStrict(e, extra, q)
  {
    if Decided(WithPolicies(e, extra), q).Judged? {
      JudgedInOrder(WithPolicies(e, extra), q);
    }
  }

  lemma OneLoosens(e: Config, v: Verdict, q: Request)
    requires Decided(e, q).Judged? && Candidates(e, q) == []
    requires v in Precedence(e.order) && Decided(e, q).verdict in Precedence(e.order)
    requires Rank(Precedence(e.order), v) > Rank(Precedence(e.order), Decided(e, q).verdict)
    ensures !AtLeastAsStrict(e, [Always(v)], q)
  {
    AddedDecides(e, v, q);
  }

  lemma AddedDecides(e: Config, v: Verdict, q: Request)
    requires Candidates(e, q) == [] && v in Precedence(e.order)
    ensures Decided(WithPolicies(e, [Always(v)]), q) == Judged(v)
  {
    AddedCandidates(e, v, q);
    JudgedIff([v], Precedence(e.order), v);
  }

  lemma AddedCandidates(e: Config, v: Verdict, q: Request)
    requires Candidates(e, q) == []
    ensures Candidates(WithPolicies(e, [Always(v)]), q) == [v]
  {
    MatchingJoin(e.policies, Always(v), q);
    AlwaysMatches(v, q);
    assert |Matching(e.policies, q)| == 0;
  }

  // ---------------------------------------------------------------------
  // Actions denied by default
  // ---------------------------------------------------------------------

  ghost predicate DenyIsFirst(order: seq<Verdict>) {
    Deny in order && forall v | v in order :: Rank(order, Deny) <= Rank(order, v)
  }

  ghost predicate NeverExecutable(e: Config, q: Request) {
    Answer(e, q).Evaluated? ==> !Answer(e, q).outcome.executionAllowed
  }

  lemma DenySpeaks(d: Defaults, q: Request)
    requires DeniedAction(q)
    ensures Deny in VerdictsOf(Safeguards(d, q))
  {
    var fs := AboutIdentity(d, q);
    assert fs[|fs| - 1] == Finding(Deny, DeniedByDefault);
    assert Safeguards(d, q)[|fs| - 1] == Finding(Deny, DeniedByDefault);
    assert VerdictsOf(Safeguards(d, q))[|fs| - 1] == Deny;
  }

  lemma DeniedStaysDenied(e: Config, q: Request)
    requires DeniedAction(q) && (Deny !in Precedence(e.order) || DenyIsFirst(Precedence(e.order)))
    ensures NeverExecutable(e, q)
  {
    var order := Precedence(e.order);
    AnswersIff(e, q);
    DenySpeaks(e.defaults, q);
    assert Deny in Candidates(e, q);
    if Decided(e, q).Judged? {
      JudgedIsBest(Candidates(e, q), order);
      BestIsUnique(order, Candidates(e, q), Decided(e, q).verdict, Deny);
    }
  }

  const MOVE_MONEY: Request := map[
    Principal := Text("p"), Scope := Text("s"), RequestedAction := Text("move_money"),
      ExplicitHumanApproval := Flag(true)
  ]

  lemma MoveMoneyFindings(d: Defaults)
    ensures Safeguards(d, MOVE_MONEY) == [Finding(Deny, DeniedByDefault)] && DeniedAction(MOVE_MONEY)
  {
  }

  function Loosened(order: seq<Verdict>, v: Verdict): Config {
    Config(Defaults(Deny, Deny, RequireHumanApproval), [Always(v)], order)
  }

  lemma LoosenedDecides(order: seq<Verdict>, v: Verdict)
    requires Deny in Precedence(order) && v in Precedence(order)
    requires Rank(Precedence(order), v) < Rank(Precedence(order), Deny)
    ensures Decided(Loosened(order, v), MOVE_MONEY) == Judged(v)
  {
    LoosenedCandidates(order, v);
    PairDecides(v, Precedence(order));
  }

  lemma LoosenedCandidates(order: seq<Verdict>, v: Verdict)
    ensures Candidates(Loosened(order, v), MOVE_MONEY) == [Deny, v]
  {
    MoveMoneyFindings(Loosened(order, v).defaults);
    AlwaysMatches(v, MOVE_MONEY);
  }

  lemma PairDecides(v: Verdict, order: seq<Verdict>)
    requires Deny in order && v in order && Rank(order, v) < Rank(order, Deny)
    ensures Judge([Deny, v], order) == Judged(v)
  {
    JudgedIff([Deny, v], order, v);
  }

  lemma LooserOverridesDeny(order: seq<Verdict>, v: Verdict)
    requires Decided(Loosened(order, v), MOVE_MONEY) == Judged(v) && v != Deny
    ensures !NeverExecutable(Loosened(order, v), MOVE_MONEY)
  {
    AnswersIff(Loosened(order, v), MOVE_MONEY);
    assert Get(MOVE_MONEY, ExplicitHumanApproval) == Flag(true);
  }

  /** With a given order of precedence, no policies, defaults or approval make a denied
      action executable if and only if DENY ranks before all else or is not ranked at all,
      in which case evaluating raises. */
  lemma DeniedActionsIff(order: seq<Verdict>)
    ensures (forall d, ps, q | DeniedAction(q) :: NeverExecutable(Config(d, ps, order), q)) <==>
            Deny !in Precedence(order) || DenyIsFirst(Precedence(order))
  {
    var precedence := Precedence(order);
    if Deny !in precedence || DenyIsFirst(precedence) {
      forall d, ps, q | DeniedAction(q) ensures NeverExecutable(Config(d, ps, order), q) {
        DeniedStaysDenied(Config(d, ps, order), q);
      }
    } else {
      var v :| v in precedence && Rank(precedence, v) < Rank(precedence, Deny);
      LoosenedDecides(order, v);
      LooserOverridesDeny(order, v);
      MoveMoneyFindings(Loosened(order, v).defaults);
    }
  }

  // ---------------------------------------------------------------------
  // Actions that need a human
  // ---------------------------------------------------------------------

  /** What an answer means, verdict by verdict. A verdict that waits for a human is executable,
      satisfied and approved exactly if the request holds an explicit_human_approval that is
      true, or any other value that is not empty. */
  lemma VerdictMeans(e: Config, q: Request)
    requires Answer(e, q).Evaluated?
    ensures var r := Answer(e, q).outcome;
      (r.verdict == Deny ==> !r.executionAllowed && !r.approvalSatisfied && r.state == Denied) &&
      (r.verdict == RequireHumanApproval ==>
        (r.executionAllowed <==> r.approvalSatisfied) &&
        (r.executionAllowed <==> r.state == ApprovedAfterHumanReview) &&
        (r.executionAllowed || r.state == AwaitingHumanApproval) &&
        (r.executionAllowed <==>
          ExplicitHumanApproval in q &&
          match q[ExplicitHumanApproval]
          case Nothing => false
          case Flag(b) => b
          case Amount(n) => n != 0.0
          case Text(t) => t != ""
          case Items(xs) => xs != []
          case Fields(m) => m != map[])) &&
      (r.verdict != Deny && r.verdict != RequireHumanApproval ==> r.executionAllowed && r.approvalSatisfied) &&
      (r.verdict == PreauthorizedExternal ==> r.state == ApprovedByPreauth) &&
      (r.verdict == AllowWithReceipt ==> r.state == ApprovedWithReceipt) &&
      (r.verdict == AllowInternal ==> r.state == InternalOnly) && (r.verdict != AllowInternal ==> r.receiptRequired)
  {
  }

  /** A consequence, an outside tool, or one of the four actions makes a request external. */
  lemma ExternalIff(q: Request)
    ensures External(q) <==>
      (ConsequenceClass in q && q[ConsequenceClass] in {Text("low"), Text("medium"), Text("high")}) ||
      (RequestedAction in q &&
       q[RequestedAction] in
         {Text("send_email"), Text("publish_post"), Text("submit_form"), Text("message_external_party")}) ||
      (ToolScope in q && NamesTool(q[ToolScope]))
  {
    ToolsIff(Get(q, ToolScope));
  }

  /** One of the five outside tools, alone or in a list. */
  predicate NamesTool(x: Item) {
    NamesOneTool(x) || (x.Items? && exists i | 0 <= i < |x.items| :: NamesOneTool(x.items[i]))
  }

  lemma ToolsIff(x: Item)
    ensures (exists y | y in AsList(x) :: TextIn(y, EXTERNAL_TOOLS)) <==> NamesTool(x)
  {
    forall y ensures TextIn(y, EXTERNAL_TOOLS) <==> NamesOneTool(y) {
      OneToolIff(y);
    }
    if x.Items? {
      assert AsList(x) == x.items;
      if y :| y in AsList(x) && TextIn(y, EXTERNAL_TOOLS) {
        var i :| 0 <= i < |x.items| && x.items[i] == y;
        assert NamesOneTool(x.items[i]);
      }
    } else if !x.Nothing? {
      assert AsList(x) == [x] && x in [x];
    }
  }

  predicate NamesOneTool(x: Item) {
    x in {Text("github"), Text("email"), Text("crm"), Text("calendar"), Text("qiskit_runtime")}
  }

  lemma OneToolIff(x: Item)
    ensures TextIn(x, EXTERNAL_TOOLS) <==> NamesOneTool(x)
  {
  }

  /** A request that speaks with a model's words, a confidence or an old receipt, reaches
      outside, and has no approval. */
  predicate Unapproved(q: Request) {
    External(q) && !(ExplicitHumanApproval in q && Truthy(q[ExplicitHumanApproval])) &&
    ((AuthorityBasis in q && q[AuthorityBasis] == Text("language_output")) ||
     (Confidence in q && q[Confidence] != Nothing) ||
     (PriorReceiptPresent in q && Truthy(q[PriorReceiptPresent])))
  }

  lemma HumanIsAsked(d: Defaults, q: Request)
    requires Unapproved(q)
    ensures RequireHumanApproval in VerdictsOf(Safeguards(d, q))
  {
    var fs := AboutAuthority(q);
    var k: nat :| k < |fs| && fs[k].verdict == RequireHumanApproval && fs[k].reason != QuantumIsNotPermission;
    var all := Safeguards(d, q);
    assert all[|AboutIdentity(d, q)| + k] == fs[k];
    assert VerdictsOf(all)[|AboutIdentity(d, q)| + k] == RequireHumanApproval;
  }

  /** Only DENY ranks before asking a human, or asking has no rank. */
  ghost predicate OnlyDenyIsStricter(order: seq<Verdict>) {
    RequireHumanApproval in order ==>
      forall v | v in order && Rank(order, v) < Rank(order, RequireHumanApproval) :: v == Deny
  }

  lemma UnapprovedStaysBlocked(e: Config, q: Request)
    requires Unapproved(q) && OnlyDenyIsStricter(Precedence(e.order))
    ensures NeverExecutable(e, q)
  {
    var order := Precedence(e.order);
    AnswersIff(e, q);
    HumanIsAsked(e.defaults, q);
    assert RequireHumanApproval in Candidates(e, q);
    if Decided(e, q).Judged? {
      JudgedIsBest(Candidates(e, q), order);
      var v := Decided(e, q).verdict;
      if Rank(order, v) == Rank(order, RequireHumanApproval) {
        BestIsUnique(order, Candidates(e, q), v, RequireHumanApproval);
      }
    }
  }

  const SEND_BY_MODEL: Request := map[
    Principal := Text("p"), Scope := Text("s"), RequestedAction := Text("send_email"),
    AuthorityBasis := Text("language_output")
  ]

  lemma SendFindings(d: Defaults)
    ensures Unapproved(SEND_BY_MODEL)
    ensures Safeguards(d, SEND_BY_MODEL) == [Finding(RequireHumanApproval, LanguageIsNotAuthority)]
  {
    assert Get(SEND_BY_MODEL, RequestedAction) == Text("send_email");
    assert "send_email" in HUMAN_ACTIONS && "send_email" !in DENIED_ACTIONS;
  }

  lemma LooserOverridesHuman(order: seq<Verdict>, v: Verdict)
    requires RequireHumanApproval in Precedence(order) && v in Precedence(order) && v != Deny
    requires Rank(Precedence(order), v) < Rank(Precedence(order), RequireHumanApproval)
    ensures !NeverExecutable(Loosened(order, v), SEND_BY_MODEL)
  {
    var e := Loosened(order, v);
    SendFindings(e.defaults);
    AlwaysMatches(v, SEND_BY_MODEL);
    assert Candidates(e, SEND_BY_MODEL) == [RequireHumanApproval, v];
    JudgedIff([RequireHumanApproval, v], Precedence(order), v);
    AnswersIff(e, SEND_BY_MODEL);
  }

  /** With a given order, no policies or defaults make a request without approval executable,
      if it rests on a model's words, a confidence or an old receipt and reaches outside, if
      and only if nothing but DENY ranks before REQUIRE_HUMAN_APPROVAL. */
  lemma UnapprovedIff(order: seq<Verdict>)
    ensures (forall d, ps, q | Unapproved(q) :: NeverExecutable(Config(d, ps, order), q)) <==>
            OnlyDenyIsStricter(Precedence(order))
  {
    var precedence := Precedence(order);
    if OnlyDenyIsStricter(precedence) {
      forall d, ps, q | Unapproved(q) ensures NeverExecutable(Config(d, ps, order), q) {
        UnapprovedStaysBlocked(Config(d, ps, order), q);
      }
    } else {
      var v :| v in precedence && Rank(precedence, v) < Rank(precedence, RequireHumanApproval) && v != Deny;
      LooserOverridesHuman(order, v);
      SendFindings(Loosened(order, v).defaults);
    }
  }

  // ---------------------------------------------------------------------
  // Which findings and policies speak
  // ---------------------------------------------------------------------

  /** The value under a key is there and not empty. */
  predicate Given(q: Request, key: Key) {
    key in q && Truthy(q[key])
  }

  /** Exactly when each safeguard speaks, and with which verdict. */
  lemma FindingIff(d: Defaults, q: Request, f: Finding)
    ensures f in Safeguards(d, q) <==>
      match f.reason
      case MissingPrincipal => f.verdict == d.missingIdentity && !Given(q, Principal)
      case MissingScope => f.verdict == d.missingScope && !Given(q, Scope)
      case MemoryIsNotScope => f.verdict == Deny && Given(q, MemoryClaimedScope) && !Given(q, Scope)
      case DeniedByDefault => f.verdict == Deny && Forbidden(q)
      case LanguageIsNotAuthority =>
        f.verdict == RequireHumanApproval && External(q) &&
        AuthorityBasis in q && q[AuthorityBasis] == Text("language_output")
      case ConfidenceIsNotConsent =>
        f.verdict == RequireHumanApproval && External(q) && Confidence in q && q[Confidence] != Nothing
      case ReceiptIsNotAuthorization =>
        f.verdict == RequireHumanApproval && External(q) &&
        Given(q, PriorReceiptPresent) && !Given(q, ExplicitHumanApproval)
      case QuantumIsNotPermission =>
        f.verdict == (if Forbidden(q) then Deny else RequireHumanApproval) && External(q) &&
        Given(q, QuantumResultPresent)
      case NoRuleForExternal => false
      case NoExternalConsequence => false
  {
    IdentityFindings(d, q, f);
    AuthorityFindings(q, f);
  }

  predicate Forbidden(q: Request) {
    RequestedAction in q &&
    q[RequestedAction] in {Text("use_secret"), Text("move_money"), Text("purchase"), Text("change_billing")}
  }

  lemma InWhen(condition: bool, v: Verdict, why: Reason, f: Finding)
    ensures f in When(condition, v, why) <==> condition && f == Finding(v, why)
  {
  }

  lemma ForbiddenIff(q: Request)
    ensures DeniedAction(q) <==> Forbidden(q)
  {
  }

  lemma IdentityFindings(d: Defaults, q: Request, f: Finding)
    ensures f in AboutIdentity(d, q) <==>
      (!Given(q, Principal) && f == Finding(d.missingIdentity, MissingPrincipal)) ||
      (!Given(q, Scope) && f == Finding(d.missingScope, MissingScope)) ||
      (Given(q, MemoryClaimedScope) && !Given(q, Scope) && f == Finding(Deny, MemoryIsNotScope)) ||
      (Forbidden(q) && f == Finding(Deny, DeniedByDefault))
  {
    ForbiddenIff(q);
  }

  lemma AuthorityFindings(q: Request, f: Finding)
    ensures f in AboutAuthority(q) <==>
      External(q) &&
      ((AuthorityBasis in q && q[AuthorityBasis] == Text("language_output") &&
        f == Finding(RequireHumanApproval, LanguageIsNotAuthority)) ||
       (Confidence in q && q[Confidence] != Nothing && f == Finding(RequireHumanApproval, ConfidenceIsNotConsent)) ||
       (Given(q, PriorReceiptPresent) && !Given(q, ExplicitHumanApproval) &&
        f == Finding(RequireHumanApproval, ReceiptIsNotAuthorization)) ||
       (Given(q, QuantumResultPresent) &&
        f == Finding(if Forbidden(q) then Deny else RequireHumanApproval, QuantumIsNotPermission)))
  {
    ForbiddenIff(q);
  }

  /** A single value counts as a list of one. */
  predicate Listed(x: Item, y: Item) {
    if y.Items? then x in y.items else y != Nothing && x == y
  }

  /** A text in the scope object, or the default if there is none. */
  function TextAt(q: Request, name: string, fallback: string): string {
    if Scope in q && q[Scope].Fields? && name in q[Scope].fields then q[Scope].fields[name] else fallback
  }

  predicate HasText(q: Request, name: string) {
    Scope in q && q[Scope].Fields? && name in q[Scope].fields
  }

  /** Exactly when a policy matches: each key it names is in the request with a value it
      allows, and the repository, path, branch, token, cost and backend are as it asks. */
  lemma MatchesIff(p: Policy, q: Request)
    ensures Matches(p, q) <==>
      (forall key | key in p.when :: key in q && exists x :: Listed(x, q[key]) && Listed(x, p.when[key])) &&
      (p.conditions.repos != [] ==> HasText(q, "repo") && TextAt(q, "repo", "") in p.conditions.repos) &&
      (p.conditions.paths != [] ==>
        exists i :: 0 <= i < |p.conditions.paths| && p.conditions.paths[i] <= TextAt(q, "path", "")) &&
      (p.conditions.featureBranchOnly ==>
        TextAt(q, "branch", "") != "" && TextAt(q, "branch", "") != TextAt(q, "default_branch", "main")) &&
      (p.conditions.liveToken ==> Given(q, LiveTokenPresent)) &&
      (p.conditions.costLimit ==> CostLimit in q && q[CostLimit] in {Text("low"), Text("medium"), Text("high")}) &&
      (p.conditions.backend ==> Given(q, BackendSelector) || Given(q, BackendName))
  {
    WhenIff(p.when, q);
    PathsIff(TextAt(q, "path", ""), p.conditions.paths);
    CostIff(q);
  }

  lemma PathsIff(path: string, prefixes: seq<string>)
    ensures AnyPrefix(path, prefixes) <==> exists i :: 0 <= i < |prefixes| && prefixes[i] <= path
  {
    forall i | 0 <= i < |prefixes| ensures StartsWith(path, prefixes[i]) <==> prefixes[i] <= path {
      PrefixIff(path, prefixes[i]);
    }
  }

  lemma PrefixIff(s: string, prefix: string)
    ensures StartsWith(s, prefix) <==> prefix <= s
  {
  }

  lemma CostIff(q: Request)
    ensures TextIn(Get(q, CostLimit), LEVELS) <==>
            CostLimit in q && q[CostLimit] in {Text("low"), Text("medium"), Text("high")}
  {
  }

  lemma WhenIff(wanted: map<Key, Item>, q: Request)
    ensures WhenMatches(wanted, q) <==>
      forall key | key in wanted :: key in q && exists x :: Listed(x, q[key]) && Listed(x, wanted[key])
  {
    forall key | key in wanted
      ensures ValueMatches(Get(q, key), wanted[key]) <==>
              (key in q && exists x :: Listed(x, q[key]) && Listed(x, wanted[key]))
    {
      if key in q {
        ValueMatchesIff(q[key], wanted[key]);
      }
    }
  }

  lemma InList(x: Item, y: Item)
    ensures x in AsList(y) <==> Listed(x, y)
  {
  }

  lemma ValueMatchesIff(a: Item, b: Item)
    ensures ValueMatches(a, b) <==> exists x :: Listed(x, a) && Listed(x, b)
  {
    if ValueMatches(a, b) {
      var x :| x in AsList(a) && x in AsList(b);
      InList(x, a);
      InList(x, b);
    }
    if x :| Listed(x, a) && Listed(x, b) {
      InList(x, a);
      InList(x, b);
    }
  }

  // ---------------------------------------------------------------------
  // The answer as a whole
  // ---------------------------------------------------------------------

  /** A safeguard or a matching policy has this verdict. */
  ghost predicate SpokenFor(e: Config, q: Request, v: Verdict) {
    (exists f :: f in Safeguards(e.defaults, q) && f.verdict == v) ||
    (exists p :: p in e.policies && Matches(p, q) && p.verdict == v)
  }

  ghost predicate NobodySpeaks(e: Config, q: Request) {
    Safeguards(e.defaults, q) == [] && forall p | p in e.policies :: !Matches(p, q)
  }

  lemma CandidateIff(e: Config, q: Request, v: Verdict)
    ensures v in Candidates(e, q) <==> SpokenFor(e, q, v)
  {
    VerdictSpoken(e.policies, q, v);
    var fs := Safeguards(e.defaults, q);
    var sv := VerdictsOf(fs);
    if f :| f in fs && f.verdict == v {
      var i :| 0 <= i < |fs| && fs[i] == f;
      assert sv[i] == v;
    }
    if v in sv {
      var i :| 0 <= i < |sv| && sv[i] == v;
      assert fs[i] in fs;
    }
  }

  lemma NoCandidateIff(e: Config, q: Request)
    ensures Candidates(e, q) == [] <==> NobodySpeaks(e, q)
  {
    MatchingHas(e.policies, q);
    var ms := Matching(e.policies, q);
    if ms != [] {
      assert ms[0] in ms;
    }
    assert |Candidates(e, q)| == |Safeguards(e.defaults, q)| + |ms|;
  }

  /** The verdict is the strictest that anybody has, in the configured order or, without one, in
      the default order; if nobody speaks, the external default for an external request and
      ALLOW_INTERNAL for any other. */
  lemma VerdictIsStrictest(e: Config, q: Request)
    requires Answer(e, q).Evaluated?
    ensures var v := Answer(e, q).outcome.verdict;
      var order :=
        if e.order != [] then e.order
        else [Deny, RequireHumanApproval, PreauthorizedExternal, AllowWithReceipt, AllowInternal];
      v in order &&
      (if NobodySpeaks(e, q) then v == (if External(q) then e.defaults.externalDefault else AllowInternal)
       else SpokenFor(e, q, v) && forall w | SpokenFor(e, q, w) :: w in order && Rank(order, v) <= Rank(order, w))
  {
    AnswersIff(e, q);
    JudgedInOrder(e, q);
    NoCandidateIff(e, q);
    var order := Precedence(e.order);
    if NobodySpeaks(e, q) {
      JudgedIsBest([Fallback(e, q).verdict], order);
    } else {
      JudgedIsBest(Candidates(e, q), order);
      forall w ensures w in Candidates(e, q) <==> SpokenFor(e, q, w) {
        CandidateIff(e, q, w);
      }
    }
  }

  /** Which policies and reasons are listed, when a receipt is needed, and when the result is
      advice only. */
  lemma OutcomeTells(e: Config, q: Request)
    requires Answer(e, q).Evaluated?
    ensures var r := Answer(e, q).outcome;
      (r.receiptRequired <==>
        r.verdict != AllowInternal || Safeguards(e.defaults, q) != [] ||
        (exists p :: p in e.policies && Matches(p, q) && p.receipt) || (NobodySpeaks(e, q) && External(q))) &&
      (r.advisoryOnly <==>
        RequestedAction in q && q[RequestedAction] == Text("run_quantum_task") &&
        TextAt(q, "result_mode", "") == "advisory")
    ensures forall id :: id in Answer(e, q).outcome.matched <==>
      exists p :: p in e.policies && Matches(p, q) && p.id == id
    ensures forall why :: why in Answer(e, q).outcome.reasons <==>
      (exists f :: f in Safeguards(e.defaults, q) && f.reason == why) ||
      (NobodySpeaks(e, q) && why == if External(q) then NoRuleForExternal else NoExternalConsequence)
  {
    NoCandidateIff(e, q);
    MatchingHas(e.policies, q);
    ReceiptIff(Matching(e.policies, q));
    forall id
      ensures id in MatchedIds(Matching(e.policies, q)) <==> exists p :: p in Matching(e.policies, q) && p.id == id
    {
      IdIff(Matching(e.policies, q), id);
    }
    forall why ensures why in ReasonsOf(Safeguards(e.defaults, q)) <==>
      exists f :: f in Safeguards(e.defaults, q) && f.reason == why
    {
      ReasonIff(Safeguards(e.defaults, q), why);
    }
  }

  lemma ReceiptIff(ps: seq<Policy>)
    ensures AnyReceipt(ps) <==> exists p :: p in ps && p.receipt
  {
    if p :| p in ps && p.receipt {
      var i :| 0 <= i < |ps| && ps[i] == p;
      assert ps[i].receipt;
    }
  }

  lemma IdIff(ps: seq<Policy>, id: string)
    ensures id in MatchedIds(ps) <==> exists p :: p in ps && p.id == id
  {
    var ids := MatchedIds(ps);
    if id in ids {
      var i :| 0 <= i < |ids| && ids[i] == id;
      assert ps[i] in ps;
    }
    if p :| p in ps && p.id == id {
      var i :| 0 <= i < |ps| && ps[i] == p;
      assert ids[i] == id;
    }
  }

  lemma ReasonIff(fs: seq<Finding>, why: Reason)
    ensures why in ReasonsOf(fs) <==> exists f :: f in fs && f.reason == why
  {
    var rs := ReasonsOf(fs);
    if why in rs {
      var i :| 0 <= i < |rs| && rs[i] == why;
      assert fs[i] in fs;
    }
    if f :| f in fs && f.reason == why {
      var i :| 0 <= i < |fs| && fs[i] == f;
      assert rs[i] == why;
    }
  }

  // ---------------------------------------------------------------------
  // The evaluator
  // ---------------------------------------------------------------------

  class PolicyEvaluator {
    const config: Config

    constructor (config: Config)
      ensures this.config == config
    {
      this.config := config;
    }

    /** The candidates and their reasons, which grow in step, and the winner if any. */
    method ApplySafeguards(q: Request) returns (found: seq<Finding>, winner: Option<Judgement>)
      ensures found == Safeguards(config.defaults, q)
      ensures winner == if found == [] then None else Some(MostRestrictive(VerdictsOf(found), config.order))
    {
      found := FindIdentity(q);
      var authority := FindAuthority(q);
      found := found + authority;
      if found == [] {
        winner := None;
      } else {
        winner := Some(MostRestrictive(VerdictsOf(found), config.order));
      }
    }

    method FindAuthority(q: Request) returns (found: seq<Finding>)
      ensures found == AboutAuthority(q)
    {
      var external := External(q);
      found := [];
      if Get(q, AuthorityBasis) == Text("language_output") && external {
        found := found + [Finding(RequireHumanApproval, LanguageIsNotAuthority)];
      }
      if Get(q, Confidence) != Nothing && external {
        found := found + [Finding(RequireHumanApproval, ConfidenceIsNotConsent)];
      }
      if Says(q, PriorReceiptPresent) && external && !Says(q, ExplicitHumanApproval) {
        found := found + [Finding(RequireHumanApproval, ReceiptIsNotAuthorization)];
      }
      if Says(q, QuantumResultPresent) && external {
        var verdict := if DeniedAction(q) then Deny else RequireHumanApproval;
        found := found + [Finding(verdict, QuantumIsNotPermission)];
      }
    }

    method FindIdentity(q: Request) returns (found: seq<Finding>)
      ensures found == AboutIdentity(config.defaults, q)
    {
      found := [];
      if !Says(q, Principal) {
        found := found + [Finding(config.defaults.missingIdentity, MissingPrincipal)];
      }
      if !Says(q, Scope) {
        found := found + [Finding(config.defaults.missingScope, MissingScope)];
      }
      if Says(q, MemoryClaimedScope) && !Says(q, Scope) {
        found := found + [Finding(Deny, MemoryIsNotScope)];
      }
      if TextIn(Get(q, RequestedAction), DENIED_ACTIONS) {
        found := found + [Finding(Deny, DeniedByDefault)];
      }
    }

    /** The loop over the policies, from the safeguards' winner on. */
    method MatchPolicies(q: Request, first: seq<Verdict>, needed: bool)
      returns (candidates: seq<Verdict>, matched: seq<string>, receiptRequired: bool)
      ensures var found := Matching(config.policies, q);
        candidates == first + PolicyVerdicts(found) && matched == MatchedIds(found) &&
        (receiptRequired <==> needed || AnyReceipt(found))
    {
      var policies := config.policies;
      candidates, matched, receiptRequired := first, [], needed;
      for n := 0 to |policies|
        invariant candidates == first + PolicyVerdicts(Matching(policies[..n], q))
        invariant matched == MatchedIds(Matching(policies[..n], q))
        invariant receiptRequired <==> needed || AnyReceipt(Matching(policies[..n], q))
      {
        MatchingGrows(policies, n, q);
        if Matches(policies[n], q) {
          matched := matched + [policies[n].id];
          candidates := candidates + [policies[n].verdict];
          receiptRequired := receiptRequired || policies[n].receipt;
        }
      }
      assert policies[..|policies|] == policies;
    }

    /** The two folds of evaluate give the flat answer. */
    method Evaluate(q: Request) returns (answer: Evaluation)
      ensures answer == Answer(config, q)
    {
      var found, winner := ApplySafeguards(q);
      var first: seq<Verdict> := [];
      if winner.Some? {
        if winner.value.Failed? {
          return Raised(winner.value.failure);
        }
        first := [winner.value.verdict];
      }
      var candidates, matched, receiptRequired := MatchPolicies(q, first, winner.Some?);
      TwoFolds(config, q, first);
      AnswersFlat(config, q);
      var reasons := ReasonsOf(found);
      if candidates == [] {
        var fallback := Fallback(config, q);
        candidates := [fallback.verdict];
        reasons := reasons + [fallback.reason];
        receiptRequired := receiptRequired || External(q);
      }
      var decided := MostRestrictive(candidates, config.order);
      if decided.Failed? {
        return Raised(decided.failure);
      }
      var outcome := Conclude(q, decided.verdict, receiptRequired, matched, reasons);
      assert outcome == OutcomeOf(config, q, decided.verdict);
      answer := Evaluated(outcome);
    }

    /** The result object: any verdict but the internal one needs a receipt. */
    method Conclude(q: Request, verdict: Verdict, needed: bool, matched: seq<string>, reasons: seq<Reason>)
      returns (outcome: Outcome)
      ensures outcome == Outcome(verdict, Satisfied(verdict, q), Satisfied(verdict, q),
                                 StateOf(verdict, Satisfied(verdict, q)), needed || verdict != AllowInternal,
                                 Advisory(q), matched, reasons)
    {
      var satisfied := Satisfied(verdict, q);
      var receiptRequired := needed;
      if verdict != AllowInternal {
        receiptRequired := true;
      }
      outcome := Outcome(verdict, satisfied, satisfied, StateOf(verdict, satisfied), receiptRequired, Advisory(q),
                         matched, reasons);
    }
  }

  lemma MatchingGrows(ps: seq<Policy>, n: nat, q: Request)
    requires n < |ps|
    ensures var before, after := Matching(ps[..n], q), Matching(ps[..n + 1], q);
      after == before + (if Matches(ps[n], q) then [ps[n]] else []) &&
      PolicyVerdicts(after) == PolicyVerdicts(before) + (if Matches(ps[n], q) then [ps[n].verdict] else []) &&
      MatchedIds(after) == MatchedIds(before) + (if Matches(ps[n], q) then [ps[n].id] else []) &&
      (AnyReceipt(after) <==> AnyReceipt(before) || (Matches(ps[n], q) && ps[n].receipt))
  {
    assert ps[..n + 1][..n] == ps[..n];
    var before, after := Matching(ps[..n], q), Matching(ps[..n + 1], q);
    assert forall i | 0 <= i < |before| :: after[i] == before[i];
    assert Matches(ps[n], q) ==> after[|before|] == ps[n];
  }

  /** When the safeguards' own fold does not fail, the answer is that of the flat list. */
  lemma AnswersFlat(e: Config, q: Request)
    requires var sv := VerdictsOf(Safeguards(e.defaults, q));
      sv == [] || MostRestrictive(sv, e.order).Judged?
    ensures Answer(e, q) == if Decided(e, q).Failed? then Raised(Decided(e, q).failure)
                            else Evaluated(OutcomeOf(e, q, Decided(e, q).verdict))
  {
    assert |VerdictsOf(Safeguards(e.defaults, q))| == |Safeguards(e.defaults, q)|;
  }

  lemma TwoFolds(e: Config, q: Request, first: seq<Verdict>)
    requires var sv := VerdictsOf(Safeguards(e.defaults, q));
      var winner := MostRestrictive(sv, e.order);
      if sv == [] then first == [] else winner.Judged? && first == [winner.verdict]
    ensures var pv := PolicyVerdicts(Matching(e.policies, q));
      (first + pv == [] <==> Candidates(e, q) == []) &&
      (first + pv != [] ==> MostRestrictive(first + pv, e.order) == Decided(e, q))
  {
    var sv := VerdictsOf(Safeguards(e.defaults, q));
    var pv := PolicyVerdicts(Matching(e.policies, q));
    if sv == [] {
      assert first + pv == pv && Candidates(e, q) == pv;
    } else {
      NestedIsFlat(sv, pv, Precedence(e.order));
    }
  }
}
