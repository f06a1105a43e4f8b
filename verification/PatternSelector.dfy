/** The pattern selector: score, rank, drop repeated ids, then fill the last slot.

    The code takes the top five and then overwrites the last slot up to three times. The
    reference definition here is the closed form FifthSlot; the method is proved to compute
    it, and the presence of each guaranteed kind follows with its exact condition. Scores
    are real numbers. Texts arrive as their sets of tokens. */
module PatternSelector {

  /** The three kinds that have a guarantee, "decision", and any other pattern_type. */
  datatype Kind = Constraint | Risk | Workflow | Decision | OtherKind(name: string)

  datatype Pattern = Pattern(id: string, kind: Kind, context: set<string>, inputs: set<string>,
                             signals: set<string>, confidence: real)

  datatype Task = Task(description: set<string>, inputs: set<string>, signals: set<string>)

  datatype Entry = Entry(pattern: Pattern, matchScore: real, boost: real, score: real)

  const MAX_SELECTED := 5
  const MIN_CONFIDENCE := 0.5

  /** Task keywords, and the kind each one boosts. */
  const KEYWORDS: seq<(string, Kind)> := [
    ("workflow", Workflow), ("design", Workflow), ("decide", Decision), ("choose", Decision),
    ("rules", Constraint), ("constraint", Constraint), ("policy", Constraint),
    ("debug", Risk), ("risk", Risk), ("error", Risk), ("fix", Risk)
  ]

  predicate Boosted(task: Task, kind: Kind) {
    exists k | 0 <= k < |KEYWORDS| :: KEYWORDS[k].0 in task.description && KEYWORDS[k].1 == kind
  }

  function MatchScore(task: Task, p: Pattern): real {
    (if task.description * p.context != {} then 2.0 else 0.0) +
    (if task.inputs * p.inputs != {} then 2.0 else 0.0) +
    |task.signals * p.signals| as real
  }

  function NewEntry(task: Task, p: Pattern): Entry {
    var matched := MatchScore(task, p);
    var boost := if Boosted(task, p.kind) then 2.0 else 0.0;
    Entry(p, matched, boost, (matched + boost) * (1.0 + p.confidence))
  }

  /** Two for a shared word of context, two for a shared input, one for each shared signal, two
      if a word of its description names the pattern's kind; times one plus the confidence. */
  lemma ScoreIs(task: Task, p: Pattern)
    ensures var e := NewEntry(task, p);
      e.pattern == p &&
      e.score == (1.0 + p.confidence) *
        ((if exists w :: w in task.description && w in p.context then 2.0 else 0.0) +
         (if exists w :: w in task.inputs && w in p.inputs then 2.0 else 0.0) +
         |set w | w in task.signals && w in p.signals| as real +
         (if Named(task.description, p.kind) then 2.0 else 0.0))
  {
    SharedIff(task.description, p.context);
    SharedIff(task.inputs, p.inputs);
    assert (set w | w in task.signals && w in p.signals) == task.signals * p.signals;
    BoostedIff(task, p.kind);
  }

  lemma SharedIff(a: set<string>, b: set<string>)
    ensures a * b != {} <==> exists w :: w in a && w in b
  {
    if a * b != {} {
      var w :| w in a * b;
    }
    if w :| w in a && w in b {
      assert w in a * b;
    }
  }

  /** Words that name a kind. */
  predicate Named(words: set<string>, kind: Kind) {
    match kind
    case Workflow => "workflow" in words || "design" in words
    case Decision => "decide" in words || "choose" in words
    case Constraint => "rules" in words || "constraint" in words || "policy" in words
    case Risk => "debug" in words || "risk" in words || "error" in words || "fix" in words
    case OtherKind(_) => false
  }

  lemma BoostedIff(task: Task, kind: Kind)
    ensures Boosted(task, kind) <==> Named(task.description, kind)
  {
    var words := task.description;
    if Boosted(task, kind) {
      var k :| 0 <= k < |KEYWORDS| && KEYWORDS[k].0 in words && KEYWORDS[k].1 == kind;
    }
    if Named(words, kind) {
      NamedBoosts(task, kind);
    }
  }

  lemma NamedBoosts(task: Task, kind: Kind)
    requires Named(task.description, kind)
    ensures Boosted(task, kind)
  {
    var words := task.description;
    var k :=
      match kind
      case Workflow => if "workflow" in words then 0 else 1
      case Decision => if "decide" in words then 2 else 3
      case Constraint => if "rules" in words then 4 else if "constraint" in words then 5 else 6
      case Risk => if "debug" in words then 7 else if "risk" in words then 8 else if "error" in words then 9 else 10
      case OtherKind(_) => 0;
    assert KEYWORDS[k].0 in words && KEYWORDS[k].1 == kind;
  }

  /** Among patterns alike in everything but confidence, the more confident scores no less; and
      a pattern that shares nothing and is not named scores nothing. */
  lemma ScoreGrows(task: Task, p: Pattern, confidence: real)
    requires 0.0 <= p.confidence <= confidence
    ensures NewEntry(task, p).score <= NewEntry(task, p.(confidence := confidence)).score
    ensures var nothing := task.description * p.context == {} && task.inputs * p.inputs == {} &&
                           task.signals * p.signals == {} && !Named(task.description, p.kind);
      nothing ==> NewEntry(task, p).score == 0.0
  {
    var raw := MatchScore(task, p) + (if Boosted(task, p.kind) then 2.0 else 0.0);
    assert raw >= 0.0;
    ProductGrows(raw, 1.0 + p.confidence, 1.0 + confidence);
    BoostedIff(task, p.kind);
  }

  lemma ProductGrows(a: real, x: real, y: real)
    requires a >= 0.0 && x <= y
    ensures a * x <= a * y
  {
  }

  /** The entries of the patterns that are confident enough, in corpus order. */
  function Scored(task: Task, corpus: seq<Pattern>): seq<Entry> {
    if corpus == [] then []
    else
      var before := Scored(task, corpus[..|corpus| - 1]);
      var p := corpus[|corpus| - 1];
      if p.confidence < MIN_CONFIDENCE then before else before + [NewEntry(task, p)]
  }

  // ---------------------------------------------------------------------
  // The stable sort
  // ---------------------------------------------------------------------

  ghost predicate Descending(es: seq<Entry>) {
    forall i, j | 0 <= i < j < |es| :: es[i].score >= es[j].score
  }

  /** The entries with one score, in order. */
  ghost function At(es: seq<Entry>, v: real): seq<Entry> {
    if es == [] then []
    else (if es[0].score == v then [es[0]] else []) + At(es[1..], v)
  }

  function Insert(e: Entry, es: seq<Entry>): seq<Entry> {
    if es == [] || es[0].score <= e.score then [e] + es else [es[0]] + Insert(e, es[1..])
  }

  function SortDescending(es: seq<Entry>): seq<Entry> {
    if es == [] then [] else Insert(es[0], SortDescending(es[1..]))
  }

  lemma {:induction false} InsertKeepsOrder(e: Entry, es: seq<Entry>)
    requires Descending(es)
    ensures Descending(Insert(e, es))
    ensures forall f :: f in Insert(e, es) <==> f == e || f in es
  {
    if es != [] && es[0].score > e.score {
      InsertKeepsOrder(e, es[1..]);
      var rest := Insert(e, es[1..]);
      assert forall j | 0 <= j < |rest| :: rest[j] in rest;
      assert es == [es[0]] + es[1..];
    }
  }

  lemma {:induction false} AtCons(e: Entry, es: seq<Entry>, v: real)
    ensures At([e] + es, v) == (if e.score == v then [e] else []) + At(es, v)
  {
    assert ([e] + es)[1..] == es;
  }

  lemma {:induction false} InsertAt(e: Entry, es: seq<Entry>, v: real)
    ensures At(Insert(e, es), v) == (if e.score == v then [e] else []) + At(es, v)
  {
    if es == [] || es[0].score <= e.score {
      AtCons(e, es, v);
    } else {
      var rest := Insert(e, es[1..]);
      InsertAt(e, es[1..], v);
      AtCons(es[0], rest, v);
      if e.score == v {
        assert At(es, v) == At(es[1..], v);
      } else {
        assert At(rest, v) == At(es[1..], v);
      }
    }
  }

  /** Descending, with the same entries, and entries of equal score in their old order. */
  lemma {:induction false} SortIsStable(es: seq<Entry>, v: real)
    ensures Descending(SortDescending(es))
    ensures At(SortDescending(es), v) == At(es, v)
    ensures forall f :: f in SortDescending(es) <==> f in es
  {
    if es != [] {
      SortIsStable(es[1..], v);
      InsertKeepsOrder(es[0], SortDescending(es[1..]));
      InsertAt(es[0], SortDescending(es[1..]), v);
      assert es == [es[0]] + es[1..];
    }
  }

  lemma {:induction false} SortFixesDescending(es: seq<Entry>)
    requires Descending(es)
    ensures SortDescending(es) == es
  {
    if es != [] {
      SortFixesDescending(es[1..]);
      assert es == [es[0]] + es[1..];
    }
  }

  // ---------------------------------------------------------------------
  // Dropping repeated ids
  // ---------------------------------------------------------------------

  function Ids(es: seq<Entry>): set<string> {
    set e | e in es :: e.pattern.id
  }

  ghost predicate DistinctIds(es: seq<Entry>) {
    forall i, j | 0 <= i < j < |es| :: es[i].pattern.id != es[j].pattern.id
  }

  /** The first entry of each id. */
  function Deduped(es: seq<Entry>): seq<Entry> {
    if es == [] then []
    else
      var before := Deduped(es[..|es| - 1]);
      var e := es[|es| - 1];
      if e.pattern.id in Ids(before) then before else before + [e]
  }

  lemma IdsPlus(es: seq<Entry>, e: Entry)
    ensures Ids(es + [e]) == Ids(es) + {e.pattern.id}
    ensures DistinctIds(es) && e.pattern.id !in Ids(es) ==> DistinctIds(es + [e])
  {
    assert forall i | 0 <= i < |es| :: es[i].pattern.id in Ids(es);
    assert e in es + [e];
  }

  lemma {:induction false} DedupedFrom(es: seq<Entry>)
    ensures forall e | e in Deduped(es) :: e in es
    ensures Ids(Deduped(es)) == Ids(es)
    ensures DistinctIds(Deduped(es))
  {
    if es != [] {
      var front, last := es[..|es| - 1], es[|es| - 1];
      DedupedFrom(front);
      assert es == front + [last];
      IdsPlus(front, last);
      IdsPlus(Deduped(front), last);
    }
  }

  lemma {:induction false} DedupedKeepsOrder(es: seq<Entry>)
    requires Descending(es)
    ensures Descending(Deduped(es))
  {
    if es != [] {
      var front := es[..|es| - 1];
      DedupedKeepsOrder(front);
      DedupedFrom(front);
      var before := Deduped(front);
      forall i | 0 <= i < |before| ensures before[i].score >= es[|es| - 1].score {
        assert before[i] in front;
      }
    }
  }

  /** In a descending list, what is kept of an id is an entry with its highest score. */
  lemma {:induction false} DedupedKeepsBest(es: seq<Entry>, e: Entry)
    requires Descending(es) && e in es
    ensures exists d :: d in Deduped(es) && d.pattern.id == e.pattern.id && d.score >= e.score
  {
    var front, last := es[..|es| - 1], es[|es| - 1];
    assert es == front + [last];
    var before := Deduped(front);
    if e in front {
      DedupedKeepsBest(front, e);
    } else if last.pattern.id in Ids(before) {
      var d :| d in before && d.pattern.id == last.pattern.id;
      DedupedFrom(front);
      assert d in front;
    } else {
      assert last in Deduped(es);
    }
  }

  // ---------------------------------------------------------------------
  // The ranking
  // ---------------------------------------------------------------------

  function Ranking(task: Task, corpus: seq<Pattern>): seq<Entry> {
    Deduped(SortDescending(Scored(task, corpus)))
  }

  lemma {:induction false} ScoredFrom(task: Task, corpus: seq<Pattern>)
    ensures forall e :: e in Scored(task, corpus) <==>
                        e.pattern in corpus && e.pattern.confidence >= MIN_CONFIDENCE && e == NewEntry(task, e.pattern)
  {
    if corpus != [] {
      ScoredFrom(task, corpus[..|corpus| - 1]);
      assert corpus == corpus[..|corpus| - 1] + [corpus[|corpus| - 1]];
    }
  }

  /** The ranking falls, names each id once, and holds a best-scoring confident pattern of
      each id that has one, with its own score. */
  lemma RankingIsBestPerId(task: Task, corpus: seq<Pattern>)
    ensures var d := Ranking(task, corpus);
      Descending(d) && DistinctIds(d) && Ids(d) == Ids(Scored(task, corpus))
    ensures forall e | e in Ranking(task, corpus) ::
              e.pattern in corpus && e.pattern.confidence >= 0.5 && e == NewEntry(task, e.pattern)
    ensures forall p | p in corpus && p.confidence >= 0.5 ::
              exists e :: e in Ranking(task, corpus) && e.pattern.id == p.id && e.score >= NewEntry(task, p).score
  {
    var scored := Scored(task, corpus);
    var sorted := SortDescending(scored);
    ScoredFrom(task, corpus);
    SortIsStable(scored, 0.0);
    DedupedFrom(sorted);
    DedupedKeepsOrder(sorted);
    forall p | p in corpus && p.confidence >= MIN_CONFIDENCE
      ensures exists e :: e in Ranking(task, corpus) && e.pattern.id == p.id && e.score >= NewEntry(task, p).score
    {
      var f := NewEntry(task, p);
      assert f in scored;
      DedupedKeepsBest(sorted, f);
    }
  }

  // ---------------------------------------------------------------------
  // The selection, in closed form
  // ---------------------------------------------------------------------

  predicate Has(es: seq<Entry>, kind: Kind) {
    exists i | 0 <= i < |es| :: es[i].pattern.kind == kind
  }

  function FirstOf(es: seq<Entry>, kind: Kind): (e: Entry)
    requires Has(es, kind)
    ensures exists i | 0 <= i < |es| :: e == es[i] && e.pattern.kind == kind && !Has(es[..i], kind)
  {
    if es[0].pattern.kind == kind then
      assert !Has(es[..0], kind);
      es[0]
    else
      assert forall i | 0 < i < |es| :: es[i] == es[1..][i - 1];
      var e := FirstOf(es[1..], kind);
      assert exists i | 0 <= i < |es| :: e == es[i] && e.pattern.kind == kind && !Has(es[..i], kind) by {
        var i :| 0 <= i < |es[1..]| && e == es[1..][i] && e.pattern.kind == kind && !Has(es[1..][..i], kind);
        assert e == es[i + 1];
        forall j | 0 <= j < i + 1 ensures es[j].pattern.kind != kind {
          if j > 0 {
            assert es[1..][..i][j - 1] == es[j];
          }
        }
      }
      e
  }

  /** Eligible, and not among the top four. */
  predicate Missing(ranking: seq<Entry>, kind: Kind)
    requires |ranking| >= 4
  {
    Has(ranking, kind) && !Has(ranking[..4], kind)
  }

  /** Who gets the last slot when more than five ids are eligible. */
  function FifthSlot(ranking: seq<Entry>): Entry
    requires |ranking| >= MAX_SELECTED
  {
    if Missing(ranking, Workflow) then FirstOf(ranking, Workflow)
    else if Missing(ranking, Risk) then FirstOf(ranking, Risk)
    else if Missing(ranking, Constraint) then FirstOf(ranking, Constraint)
    else ranking[4]
  }

  function Selection(ranking: seq<Entry>): seq<Entry> {
    if |ranking| <= MAX_SELECTED then ranking else ranking[..4] + [FifthSlot(ranking)]
  }

  lemma HasAt(es: seq<Entry>, i: nat, n: nat, kind: Kind)
    requires i < n <= |es| && es[i].pattern.kind == kind
    ensures Has(es[..n], kind)
  {
    assert es[..n][i] == es[i];
  }

  lemma NotAbove(es: seq<Entry>, i: nat, n: nat, kind: Kind)
    requires i < |es| && n <= |es|
    requires es[i].pattern.kind == kind && !Has(es[..n], kind)
    ensures i >= n
  {
    if i < n {
      HasAt(es, i, n, kind);
    }
  }

  lemma FifthSlotIsBelow(ranking: seq<Entry>)
    requires |ranking| >= MAX_SELECTED
    ensures exists i :: 4 <= i < |ranking| && FifthSlot(ranking) == ranking[i]
  {
    var x := FifthSlot(ranking);
    if x != ranking[4] {
      var kind := x.pattern.kind;
      assert Missing(ranking, kind) && x == FirstOf(ranking, kind);
      var i :| 0 <= i < |ranking| && x == ranking[i] && x.pattern.kind == kind && !Has(ranking[..i], kind);
      NotAbove(ranking, i, 4, kind);
    }
  }

  lemma OrderKeptBy(ranking: seq<Entry>, i: nat)
    requires Descending(ranking) && DistinctIds(ranking) && 4 <= i < |ranking|
    ensures DistinctIds(ranking[..4] + [ranking[i]]) && Descending(ranking[..4] + [ranking[i]])
  {
  }

  lemma SelectionKeepsOrder(ranking: seq<Entry>)
    requires Descending(ranking) && DistinctIds(ranking)
    ensures DistinctIds(Selection(ranking)) && Descending(Selection(ranking))
  {
    if |ranking| > MAX_SELECTED {
      FifthSlotIsBelow(ranking);
      var i :| 4 <= i < |ranking| && FifthSlot(ranking) == ranking[i];
      OrderKeptBy(ranking, i);
    }
  }

  /** As many as there are ids, up to five; each id once; in falling order; the top four
      of the ranking always among them. */
  lemma SelectionShape(task: Task, corpus: seq<Pattern>)
    ensures var d := Ranking(task, corpus);
      var s := Selection(d);
      DistinctIds(s) && Descending(s) &&
      |s| == (if |Ids(Scored(task, corpus))| < 5 then |Ids(Scored(task, corpus))| else 5) &&
      (if |d| < 4 then d else d[..4]) <= s
  {
    var d := Ranking(task, corpus);
    RankingIsBestPerId(task, corpus);
    IdsCount(d);
    SelectionKeepsOrder(d);
  }

  lemma {:induction false} IdsCount(es: seq<Entry>)
    requires DistinctIds(es)
    ensures |Ids(es)| == |es|
  {
    if es != [] {
      var front, last := es[..|es| - 1], es[|es| - 1];
      IdsCount(front);
      assert es == front + [last];
      assert Ids(es) == Ids(front) + {last.pattern.id};
      assert last.pattern.id !in Ids(front);
    }
  }

  // ---------------------------------------------------------------------
  // The guarantees and when they hold
  // ---------------------------------------------------------------------

  /** Present already, or nothing to add. */
  predicate Settled(ranking: seq<Entry>, kind: Kind)
    requires |ranking| >= 4
  {
    Has(ranking[..4], kind) || !Has(ranking, kind)
  }

  lemma HasPlus(es: seq<Entry>, e: Entry, kind: Kind)
    ensures Has(es + [e], kind) <==> Has(es, kind) || e.pattern.kind == kind
  {
    var fs := es + [e];
    assert fs[|es|] == e;
    if Has(es, kind) {
      var i :| 0 <= i < |es| && es[i].pattern.kind == kind;
      assert fs[i] == es[i];
    }
    if Has(fs, kind) {
      var i :| 0 <= i < |fs| && fs[i].pattern.kind == kind;
      assert i < |es| ==> fs[i] == es[i];
    }
  }

  /** A workflow is selected whenever one is eligible. The other two guarantees are
      conditional: a later rule takes the slot a former rule filled. */
  lemma PresentIff(ranking: seq<Entry>)
    requires |ranking| > MAX_SELECTED
    ensures Has(Selection(ranking), Workflow) <==> Has(ranking, Workflow)
    ensures Has(Selection(ranking), Risk) <==>
            Has(ranking, Risk) && (Has(ranking[..4], Risk) || Settled(ranking, Workflow))
    ensures Has(Selection(ranking), Constraint) <==>
            Has(ranking, Constraint) &&
            (Has(ranking[..4], Constraint) || (Settled(ranking, Workflow) && Settled(ranking, Risk)))
  {
    var x := FifthSlot(ranking);
    FifthSlotIsBelow(ranking);
    HasPlus(ranking[..4], x, Workflow);
    HasPlus(ranking[..4], x, Risk);
    HasPlus(ranking[..4], x, Constraint);
    TopHas(ranking, Workflow);
    TopHas(ranking, Risk);
    TopHas(ranking, Constraint);
  }

  lemma TopHas(ranking: seq<Entry>, kind: Kind)
    requires |ranking| >= 4
    ensures Has(ranking[..4], kind) ==> Has(ranking, kind)
  {
    if Has(ranking[..4], kind) {
      var i :| 0 <= i < 4 && ranking[..4][i].pattern.kind == kind;
      assert ranking[i].pattern.kind == kind;
    }
  }

  lemma {:induction false} DedupedFixesDistinct(es: seq<Entry>)
    requires DistinctIds(es)
    ensures Deduped(es) == es
  {
    if es != [] {
      DedupedFixesDistinct(es[..|es| - 1]);
      assert es == es[..|es| - 1] + [es[|es| - 1]];
    }
  }

  /** A task that asks for nothing. */
  const NOTHING := Task({}, {}, {})

  lemma NothingScores(p: Pattern)
    ensures var e := NewEntry(NOTHING, p);
      e.pattern == p && e.score == 0.0
  {
    assert !Boosted(NOTHING, p.kind);
    assert NOTHING.signals * p.signals == {};
  }

  /** These patterns in this order, all scored nought. */
  ghost predicate Flat(es: seq<Entry>, corpus: seq<Pattern>) {
    |es| == |corpus| && forall i | 0 <= i < |es| :: es[i].pattern == corpus[i] && es[i].score == 0.0
  }

  lemma FlatPlus(es: seq<Entry>, corpus: seq<Pattern>, p: Pattern)
    requires Flat(es, corpus)
    ensures Flat(es + [NewEntry(NOTHING, p)], corpus + [p])
  {
    NothingScores(p);
  }

  /** With nothing asked for, confident patterns are scored alike. */
  lemma {:induction false} NothingScored(corpus: seq<Pattern>)
    requires forall p | p in corpus :: p.confidence >= MIN_CONFIDENCE
    ensures Flat(Scored(NOTHING, corpus), corpus)
  {
    if corpus != [] {
      var front, last := corpus[..|corpus| - 1], corpus[|corpus| - 1];
      assert last in corpus;
      assert corpus == front + [last];
      NothingScored(front);
      FlatPlus(Scored(NOTHING, front), front, last);
    }
  }

  lemma NothingRanking(corpus: seq<Pattern>)
    requires forall p | p in corpus :: p.confidence >= MIN_CONFIDENCE
    requires forall i, j | 0 <= i < j < |corpus| :: corpus[i].id != corpus[j].id
    ensures Flat(Ranking(NOTHING, corpus), corpus)
  {
    NothingScored(corpus);
    SortFixesDescending(Scored(NOTHING, corpus));
    DedupedFixesDistinct(Scored(NOTHING, corpus));
  }

  function Plain(id: char, kind: Kind): Pattern {
    Pattern([id], kind, {}, {}, {}, 1.0)
  }

  /** Five decisions, then a constraint, then a risk. */
  const DROPPING: seq<Pattern> := [
    Plain('a', Decision), Plain('b', Decision), Plain('c', Decision), Plain('d', Decision),
    Plain('e', Decision), Plain('f', Constraint), Plain('g', Risk)
  ]

  /** The promise that constraint and risk are present if they exist is false: here the
      risk takes the slot that the constraint was given. */
  lemma ConstraintIsDropped()
    ensures var d := Ranking(NOTHING, DROPPING);
      Has(d, Constraint) && !Has(Selection(d), Constraint)
  {
    DroppingIsDistinct();
    NothingRanking(DROPPING);
    DroppedFrom(Ranking(NOTHING, DROPPING));
  }

  lemma DroppingIsDistinct()
    ensures forall p | p in DROPPING :: p.confidence >= MIN_CONFIDENCE
    ensures forall i, j | 0 <= i < j < |DROPPING| :: DROPPING[i].id != DROPPING[j].id
  {
    assert forall i | 0 <= i < |DROPPING| :: DROPPING[i].id == [['a', 'b', 'c', 'd', 'e', 'f', 'g'][i]];
  }

  lemma DroppedFrom(ranking: seq<Entry>)
    requires Flat(ranking, DROPPING)
    ensures Has(ranking, Constraint) && !Has(Selection(ranking), Constraint)
  {
    assert forall i | 0 <= i < 4 :: ranking[..4][i].pattern.kind == Decision;
    assert ranking[5].pattern.kind == Constraint && ranking[6].pattern.kind == Risk;
    PresentIff(ranking);
  }

  // ---------------------------------------------------------------------
  // The three overwrites
  // ---------------------------------------------------------------------

  /** One rule: when the kind is absent, its best entry replaces the last one selected. */
  function Guaranteed(ranking: seq<Entry>, selected: seq<Entry>, kind: Kind): seq<Entry> {
    if Has(selected, kind) || !Has(ranking, kind) then selected
    else if |selected| >= MAX_SELECTED then selected[..|selected| - 1] + [FirstOf(ranking, kind)]
    else selected + [FirstOf(ranking, kind)]
  }

  lemma OverwriteSlot(ranking: seq<Entry>, x: Entry, kind: Kind)
    requires |ranking| > MAX_SELECTED
    ensures Guaranteed(ranking, ranking[..4] + [x], kind) ==
            ranking[..4] + [if Missing(ranking, kind) && x.pattern.kind != kind then FirstOf(ranking, kind) else x]
  {
    HasPlus(ranking[..4], x, kind);
    assert (ranking[..4] + [x])[..4] == ranking[..4];
  }

  /** An entry right after the top four is the first of a kind that they lack. */
  lemma FifthIsFirst(ranking: seq<Entry>, kind: Kind)
    requires |ranking| >= MAX_SELECTED
    requires Missing(ranking, kind) && ranking[4].pattern.kind == kind
    ensures FirstOf(ranking, kind) == ranking[4]
  {
    var e := FirstOf(ranking, kind);
    var i :| 0 <= i < |ranking| && e == ranking[i] && e.pattern.kind == kind && !Has(ranking[..i], kind);
    NotAbove(ranking, i, 4, kind);
    NotAbove(ranking, 4, i, kind);
  }

  /** Constraint, then risk, then workflow, each overwriting the last slot, is the closed
      form: only the last rule that had to act shows. */
  lemma OverwritesAreSelection(ranking: seq<Entry>)
    ensures var top := if |ranking| < MAX_SELECTED then ranking else ranking[..MAX_SELECTED];
      var guarded := Guaranteed(ranking, Guaranteed(ranking, top, Constraint), Risk);
      Guaranteed(ranking, guarded, Workflow) == Selection(ranking)
  {
    if |ranking| <= MAX_SELECTED {
      assert |ranking| == MAX_SELECTED ==> ranking[..MAX_SELECTED] == ranking;
    } else {
      assert ranking[..MAX_SELECTED] == ranking[..4] + [ranking[4]];
      var kind := ranking[4].pattern.kind;
      if Missing(ranking, kind) {
        FifthIsFirst(ranking, kind);
      }
      OverwriteSlot(ranking, ranking[4], Constraint);
      var x := if Missing(ranking, Constraint) then FirstOf(ranking, Constraint) else ranking[4];
      OverwriteSlot(ranking, x, Risk);
      var y := if Missing(ranking, Risk) then FirstOf(ranking, Risk) else x;
      OverwriteSlot(ranking, y, Workflow);
    }
  }

  // ---------------------------------------------------------------------
  // The program
  // ---------------------------------------------------------------------

  /** Score, sort, and keep the first entry of each id. */
  method Rank(task: Task, corpus: seq<Pattern>) returns (deduped: seq<Entry>)
    ensures deduped == Ranking(task, corpus)
  {
    var scored: seq<Entry> := [];
    for n := 0 to |corpus|
      invariant scored == Scored(task, corpus[..n])
    {
      assert corpus[..n + 1][..n] == corpus[..n];
      if corpus[n].confidence < MIN_CONFIDENCE {
        continue;
      }
      scored := scored + [NewEntry(task, corpus[n])];
    }
    assert corpus[..|corpus|] == corpus;
    scored := SortDescending(scored);
    var seen := {};
    deduped := [];
    for n := 0 to |scored|
      invariant deduped == Deduped(scored[..n]) && seen == Ids(deduped)
    {
      assert scored[..n + 1][..n] == scored[..n];
      if scored[n].pattern.id !in seen {
        seen := seen + {scored[n].pattern.id};
        deduped := deduped + [scored[n]];
      }
    }
    assert scored[..|scored|] == scored;
  }

  /** The loop behind one guarantee. */
  method Guarantee(deduped: seq<Entry>, selected: seq<Entry>, kind: Kind) returns (result: seq<Entry>)
    ensures result == Guaranteed(deduped, selected, kind)
  {
    result := selected;
    if Has(selected, kind) {
      return;
    }
    for n := 0 to |deduped|
      invariant !Has(deduped[..n], kind)
    {
      if deduped[n].pattern.kind == kind && deduped[n] !in selected {
        FirstAt(deduped, n, kind);
        if |selected| >= MAX_SELECTED {
          result := selected[..|selected| - 1] + [deduped[n]];
        } else {
          result := selected + [deduped[n]];
        }
        return;
      }
    }
    assert deduped[..|deduped|] == deduped;
  }

  lemma FirstAt(es: seq<Entry>, n: nat, kind: Kind)
    requires n < |es| && es[n].pattern.kind == kind && !Has(es[..n], kind)
    ensures Has(es, kind) && FirstOf(es, kind) == es[n]
  {
    var e := FirstOf(es, kind);
    var i :| 0 <= i < |es| && e == es[i] && e.pattern.kind == kind && !Has(es[..i], kind);
    NotAbove(es, i, n, kind);
    NotAbove(es, n, i, kind);
  }

  /** The loop that adds ranked entries up to three. It adds nothing to a selection that
      already holds the whole ranking. */
  method TopUp(deduped: seq<Entry>, selected: seq<Entry>) returns (result: seq<Entry>)
    requires |selected| < 3
    ensures selected <= result && |result| <= 3
    ensures forall e | e in result :: e in selected || e in deduped
    ensures |result| < 3 ==> forall e | e in deduped :: e in result
    ensures (forall e | e in deduped :: e in selected) ==> result == selected
  {
    result := selected;
    for n := 0 to |deduped|
      invariant selected <= result && |result| < 3
      invariant forall e | e in result :: e in selected || e in deduped
      invariant forall i | 0 <= i < n :: deduped[i] in result
      invariant (forall e | e in deduped :: e in selected) ==> result == selected
    {
      if deduped[n] !in result {
        result := result + [deduped[n]];
      }
      if |result| >= 3 {
        break;
      }
    }
  }

  /** select_patterns: rank, take five, apply the three guarantees, top up to three and
      sort again. The last two steps never change anything. */
  method SelectPatterns(task: Task, corpus: seq<Pattern>) returns (patterns: seq<Pattern>)
    ensures var s := Selection(Ranking(task, corpus));
      |patterns| == |s| && forall i | 0 <= i < |s| :: patterns[i] == s[i].pattern
  {
    var deduped := Rank(task, corpus);
    var selected := if |deduped| < MAX_SELECTED then deduped else deduped[..MAX_SELECTED];
    selected := Guarantee(deduped, selected, Constraint);
    selected := Guarantee(deduped, selected, Risk);
    selected := Guarantee(deduped, selected, Workflow);
    OverwritesAreSelection(deduped);
    SelectionShape(task, corpus);
    if |selected| < 3 {
      selected := TopUp(deduped, selected);
    }
    SortFixesDescending(selected);
    selected := SortDescending(selected);
    patterns := [];
    for n := 0 to |selected|
      invariant |patterns| == n && forall i | 0 <= i < n :: patterns[i] == selected[i].pattern
    {
      patterns := patterns + [selected[n].pattern];
    }
  }
}
