/**
  The hybrid query router: a keyword rule router that is tried first, a
  similarity-based semantic router that is the fallback, and the composition
  that tags each answer with the stage that produced it.

  The embedding provider and the vector inner product are parameters: a query
  embedding is an opaque value of type `V` and a similarity score is an
  abstract `real`.
 */
module QueryClassifier {
  import opened Wrappers
  import opened Text

  /** The closed set of topical categories, labelled "interview", "project" and "resume". */
  datatype Category = Interview | Project | Resume

  /** Declaration order: the rule router's priority and the semantic router's iteration order. */
  const Declared: seq<Category> := [Interview, Project, Resume]

  /** The flat confidence the rule router reports for every hit. */
  const RuleConfidence: real := 0.9

  /** The semantic router's starting best score. */
  const SemanticSeed: real := -1.0

  /** The trigger keywords of each category, all lower case. */
  function Keywords(c: Category): (ws: seq<string>)
    ensures |ws| == if c == Resume then 6 else 8
    ensures forall j :: 0 <= j < |ws| ==> |ws[j]| > 0 && forall k :: 0 <= k < |ws[j]| ==> !IsAsciiUpper(ws[j][k])
  {
    match c
    case Interview =>
      ["conflict", "failure", "strength", "weakness",
       "stress", "leadership", "team", "criticism"]
    case Project =>
      ["pm2.5", "kaggle", "model", "pipeline",
       "feature", "evaluation", "metric", "leakage"]
    case Resume =>
      ["education", "gpa", "experience",
       "skills", "background", "tool"]
  }

  /** The natural-language description whose embedding represents each category. */
  function Description(c: Category): (d: string)
    ensures |d| > 0
  {
    match c
    case Interview => "behavioral interview questions about teamwork, conflict, leadership, failure"
    case Project => "technical machine learning project details, modeling, evaluation, time series"
    case Resume => "education background, work experience, skills, internships"
  }

  /** A router's answer: a category or none, and a confidence or similarity score. */
  datatype Route = Route(category: Option<Category>, score: real)

  // ---------------------------------------------------------------------------
  // Rule router
  // ---------------------------------------------------------------------------

  /** The `for word in keywords: if word in q` loop: true when some keyword is found. */
  function AnyKeywordIn(q: string, words: seq<string>): (b: bool)
    ensures b <==> exists j :: 0 <= j < |words| && Contains(q, words[j])
    decreases |words|
  {
    |words| > 0 && (Contains(q, words[0]) || AnyKeywordIn(q, words[1..]))
  }

  /** Reference definition: some keyword of `c` occurs somewhere in `q`. */
  ghost predicate Mentions(q: string, c: Category) {
    exists j, i :: 0 <= j < |Keywords(c)| && OccursAt(q, Keywords(c)[j], i)
  }

  /** The keyword scan agrees with the reference definition. */
  lemma {:induction false} AnyKeywordInIffOccurs(q: string, words: seq<string>)
    ensures AnyKeywordIn(q, words) <==>
            exists j, i :: 0 <= j < |words| && OccursAt(q, words[j], i)
    decreases |words|
  {
    if |words| > 0 {
      ContainsIffOccurs(q, words[0]);
      AnyKeywordInIffOccurs(q, words[1..]);
      if exists j, i :: 0 <= j < |words| && OccursAt(q, words[j], i) {
        var j, i :| 0 <= j < |words| && OccursAt(q, words[j], i);
        if j > 0 {
          assert words[1..][j - 1] == words[j];
        }
      }
      if exists j, i :: 0 <= j < |words[1..]| && OccursAt(q, words[1..][j], i) {
        var j, i :| 0 <= j < |words[1..]| && OccursAt(q, words[1..][j], i);
        assert OccursAt(q, words[j + 1], i);
      }
    }
  }

  /** The scan of one category's keyword list decides `Mentions`. */
  lemma MentionsByScan(q: string, c: Category)
    ensures AnyKeywordIn(q, Keywords(c)) <==> Mentions(q, c)
  {
    AnyKeywordInIffOccurs(q, Keywords(c));
  }

  /**
    The rule router: lower-case the query, then test the interview, project
    and resume keyword lists in that order; the first list with a hit decides.
   */
  function RuleRouter(query: string): (r: Route)
    ensures var q := Lower(query);
      (r.category.Some? <==> Mentions(q, Interview) || Mentions(q, Project) || Mentions(q, Resume))
    ensures var q := Lower(query);
      && (r.category == Some(Interview) <==> Mentions(q, Interview))
      && (r.category == Some(Project) <==> !Mentions(q, Interview) && Mentions(q, Project))
      && (r.category == Some(Resume) <==>
            !Mentions(q, Interview) && !Mentions(q, Project) && Mentions(q, Resume))
    ensures r.category.Some? ==> r.score == RuleConfidence
    ensures r.category.None? ==> r.score == 0.0
  {
    var q := Lower(query);
    MentionsByScan(q, Interview);
    MentionsByScan(q, Project);
    MentionsByScan(q, Resume);
    if AnyKeywordIn(q, Keywords(Interview)) then Route(Some(Interview), RuleConfidence)
    else if AnyKeywordIn(q, Keywords(Project)) then Route(Some(Project), RuleConfidence)
    else if AnyKeywordIn(q, Keywords(Resume)) then Route(Some(Resume), RuleConfidence)
    else Route(None, 0.0)
  }

  /** The rule router ignores ASCII letter case: a query and its lower-cased form route alike. */
  lemma RuleRouterCaseInsensitive(query: string)
    ensures RuleRouter(query) == RuleRouter(Lower(query))
  {
    LowerIdempotent(query);
  }

  // ---------------------------------------------------------------------------
  // Semantic router
  // ---------------------------------------------------------------------------

  /** `k` is the first position of a maximal score in `scores`. */
  ghost predicate FirstBest(scores: seq<(Category, real)>, k: int) {
    && 0 <= k < |scores|
    && (forall j :: 0 <= j < |scores| ==> scores[j].1 <= scores[k].1)
    && (forall j :: 0 <= j < k ==> scores[j].1 < scores[k].1)
  }

  /** The `for category, score in ...: if score > best_score` loop, from the running best `best`. */
  function Scan(scores: seq<(Category, real)>, best: Route): (r: Route)
    ensures r.score >= best.score
    ensures r == best || (r.category.Some? && r.score > best.score)
    decreases |scores|
  {
    if |scores| == 0 then best
    else
      var next := if scores[0].1 > best.score then Route(Some(scores[0].0), scores[0].1) else best;
      Scan(scores[1..], next)
  }

  /**
    The scan keeps `best` when no score beats it; otherwise it ends on the
    first maximal score, which is above `best`.
   */
  lemma {:induction false} ScanFindsFirstBest(scores: seq<(Category, real)>, best: Route)
    ensures (forall j :: 0 <= j < |scores| ==> scores[j].1 <= best.score) ==>
            Scan(scores, best) == best
    ensures (exists j :: 0 <= j < |scores| && scores[j].1 > best.score) ==>
            exists k :: FirstBest(scores, k) && scores[k].1 > best.score &&
                        Scan(scores, best) == Route(Some(scores[k].0), scores[k].1)
    decreases |scores|
  {
    if |scores| > 0 {
      var tail := scores[1..];
      var next := if scores[0].1 > best.score then Route(Some(scores[0].0), scores[0].1) else best;
      ScanFindsFirstBest(tail, next);
      if forall j :: 0 <= j < |tail| ==> tail[j].1 <= next.score {
        if scores[0].1 > best.score {
          assert forall j :: 1 <= j < |scores| ==> scores[j].1 == tail[j - 1].1;
          assert FirstBest(scores, 0);
        }
      } else {
        var k' :| FirstBest(tail, k') && tail[k'].1 > next.score &&
                  Scan(tail, next) == Route(Some(tail[k'].0), tail[k'].1);
        assert forall j :: 1 <= j < |scores| ==> scores[j] == tail[j - 1];
        assert FirstBest(scores, k' + 1);
      }
    }
  }

  /** The similarity of the query vector to every category vector, in table order. */
  function Scores<V>(queryVec: V, dot: (V, V) -> real, table: seq<(Category, V)>): (s: seq<(Category, real)>)
    ensures |s| == |table|
    ensures forall i :: 0 <= i < |s| ==> s[i] == (table[i].0, dot(queryVec, table[i].1))
  {
    seq(|table|, i requires 0 <= i < |table| => (table[i].0, dot(queryVec, table[i].1)))
  }

  /**
    The semantic router: embed the query, score it against each category
    vector in table order and keep the best, starting from -1 and replacing
    only on a strictly greater score.
   */
  function SemanticRouter<V>(query: string, embed: string -> V, dot: (V, V) -> real,
                             table: seq<(Category, V)>): (r: Route)
    ensures var s := Scores(embed(query), dot, table);
      (r.category.Some? <==> exists j :: 0 <= j < |s| && s[j].1 > SemanticSeed)
    ensures var s := Scores(embed(query), dot, table);
      r.category.Some? ==>
        exists k :: FirstBest(s, k) && r == Route(Some(s[k].0), s[k].1)
    ensures r.category.None? ==> r.score == SemanticSeed
  {
    var s := Scores(embed(query), dot, table);
    ScanFindsFirstBest(s, Route(None, SemanticSeed));
    Scan(s, Route(None, SemanticSeed))
  }

  /** The category table computed once at start-up: each description embedded, in declaration order. */
  function CategoryVectors<V>(embed: string -> V): (table: seq<(Category, V)>)
    ensures |table| == |Declared|
    ensures forall i :: 0 <= i < |table| ==>
              table[i].0 == Declared[i] && table[i].1 == embed(Description(Declared[i]))
  {
    [(Interview, embed(Description(Interview))),
     (Project, embed(Description(Project))),
     (Resume, embed(Description(Resume)))]
  }

  /**
    On a table of three categories the semantic router is a three-way
    comparison: an entry wins when its score beats -1, ties or beats every
    later entry and strictly beats every earlier one.
   */
  lemma ThreeWayChoice<V>(query: string, embed: string -> V, dot: (V, V) -> real,
                          table: seq<(Category, V)>)
    requires |table| == 3
    ensures var qv := embed(query);
      var a := dot(qv, table[0].1);
      var b := dot(qv, table[1].1);
      var c := dot(qv, table[2].1);
      var r := SemanticRouter(query, embed, dot, table);
      && (a <= SemanticSeed && b <= SemanticSeed && c <= SemanticSeed ==> r == Route(None, SemanticSeed))
      && (a > SemanticSeed && a >= b && a >= c ==> r == Route(Some(table[0].0), a))
      && (b > SemanticSeed && b > a && b >= c ==> r == Route(Some(table[1].0), b))
      && (c > SemanticSeed && c > a && c > b ==> r == Route(Some(table[2].0), c))
  {
  }

  /**
    The deployed table (interview, project, resume): ties go to the category
    declared first.
   */
  lemma DeployedSemanticChoice<V>(query: string, embed: string -> V, dot: (V, V) -> real)
    ensures var qv := embed(query);
      var i := dot(qv, embed(Description(Interview)));
      var p := dot(qv, embed(Description(Project)));
      var m := dot(qv, embed(Description(Resume)));
      var r := SemanticRouter(query, embed, dot, CategoryVectors(embed));
      && (i <= SemanticSeed && p <= SemanticSeed && m <= SemanticSeed ==> r == Route(None, SemanticSeed))
      && (i > SemanticSeed && i >= p && i >= m ==> r == Route(Some(Interview), i))
      && (p > SemanticSeed && p > i && p >= m ==> r == Route(Some(Project), p))
      && (m > SemanticSeed && m > i && m > p ==> r == Route(Some(Resume), m))
  {
    ThreeWayChoice(query, embed, dot, CategoryVectors(embed));
  }

  // ---------------------------------------------------------------------------
  // Hybrid classifier
  // ---------------------------------------------------------------------------

  /** Which stage produced a classification. */
  datatype Provenance = Rule | Semantic

  datatype Classification = Classification(category: Option<Category>, confidence: real, provenance: Provenance)

  /** A classification together with the texts the call sent to the embedding provider. */
  datatype Outcome = Outcome(result: Classification, embedded: seq<string>)

  /**
    The hybrid classifier: the rule router's hit, tagged `Rule`, when it has
    one; otherwise the semantic router's answer, tagged `Semantic`. Only the
    semantic path embeds the query.
   */
  function ClassifyQuery<V>(query: string, embed: string -> V, dot: (V, V) -> real,
                            table: seq<(Category, V)>): (r: Outcome)
    ensures var q := Lower(query);
      (r.result.provenance == Rule <==>
         Mentions(q, Interview) || Mentions(q, Project) || Mentions(q, Resume))
    ensures r.result.provenance == Rule ==>
      && r.embedded == []
      && r.result.category.Some?
      && r.result.confidence == RuleConfidence
      && Route(r.result.category, r.result.confidence) == RuleRouter(query)
    ensures r.result.provenance == Semantic ==>
      && r.embedded == [query]
      && Route(r.result.category, r.result.confidence) == SemanticRouter(query, embed, dot, table)
  {
    var rule := RuleRouter(query);
    if rule.category.Some? then
      Outcome(Classification(rule.category, rule.score, Rule), [])
    else
      var sem := SemanticRouter(query, embed, dot, table);
      Outcome(Classification(sem.category, sem.score, Semantic), [query])
  }
}
