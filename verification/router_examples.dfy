/**
  Worked examples of the rule router and the hybrid classifier on concrete
  queries, with two helper lemmas that establish keyword hits and misses.

  Each example takes its query as a parameter `s` fixed by a `requires`
  rather than writing the literal into the `ensures`: a literal there would
  let the verifier unfold `Lower` and `Contains` over it without bound.

  A keyword miss is shown by a string of letters, one per keyword of the
  category in `Keywords` order: the letter at position `j` occurs in keyword
  `j` and occurs in the query in neither case, so keyword `j` cannot occur
  in the lower-cased query.
 */
module RouterExamples {
  import opened Wrappers
  import opened Text
  import opened QueryClassifier

  /**
    No keyword of `c` occurs in `s` up to ASCII case when each keyword has a
    letter (given in `letters`, one per keyword) that `s` lacks in both cases.
   */
  lemma NotMentionedWithout(s: string, c: Category, letters: string)
    requires |letters| == |Keywords(c)|
    requires forall j :: 0 <= j < |letters| ==>
               letters[j] in Keywords(c)[j] && !IsAsciiUpper(letters[j]) &&
               letters[j] !in s && UpperChar(letters[j]) !in s
    ensures !Mentions(Lower(s), c)
  {
    var ws := Keywords(c);
    forall j | 0 <= j < |ws|
      ensures forall i :: !OccursAt(Lower(s), ws[j], i)
    {
      AbsentLetter(s, ws[j], letters[j]);
    }
  }

  /** "conflict" at offset 31 sends this behavioural question to the interview category. */
  lemma ConflictQueryIsInterview(s: string)
    requires s == "Tell me about a time you had a conflict with a teammate"
    ensures RuleRouter(s) == Route(Some(Interview), RuleConfidence)
  {
    OccursLowered(s, "conflict", 31);
    assert OccursAt(Lower(s), Keywords(Interview)[0], 31);
  }

  /** "What was your GPA?" has no interview keyword ... */
  lemma GpaQueryNotInterview(s: string)
    requires s == "What was your GPA?"
    ensures !Mentions(Lower(s), Interview)
  {
    NotMentionedWithout(s, Interview, "cfeeeeec");
  }

  /** ... and no project keyword. */
  lemma GpaQueryNotProject(s: string)
    requires s == "What was your GPA?"
    ensures !Mentions(Lower(s), Project)
  {
    NotMentionedWithout(s, Project, "mkmifeme");
  }

  /** ... so its "gpa" at offset 14 sends it to the resume category. */
  lemma GpaQueryIsResume(s: string)
    requires s == "What was your GPA?"
    ensures RuleRouter(s) == Route(Some(Resume), RuleConfidence)
  {
    GpaQueryNotInterview(s);
    GpaQueryNotProject(s);
    OccursLowered(s, "gpa", 14);
    assert OccursAt(Lower(s), Keywords(Resume)[1], 14);
  }

  /**
    A query with both an interview keyword ("team") and a project keyword
    ("model") goes to the interview category, which is checked first.
   */
  lemma InterviewOutranksProject(s: string)
    requires s == "How did your team evaluate the model?"
    ensures Mentions(Lower(s), Interview) && Mentions(Lower(s), Project)
    ensures RuleRouter(s) == Route(Some(Interview), RuleConfidence)
  {
    OccursLowered(s, "team", 13);
    assert OccursAt(Lower(s), Keywords(Interview)[6], 13);
    OccursLowered(s, "model", 31);
    assert OccursAt(Lower(s), Keywords(Project)[2], 31);
  }

  /** "Who are you?" holds no interview keyword ... */
  lemma NoInterviewKeywordInWhoAreYou(s: string)
    requires s == "Who are you?"
    ensures !Mentions(Lower(s), Interview)
  {
    NotMentionedWithout(s, Interview, "cfnnsltc");
  }

  /** ... no project keyword ... */
  lemma NoProjectKeywordInWhoAreYou(s: string)
    requires s == "Who are you?"
    ensures !Mentions(Lower(s), Project)
  {
    NotMentionedWithout(s, Project, "pkmpflml");
  }

  /** ... and no resume keyword. */
  lemma NoResumeKeywordInWhoAreYou(s: string)
    requires s == "Who are you?"
    ensures !Mentions(Lower(s), Resume)
  {
    NotMentionedWithout(s, Resume, "dgxsbt");
  }

  /**
    A query without keywords falls through to the semantic router: the
    result is tagged `Semantic` and the query is the one text embedded.
   */
  lemma KeywordFreeQueryIsSemantic<V>(s: string, embed: string -> V, dot: (V, V) -> real)
    requires s == "Who are you?"
    ensures var r := ClassifyQuery(s, embed, dot, CategoryVectors(embed));
      r.result.provenance == Semantic && r.embedded == [s]
  {
    NoInterviewKeywordInWhoAreYou(s);
    NoProjectKeywordInWhoAreYou(s);
    NoResumeKeywordInWhoAreYou(s);
  }
}
