/** The prompt templates of the agent.

    `src/agent/main.py` defines its own grade, rewrite and answer templates and does not
    import `src/agent/prompts.py`. The grade and rewrite templates are the same text in
    both files, so each is defined once here; the two answer templates differ. The
    literal text of every template is kept exactly, split only at its replacement fields;
    `Format.ParseUnparse` with `WellFormed` below shows that the written-out source text of
    each template parses back into these parts. */
module Prompts {
  import opened Results
  import opened Format

  // ---------------------------------------------------------------------------
  // GRADE_PROMPT (main.py and prompts.py)
  // ---------------------------------------------------------------------------

  const GradeHead: string :=
    "You are a grader assessing relevance of a retrieved document to a user question.\n"
    + "Here is the retrieved document:\n\n"
  const GradeMid: string := "\n\nHere is the user question: "
  const GradeTail: string :=
    "\n"
    + "If the document contains keyword(s) or semantic meaning related to the user question, "
    + "grade it as relevant. Give a binary score 'yes' or 'no'."

  const GradeTemplate: Template :=
    Lits(GradeHead) + [Field("context", "")] + Lits(GradeMid) + [Field("question", "")] + Lits(GradeTail)

  // ---------------------------------------------------------------------------
  // REWRITE_PROMPT (main.py and prompts.py)
  // ---------------------------------------------------------------------------

  const RewriteIntro: string :=
    "Look at the input and try to reason about the underlying semantic intent / meaning.\n"
    + "Here is the initial question:\n"
  /** The delimiter line written above and below the question. */
  const Rule: string := "-------"
  const RewriteOutro: string := "Formulate an improved question:"

  const RewriteTemplate: Template :=
    Lits(RewriteIntro + Rule + "\n") + [Field("question", "")] + Lits("\n" + Rule + "\n" + RewriteOutro)

  // ---------------------------------------------------------------------------
  // GENERATE_PROMPT of main.py, the one the agent's answer node formats
  // ---------------------------------------------------------------------------

  const AnswerHead: string :=
    "You are an assistant for question-answering tasks. "
    + "Use the following pieces of retrieved context to answer the question. "
    + "If you don't know the answer, just say that you don't know. "
    + "Use three sentences maximum and keep the answer concise.\n"
    + "Question: "
  const AnswerMid: string := "\n" + "Context: "

  const AnswerTemplate: Template :=
    Lits(AnswerHead) + [Field("question", "")] + Lits(AnswerMid) + [Field("context", "")]

  // ---------------------------------------------------------------------------
  // GENERATE_PROMPT of prompts.py: its JSON sketch holds three brace groups that
  // `str.format` reads as replacement fields (name before the first colon).
  // ---------------------------------------------------------------------------

  const NasaIntro: string :=
    "You are a NASA BioScience assistant. Answer the user's question using the context from NASA experiments. "
    + "Your output must be a JSON object with the following fields:\n"
    + "1. abstract: a concise summary (max 3 sentences) of the main findings related to the question.\n"
    + "2. graph_datas: a dictionary with data for charts, and it must include all of the following keys even if empty:\n"
    + "   - experiments_timeline: "
  const NasaSubjects: string := "\n" + "   - subject_distribution: "
  const NasaScores: string := "\n" + "   - relevance_scores: ["
  const NasaDocuments: string :=
    "]\n"
    + "3. documents: a list of relevant publications, each with:\n"
    + "   - title\n"
    + "   - authors\n"
    + "   - date\n"
    + "   - summary\n"
    + "   - url\n"
    + "   - keywords\n"
    + "   - relevance\n\n"
    + "Always include all keys. If there is no data for a field, set it to an empty dictionary, empty list, or null as appropriate. "
    + "Ensure that 'experiments_timeline' contains valid year keys as strings or integers. "
    + "The output must be valid JSON without comments or extra text.\n\n"
    + "Question: "

  /** The closing two lines, `Question: {question}` and `Context: {context}`. */
  const QuestionAndContext: Template := [Field("question", "")] + Lits(AnswerMid) + [Field("context", "")]

  const NasaTemplate: Template :=
    Lits(NasaIntro)
    + [Field("year", " number of experiments")]
    + Lits(NasaSubjects)
    + [Field("research area", " count")]
    + Lits(NasaScores)
    + [Field("title", " string, score: float")]
    + Lits(NasaDocuments)
    + QuestionAndContext

  /** The keyword arguments every node passes to `format`. */
  function QuestionArgs(question: string): map<string, string> {
    map["question" := question]
  }

  function QuestionContextArgs(question: string, context: string): map<string, string> {
    map["question" := question, "context" := context]
  }

  lemma Middle(a: string, b: string, c: string)
    ensures (a + b + c)[|a|..|a| + |b|] == b
  {
    assert (a + b + c)[|a|..|a| + |b|] == (a + b)[|a|..];
  }

  lemma LastOfConcat(a: Template, b: Template)
    requires |b| > 0
    ensures (a + b)[|a + b| - 1] == b[|b| - 1]
  {
  }

  lemma LitsWellFormed(s: string)
    ensures WellFormed(Lits(s))
  {
  }

  /** A field named by lower-case words, with a brace-free spec, is well formed. */
  lemma WordFieldWellFormed(n: string, spec: string)
    requires forall k :: 0 <= k < |n| ==> 'a' <= n[k] <= 'z' || n[k] == ' '
    requires forall k :: 0 <= k < |spec| ==> spec[k] != '{' && spec[k] != '}'
    ensures WellFormed([Field(n, spec)])
  {
  }

  lemma WellFormedConcat(a: Template, b: Template)
    requires WellFormed(a) && WellFormed(b)
    ensures WellFormed(a + b)
  {
    forall i | 0 <= i < |a + b| ensures WellFormedPart((a + b)[i]) {
      if i >= |a| { assert (a + b)[i] == b[i - |a|]; }
    }
  }

  // ---------------------------------------------------------------------------
  // Grade prompt
  // ---------------------------------------------------------------------------

  /** The grade template's only replacement fields are `context` and `question`, and its
      source text parses back into it. */
  lemma GradeFields()
    ensures FieldNames(GradeTemplate) == {"context", "question"}
    ensures Parse(Unparse(GradeTemplate)) == Ok(GradeTemplate)
  {
    FieldNamesConcat(Lits(GradeHead), [Field("context", "")]);
    FieldNamesConcat(Lits(GradeHead) + [Field("context", "")], Lits(GradeMid));
    FieldNamesConcat(Lits(GradeHead) + [Field("context", "")] + Lits(GradeMid), [Field("question", "")]);
    FieldNamesConcat(Lits(GradeHead) + [Field("context", "")] + Lits(GradeMid) + [Field("question", "")], Lits(GradeTail));
    LitsFieldNames(GradeHead);
    LitsFieldNames(GradeMid);
    LitsFieldNames(GradeTail);
    FieldNamesSingle("context", "");
    FieldNamesSingle("question", "");
    WordFieldWellFormed("context", "");
    WordFieldWellFormed("question", "");
    WellFormedConcat(Lits(GradeHead), [Field("context", "")]);
    WellFormedConcat(Lits(GradeHead) + [Field("context", "")], Lits(GradeMid));
    WellFormedConcat(Lits(GradeHead) + [Field("context", "")] + Lits(GradeMid), [Field("question", "")]);
    WellFormedConcat(Lits(GradeHead) + [Field("context", "")] + Lits(GradeMid) + [Field("question", "")], Lits(GradeTail));
    ParseUnparse(GradeTemplate);
  }

  /** Rendering the grade template with any arguments renders its five pieces in order. */
  lemma GradeRenderSplit(args: map<string, string>)
    ensures Render(GradeTemplate, args)
         == Join(Join(Join(Join(Ok(GradeHead), Render([Field("context", "")], args)), Ok(GradeMid)),
                      Render([Field("question", "")], args)), Ok(GradeTail))
  {
    var a := Lits(GradeHead);
    var b := [Field("context", "")];
    var c := Lits(GradeMid);
    var d := [Field("question", "")];
    var e := Lits(GradeTail);
    RenderConcat(a + b + c + d, e, args);
    RenderConcat(a + b + c, d, args);
    RenderConcat(a + b, c, args);
    RenderConcat(a, b, args);
    RenderLits(GradeHead, args);
    RenderLits(GradeMid, args);
    RenderLits(GradeTail, args);
  }

  /** `GRADE_PROMPT.format(...)` succeeds exactly when both `context` and `question` are
      supplied. */
  lemma GradeRenderableIff(args: map<string, string>)
    ensures Render(GradeTemplate, args).Ok? <==> "context" in args && "question" in args
  {
    GradeRenderSplit(args);
    assert !IsPositional("context") by { assert "context"[0] == 'c'; }
    assert !IsPositional("question") by { assert "question"[0] == 'q'; }
    if "context" in args { RenderField("context", args); }
    if "question" in args { RenderField("question", args); }
  }

  /** The grade prompt for a question and a retrieved context: both are embedded
      verbatim, the context first. */
  function GradePrompt(question: string, context: string): (r: string)
    ensures r == GradeHead + context + GradeMid + question + GradeTail
  {
    var args := QuestionContextArgs(question, context);
    GradeRenderSplit(args);
    assert !IsPositional("context") by { assert "context"[0] == 'c'; }
    assert !IsPositional("question") by { assert "question"[0] == 'q'; }
    RenderField("context", args);
    RenderField("question", args);
    Render(GradeTemplate, args).value
  }

  /** In the grade prompt the context text comes first, verbatim, and the question text
      follows it, verbatim. */
  lemma GradeContextBeforeQuestion(question: string, context: string)
    ensures var r := GradePrompt(question, context);
            var i := |GradeHead|;
            var j := i + |context| + |GradeMid|;
            && r[i..i + |context|] == context
            && r[j..j + |question|] == question
            && i + |context| <= j
  {
    Pieces(GradeHead, context, GradeMid, question, GradeTail);
  }

  lemma Pieces(a: string, b: string, c: string, d: string, e: string)
    ensures var r := a + b + c + d + e;
            && r[|a|..|a| + |b|] == b
            && r[|a| + |b| + |c|..|a| + |b| + |c| + |d|] == d
  {
    var r := a + b + c + d + e;
    assert r == a + b + (c + d + e);
    Middle(a, b, c + d + e);
    Middle(a + b + c, d, e);
  }

  // ---------------------------------------------------------------------------
  // Rewrite prompt
  // ---------------------------------------------------------------------------

  /** The rewrite template's only field is `question`, and its source text parses back
      into it. */
  lemma RewriteFields()
    ensures FieldNames(RewriteTemplate) == {"question"}
    ensures Parse(Unparse(RewriteTemplate)) == Ok(RewriteTemplate)
  {
    var a := Lits(RewriteIntro + Rule + "\n");
    var b := [Field("question", "")];
    var c := Lits("\n" + Rule + "\n" + RewriteOutro);
    FieldNamesConcat(a, b);
    FieldNamesConcat(a + b, c);
    LitsFieldNames(RewriteIntro + Rule + "\n");
    LitsFieldNames("\n" + Rule + "\n" + RewriteOutro);
    FieldNamesSingle("question", "");
    WordFieldWellFormed("question", "");
    WellFormedConcat(a, b);
    WellFormedConcat(a + b, c);
    ParseUnparse(RewriteTemplate);
  }

  /** The rewrite prompt: the question sits alone between two `-------` delimiter lines. */
  function RewritePrompt(question: string): (r: string)
    ensures r == RewriteIntro + Rule + "\n" + question + "\n" + Rule + "\n" + RewriteOutro
  {
    var args := QuestionArgs(question);
    var a := Lits(RewriteIntro + Rule + "\n");
    var b := [Field("question", "")];
    var c := Lits("\n" + Rule + "\n" + RewriteOutro);
    RenderConcat(a + b, c, args);
    RenderConcat(a, b, args);
    RenderLits(RewriteIntro + Rule + "\n", args);
    RenderLits("\n" + Rule + "\n" + RewriteOutro, args);
    assert !IsPositional("question") by { assert "question"[0] == 'q'; }
    RenderField("question", args);
    Render(RewriteTemplate, args).value
  }

  // ---------------------------------------------------------------------------
  // Answer prompt of main.py
  // ---------------------------------------------------------------------------

  /** The answer template of main.py has exactly the fields `question` and `context`,
      and its source text parses back into it. */
  lemma AnswerFields()
    ensures FieldNames(AnswerTemplate) == {"question", "context"}
    ensures Parse(Unparse(AnswerTemplate)) == Ok(AnswerTemplate)
  {
    var a := Lits(AnswerHead);
    var b := [Field("question", "")];
    var c := Lits(AnswerMid);
    var d := [Field("context", "")];
    FieldNamesConcat(a, b);
    FieldNamesConcat(a + b, c);
    FieldNamesConcat(a + b + c, d);
    LitsFieldNames(AnswerHead);
    LitsFieldNames(AnswerMid);
    FieldNamesSingle("question", "");
    FieldNamesSingle("context", "");
    WordFieldWellFormed("question", "");
    WordFieldWellFormed("context", "");
    WellFormedConcat(a, b);
    WellFormedConcat(a + b, c);
    WellFormedConcat(a + b + c, d);
    ParseUnparse(AnswerTemplate);
  }

  /** The answer prompt of main.py: it ends with `Question: <question>` followed by
      `Context: <context>`, so the context is its final text. */
  function AnswerPrompt(question: string, context: string): (r: string)
    ensures r == AnswerHead + question + AnswerMid + context
    ensures |context| <= |r| && r[|r| - |context|..] == context
  {
    var args := QuestionContextArgs(question, context);
    var a := Lits(AnswerHead);
    var b := [Field("question", "")];
    var c := Lits(AnswerMid);
    var d := [Field("context", "")];
    RenderConcat(a + b + c, d, args);
    RenderConcat(a + b, c, args);
    RenderConcat(a, b, args);
    RenderLits(AnswerHead, args);
    RenderLits(AnswerMid, args);
    assert !IsPositional("context") by { assert "context"[0] == 'c'; }
    assert !IsPositional("question") by { assert "question"[0] == 'q'; }
    RenderField("question", args);
    RenderField("context", args);
    var r := Render(AnswerTemplate, args).value;
    assert r == (AnswerHead + question + AnswerMid) + context;
    r
  }

  // ---------------------------------------------------------------------------
  // Answer prompt of prompts.py
  // ---------------------------------------------------------------------------

  /** `str.format` reads five replacement fields in the prompts.py answer template: the
      three brace groups of the JSON sketch as well as `question` and `context`. */
  lemma NasaFields()
    ensures FieldNames(NasaTemplate) == {"year", "research area", "title", "question", "context"}
  {
    var p1 := Lits(NasaIntro);
    var f1 := [Field("year", " number of experiments")];
    var p2 := Lits(NasaSubjects);
    var f2 := [Field("research area", " count")];
    var p3 := Lits(NasaScores);
    var f3 := [Field("title", " string, score: float")];
    var p4 := Lits(NasaDocuments);
    QuestionAndContextFields();
    FieldNamesConcat(p1, f1);
    FieldNamesConcat(p1 + f1, p2);
    FieldNamesConcat(p1 + f1 + p2, f2);
    FieldNamesConcat(p1 + f1 + p2 + f2, p3);
    FieldNamesConcat(p1 + f1 + p2 + f2 + p3, f3);
    FieldNamesConcat(p1 + f1 + p2 + f2 + p3 + f3, p4);
    FieldNamesConcat(p1 + f1 + p2 + f2 + p3 + f3 + p4, QuestionAndContext);
    LitsFieldNames(NasaIntro);
    LitsFieldNames(NasaSubjects);
    LitsFieldNames(NasaScores);
    LitsFieldNames(NasaDocuments);
    FieldNamesSingle("year", " number of experiments");
    FieldNamesSingle("research area", " count");
    FieldNamesSingle("title", " string, score: float");
  }

  lemma QuestionAndContextFields()
    ensures FieldNames(QuestionAndContext) == {"question", "context"}
    ensures WellFormed(QuestionAndContext)
  {
    var q := [Field("question", "")];
    var m := Lits(AnswerMid);
    var c := [Field("context", "")];
    FieldNamesConcat(q, m);
    FieldNamesConcat(q + m, c);
    LitsFieldNames(AnswerMid);
    FieldNamesSingle("question", "");
    FieldNamesSingle("context", "");
    WordFieldWellFormed("question", "");
    WordFieldWellFormed("context", "");
    WellFormedConcat(q, m);
    WellFormedConcat(q + m, c);
  }

  lemma YearFieldWellFormed()
    ensures WellFormed([Field("year", " number of experiments")])
  {
    WordFieldWellFormed("year", " number of experiments");
  }

  lemma AreaFieldWellFormed()
    ensures WellFormed([Field("research area", " count")])
  {
    WordFieldWellFormed("research area", " count");
  }

  lemma TitleFieldWellFormed()
    ensures WellFormed([Field("title", " string, score: float")])
  {
    WordFieldWellFormed("title", " string, score: float");
  }

  /** The source text of the prompts.py answer template parses back into it: its three
      brace groups are read as fields named before their first colon. */
  lemma NasaParses()
    ensures Parse(Unparse(NasaTemplate)) == Ok(NasaTemplate)
  {
    var p1 := Lits(NasaIntro);
    var f1 := [Field("year", " number of experiments")];
    var p2 := Lits(NasaSubjects);
    var f2 := [Field("research area", " count")];
    var p3 := Lits(NasaScores);
    var f3 := [Field("title", " string, score: float")];
    var p4 := Lits(NasaDocuments);
    QuestionAndContextFields();
    YearFieldWellFormed();
    AreaFieldWellFormed();
    TitleFieldWellFormed();
    WellFormedConcat(p1, f1);
    WellFormedConcat(p1 + f1, p2);
    WellFormedConcat(p1 + f1 + p2, f2);
    WellFormedConcat(p1 + f1 + p2 + f2, p3);
    WellFormedConcat(p1 + f1 + p2 + f2 + p3, f3);
    WellFormedConcat(p1 + f1 + p2 + f2 + p3 + f3, p4);
    WellFormedConcat(p1 + f1 + p2 + f2 + p3 + f3 + p4, QuestionAndContext);
    ParseUnparse(NasaTemplate);
  }

  /** Formatting the prompts.py answer template with only `question` and `context` fails
      with a missing-key error for `year`, the first brace group of the JSON sketch. */
  lemma NasaMissingYear(question: string, context: string)
    ensures Render(NasaTemplate, QuestionContextArgs(question, context)) == Err(MissingKey("year"))
  {
    var args := QuestionContextArgs(question, context);
    var i := |NasaIntro|;
    assert NasaTemplate[i] == Field("year", " number of experiments");
    forall k | 0 <= k < i ensures Fillable(NasaTemplate[k], args) {
      assert NasaTemplate[k] == Lits(NasaIntro)[k];
    }
    assert !IsPositional("year") by { assert "year"[0] == 'y'; }
    RenderFailsAtFirstBadField(NasaTemplate, args, i);
  }

  /** No string arguments format the prompts.py answer template: either `year` is
      missing, or its format spec ` number of experiments` is applied to a string, which
      Python rejects as an invalid format specifier (the model rejects every non-empty
      spec). */
  lemma NasaNeverRenders(args: map<string, string>)
    ensures Render(NasaTemplate, args).Err?
  {
    var i := |NasaIntro|;
    assert NasaTemplate[i] == Field("year", " number of experiments");
    forall k | 0 <= k < i ensures Fillable(NasaTemplate[k], args) {
      assert NasaTemplate[k] == Lits(NasaIntro)[k];
    }
    RenderFailsAtFirstBadField(NasaTemplate, args, i);
  }

  /** The main.py answer template ends with the `context` field, so a successful
      formatting ends with the context text. */
  lemma AnswerEndsWithContext(args: map<string, string>)
    requires Render(AnswerTemplate, args).Ok?
    ensures "context" in args && EndsWith(Render(AnswerTemplate, args).value, args["context"])
  {
    RenderEndsWithLastField(AnswerTemplate, "context", args);
  }

  /** The prompts.py answer template also ends with `Question: {question}` and
      `Context: {context}`: were it formatted successfully, the result would end with
      the context text. */
  lemma NasaEndsWithContext(args: map<string, string>)
    ensures |NasaTemplate| > 0 && NasaTemplate[|NasaTemplate| - 1] == Field("context", "")
    ensures Render(NasaTemplate, args).Ok? ==>
      "context" in args && EndsWith(Render(NasaTemplate, args).value, args["context"])
  {
    var front := Lits(NasaIntro)
      + [Field("year", " number of experiments")]
      + Lits(NasaSubjects)
      + [Field("research area", " count")]
      + Lits(NasaScores)
      + [Field("title", " string, score: float")]
      + Lits(NasaDocuments);
    EndsWithQuestionAndContext(front, args);
  }

  lemma EndsWithQuestionAndContext(front: Template, args: map<string, string>)
    ensures var t := front + QuestionAndContext;
            && t[|t| - 1] == Field("context", "")
            && (Render(t, args).Ok? ==> "context" in args && EndsWith(Render(t, args).value, args["context"]))
  {
    var t := front + QuestionAndContext;
    assert QuestionAndContext[|QuestionAndContext| - 1] == Field("context", "");
    LastOfConcat(front, QuestionAndContext);
    if Render(t, args).Ok? {
      RenderEndsWithLastField(t, "context", args);
    }
  }

  /** The prompts.py answer template as evidently intended: the JSON sketch's brace
      groups are literal text (written `{{year: ...}}` in a format string), so the
      only fields left are `question` and `context`. */
  const NasaSketchText: string :=
    NasaIntro + "{year: number of experiments}"
    + NasaSubjects + "{research area: count}"
    + NasaScores + "{title: string, score: float}"
    + NasaDocuments

  const NasaEscapedTemplate: Template := Lits(NasaSketchText) + QuestionAndContext

  /** With the sketch's braces escaped, formatting with `question` and `context` succeeds,
      shows the braces literally, and ends with `Question: <question>` and
      `Context: <context>`. */
  lemma NasaEscapedRenders(question: string, context: string)
    ensures Render(NasaEscapedTemplate, QuestionContextArgs(question, context))
         == Ok(NasaSketchText + (question + AnswerMid + context))
  {
    var args := QuestionContextArgs(question, context);
    RenderConcat(Lits(NasaSketchText), QuestionAndContext, args);
    RenderLits(NasaSketchText, args);
    QuestionAndContextRenders(question, context);
  }

  /** The only fields of the escaped template are `question` and `context`. */
  lemma NasaEscapedFields()
    ensures FieldNames(NasaEscapedTemplate) == {"question", "context"}
  {
    QuestionAndContextFields();
    FieldNamesConcat(Lits(NasaSketchText), QuestionAndContext);
    LitsFieldNames(NasaSketchText);
  }

  lemma QuestionAndContextRenders(question: string, context: string)
    ensures Render(QuestionAndContext, QuestionContextArgs(question, context)) == Ok(question + AnswerMid + context)
  {
    var args := QuestionContextArgs(question, context);
    var q := [Field("question", "")];
    var m := Lits(AnswerMid);
    var c := [Field("context", "")];
    RenderConcat(q + m, c, args);
    RenderConcat(q, m, args);
    RenderLits(AnswerMid, args);
    assert !IsPositional("context") by { assert "context"[0] == 'c'; }
    assert !IsPositional("question") by { assert "question"[0] == 'q'; }
    RenderField("question", args);
    RenderField("context", args);
  }

  predicate EndsWith(s: string, suffix: string) {
    |suffix| <= |s| && s[|s| - |suffix|..] == suffix
  }
}
