/** The agent's control loop: a state machine over the nodes of the workflow graph that
    threads an append-only message history.

    Every call into a language model or into the retriever is an oracle: the `Models`
    value supplies the replies, and the node functions below decide only what each model
    is shown and where the loop goes next. Each node returns a one-message update, which
    the graph appends to the history. */
module Agent {
  import opened Results
  import Prompts
  import Workflow

  datatype Role = User | Assistant | Tool

  /** A chat message: its role, its text and whether it requests a tool call. */
  datatype Message = Message(role: Role, content: string, toolCalls: bool)

  type History = seq<Message>

  /** A reply of the query model: text, and whether it asks for the retriever tool. */
  datatype Reply = Reply(content: string, toolCalls: bool)

  /** The external collaborators, as total functions of what they are shown. */
  datatype Models = Models(
    query: History -> Reply,     // the chat model with the retriever tool bound, on the whole history
    retrieve: Message -> string, // the retriever tool, run on the tool call of the latest message
    grade: string -> string,     // the grading model's `binary_score` for a grade prompt
    respond: string -> string    // the chat model's reply text for a single user prompt
  )

  /** The nodes of the graph. Grading is a routing decision taken on leaving `Retrieve`,
      not a node. */
  datatype Node = Start | QueryOrRespond | Retrieve | RewriteQuestion | GenerateAnswer | End

  /** The error a node raises on an empty history: an index error where it reads
      `messages[0]` or `messages[-1]`, and the tool node's error for a missing message. */
  datatype AgentError = EmptyHistory

  datatype Config = Config(node: Node, history: History)

  /** The graph name of each node. */
  function Name(n: Node): string {
    match n
    case Start => Workflow.StartName
    case QueryOrRespond => "generate_query_or_respond"
    case Retrieve => "retrieve"
    case RewriteQuestion => "rewrite_question"
    case GenerateAnswer => "generate_answer"
    case End => Workflow.EndName
  }

  function Last(h: History): Message
    requires |h| > 0
  {
    h[|h| - 1]
  }

  // ---------------------------------------------------------------------------
  // Node functions
  // ---------------------------------------------------------------------------

  /** `generate_query`: the query model sees the whole history and its reply, tool call
      included, is the update. */
  function GenerateQuery(h: History, m: Models): (msg: Message)
    ensures msg.role == Assistant
    ensures msg.content == m.query(h).content && msg.toolCalls == m.query(h).toolCalls
  {
    var reply := m.query(h);
    Message(Assistant, reply.content, reply.toolCalls)
  }

  /** `tools_condition`: to `retrieve` when the latest message requests a tool call,
      otherwise to the end. */
  function ToolsCondition(h: History): (r: Result<Node, AgentError>)
    ensures r.Err? <==> h == []
    ensures r.Ok? ==> (r.value == Retrieve <==> Last(h).toolCalls)
    ensures r.Ok? ==> r.value in {Retrieve, End}
  {
    if h == [] then Err(EmptyHistory)
    else if Last(h).toolCalls then Ok(Retrieve) else Ok(End)
  }

  /** The tool node: the retriever's result for the latest message becomes a tool message. */
  function RetrieveDocs(h: History, m: Models): (r: Result<Message, AgentError>)
    ensures r.Err? <==> h == []
    ensures r.Ok? ==> r.value.role == Tool && r.value.content == m.retrieve(Last(h))
  {
    if h == [] then Err(EmptyHistory)
    else Ok(Message(Tool, m.retrieve(Last(h)), false))
  }

  /** `grade_documents`: the grading model sees the grade prompt built from the first message
      (the question) and the latest message (the context); only the exact score `"yes"`
      routes to the answer, every other string to a rewrite. */
  function GradeDocuments(h: History, m: Models): (r: Result<Node, AgentError>)
    ensures r.Err? <==> h == []
    ensures r.Ok? ==> r.value in {GenerateAnswer, RewriteQuestion}
    ensures r.Ok? ==>
      (r.value == GenerateAnswer <==> m.grade(Prompts.GradePrompt(h[0].content, Last(h).content)) == "yes")
  {
    if h == [] then Err(EmptyHistory)
    else
      var prompt := Prompts.GradePrompt(h[0].content, Last(h).content);
      if m.grade(prompt) == "yes" then Ok(GenerateAnswer) else Ok(RewriteQuestion)
  }

  /** `rewrite_question`: the first message, never a later rewrite, is put into the
      rewrite prompt, and the reply becomes a new user message. */
  function RewriteQuestionNode(h: History, m: Models): (r: Result<Message, AgentError>)
    ensures r.Err? <==> h == []
    ensures r.Ok? ==> r.value.role == User && !r.value.toolCalls
    ensures r.Ok? ==> r.value.content == m.respond(Prompts.RewritePrompt(h[0].content))
  {
    if h == [] then Err(EmptyHistory)
    else Ok(Message(User, m.respond(Prompts.RewritePrompt(h[0].content)), false))
  }

  /** `generate_answer`: the answer prompt is built from the first message (question)
      and the latest message (context); the model's reply is the update. */
  function GenerateAnswerNode(h: History, m: Models): (r: Result<Message, AgentError>)
    ensures r.Err? <==> h == []
    ensures r.Ok? ==> r.value.role == Assistant
    ensures r.Ok? ==> r.value.content == m.respond(Prompts.AnswerPrompt(h[0].content, Last(h).content))
  {
    if h == [] then Err(EmptyHistory)
    else Ok(Message(Assistant, m.respond(Prompts.AnswerPrompt(h[0].content, Last(h).content)), false))
  }

  // ---------------------------------------------------------------------------
  // One step of the graph
  // ---------------------------------------------------------------------------

  /** Runs `node` on history `h`, appends its update and takes the outgoing edge. `End`
      is absorbing. */
  function Step(node: Node, h: History, m: Models): (r: Result<Config, AgentError>)
    ensures r.Ok? && node !in {Start, End} ==>
      |r.value.history| == |h| + 1 && r.value.history[..|h|] == h
    ensures r.Ok? && node in {Start, End} ==> r.value.history == h
    ensures r.Err? ==> h == [] && node in {Retrieve, RewriteQuestion, GenerateAnswer}
  {
    match node
    case Start => Ok(Config(QueryOrRespond, h))
    case QueryOrRespond =>
      var h' := h + [GenerateQuery(h, m)];
      assert h'[..|h|] == h;
      (match ToolsCondition(h')
       case Ok(next) => Ok(Config(next, h'))
       case Err(e) => Err(e))
    case Retrieve =>
      var msg :- RetrieveDocs(h, m);
      var h' := h + [msg];
      assert h'[..|h|] == h;
      (match GradeDocuments(h', m)
       case Ok(next) => Ok(Config(next, h'))
       case Err(e) => Err(e))
    case RewriteQuestion =>
      var msg :- RewriteQuestionNode(h, m);
      assert (h + [msg])[..|h|] == h;
      Ok(Config(QueryOrRespond, h + [msg]))
    case GenerateAnswer =>
      var msg :- GenerateAnswerNode(h, m);
      assert (h + [msg])[..|h|] == h;
      Ok(Config(End, h + [msg]))
    case End => Ok(Config(End, h))
  }

  /** Every step follows an edge of the workflow's transition table. */
  lemma StepFollowsEdges(node: Node, h: History, m: Models)
    requires node != End && Step(node, h, m).Ok?
    ensures Name(Step(node, h, m).value.node) in Workflow.Successors(Workflow.Corrected, Name(node))
  {
    Workflow.TransitionTable();
  }

  /** The query node routes to `retrieve` exactly when its reply requests a tool call. */
  lemma QueryRoutes(h: History, m: Models)
    ensures Step(QueryOrRespond, h, m).Ok?
    ensures Step(QueryOrRespond, h, m).value.node == Retrieve <==> m.query(h).toolCalls
    ensures Step(QueryOrRespond, h, m).value.node == End <==> !m.query(h).toolCalls
  {
  }

  /** After `retrieve` the grading model routes to the answer exactly when it returns `"yes"`:
      `"no"`, `"Yes"` or `""` all lead to a rewrite, and no score is an error. */
  lemma GradeRoutes(h: History, m: Models)
    requires h != []
    ensures var tool := m.retrieve(Last(h));
            var score := m.grade(Prompts.GradePrompt(h[0].content, tool));
            && Step(Retrieve, h, m).Ok?
            && (Step(Retrieve, h, m).value.node == GenerateAnswer <==> score == "yes")
            && (Step(Retrieve, h, m).value.node == RewriteQuestion <==> score != "yes")
  {
    var h' := h + [Message(Tool, m.retrieve(Last(h)), false)];
    assert h'[0] == h[0];
  }

  /** Grading reads only the first and the latest message: two histories that agree on
      those are graded the same. */
  lemma GradeReadsFirstAndLast(h1: History, h2: History, m: Models)
    requires h1 != [] && h2 != []
    requires h1[0] == h2[0] && Last(h1) == Last(h2)
    ensures GradeDocuments(h1, m) == GradeDocuments(h2, m)
  {
  }

  /** A rewrite depends on the first message only: whatever was appended since,
      including earlier rewrites, the same new question comes out. */
  lemma RewriteReadsFirstOnly(h1: History, h2: History, m: Models)
    requires h1 != [] && h2 != [] && h1[0] == h2[0]
    ensures RewriteQuestionNode(h1, m) == RewriteQuestionNode(h2, m)
  {
  }

  /** The answer reads only the first and the latest message. */
  lemma AnswerReadsFirstAndLast(h1: History, h2: History, m: Models)
    requires h1 != [] && h2 != []
    requires h1[0] == h2[0] && Last(h1) == Last(h2)
    ensures GenerateAnswerNode(h1, m) == GenerateAnswerNode(h2, m)
  {
  }

  // ---------------------------------------------------------------------------
  // Runs of the graph
  // ---------------------------------------------------------------------------

  /** The configuration after `n` steps from `c`. The graph itself has no step limit;
      `n` only indexes points of a possibly endless run. */
  function Steps(n: nat, c: Config, m: Models): Result<Config, AgentError>
    decreases n
  {
    if n == 0 then Ok(c)
    else
      match Step(c.node, c.history, m)
      case Err(e) => Err(e)
      case Ok(c') => Steps(n - 1, c', m)
  }

  /** The graph is entered at `START` with the caller's messages. */
  function Initial(question: string): Config {
    Config(Start, [Message(User, question, false)])
  }

  /** Configurations from which no step can hit an empty history. */
  predicate Safe(c: Config) {
    c.node in {Start, QueryOrRespond, End} || c.history != []
  }

  /** No node of a run ever reads an empty history, whatever the models reply. */
  lemma {:induction false} RunNeverFails(n: nat, c: Config, m: Models)
    requires Safe(c)
    ensures Steps(n, c, m).Ok? && Safe(Steps(n, c, m).value)
  {
    if n > 0 {
      var c' := Step(c.node, c.history, m).value;
      assert Safe(c');
      RunNeverFails(n - 1, c', m);
    }
  }

  /** The history is append-only: every run keeps the earlier history as a prefix, in
      particular the first message, and grows by at most one message per step. */
  lemma {:induction false} HistoryIsAppendOnly(n: nat, c: Config, m: Models)
    requires Steps(n, c, m).Ok?
    ensures var h := Steps(n, c, m).value.history;
            |c.history| <= |h| <= |c.history| + n && h[..|c.history|] == c.history
    ensures c.history != [] ==> Steps(n, c, m).value.history[0] == c.history[0]
  {
    if n > 0 {
      var c' := Step(c.node, c.history, m).value;
      HistoryIsAppendOnly(n - 1, c', m);
      var h := Steps(n, c, m).value.history;
      assert h[..|c'.history|][..|c.history|] == h[..|c.history|];
      if c.history != [] {
        assert h[0] == h[..|c.history|][0];
      }
    }
  }

  /** Models under which the loop never ends: the query model always asks for the tool
      and the grading model never says `"yes"`. */
  function Stubborn(): Models {
    Models(
      (h: History) => Reply("", true),
      (msg: Message) => "",
      (prompt: string) => "no",
      (prompt: string) => "")
  }

  /** Without a cycle limit the graph can run forever: under `Stubborn` models no number
      of steps from the initial configuration reaches `END`, and every three steps add
      three messages. */
  lemma {:induction false} LoopMayNeverEnd(n: nat, question: string)
    ensures Steps(n, Initial(question), Stubborn()).Ok?
    ensures Steps(n, Initial(question), Stubborn()).value.node != End
    ensures Steps(3 * n + 1, Initial(question), Stubborn()).Ok?
    ensures |Steps(3 * n + 1, Initial(question), Stubborn()).value.history| == 1 + 3 * n
  {
    CycleNeverEnds(n, Initial(question));
    CycleGrows(n, Step(Start, Initial(question).history, Stubborn()).value);
  }

  predicate InCycle(c: Config) {
    && c.node in {Start, QueryOrRespond, Retrieve, RewriteQuestion}
    && (c.node in {Retrieve, RewriteQuestion} ==> c.history != [])
  }

  lemma {:induction false} CycleNeverEnds(n: nat, c: Config)
    requires InCycle(c)
    ensures Steps(n, c, Stubborn()).Ok? && Steps(n, c, Stubborn()).value.node != End
  {
    if n > 0 {
      StubbornStep(c);
      CycleNeverEnds(n - 1, Step(c.node, c.history, Stubborn()).value);
    }
  }

  /** Under `Stubborn` models a step from the cycle stays in the cycle. */
  lemma StubbornStep(c: Config)
    requires InCycle(c)
    ensures Step(c.node, c.history, Stubborn()).Ok?
    ensures InCycle(Step(c.node, c.history, Stubborn()).value)
  {
    var m := Stubborn();
    match c.node
    case Start =>
    case QueryOrRespond =>
      assert m.query(c.history).toolCalls;
    case Retrieve =>
      var h' := c.history + [Message(Tool, m.retrieve(Last(c.history)), false)];
      assert m.grade(Prompts.GradePrompt(h'[0].content, Last(h').content)) == "no";
      assert GradeDocuments(h', m) == Ok(RewriteQuestion);
    case RewriteQuestion =>
  }

  /** From the query node, each cycle query → retrieve → rewrite adds three messages and
      returns to the query node. */
  lemma {:induction false} CycleGrows(n: nat, c: Config)
    requires c.node == QueryOrRespond
    ensures Steps(3 * n, c, Stubborn()).Ok?
    ensures Steps(3 * n, c, Stubborn()).value.node == QueryOrRespond
    ensures |Steps(3 * n, c, Stubborn()).value.history| == |c.history| + 3 * n
  {
    if n > 0 {
      var c' := StubbornRound(n, c);
      CycleGrows(n - 1, c');
    }
  }

  /** One round query → retrieve → rewrite under `Stubborn` models: the configuration it
      returns to, from which the remaining rounds run. */
  lemma StubbornRound(n: nat, c: Config) returns (c': Config)
    requires n > 0 && c.node == QueryOrRespond
    ensures c'.node == QueryOrRespond && |c'.history| == |c.history| + 3
    ensures Steps(3 * n, c, Stubborn()) == Steps(3 * (n - 1), c', Stubborn())
  {
    var m := Stubborn();
    var k := 3 * (n - 1);
    var c1 := Step(c.node, c.history, m).value;
    assert c1.node == Retrieve;
    var c2 := Step(c1.node, c1.history, m).value;
    assert c2.node == RewriteQuestion;
    c' := Step(c2.node, c2.history, m).value;
    assert Steps(k + 3, c, m) == Steps(k + 2, c1, m);
    assert Steps(k + 2, c1, m) == Steps(k + 1, c2, m);
  }

  /** A direct answer: when the query model replies without a tool call, the run ends
      after the query node with the reply as the last message. */
  lemma DirectAnswer(question: string, m: Models)
    requires !m.query([Message(User, question, false)]).toolCalls
    ensures Steps(2, Initial(question), m).Ok?
    ensures var c := Steps(2, Initial(question), m).value;
            && c.node == End
            && c.history == [Message(User, question, false), GenerateQuery([Message(User, question, false)], m)]
  {
  }

  /** The first retrieval is graded relevant: one retrieval, no rewrite, and the answer
      is generated from the original question and the retrieved text. */
  lemma RelevantOnFirstRetrieval(question: string, m: Models)
    requires var q := [Message(User, question, false)];
             && m.query(q).toolCalls
             && m.grade(Prompts.GradePrompt(question, m.retrieve(GenerateQuery(q, m)))) == "yes"
    ensures Steps(4, Initial(question), m).Ok?
    ensures var q := [Message(User, question, false)];
            var reply := GenerateQuery(q, m);
            var docs := m.retrieve(reply);
            Steps(4, Initial(question), m).value
              == Config(End, q + [reply, Message(Tool, docs, false),
                                  Message(Assistant, m.respond(Prompts.AnswerPrompt(question, docs)), false)])
  {
    var q := [Message(User, question, false)];
    var reply := GenerateQuery(q, m);
    var docs := m.retrieve(reply);
    var h1 := q + [reply];
    var h2 := h1 + [Message(Tool, docs, false)];
    assert Step(Start, q, m) == Ok(Config(QueryOrRespond, q));
    assert Step(QueryOrRespond, q, m) == Ok(Config(Retrieve, h1));
    assert h2[0].content == question && Last(h2).content == docs;
    assert Step(Retrieve, h1, m) == Ok(Config(GenerateAnswer, h2));
    var answer := Message(Assistant, m.respond(Prompts.AnswerPrompt(question, docs)), false);
    assert Step(GenerateAnswer, h2, m) == Ok(Config(End, h2 + [answer]));
    assert Steps(4, Initial(question), m) == Steps(3, Config(QueryOrRespond, q), m);
    assert Steps(3, Config(QueryOrRespond, q), m) == Steps(2, Config(Retrieve, h1), m);
    assert Steps(2, Config(Retrieve, h1), m) == Steps(1, Config(GenerateAnswer, h2), m);
    assert Steps(1, Config(GenerateAnswer, h2), m) == Ok(Config(End, h2 + [answer]));
    assert h2 + [answer] == q + [reply, Message(Tool, docs, false), answer];
  }
}
