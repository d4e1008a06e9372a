# Agentic retrieval loop of the NASA BioScience assistant

A Dafny model of the logic core of the `refactor-spaceapps-challenge` repository:

- **the agent's control loop** (`src/agent/main.py`): a LangGraph state graph over the
  nodes `generate_query_or_respond`, `retrieve`, `rewrite_question` and
  `generate_answer`. The nodes thread an append-only list of chat messages. The model
  covers what each node reads, the one message it appends and the edge it takes.
- **the prompt templates** (`src/agent/prompts.py` and the templates `src/agent/main.py` defines itself):
  Python `str.format` over keyword arguments. It covers parsing into literal text and
  replacement fields, and rendering, including the `KeyError` for a field nobody supplies.
- **the output file name of the ingestion script** (`src/extract_data.py`, lines 18-20).
  The steps are: the first line of the document's markdown; a `#` heading mark and the
  surrounding whitespace removed; every character outside `[\w\s-]` deleted; spaces
  turned into underscores; `.md` appended.

Modules, one per file:

| file | module | contents |
|---|---|---|
| `results.dfy` | `Results` | the `Result` type used for every failure the source can raise |
| `format.dfy` | `Format` | `str.format`: `Parse`, `Unparse`, `Render` and their laws |
| `prompts.dfy` | `Prompts` | the grade, rewrite and two answer templates and their properties |
| `workflow.dfy` | `Workflow` | the node names and edge table of `build_workflow` |
| `agent.dfy` | `Agent` | messages, node functions, `Step`, runs of the graph |
| `filename.dfy` | `FileName` | the file-name derivation of `extract_data` |

Every language-model and retriever call is an oracle. An `Agent.Models` value supplies
total functions for the replies. The error a node raises on an empty message list (an
`IndexError` where it reads `messages[0]` or `messages[-1]`, the tool node's error for a
missing message) is `Err(EmptyHistory)`. An empty document has no first line; here it
is `Err(NoFirstLine)`.

## Model

| member | source | states |
|---|---|---|
| Format.ParseUnparse | src/agent/prompts.py:1-7 | the source text of a template (literal braces doubled, fields written `{name}` or `{name:spec}`) parses back into exactly that template, whenever every field name is a plain keyword (no brace, colon, `!`, `[`, `]` or `.`) and no spec holds a brace |
| Format.ParseWellFormed | src/agent/prompts.py:20-22 | every field the scanner produces has a plain name (no brace, colon, `!`, `[`, `]` or `.`) and a spec without brace; the name ends at the first colon, as for `{title: string, score: float}` |
| Format.ParseSingleClose | src/agent/main.py:73 | a `}` that is not doubled makes `format` fail with the single-`}` error, whatever brace-free text precedes it |
| Format.ParseSingleOpen | src/agent/main.py:83 | a `{` as the last character makes `format` fail with the single-`{` error |
| Format.ParseUnclosed | src/agent/main.py:91 | a field that no `}` closes makes `format` fail with a `ValueError` (the runtime's message depends on what follows the `{`) |
| Format.ParseNested | src/agent/prompts.py:20-22 | a `{` inside a field, before its closing `}`, is reported as a nested field, which this model does not expand |
| Format.Render | src/agent/main.py:73 | `format` succeeds exactly when every replacement field is a named, non-positional keyword that was supplied and has no format spec |
| Format.RenderConcat | src/agent/main.py:91 | formatting a concatenation gives the concatenated results; when a part fails, the error of the leftmost failing part is reported |
| Format.RenderFailsAtFirstBadField | src/agent/prompts.py:20-22 | the error raised is the one for the leftmost field that cannot be filled |
| Format.RenderEndsWithLastField | src/agent/prompts.py:34-35 | a template ending in a plain field formats to text that ends with that field's value |
| Prompts.GradeFields | src/agent/prompts.py:1-7 | the grade template's only replacement fields are `context` and `question`, and its source text parses back into it |
| Prompts.GradeRenderableIff | src/agent/main.py:15-21 | formatting the grade template succeeds if and only if both `context` and `question` are supplied |
| Prompts.GradePrompt | src/agent/main.py:73 | the grade prompt is the template text with the context and then the question embedded verbatim |
| Prompts.GradeContextBeforeQuestion | src/agent/prompts.py:3-4 | in the formatted grade prompt the context text appears, verbatim, before the question text |
| Prompts.RewriteFields | src/agent/prompts.py:9-13 | the rewrite template's only field is `question`, and its source text parses back into it |
| Prompts.RewritePrompt | src/agent/main.py:83 | the rewrite prompt holds the question alone between two `-------` delimiter lines |
| Prompts.AnswerFields | src/agent/main.py:29-36 | the answer template of main.py has exactly the fields `question` and `context`, and parses back |
| Prompts.AnswerPrompt | src/agent/main.py:91 | the answer prompt ends with `Question: <question>`, a newline and `Context: <context>`, so it ends with the context |
| Prompts.AnswerEndsWithContext | src/agent/main.py:34-35 | any successful formatting of the answer template supplies `context` and ends with its value |
| Prompts.NasaFields | src/agent/prompts.py:15-36 | `str.format` sees five fields in the prompts.py answer template: `year`, `research area`, `title`, `question`, `context` |
| Prompts.NasaParses | src/agent/prompts.py:15-36 | the prompts.py answer template, with its three JSON brace groups as fields, parses back from its source text |
| Prompts.NasaMissingYear | src/agent/prompts.py:20-22 | formatting it with only `question` and `context` fails with a missing-key error for `year` |
| Prompts.NasaNeverRenders | src/agent/prompts.py:20-22 | formatting it fails for every argument map: without `year` on the missing key, with it on the spec ` number of experiments`, which is not a valid string format spec either |
| Prompts.NasaEndsWithContext | src/agent/prompts.py:34-35 | the template's last field is `context`, and any successful formatting would end with the context |
| Prompts.NasaEscapedFields | src/agent/prompts.py:15-36 | with the JSON braces escaped, the only fields left are `question` and `context` |
| Prompts.NasaEscapedRenders | src/agent/prompts.py:15-36 | with the JSON braces escaped, formatting succeeds and gives the sketch with literal braces, then the question and the context |
| Workflow.AsWrittenDoesNotCompile | src/agent/main.py:103-122 | as written, the edges name `generate_query_or_respond`, which no node defines, and no edge uses the registered name `generate_query` |
| Workflow.CorrectedCompiles | src/agent/main.py:109-120 | once the query node is registered under its edge name, every edge resolves |
| Workflow.TransitionTable | src/agent/main.py:109-120 | successors: start goes to the query node; the query node to `retrieve` or the end; `retrieve` to answer or rewrite; rewrite to the query node; answer to the end |
| Agent.GenerateQuery | src/agent/main.py:64-67 | the query node's update is the model's reply to the whole history, tool-call flag included |
| Agent.ToolsCondition | src/agent/main.py:110-117 | the route is `retrieve` exactly when the latest message requests a tool call, else the end; it errs only on an empty history |
| Agent.RetrieveDocs | src/agent/main.py:104 | the tool node appends one tool message holding the retriever's result for the latest message |
| Agent.GradeDocuments | src/agent/main.py:69-78 | the route is `generate_answer` exactly when the grading model returns `"yes"` for the grade prompt of the first and latest messages, else `rewrite_question`; it errs only on an empty history |
| Agent.RewriteQuestionNode | src/agent/main.py:80-85 | a rewrite emits one user message whose text is the reply to the rewrite prompt of the first message |
| Agent.GenerateAnswerNode | src/agent/main.py:87-93 | an answer emits one assistant message, the reply to the answer prompt of the first message (question) and the latest (context) |
| Agent.Step | src/agent/main.py:64-93 | each node keeps the prior history as a prefix and appends exactly one message; a step fails only on an empty history |
| Agent.StepFollowsEdges | src/agent/main.py:109-120 | every step moves along an edge of the workflow's transition table |
| Agent.QueryRoutes | src/agent/main.py:110-117 | after the query node the run goes to `retrieve` if and only if the reply requests a tool call, and to the end otherwise |
| Agent.GradeRoutes | src/agent/main.py:78 | after retrieval the run goes to the answer if and only if the score is exactly `"yes"`; every other score gives a rewrite, never an error |
| Agent.GradeReadsFirstAndLast | src/agent/main.py:71-72 | grading depends only on the first and the latest message |
| Agent.RewriteReadsFirstOnly | src/agent/main.py:82-85 | a rewrite depends only on the first message, never on an earlier rewrite |
| Agent.AnswerReadsFirstAndLast | src/agent/main.py:89-93 | the answer depends only on the first and the latest message |
| Agent.RunNeverFails | src/agent/main.py:64-93 | from a configuration that cannot read an empty history, no node of any run ever reads `messages[0]` or `messages[-1]` of an empty history, for every reply of the (non-raising) models |
| Agent.HistoryIsAppendOnly | src/agent/main.py:67-93 | a run keeps the earlier history, including the first message, as a prefix and adds at most one message per step |
| Agent.LoopMayNeverEnd | src/agent/main.py:110-120 | without a cycle limit, a query model that always calls the tool and a grading model that never says `"yes"` keep the run from the end forever, adding three messages per round |
| Agent.DirectAnswer | src/agent/main.py:110-117 | a reply without a tool call ends the run after two steps, with the reply as the last message |
| Agent.RelevantOnFirstRetrieval | src/agent/main.py:69-93 | a first retrieval graded `"yes"` leads to one answer built from the original question and the retrieved text, then the end |
| FileName.FirstLine | src/extract_data.py:18 | the first line is the longest prefix without a `splitlines` boundary; an empty document has none |
| FileName.OnlyFirstLineMatters | src/extract_data.py:18 | text after the first line break has no effect on the file name |
| FileName.Strip | src/extract_data.py:19 | `strip()` returns a slice whose removed ends are all whitespace and which neither starts nor ends with whitespace |
| FileName.DropHeadingMark | src/extract_data.py:19 | a leading `#` and all the whitespace after it are removed; a line without `#` is unchanged |
| FileName.HeadingMarkIgnored | src/extract_data.py:19 | the heading mark, the padding after it and trailing whitespace never reach the title |
| FileName.Filter | src/extract_data.py:20 | the result keeps a character if and only if it occurs in the input and is a word character, whitespace or `-` |
| FileName.FilterConcat | src/extract_data.py:20 | the substitution deletes characters in place: filtering a concatenation is the concatenation of the filtered parts, so kept characters keep their order and multiplicity |
| FileName.FilterChar | src/extract_data.py:20 | a single character is kept exactly when it is a word character, whitespace or `-`, and deleted otherwise |
| FileName.FilterIdentity | src/extract_data.py:20 | the filter leaves a string unchanged if and only if it keeps all of its characters |
| FileName.Underscore | src/extract_data.py:20 | every space becomes `_`, and every other character and the length are unchanged |
| FileName.Stem | src/extract_data.py:20 | the stem has no space, only kept characters, and is no longer than the title |
| FileName.StemIdempotent | src/extract_data.py:20 | deriving a stem from a stem changes nothing |
| FileName.DocumentFileName | src/extract_data.py:18-20 | the name ends with `.md` and has no space; it fails if and only if the document is empty |

## Left out

- The language models, `bind_tools`, `with_structured_output`, `ToolNode` and the retriever: foreign library calls. Their results are the oracle functions of `Agent.Models`.
- A query reply with several tool calls, or tool calls with arguments: the model keeps one flag per message, and the retriever sees the whole latest message.
- `ToolNode` given a latest message without tool calls: the routing never sends one there.
- Agent.GenerateQuery: modelled with the state as its only input. The `response_model` second parameter of `generate_query` in `src/agent/main.py:64` has no value when the graph calls the node; that call would fail in Python.
- Format.Render: format specs (`{x:>10}`), conversions (`{x!r}`), attribute and index field names (`{a.b}`, `{a[0]}`) and nested replacement fields are not rendered. A non-empty spec yields `SpecNotModelled`, a conversion, index or attribute in a name yields `FieldNameNotModelled` when parsing, and a `{` inside a field yields `NestedField`. For the prompts.py answer template Python also fails, on the missing key `year`, which is the error `Prompts.NasaMissingYear` states.
- Format.Parse: it has no contract of its own; `Format.ParseUnparse`, `Format.ParseWellFormed` and the four error lemmas (`Format.ParseSingleClose`, `Format.ParseSingleOpen`, `Format.ParseUnclosed`, `Format.ParseNested`) state what it does. It simplifies the runtime's scanner, which agrees with it on plain field names such as all those of the agent's templates. Where they differ: (a) the runtime ends a field name at the first `:` or `!` and reads `!r` as a conversion, while the model rejects a name holding `!` as `FieldNameNotModelled`; (b) a `[` in a field name makes the runtime skip to the next `]`, so `{a[}]}` is one field, while the model ends the field at the first `}` and rejects the name `a[`; attribute names with `.` are rejected the same way; (c) the runtime words the error for an unclosed field by what follows the `{` (`{a:b` and `{a{b` give different messages), which the model folds into `UnclosedField`; (d) `Format.IsPositional` accepts only ASCII digits, where the runtime takes any Unicode decimal digit. Parsing also happens before rendering, while Python scans and fills in one pass, so a syntax error after a missing key would be reported as the `KeyError` first. No template of the agent has a syntax error.
- `api/main.py` imports `build_agent`, which `src/agent/main.py` does not define. The HTTP plumbing is not part of this model.
- `app/ui.py` (Streamlit UI, HTTP requests, the floating-point relevance average), `src/chunks_embeddings.py`, `src/agent/tool.py` and `src/agent/generate_query.py`: wrappers over external libraries.
- The I/O of `extract_data`: the CSV read, `DocumentConverter`, directory creation and file writes.
- Cycle limits, retries, timeouts and answer-schema validation: the code has none. The model follows the code, where the graph itself puts no bound on the loop (`Agent.LoopMayNeverEnd`).
- Agent.LoopMayNeverEnd: LangGraph's default recursion limit is not modelled. `api/main.py:49` calls `graph.invoke(state)` without a config, so the library stops a run after its default number of supersteps (25) with `GraphRecursionError`, and `api/main.py:54-55` turns that into an HTTP 500. Under `Stubborn` models the running program therefore ends in that error rather than looping forever; the lemma is about the graph as `build_workflow` defines it.
- Agent.GradeReadsFirstAndLast, Agent.RewriteReadsFirstOnly, Agent.AnswerReadsFirstAndLast: the `Models` oracles are deterministic in the prompt they are shown, so every rewrite within one run returns the same text. Only the grading model is pinned to `temperature=0` (`src/agent/main.py:58`); a sampling `response_model` need not answer the same prompt the same way. These lemmas therefore state what each node sends to its model, and the equal results follow from that determinism.
- Agent.RunNeverFails: foreign calls are modelled as never raising. The `Models` oracles are total functions, but in Python any model `invoke`, the structured-output validation of `with_structured_output` (`src/agent/main.py:75`) or `ToolNode` can raise. The lemma promises only that no node reads an empty history.
- The query model is bound to the tool factory: `bind_tools([retriever_tool])` at `src/agent/main.py:66` passes the function defined at line 42, so its tool calls would be named `retriever_tool`. The `ToolNode` at line 104 knows only `retrieve_blog_posts` and would reply with an error tool message. The `retrieve` oracle may return any text, that error message included, so the model covers this run but does not single it out.
- FileName.IsWord: Python's `\w` depends on the Unicode database. Its alphanumeric part is the parameter `alnum`; the whitespace and line-boundary sets are written out. Strings are sequences of code points, and lone surrogates are not treated specially.
- Agent.Step: `End` is absorbing. The graph stops there, and `Agent.Steps` only indexes points of a run; its step count is not a limit the source has.

## Findings

| source | as written | input that shows it | evidently intended | confidence | as-written member | corrected member |
|---|---|---|---|---|---|---|
| src/agent/main.py:103 | `add_node(generate_query)` registers the node as `generate_query`, while every edge (lines 109-120) names `generate_query_or_respond` | `build_workflow(retriever)`: compiling the graph meets an edge to an unknown node | register the query node as `generate_query_or_respond` | high, not executed | Workflow.AsWrittenDoesNotCompile | Workflow.CorrectedCompiles |
| src/agent/prompts.py:20-22 | the JSON sketch's `{year: ...}`, `{research area: count}` and `{title: string, score: float}` are unescaped, so `str.format` reads them as replacement fields | `GENERATE_PROMPT.format(question="q", context="c")` raises `KeyError: 'year'` | double the sketch's braces (`{{ ... }}`) so only `question` and `context` are fields | high, not executed | Prompts.NasaMissingYear | Prompts.NasaEscapedRenders |
