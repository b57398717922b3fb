/** The editor agent of the multi-agent research flow (`multi_agents/agents/editor.py`):
    the planning instructions it sends to the model, the projection of the model's
    plan, the per-section research runs and the normalisation of their results, and
    the reviewer/reviser graph each section runs through. Model answers, the clock
    and the compiled graph are parameters. */
module Editor {
  import opened Wrappers
  import opened Json
  import Text
  import Py

  /** An `EditorAgent`; only its headers reach the model. */
  datatype Editor = Editor(headers: Json)

  /** `EditorAgent(headers=...)`: `headers or {}`. */
  function NewEditor(headers: Json): (e: Editor)
    ensures Py.Truthy(headers) ==> e.headers == headers
    ensures !Py.Truthy(headers) ==> e.headers == JObj([])
    ensures e.headers != JNull
  {
    Editor(if Py.Truthy(headers) then headers else JObj([]))
  }

  // ---------------------------------------------------------------------------
  // Planning

  /** A chat message handed to the model. */
  datatype ChatMessage = ChatMessage(role: string, content: string)

  const EditorRole := "You are a research editor. Your goal is to oversee the research project "
    + "from inception to completion. Your main task is to plan the article section "
    + "layout based on an initial research summary.\n"

  const OutlineTask := "Your task is to generate an outline of sections headers for the research project "
    + "based on the research summary report above.\n"

  const OutputFormat := "You must focus ONLY on related research topics for subheaders and do NOT include introduction, conclusion, and references.\n"
    + "You must return nothing but a JSON with the fields 'title' (str), 'date' (str), and "
    + "'sections' (list of section headers) with the following structure:\n"
    + "{\n"
    + "    \"title\": \"string research title\",\n"
    + "    \"date\": \"today's date\",\n"
    + "    \"sections\": [\"section header 1\", \"section header 2\", \"section header 3\", ...]\n"
    + "}"

  /** The human-feedback sentence of the planning instructions: present only when
      feedback is asked for, was given, and is not a plain "no". */
  function FeedbackInstruction(asked: Json, feedback: Option<string>): (r: string)
    ensures r != "" <==>
      Py.Truthy(asked) && feedback.Some? && feedback.value != "" && !Text.LowersToNo(feedback.value)
    ensures r != "" ==> Text.Contains(r, feedback.value)
  {
    if Py.Truthy(asked) && feedback.Some? && feedback.value != "" && !Text.LowersToNo(feedback.value) then
      var r := "Human feedback: " + feedback.value + ". You must plan the sections based on the human feedback.";
      Text.ContainsMiddle("Human feedback: ", feedback.value, ". You must plan the sections based on the human feedback.");
      r
    else ""
  }

  /** The sentence that bounds the number of sections. */
  function MaxSectionsLine(maxSections: int): string
  {
    Text.Concat(["You must generate a maximum of ", Text.IntToString(maxSections), " section headers.\n"])
  }

  /** The pieces `_format_planning_instructions` glues together, in order; `today`
      is the date `datetime.now()` gives, already formatted. */
  function InstructionParts(today: string, research: string, asked: Json,
                            feedback: Option<string>, maxSections: int): seq<string>
  {
    ["Today's date is ", today, "\n",
     "Research summary report: ", "'" + research + "'", "\n",
     FeedbackInstruction(asked, feedback), "\n",
     OutlineTask,
     "You must generate a maximum of ", Text.IntToString(maxSections), " section headers.\n",
     OutputFormat]
  }

  /** `_format_planning_instructions`. */
  function PlanningInstructions(today: string, research: string, asked: Json,
                                feedback: Option<string>, maxSections: int): string
  {
    Text.Concat(InstructionParts(today, research, asked, feedback, maxSections))
  }

  /** The instructions quote the research summary between single quotes and carry
      the feedback sentence (which may be empty). */
  lemma InstructionsQuoteSummary(today: string, research: string, asked: Json,
                                 feedback: Option<string>, maxSections: int)
    ensures var s := PlanningInstructions(today, research, asked, feedback, maxSections);
      Text.Contains(s, "'" + research + "'") && Text.Contains(s, FeedbackInstruction(asked, feedback))
  {
    var parts := InstructionParts(today, research, asked, feedback, maxSections);
    Text.ConcatContainsPart(parts, 4);
    Text.ConcatContainsPart(parts, 6);
  }

  /** The instructions state the section bound, in decimal. */
  lemma InstructionsStateBound(today: string, research: string, asked: Json,
                               feedback: Option<string>, maxSections: int)
    ensures var s := PlanningInstructions(today, research, asked, feedback, maxSections);
      Text.Contains(s, MaxSectionsLine(maxSections)) && Text.Contains(s, Text.IntToString(maxSections))
  {
    var parts := InstructionParts(today, research, asked, feedback, maxSections);
    Text.ConcatContainsPart(parts, 10);
    Text.ConcatContainsRun(parts, 9, 12);
    assert parts[9..12] == ["You must generate a maximum of ", Text.IntToString(maxSections), " section headers.\n"];
  }

  /** `_create_planning_prompt`: the editor's role, then the instructions. */
  function PlanningPrompt(today: string, research: string, asked: Json,
                          feedback: Option<string>, maxSections: int): (r: seq<ChatMessage>)
    ensures |r| == 2 && r[0].role == "system" && r[1].role == "user"
    ensures r[1].content == PlanningInstructions(today, research, asked, feedback, maxSections)
  {
    [ChatMessage("system", EditorRole),
     ChatMessage("user", PlanningInstructions(today, research, asked, feedback, maxSections))]
  }

  const PlanKeys: seq<string> := ["title", "date", "sections"]

  /** `plan_research`'s answer: exactly title, date and sections, each copied from
      the model's plan (`None` where the plan lacks it). */
  function PlanResearch(plan: seq<Member>): (r: Json)
    ensures r.JObj? && |r.members| == |PlanKeys|
    ensures forall i :: 0 <= i < |PlanKeys| ==> r.members[i].key == PlanKeys[i]
  {
    JObj([Member("title", Py.Get(plan, "title", JNull)),
          Member("date", Py.Get(plan, "date", JNull)),
          Member("sections", Py.Get(plan, "sections", JNull))])
  }

  /** Each planned field reads back as the plan's own value. */
  lemma PlanCopies(plan: seq<Member>, i: nat)
    requires i < |PlanKeys|
    ensures Py.Get(PlanResearch(plan).members, PlanKeys[i], JNull) == Py.Get(plan, PlanKeys[i], JNull)
  {
    var ms := PlanResearch(plan).members;
    assert ms[0].key[0] == 't' && ms[1].key[0] == 'd' && ms[2].key[0] == 's';
    LookupUnique(ms, i);
  }

  /** Projecting a projected plan changes nothing. */
  lemma PlanIdempotent(plan: seq<Member>)
    ensures PlanResearch(PlanResearch(plan).members) == PlanResearch(plan)
  {
    PlanCopies(plan, 0);
    PlanCopies(plan, 1);
    PlanCopies(plan, 2);
  }

  // ---------------------------------------------------------------------------
  // Parallel research

  /** `_create_task_input`: what one section's run of the graph starts from. */
  function TaskInput(task: Json, query: Json, title: Json, headers: Json): (r: Json)
    ensures r.JObj? && |r.members| == 4
    ensures r.members[1] == Member("topic", query)
  {
    JObj([Member("task", task), Member("topic", query), Member("title", title), Member("headers", headers)])
  }

  /** The fields of a task input read back as given. */
  lemma TaskInputFields(task: Json, query: Json, title: Json, headers: Json)
    ensures var ms := TaskInput(task, query, title, headers).members;
      && Lookup(ms, "task") == Some(task) && Lookup(ms, "topic") == Some(query)
      && Lookup(ms, "title") == Some(title) && Lookup(ms, "headers") == Some(headers)
  {
    var ms := TaskInput(task, query, title, headers).members;
    assert ms[0].key[1] == 'a' && ms[1].key[1] == 'o' && ms[2].key[1] == 'i' && ms[3].key[0] == 'h';
    assert ms[0].key[0] == 't' && ms[1].key[0] == 't' && ms[2].key[0] == 't';
    LookupUnique(ms, 0);
    LookupUnique(ms, 1);
    LookupUnique(ms, 2);
    LookupUnique(ms, 3);
  }

  /** The placeholder for a run whose result is not a dict holding a draft. */
  const InvalidResult := JObj([Member("error", JStr("Invalid result format"))])

  /** One research result as `run_parallel_research` keeps it. */
  function Normalised(result: Json): (r: Json)
    ensures result.JObj? && Lookup(result.members, "draft").Some? ==>
      r == Lookup(result.members, "draft").value
    ensures !(result.JObj? && Lookup(result.members, "draft").Some?) ==> r == InvalidResult
  {
    if result.JObj? && Lookup(result.members, "draft").Some? then Lookup(result.members, "draft").value
    else InvalidResult
  }

  /** `run_parallel_research`: one run of the compiled graph (`chain`) per section
      query, in order, then every result normalised in the same order. `None` stands
      for a "sections" value that is not a list. */
  method RunParallelResearch(editor: Editor, state: seq<Member>, chain: Json -> Json)
    returns (researchData: Option<seq<Json>>)
    ensures Py.Get(state, "sections", JNull).JArr? <==> researchData.Some?
    ensures researchData.Some? ==>
      var queries := Py.Get(state, "sections", JNull).items;
      && |researchData.value| == |queries|
      && forall i :: 0 <= i < |queries| ==>
           researchData.value[i] == Normalised(chain(TaskInput(
             Py.Get(state, "task", JNull), queries[i], Py.Get(state, "title", JNull), editor.headers)))
  {
    var sections := Py.Get(state, "sections", JNull);
    if !sections.JArr? {
      return None;
    }
    var queries := sections.items;
    var task := Py.Get(state, "task", JNull);
    var title := Py.Get(state, "title", JNull);
    var results := seq(|queries|, i requires 0 <= i < |queries| =>
      chain(TaskInput(task, queries[i], title, editor.headers)));
    var data := NormaliseResults(results);
    return Some(data);
  }

  /** The loop of `run_parallel_research` that keeps each result's draft, or the
      error placeholder, in order. */
  method NormaliseResults(results: seq<Json>) returns (data: seq<Json>)
    ensures |data| == |results|
    ensures forall i :: 0 <= i < |results| ==> data[i] == Normalised(results[i])
  {
    data := [];
    for k := 0 to |results|
      invariant |data| == k
      invariant forall i :: 0 <= i < k ==> data[i] == Normalised(results[i])
    {
      var result := results[k];
      if result.JObj? && Lookup(result.members, "draft").Some? {
        data := data + [Lookup(result.members, "draft").value];
      } else {
        data := data + [InvalidResult];
      }
    }
  }

  /** A run that answers with a draft contributes that draft; any other answer
      contributes the error placeholder, never a dropped entry. */
  lemma NormalisedCases(result: Json)
    ensures Normalised(result) == InvalidResult
      || (result.JObj? && Lookup(result.members, "draft") == Some(Normalised(result)))
  {
  }

  // ---------------------------------------------------------------------------
  // The per-section graph

  datatype Node = Researcher | Reviewer | Reviser | End

  const Entry := Researcher

  /** The conditional edge out of the reviewer: accept (END) exactly when the review
      is `None`, else revise. */
  function Route(review: Option<string>): (n: Node)
    ensures n == End <==> review == None
    ensures n != End ==> n == Reviser
  {
    if review == None then End else Reviser
  }

  /** The fixed edges of the graph. */
  predicate Edge(a: Node, b: Node)
  {
    || (a == Researcher && b == Reviewer)
    || (a == Reviser && b == Reviewer)
    || (a == Reviewer && (b == End || b == Reviser))
  }

  /** The nodes visited from the reviewer on, given the reviews its visits produce. */
  function ReviewLoop(reviews: seq<Option<string>>): seq<Node>
    decreases |reviews|
  {
    if reviews == [] then []
    else if Route(reviews[0]) == End then [Reviewer, End]
    else [Reviewer, Reviser] + ReviewLoop(reviews[1..])
  }

  /** A section's walk through the graph: the researcher, then reviews until one
      accepts. */
  function Trace(reviews: seq<Option<string>>): seq<Node>
  {
    [Entry] + ReviewLoop(reviews)
  }

  lemma {:induction false} ReviewLoopShape(reviews: seq<Option<string>>)
    ensures var t := ReviewLoop(reviews);
      && (t != [] ==> t[0] == Reviewer)
      && (forall i :: 0 <= i < |t| - 1 ==> Edge(t[i], t[i + 1]))
      && (End in t <==> None in reviews)
      && (End in t ==> t[|t| - 1] == End && End !in t[..|t| - 1])
    decreases |reviews|
  {
    if reviews != [] && reviews[0] != None {
      var rest := reviews[1..];
      ReviewLoopShape(rest);
      var t := ReviewLoop(reviews);
      var u := ReviewLoop(rest);
      assert t == [Reviewer, Reviser] + u;
      assert forall i :: 2 <= i < |t| ==> t[i] == u[i - 2];
      assert None in reviews <==> None in rest by {
        assert reviews == [reviews[0]] + rest;
      }
      if End in t {
        assert t[..|t| - 1] == [Reviewer, Reviser] + u[..|u| - 1];
      }
    }
  }

  /** Every step of a walk follows an edge of the graph, and the walk reaches END
      exactly when some review is `None`, as its last node and only there. */
  lemma TraceFollowsGraph(reviews: seq<Option<string>>)
    ensures var t := Trace(reviews);
      && t[0] == Researcher
      && (forall i :: 0 <= i < |t| - 1 ==> Edge(t[i], t[i + 1]))
      && (End in t <==> None in reviews)
      && (End in t ==> t[|t| - 1] == End && End !in t[..|t| - 1])
  {
    ReviewLoopShape(reviews);
    var t := Trace(reviews);
    var u := ReviewLoop(reviews);
    assert forall i :: 1 <= i < |t| ==> t[i] == u[i - 1];
    if End in t {
      assert t[..|t| - 1] == [Entry] + u[..|u| - 1];
    }
  }

  /** The reviser runs once per rejected review before the accepting one. */
  lemma {:induction false} RevisionsBeforeAcceptance(reviews: seq<Option<string>>, k: nat)
    requires k < |reviews| && reviews[k] == None
    requires forall i :: 0 <= i < k ==> reviews[i] != None
    ensures |ReviewLoop(reviews)| == 2 * k + 2
    ensures multiset(ReviewLoop(reviews))[Reviser] == k
    decreases k
  {
    if k > 0 {
      RevisionsBeforeAcceptance(reviews[1..], k - 1);
      assert ReviewLoop(reviews) == [Reviewer, Reviser] + ReviewLoop(reviews[1..]);
    }
  }
}
