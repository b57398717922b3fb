/** The reviewer agent of the multi-agent research flow (`multi_agents/agents/reviewer.py`):
    the review prompt it assembles, the rule that turns the model's answer into a
    review (none means accept), and `run`, which skips the model altogether when the
    task does not ask for guidelines to be followed. The model's answer is a
    parameter. */
module Reviewer {
  import opened Wrappers
  import Text
  import Editor

  /** The fields of `task` the reviewer reads: the guidelines (`[]` when absent) and the
      truthiness of `follow_guidelines` and `verbose`. */
  datatype ReviewTask = ReviewTask(guidelines: seq<string>, followGuidelines: bool, verbose: bool)

  /** The draft state the reviewer reads; `draft` is the text the f-string gives the
      draft. */
  datatype DraftState = DraftState(task: ReviewTask, draft: string, revisionNotes: Option<string>)

  /** Whether the agent has both a websocket and a `stream_output` callback. */
  datatype ReviewerAgent = ReviewerAgent(hasSocket: bool, hasStream: bool)

  /** A log line: streamed to the client as `stream_output(kind, name, message)`, or
      printed by `print_agent_output(message, agent)`. */
  datatype Log = Streamed(kind: string, name: string, message: string) | Printed(message: string, agent: string)

  /** `sep.join(pieces)`. */
  function JoinWith(pieces: seq<string>, sep: string): (r: string)
    ensures pieces == [] ==> r == ""
    ensures pieces != [] ==> Text.StartsWith(r, pieces[0])
    decreases |pieces|
  {
    if pieces == [] then ""
    else if |pieces| == 1 then pieces[0]
    else
      var r := pieces[0] + sep + JoinWith(pieces[1..], sep);
      assert r[..|pieces[0]|] == pieces[0];
      r
  }

  function TotalLength(pieces: seq<string>): nat
    decreases |pieces|
  {
    if pieces == [] then 0 else |pieces[0]| + TotalLength(pieces[1..])
  }

  /** The joined guidelines hold every guideline, and exactly one separator between
      each two neighbours and none elsewhere. */
  lemma {:induction false} JoinWithContents(pieces: seq<string>, sep: string)
    ensures forall i :: 0 <= i < |pieces| ==> Text.Contains(JoinWith(pieces, sep), pieces[i])
    ensures pieces != [] ==> |JoinWith(pieces, sep)| == TotalLength(pieces) + |sep| * (|pieces| - 1)
    decreases |pieces|
  {
    if |pieces| == 1 {
      Text.ContainsMiddle("", pieces[0], "");
      assert "" + pieces[0] + "" == pieces[0];
      assert pieces[1..] == [];
    } else if |pieces| > 1 {
      var rest := JoinWith(pieces[1..], sep);
      JoinWithContents(pieces[1..], sep);
      Text.ContainsMiddle("", pieces[0], sep + rest);
      assert "" + pieces[0] + (sep + rest) == JoinWith(pieces, sep);
      forall i | 1 <= i < |pieces|
        ensures Text.Contains(JoinWith(pieces, sep), pieces[i])
      {
        assert pieces[1..][i - 1] == pieces[i];
        Text.ContainsAfter(pieces[0] + sep, rest, pieces[i]);
      }
    }
  }

  /** The guidelines as the prompt shows them: joined with "- ", with no marker
      before the first one. */
  function Guidelines(task: ReviewTask): string
  {
    JoinWith(task.guidelines, "- ")
  }

  const Template := "You are an expert research article reviewer. "
    + "Your goal is to review research drafts and provide feedback to the reviser only based on specific guidelines. "

  const ReviewIntro := "You have been tasked with reviewing the draft which was written by a non-expert based on specific guidelines.\n"
    + "Please accept the draft if it is good enough to publish, or send it for revision, along with your notes to guide the revision.\n"
    + "If not all of the guideline criteria are met, you should send appropriate revision notes.\n"
    + "If the draft meets all the guidelines, please return None.\n"

  const ReviseLead := "The reviser has already revised the draft based on your previous review notes with the following feedback:\n"

  const ReviseClose := "\n\nPlease provide additional feedback ONLY if critical since the reviser has already made changes based on your previous feedback.\n"
    + "If you think the article is sufficient or that non critical revisions are required, please aim to return None.\n"

  /** `revise_prompt`, which quotes the reviser's notes. */
  function RevisePrompt(notes: string): (r: string)
    ensures Text.Contains(r, notes)
  {
    Text.ContainsMiddle(ReviseLead, notes, ReviseClose);
    ReviseLead + notes + ReviseClose
  }

  /** Python truthiness of `revision_notes`. */
  predicate HasNotes(notes: Option<string>)
  {
    notes.Some? && notes.value != ""
  }

  /** `{revise_prompt if revision_notes else ""}`. */
  function ReviseSection(notes: Option<string>): (r: string)
    ensures r == "" <==> !HasNotes(notes)
    ensures HasNotes(notes) ==> r == RevisePrompt(notes.value)
  {
    if HasNotes(notes) then
      var r := RevisePrompt(notes.value);
      assert r != "" by { Text.ContainsNonEmpty(r, notes.value); }
      r
    else ""
  }

  function ReviewPromptParts(state: DraftState): seq<string>
  {
    [ReviewIntro, ReviseSection(state.revisionNotes), "\n\nGuidelines: ", Guidelines(state.task),
     "\nDraft: ", state.draft, "\n\n"]
  }

  /** `review_prompt`. */
  function ReviewPrompt(state: DraftState): string
  {
    Text.Concat(ReviewPromptParts(state))
  }

  /** The prompt shows the guidelines and the draft, and the reviser's notes when
      there are any. */
  lemma ReviewPromptShows(state: DraftState)
    ensures var p := ReviewPrompt(state);
      && Text.Contains(p, Guidelines(state.task))
      && Text.Contains(p, state.draft)
      && (HasNotes(state.revisionNotes) ==> Text.Contains(p, RevisePrompt(state.revisionNotes.value)))
  {
    var parts := ReviewPromptParts(state);
    Text.ConcatContainsPart(parts, 1);
    Text.ConcatContainsPart(parts, 3);
    Text.ConcatContainsPart(parts, 5);
  }

  /** Everything after the revise section: guidelines and draft. */
  function ReviewTail(state: DraftState): string
  {
    Text.Concat(ReviewPromptParts(state)[2..])
  }

  /** The prompt is the introduction, then the revise text exactly when there are
      notes, then the same guidelines-and-draft tail either way. */
  lemma ReviseInsertedAfterIntro(state: DraftState)
    ensures ReviewPrompt(state) == ReviewIntro + (ReviseSection(state.revisionNotes) + ReviewTail(state))
    ensures ReviewTail(state) == ReviewTail(state.(revisionNotes := None))
  {
    Text.ConcatTwoHeads(ReviewPromptParts(state));
    TailIgnoresNotes(state);
  }

  lemma TailIgnoresNotes(state: DraftState)
    ensures ReviewTail(state) == ReviewTail(state.(revisionNotes := None))
  {
    assert ReviewPromptParts(state.(revisionNotes := None))[2..] == ReviewPromptParts(state)[2..];
  }

  /** The accept rule: any answer that mentions "None" anywhere is an acceptance
      (no review); any other answer is the review itself. */
  function ReviewDecision(response: string): (r: Option<string>)
    ensures r == None <==> Text.Contains(response, "None")
    ensures r.Some? ==> r.value == response
  {
    if Text.Contains(response, "None") then None else Some(response)
  }

  /** An answer that asks for changes but mentions "None" in passing still accepts
      the draft. */
  lemma MentionAccepts(before: string, after: string)
    ensures ReviewDecision(before + "None" + after) == None
    ensures Editor.Route(ReviewDecision(before + "None" + after)) == Editor.End
  {
    Text.ContainsMiddle(before, "None", after);
  }

  /** The editor's graph ends after this review exactly when the answer mentions
      "None"; otherwise the draft goes to the reviser with the answer as notes. */
  lemma DecisionRoutes(response: string)
    ensures Editor.Route(ReviewDecision(response)) == Editor.End <==> Text.Contains(response, "None")
    ensures !Text.Contains(response, "None") ==>
      Editor.Route(ReviewDecision(response)) == Editor.Reviser && ReviewDecision(response) == Some(response)
  {
  }

  /** `log_review_feedback`. */
  function FeedbackLog(agent: ReviewerAgent, response: string): (l: Log)
    ensures l.Streamed? <==> agent.hasSocket && agent.hasStream
    ensures Text.Contains(l.message, response)
  {
    var message := "Review feedback is: " + response + "...";
    Text.ContainsMiddle("Review feedback is: ", response, "...");
    if agent.hasSocket && agent.hasStream then Streamed("logs", "review_feedback", message)
    else Printed(message, "REVIEWER")
  }

  /** What `review_draft` does: the prompt it sends, the lines it logs, and the review
      it returns. */
  datatype ReviewOutcome = ReviewOutcome(prompt: seq<Editor.ChatMessage>, logs: seq<Log>, review: Option<string>)

  /** `review_draft`, given the model's answer to its prompt. */
  function ReviewDraft(agent: ReviewerAgent, state: DraftState, response: string): (r: ReviewOutcome)
    ensures |r.prompt| == 2 && r.prompt[0].role == "system" && r.prompt[1].role == "user"
    ensures r.prompt[1].content == ReviewPrompt(state)
    ensures r.review == ReviewDecision(response)
    ensures |r.logs| == (if state.task.verbose then 1 else 0)
    ensures state.task.verbose ==> r.logs[0] == FeedbackLog(agent, response)
  {
    ReviewOutcome(
      [Editor.ChatMessage("system", Template), Editor.ChatMessage("user", ReviewPrompt(state))],
      if state.task.verbose then [FeedbackLog(agent, response)] else [],
      ReviewDecision(response))
  }

  /** What `run` does: the prompt sent to the model (`None`: the model is not
      called), the lines it logs, and the "review" it returns. */
  datatype RunOutcome = RunOutcome(modelCall: Option<seq<Editor.ChatMessage>>, logs: seq<Log>, review: Option<string>)

  /** `run`; `shownGuidelines` is how the f-string renders the guidelines of `task`. */
  function Run(agent: ReviewerAgent, state: DraftState, response: string, shownGuidelines: string): (r: RunOutcome)
    ensures !state.task.followGuidelines ==>
      r.modelCall == None && r.review == None && r.logs == [Printed("Ignoring guidelines...", "REVIEWER")]
    ensures state.task.followGuidelines ==>
      r.modelCall == Some(ReviewDraft(agent, state, response).prompt) && r.review == ReviewDecision(response)
      && |r.logs| >= 1 && r.logs[0] == Printed("Reviewing draft...", "REVIEWER")
  {
    if state.task.followGuidelines then
      var reviewed := ReviewDraft(agent, state, response);
      var following := if state.task.verbose
        then [Printed("Following guidelines " + shownGuidelines + "...", "REVIEWER")] else [];
      RunOutcome(Some(reviewed.prompt),
                 [Printed("Reviewing draft...", "REVIEWER")] + following + reviewed.logs,
                 reviewed.review)
    else
      RunOutcome(None, [Printed("Ignoring guidelines...", "REVIEWER")], None)
  }

  /** The review feedback is logged once exactly when `verbose` is set and the
      guidelines are followed, streamed exactly when the agent can stream, and last. */
  lemma FeedbackLoggedWhenVerbose(agent: ReviewerAgent, state: DraftState, response: string, shown: string)
    ensures var r := Run(agent, state, response, shown);
      && (state.task.followGuidelines && state.task.verbose ==>
            |r.logs| == 3 && r.logs[2] == FeedbackLog(agent, response)
            && (r.logs[2].Streamed? <==> agent.hasSocket && agent.hasStream))
      && (!state.task.verbose ==> forall i :: 0 <= i < |r.logs| ==> r.logs[i].Printed?)
  {
  }

  /** A task that does not follow guidelines is accepted at its first review: the
      editor's graph goes from the reviewer straight to END. */
  lemma UnfollowedAccepts(agent: ReviewerAgent, state: DraftState, response: string, shown: string)
    requires !state.task.followGuidelines
    ensures Editor.Route(Run(agent, state, response, shown).review) == Editor.End
  {
  }
}
