/** The tool-use loop (ai/agent.py), for any behaviour of the language model, the parser and the tools. */
module AgentLoop {
  datatype Call = Call(name: string, args: map<string, string>)

  datatype Step = User(content: string) | Assistant(content: string) | Tool(content: string, call: Call)

  datatype Message = Message(role: string, content: string)

  datatype ToolResult = Unknown | Returned(text: string) | Raised(kind: string, message: string)

  /** The n-th answer to a transcript, the calls found in a text, and the result of the n-th tool call. */
  datatype World = World(generate: (nat, seq<Message>) -> string, parse: string -> seq<Call>,
                         tool: (nat, Call) -> ToolResult)

  datatype AgentRun = AgentRun(steps: seq<Step>, finalText: string, toolCalls: nat)

  function Describe(r: ToolResult, name: string): string {
    match r
    case Unknown => "error: unknown_tool:" + name
    case Returned(text) => text
    case Raised(kind, message) => "error: tool_exception:" + kind + ":" + message
  }

  function Output(w: World, n: nat, c: Call): string { Describe(w.tool(n, c), c.name) }

  function Result(output: string): Message { Message("user", "<tool_result>" + output + "</tool_result>") }

  /** The steps and messages for some calls, the first of which is the n-th of the run. */
  function ToolSteps(w: World, n: nat, calls: seq<Call>): (r: seq<Step>)
    ensures |r| == |calls| && forall j :: 0 <= j < |calls| ==> r[j] == Tool(Output(w, n + j, calls[j]), calls[j])
  {
    seq(|calls|, j requires 0 <= j < |calls| => Tool(Output(w, n + j, calls[j]), calls[j]))
  }

  function Results(w: World, n: nat, calls: seq<Call>): (r: seq<Message>)
    ensures |r| == |calls| && forall j :: 0 <= j < |calls| ==> r[j] == Result(Output(w, n + j, calls[j]))
  {
    seq(|calls|, j requires 0 <= j < |calls| => Result(Output(w, n + j, calls[j])))
  }

  /** The steps that follow a transcript, `n` tool calls having been made and `left` rounds being left. */
  function Rounds(w: World, transcript: seq<Message>, round: nat, n: nat, left: nat): seq<Step>
    decreases left
  {
    if left == 0 then []
    else
      var text := w.generate(round, transcript);
      var calls := w.parse(text);
      if calls == [] then [Assistant(text)]
      else
        [Assistant(text)] + ToolSteps(w, n, calls)
        + Rounds(w, transcript + Results(w, n, calls), round + 1, n + |calls|, left - 1)
  }

  function Assistants(steps: seq<Step>): nat {
    if steps == [] then 0 else (if steps[0].Assistant? then 1 else 0) + Assistants(steps[1..])
  }

  function Tools(steps: seq<Step>): nat {
    if steps == [] then 0 else (if steps[0].Tool? then 1 else 0) + Tools(steps[1..])
  }

  /** The content of the last assistant step, or nothing. */
  function LastText(steps: seq<Step>): string {
    if steps == [] then ""
    else if steps[|steps| - 1].Assistant? then steps[|steps| - 1].content
    else LastText(steps[..|steps| - 1])
  }

  function Budget(maxSteps: int): nat { if maxSteps > 0 then maxSteps else 0 }

  function Opening(prompt: string): seq<Message> { [Message("user", prompt)] }

  /* ---------- facts about steps ---------- */

  lemma {:induction false} CountsOfConcat(s: seq<Step>, t: seq<Step>)
    ensures Assistants(s + t) == Assistants(s) + Assistants(t) && Tools(s + t) == Tools(s) + Tools(t)
  {
    if s == [] {
      assert s + t == t;
    } else {
      assert (s + t)[1..] == s[1..] + t;
      CountsOfConcat(s[1..], t);
    }
  }

  lemma {:induction false} CountsOfTools(s: seq<Step>)
    requires forall i :: 0 <= i < |s| ==> s[i].Tool?
    ensures Assistants(s) == 0 && Tools(s) == |s|
  {
    if s != [] {
      CountsOfTools(s[1..]);
    }
  }

  lemma {:induction false} LastTextOfTools(s: seq<Step>, text: string, t: seq<Step>)
    requires forall i :: 0 <= i < |t| ==> t[i].Tool?
    ensures LastText(s + [Assistant(text)] + t) == text
  {
    var all := s + [Assistant(text)] + t;
    if t == [] {
      assert all == s + [Assistant(text)];
    } else {
      assert all[..|all| - 1] == s + [Assistant(text)] + t[..|t| - 1];
      LastTextOfTools(s, text, t[..|t| - 1]);
    }
  }

  /** One tool step for each call, in order. */
  ghost predicate Perform(tools: seq<Step>, calls: seq<Call>) {
    |tools| == |calls| && forall j :: 0 <= j < |calls| ==> tools[j].Tool? && tools[j].call == calls[j]
  }

  /** An assistant step is answered by the tool steps for the calls parsed from it, and then comes another assistant
      step or the end; a text without calls ends the run. */
  ghost predicate Answered(w: World, steps: seq<Step>, i: nat)
    requires i < |steps|
  {
    steps[i].Assistant? ==>
      var calls := w.parse(steps[i].content);
      var next := i + 1 + |calls|;
      && next <= |steps| && Perform(steps[i + 1..next], calls)
      && (next < |steps| ==> steps[next].Assistant?)
      && (calls == [] ==> next == |steps|)
  }

  lemma AnsweredLater(w: World, before: seq<Step>, steps: seq<Step>, i: nat)
    requires i < |steps| && Answered(w, steps, i)
    ensures Answered(w, before + steps, |before| + i)
  {
    hide Perform;
    var all, k := before + steps, |before| + i;
    assert all[k] == steps[i];
    if steps[i].Assistant? {
      var next := i + 1 + |w.parse(steps[i].content)|;
      assert all[k + 1..|before| + next] == steps[i + 1..next];
      assert next < |steps| ==> all[|before| + next] == steps[next];
    }
  }

  lemma FirstIsAnswered(w: World, text: string, tools: seq<Step>, rest: seq<Step>)
    requires Perform(tools, w.parse(text)) && tools != [] && (rest != [] ==> rest[0].Assistant?)
    ensures Answered(w, [Assistant(text)] + tools + rest, 0)
  {
    hide Perform;
    var all := [Assistant(text)] + tools + rest;
    assert all[0] == Assistant(text);
    assert all[1..1 + |tools|] == tools;
    assert w.parse(text) != [] && |w.parse(text)| == |tools| by { LengthOfPerformed(tools, w.parse(text)); }
    assert rest != [] ==> all[1 + |tools|] == rest[0];
  }

  lemma LengthOfPerformed(tools: seq<Step>, calls: seq<Call>)
    requires Perform(tools, calls)
    ensures |tools| == |calls|
  {
  }

  ghost predicate AllAnswered(w: World, steps: seq<Step>) {
    forall i :: 0 <= i < |steps| ==> Answered(w, steps, i)
  }

  predicate EndsWithoutCalls(w: World, steps: seq<Step>) {
    steps != [] && steps[|steps| - 1].Assistant? && w.parse(steps[|steps| - 1].content) == []
  }

  lemma RoundIsAnswered(w: World, text: string, tools: seq<Step>, rest: seq<Step>)
    requires Perform(tools, w.parse(text)) && tools != [] && (rest != [] ==> rest[0].Assistant?)
    requires AllAnswered(w, rest)
    ensures AllAnswered(w, [Assistant(text)] + tools + rest)
    ensures EndsWithoutCalls(w, rest) ==> EndsWithoutCalls(w, [Assistant(text)] + tools + rest)
  {
    var first := [Assistant(text)] + tools;
    FirstIsAnswered(w, text, tools, rest);
    forall i | 0 <= i < |first + rest|
      ensures Answered(w, first + rest, i)
    {
      if i >= |first| {
        AnsweredLater(w, first, rest, i - |first|);
      } else if i > 0 {
        assert (first + rest)[i] == tools[i - 1];
      }
    }
  }

  lemma RoundCounts(w: World, text: string, tools: seq<Step>, rest: seq<Step>)
    requires forall j :: 0 <= j < |tools| ==> tools[j].Tool?
    ensures Assistants([Assistant(text)] + tools + rest) == 1 + Assistants(rest)
  {
    CountsOfConcat([Assistant(text)] + tools, rest);
    CountsOfConcat([Assistant(text)], tools);
    CountsOfTools(tools);
  }

  lemma PerformedTools(w: World, n: nat, calls: seq<Call>)
    ensures Perform(ToolSteps(w, n, calls), calls)
  {
  }

  /** Every assistant step is answered, there are no more of them than the budget allows, and fewer only if the last
      text has no calls. */
  lemma {:induction false} RoundsAreAnswered(w: World, transcript: seq<Message>, round: nat, n: nat, left: nat)
    ensures var steps := Rounds(w, transcript, round, n, left);
            && Assistants(steps) <= left && (left > 0 ==> steps != [] && steps[0].Assistant?)
            && AllAnswered(w, steps)
            && (Assistants(steps) < left ==> EndsWithoutCalls(w, steps))
    decreases left
  {
    hide *;
    RoundsIs(w, transcript, round, n, left);
    NoSteps(w);
    if left > 0 {
      var text := w.generate(round, transcript);
      var calls := w.parse(text);
      if calls == [] {
        LastStep(w, text);
      } else {
        var tools := ToolSteps(w, n, calls);
        var rest := Rounds(w, transcript + Results(w, n, calls), round + 1, n + |calls|, left - 1);
        RoundsAreAnswered(w, transcript + Results(w, n, calls), round + 1, n + |calls|, left - 1);
        RoundsIs(w, transcript + Results(w, n, calls), round + 1, n + |calls|, left - 1);
        PerformedTools(w, n, calls);
        RoundIsAnswered(w, text, tools, rest);
        RoundCounts(w, text, tools, rest);
      }
    }
  }

  lemma RoundsIs(w: World, transcript: seq<Message>, round: nat, n: nat, left: nat)
    ensures var text := w.generate(round, transcript);
            var calls := w.parse(text);
            Rounds(w, transcript, round, n, left)
            == if left == 0 then []
               else if calls == [] then [Assistant(text)]
               else [Assistant(text)] + ToolSteps(w, n, calls)
                    + Rounds(w, transcript + Results(w, n, calls), round + 1, n + |calls|, left - 1)
  {
  }

  lemma NoSteps(w: World)
    ensures AllAnswered(w, []) && Assistants([]) == 0
  {
  }

  lemma LastStep(w: World, text: string)
    requires w.parse(text) == []
    ensures AllAnswered(w, [Assistant(text)]) && EndsWithoutCalls(w, [Assistant(text)])
    ensures Assistants([Assistant(text)]) == 1
  {
    assert [Assistant(text)][1..] == [];
  }

  /* ---------- the loop ---------- */

  method CallTool(w: World, n: nat, c: Call) returns (output: string)
    ensures output == Output(w, n, c)
  {
    var r := w.tool(n, c);
    if r.Unknown? {
      return "error: unknown_tool:" + c.name;
    } else if r.Raised? {
      return "error: tool_exception:" + r.kind + ":" + r.message;
    } else {
      return r.text;
    }
  }

  /** The calls of one round. */
  method CallTools(w: World, calls: seq<Call>, n: nat) returns (steps: seq<Step>, results: seq<Message>)
    ensures steps == ToolSteps(w, n, calls) && results == Results(w, n, calls)
  {
    hide ToolSteps, Results, Describe, Result;
    steps, results := [], [];
    for k := 0 to |calls|
      invariant |steps| == k && |results| == k
      invariant forall j :: 0 <= j < k ==> steps[j] == Tool(Output(w, n + j, calls[j]), calls[j])
      invariant forall j :: 0 <= j < k ==> results[j] == Result(Output(w, n + j, calls[j]))
    {
      var c := calls[k];
      var output := CallTool(w, n + k, c);
      steps := steps + [Tool(output, c)];
      results := results + [Result(output)];
    }
  }

  /** The loop, which also returns the transcript it ended with. */
  method RunAgent(w: World, prompt: string, maxSteps: int) returns (run: AgentRun, transcript: seq<Message>)
    ensures run.steps == [User(prompt)] + Rounds(w, Opening(prompt), 0, 0, Budget(maxSteps))
    ensures run.finalText == LastText(run.steps)
    ensures run.toolCalls == Tools(run.steps) == |transcript| - 1
  {
    transcript := [Message("user", prompt)];
    var steps, toolCalls: nat, round: nat, left: nat := [User(prompt)], 0, 0, if maxSteps > 0 then maxSteps else 0;
    ghost var all := [User(prompt)] + Rounds(w, Opening(prompt), 0, 0, Budget(maxSteps));
    assert Ahead(w, all, steps, transcript, round, toolCalls, left) && Tools(steps) == 0;
    hide *;
    while left > 0
      invariant Ahead(w, all, steps, transcript, round, toolCalls, left)
      invariant toolCalls == Tools(steps) == |transcript| - 1
    {
      var text := w.generate(round, transcript);
      var calls := w.parse(text);
      OneRound(w, all, steps, transcript, round, toolCalls, left);
      steps := steps + [Assistant(text)];
      if calls == [] {
        return AgentRun(steps, text, toolCalls), transcript;
      }
      var tools, results := CallTools(w, calls, toolCalls);
      steps, transcript, toolCalls := steps + tools, transcript + results, toolCalls + |calls|;
      left, round := left - 1, round + 1;
    }
    NoRoundsLeft(w, all, steps, transcript, round, toolCalls);
    return AgentRun(steps, LastText(steps), toolCalls), transcript;
  }

  /** These steps and the rounds to come make up the run. */
  ghost predicate Ahead(w: World, all: seq<Step>, steps: seq<Step>, transcript: seq<Message>, round: nat, n: nat,
                        left: nat) {
    all == steps + Rounds(w, transcript, round, n, left)
  }

  lemma Regroup(before: seq<Step>, step: Step, tools: seq<Step>, rest: seq<Step>)
    ensures before + ([step] + tools + rest) == before + [step] + tools + rest
  {
  }

  lemma OneRound(w: World, all: seq<Step>, steps: seq<Step>, transcript: seq<Message>, round: nat, n: nat, left: nat)
    requires left > 0 && Ahead(w, all, steps, transcript, round, n, left)
    ensures var text := w.generate(round, transcript);
            var calls, more := w.parse(text), steps + [Assistant(text)];
            if calls == [] then all == more && LastText(more) == text && Tools(more) == Tools(steps)
            else
              && Ahead(w, all, more + ToolSteps(w, n, calls), transcript + Results(w, n, calls), round + 1,
                       n + |calls|, left - 1)
              && Tools(more + ToolSteps(w, n, calls)) == Tools(steps) + |calls| && |Results(w, n, calls)| == |calls|
  {
    hide Rounds, Tools, LastText, ToolSteps, Results;
    var text := w.generate(round, transcript);
    var calls := w.parse(text);
    RoundsIs(w, transcript, round, n, left);
    LastTextOfTools(steps, text, []);
    OneAssistant(steps, text);
    assert steps + [Assistant(text)] + [] == steps + [Assistant(text)];
    Regroup(steps, Assistant(text), ToolSteps(w, n, calls),
            Rounds(w, transcript + Results(w, n, calls), round + 1, n + |calls|, left - 1));
    MoreTools(w, steps + [Assistant(text)], n, calls);
  }

  lemma MoreTools(w: World, steps: seq<Step>, n: nat, calls: seq<Call>)
    ensures Tools(steps + ToolSteps(w, n, calls)) == Tools(steps) + |calls| && |Results(w, n, calls)| == |calls|
  {
    CountsOfConcat(steps, ToolSteps(w, n, calls));
    CountsOfTools(ToolSteps(w, n, calls));
  }

  lemma OneAssistant(steps: seq<Step>, text: string)
    ensures Tools(steps + [Assistant(text)]) == Tools(steps)
  {
    CountsOfConcat(steps, [Assistant(text)]);
  }

  lemma NoRoundsLeft(w: World, all: seq<Step>, steps: seq<Step>, transcript: seq<Message>, round: nat, n: nat)
    requires Ahead(w, all, steps, transcript, round, n, 0)
    ensures all == steps
  {
  }

  /** What holds of every run: the prompt and then at most max_steps assistant steps, each answered; a run that stops
      early stops at a text without calls. */
  lemma RunIsAnswered(w: World, prompt: string, maxSteps: int)
    ensures var steps := [User(prompt)] + Rounds(w, Opening(prompt), 0, 0, Budget(maxSteps));
            var most := if maxSteps < 1 then 0 else maxSteps;
            && Assistants(steps) <= most && (maxSteps >= 1 ==> Assistants(steps) >= 1)
            && AllAnswered(w, steps)
            && (Assistants(steps) < most ==> w.parse(LastText(steps)) == [])
  {
    var rounds := Rounds(w, Opening(prompt), 0, 0, Budget(maxSteps));
    RoundsAreAnswered(w, Opening(prompt), 0, 0, Budget(maxSteps));
    hide Rounds, Opening;
    CountsOfConcat([User(prompt)], rounds);
    AfterPrompt(w, prompt, rounds);
  }

  lemma AfterPrompt(w: World, prompt: string, rounds: seq<Step>)
    requires AllAnswered(w, rounds)
    ensures AllAnswered(w, [User(prompt)] + rounds)
    ensures EndsWithoutCalls(w, rounds) ==> w.parse(LastText([User(prompt)] + rounds)) == []
  {
    var steps := [User(prompt)] + rounds;
    forall i | 0 <= i < |steps|
      ensures Answered(w, steps, i)
    {
      if i > 0 {
        AnsweredLater(w, [User(prompt)], rounds, i - 1);
      }
    }
  }

  /* ---------- every step follows from those before it ---------- */

  /** What the provider is told of some steps: the prompt, and each tool's output as a message of the user. */
  function Heard(steps: seq<Step>): seq<Message> {
    if steps == [] then []
    else
      var last := steps[|steps| - 1];
      Heard(steps[..|steps| - 1])
      + match last
        case User(prompt) => [Message("user", prompt)]
        case Tool(output, _) => [Message("user", "<tool_result>" + output + "</tool_result>")]
        case Assistant(_) => []
  }

  /** The output of a tool, or the error it is reported as. */
  predicate Reports(output: string, r: ToolResult, name: string) {
    match r
    case Returned(text) => output == text
    case Unknown => output == "error: unknown_tool:" + name
    case Raised(kind, message) => output == "error: tool_exception:" + kind + ":" + message
  }

  /** An assistant step is what the provider answers to all that was heard before; a tool step reports the tool. */
  ghost predicate FollowsFrom(w: World, before: seq<Step>, step: Step) {
    match step
    case User(_) => before == []
    case Assistant(text) => text == w.generate(Assistants(before), Heard(before))
    case Tool(output, call) => Reports(output, w.tool(Tools(before), call), call.name)
  }

  ghost predicate AllFollow(w: World, steps: seq<Step>, start: nat) {
    forall i :: start <= i < |steps| ==> FollowsFrom(w, steps[..i], steps[i])
  }

  /** The numbers a prefix of the run stands for: rounds begun, tools called, and the transcript. */
  ghost predicate StandsAt(before: seq<Step>, transcript: seq<Message>, round: nat, n: nat) {
    Assistants(before) == round && Tools(before) == n && Heard(before) == transcript
  }

  lemma HeardOneMore(steps: seq<Step>, step: Step)
    ensures Heard(steps + [step]) == Heard(steps) + match step
                                                     case User(prompt) => [Message("user", prompt)]
                                                     case Tool(output, _) => [Result(output)]
                                                     case Assistant(_) => []
    ensures Assistants(steps + [step]) == Assistants(steps) + if step.Assistant? then 1 else 0
    ensures Tools(steps + [step]) == Tools(steps) + if step.Tool? then 1 else 0
  {
    assert (steps + [step])[..|steps|] == steps;
    CountsOfConcat(steps, [step]);
    assert [step][1..] == [];
  }

  lemma OneMoreFollows(w: World, steps: seq<Step>, step: Step, start: nat)
    requires AllFollow(w, steps, start) && start <= |steps| && FollowsFrom(w, steps, step)
    ensures AllFollow(w, steps + [step], start)
  {
    hide FollowsFrom;
    var more := steps + [step];
    forall i | start <= i < |more|
      ensures FollowsFrom(w, more[..i], more[i])
    {
      if i < |steps| {
        assert more[..i] == steps[..i];
      } else {
        assert more[..i] == steps;
      }
    }
  }

  lemma {:induction false} ToolsFollow(w: World, before: seq<Step>, transcript: seq<Message>, round: nat, n: nat,
                                       calls: seq<Call>, k: nat, start: nat)
    requires StandsAt(before, transcript, round, n) && k <= |calls| && start <= |before| && AllFollow(w, before, start)
    ensures var steps := before + ToolSteps(w, n, calls)[..k];
            StandsAt(steps, transcript + Results(w, n, calls)[..k], round, n + k) && AllFollow(w, steps, start)
    decreases k
  {
    var tools, results := ToolSteps(w, n, calls), Results(w, n, calls);
    hide ToolSteps, Results, FollowsFrom, AllFollow, Heard, Assistants, Tools;
    if k == 0 {
      assert before + tools[..0] == before && transcript + results[..0] == transcript;
    } else {
      ToolsFollow(w, before, transcript, round, n, calls, k - 1, start);
      var steps, step := before + tools[..k - 1], tools[k - 1];
      ToolFollows(w, steps, n + (k - 1), calls[k - 1]);
      OneMoreFollows(w, steps, step, start);
      HeardOneMore(steps, step);
      assert before + tools[..k] == steps + [step];
      assert transcript + results[..k] == (transcript + results[..k - 1]) + [results[k - 1]];
    }
  }

  lemma ToolFollows(w: World, before: seq<Step>, n: nat, call: Call)
    requires Tools(before) == n
    ensures FollowsFrom(w, before, Tool(Output(w, n, call), call))
  {
  }

  lemma AnswerFollows(w: World, before: seq<Step>, transcript: seq<Message>, round: nat, n: nat, start: nat)
    requires StandsAt(before, transcript, round, n) && start <= |before| && AllFollow(w, before, start)
    ensures var more := before + [Assistant(w.generate(round, transcript))];
            StandsAt(more, transcript, round + 1, n) && AllFollow(w, more, start)
  {
    var step := Assistant(w.generate(round, transcript));
    assert FollowsFrom(w, before, step);
    hide FollowsFrom, AllFollow, Heard, Assistants, Tools;
    HeardOneMore(before, step);
    OneMoreFollows(w, before, step, start);
    assert transcript + [] == transcript;
  }

  lemma {:induction false} RoundsFollow(w: World, before: seq<Step>, transcript: seq<Message>, round: nat, n: nat,
                                        left: nat, start: nat)
    requires StandsAt(before, transcript, round, n) && start <= |before| && AllFollow(w, before, start)
    ensures AllFollow(w, before + Rounds(w, transcript, round, n, left), start)
    decreases left
  {
    hide *;
    RoundsIs(w, transcript, round, n, left);
    if left == 0 {
      assert before + [] == before;
    } else {
      var text := w.generate(round, transcript);
      var calls := w.parse(text);
      var more, tools := before + [Assistant(text)], ToolSteps(w, n, calls);
      AnswerFollows(w, before, transcript, round, n, start);
      if calls != [] {
        ToolsFollow(w, more, transcript, round + 1, n, calls, |calls|, start);
        assert tools[..|calls|] == tools && Results(w, n, calls)[..|calls|] == Results(w, n, calls);
        RoundsFollow(w, more + tools, transcript + Results(w, n, calls), round + 1, n + |calls|, left - 1, start);
        Regroup(before, Assistant(text), tools,
                Rounds(w, transcript + Results(w, n, calls), round + 1, n + |calls|, left - 1));
      }
    }
  }

  /** Every run: each assistant text is the provider's answer to the prompt and all tool results so far, and each tool
      step reports what its tool did, in the words of the loop. */
  lemma RunFollows(w: World, prompt: string, maxSteps: int)
    ensures AllFollow(w, [User(prompt)] + Rounds(w, Opening(prompt), 0, 0, Budget(maxSteps)), 0)
  {
    HeardOneMore([], User(prompt));
    assert [] + [User(prompt)] == [User(prompt)] && [] + Opening(prompt) == Opening(prompt);
    OneMoreFollows(w, [], User(prompt), 0);
    hide AllFollow, Rounds;
    RoundsFollow(w, [User(prompt)], Opening(prompt), 0, 0, Budget(maxSteps), 0);
  }
}
