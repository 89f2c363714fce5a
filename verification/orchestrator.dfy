/** `process_message`: record the user turn, route it, then either forward the
    answer or run the plan action by action, and record the assistant turn. */
module Orchestrator {
  import opened Wrappers
  import opened Json
  import opened Memory
  import opened Router
  import opened Automation

  /** What one message causes, in the order it happens: a full rewrite of the
      memory document, a tool effect, or a notification to the callback. */
  datatype Event = Saved(doc: Document) | Tool(effect: Effect) | Notified(text: string)

  /** The memory afterwards, the events in order, and whether the call
      returned normally (false when an exception escaped it). */
  datatype Turn = Turn(memory: MemoryAgent, trace: seq<Event>, completed: bool)

  /** The notifications in a trace, in order. */
  function Notes(trace: seq<Event>): (r: seq<string>)
    ensures |r| <= |trace|
    decreases |trace|
  {
    if |trace| == 0 then []
    else (if trace[0].Notified? then [trace[0].text] else []) + Notes(trace[1..])
  }

  /** The tool effects in a trace, in order. */
  function Effects(trace: seq<Event>): (r: seq<Effect>)
    ensures |r| <= |trace|
    decreases |trace|
  {
    if |trace| == 0 then []
    else (if trace[0].Tool? then [trace[0].effect] else []) + Effects(trace[1..])
  }

  lemma {:induction false} NotesAppend(a: seq<Event>, b: seq<Event>)
    ensures Notes(a + b) == Notes(a) + Notes(b)
    decreases |a|
  {
    if |a| == 0 {
      assert a + b == b;
    } else {
      assert (a + b)[0] == a[0];
      assert (a + b)[1..] == a[1..] + b;
      NotesAppend(a[1..], b);
    }
  }

  lemma {:induction false} EffectsAppend(a: seq<Event>, b: seq<Event>)
    ensures Effects(a + b) == Effects(a) + Effects(b)
    decreases |a|
  {
    if |a| == 0 {
      assert a + b == b;
    } else {
      assert (a + b)[0] == a[0];
      assert (a + b)[1..] == a[1..] + b;
      EffectsAppend(a[1..], b);
    }
  }

  /** One tool event per effect, in order. */
  function ToolEvents(effects: seq<Effect>): seq<Event>
    decreases |effects|
  {
    if |effects| == 0 then [] else [Tool(effects[0])] + ToolEvents(effects[1..])
  }

  /** One notification event per note, in order. */
  function NoteEvents(notes: seq<string>): seq<Event>
    decreases |notes|
  {
    if |notes| == 0 then [] else [Notified(notes[0])] + NoteEvents(notes[1..])
  }

  /** The events of one execution: its tool effects, then (when it completes)
      its notifications. */
  function OutcomeEvents(o: Outcome): seq<Event>
  {
    match o
    case Raised(effects) => ToolEvents(effects)
    case Completed(effects, notes) => ToolEvents(effects) + NoteEvents(notes)
  }

  lemma {:induction false} ToolEventsCarry(effects: seq<Effect>)
    ensures Notes(ToolEvents(effects)) == []
    ensures Effects(ToolEvents(effects)) == effects
    decreases |effects|
  {
    if |effects| > 0 {
      ToolEventsCarry(effects[1..]);
      NotesAppend([Tool(effects[0])], ToolEvents(effects[1..]));
      EffectsAppend([Tool(effects[0])], ToolEvents(effects[1..]));
      assert effects == [effects[0]] + effects[1..];
    }
  }

  lemma {:induction false} NoteEventsCarry(notes: seq<string>)
    ensures Notes(NoteEvents(notes)) == notes
    ensures Effects(NoteEvents(notes)) == []
    decreases |notes|
  {
    if |notes| > 0 {
      NoteEventsCarry(notes[1..]);
      NotesAppend([Notified(notes[0])], NoteEvents(notes[1..]));
      EffectsAppend([Notified(notes[0])], NoteEvents(notes[1..]));
      assert notes == [notes[0]] + notes[1..];
    }
  }

  /** One execution's events show its tool effects, and its notes exactly when
      it completes. */
  lemma OutcomeEventsCarry(o: Outcome)
    ensures Notes(OutcomeEvents(o)) == if o.Completed? then o.notes else []
    ensures Effects(OutcomeEvents(o)) == o.effects
  {
    ToolEventsCarry(o.effects);
    if o.Completed? {
      NoteEventsCarry(o.notes);
      NotesAppend(ToolEvents(o.effects), NoteEvents(o.notes));
      EffectsAppend(ToolEvents(o.effects), NoteEvents(o.notes));
    }
  }

  /** What each action of a plan does when executed, in plan order. */
  function Outcomes(actions: seq<Json>, envAt: nat -> Env): (outs: seq<Outcome>)
    ensures |outs| == |actions|
    ensures forall k :: 0 <= k < |actions| ==> outs[k] == Dispatch(actions[k], envAt(k))
  {
    seq(|actions|, k requires 0 <= k < |actions| => Dispatch(actions[k], envAt(k)))
  }

  /** The notification each outcome from position `i` on sends, in plan order
      (an action that raises sends none). */
  function PlanNotes(outs: seq<Outcome>, i: nat): seq<string>
    requires i <= |outs|
    decreases |outs| - i
  {
    if i == |outs| then []
    else (if outs[i].Completed? then outs[i].notes else []) + PlanNotes(outs, i + 1)
  }

  /** Where the plan stops from position `i` on: the first action that raises,
      or the end of the plan. */
  function FirstRaise(outs: seq<Outcome>, i: nat): (j: nat)
    requires i <= |outs|
    ensures i <= j <= |outs|
    decreases |outs| - i
  {
    if i == |outs| || outs[i].Raised? then i else FirstRaise(outs, i + 1)
  }

  /** `FirstRaise` finds the first raising action: all before it complete. */
  lemma {:induction false} FirstRaiseIsFirst(outs: seq<Outcome>, i: nat)
    requires i <= |outs|
    ensures var j := FirstRaise(outs, i);
            && (forall k :: i <= k < j ==> outs[k].Completed?)
            && (j < |outs| ==> outs[j].Raised?)
    decreases |outs| - i
  {
    if i < |outs| && outs[i].Completed? {
      FirstRaiseIsFirst(outs, i + 1);
    }
  }

  /** Where execution ends, from position `i` on: after the first action that
      raises, or at the end of the plan. */
  function StopAt(outs: seq<Outcome>, i: nat): (j: nat)
    requires i <= |outs|
    ensures i <= j <= |outs|
  {
    var k := FirstRaise(outs, i);
    if k == |outs| then k else k + 1
  }

  /** The events of the executions at positions `i` to `j`, one after the other. */
  function RunEvents(outs: seq<Outcome>, i: nat, j: nat): seq<Event>
    requires i <= j <= |outs|
    decreases j - i
  {
    if i == j then [] else OutcomeEvents(outs[i]) + RunEvents(outs, i + 1, j)
  }

  /** The tool effects of the executions at positions `i` to `j`, one after the
      other. */
  function RunEffects(outs: seq<Outcome>, i: nat, j: nat): seq<Effect>
    requires i <= j <= |outs|
    decreases j - i
  {
    if i == j then [] else outs[i].effects + RunEffects(outs, i + 1, j)
  }

  lemma {:induction false} EffectsOfRunEvents(outs: seq<Outcome>, i: nat, j: nat)
    requires i <= j <= |outs|
    ensures Effects(RunEvents(outs, i, j)) == RunEffects(outs, i, j)
    decreases j - i
  {
    if i < j {
      EffectsOfRunEvents(outs, i + 1, j);
      OutcomeEventsCarry(outs[i]);
      EffectsOfStep(OutcomeEvents(outs[i]), RunEvents(outs, i + 1, j), outs[i].effects, RunEffects(outs, i + 1, j));
    }
  }

  lemma EffectsOfStep(head: seq<Event>, tail: seq<Event>, e: seq<Effect>, f: seq<Effect>)
    requires Effects(head) == e && Effects(tail) == f
    ensures Effects(head + tail) == e + f
  {
    EffectsAppend(head, tail);
  }

  /** The `for action in actions` loop from position `i`: each action is
      executed with the callback, strictly in order; an exception ends the loop
      and the turn. */
  datatype PlanRun = PlanRun(trace: seq<Event>, executed: nat, completed: bool)

  function RunPlan(actions: seq<Json>, envAt: nat -> Env, i: nat): (r: PlanRun)
    requires i <= |actions|
    ensures var outs := Outcomes(actions, envAt);
            && (r.completed <==> FirstRaise(outs, i) == |actions|)
            && r.executed == StopAt(outs, i) - i
            && r.trace == RunEvents(outs, i, StopAt(outs, i))
            && (r.completed ==> Notes(r.trace) == PlanNotes(outs, i))
    decreases |actions| - i
  {
    var outs := Outcomes(actions, envAt);
    if i == |actions| then PlanRun([], 0, true)
    else
      var out := Execute(actions[i], true, envAt(i));
      ExecuteWithCallback(actions[i], envAt(i));
      assert out == outs[i];
      var here := OutcomeEvents(out);
      OutcomeEventsCarry(out);
      if out.Raised? then
        RaisingStep(outs, i);
        PlanRun(here, 1, false)
      else
        var rest := RunPlan(actions, envAt, i + 1);
        CompletingStep(outs, i);
        NotesAppend(here, rest.trace);
        PlanRun(here + rest.trace, rest.executed + 1, rest.completed)
  }

  /** An execution that raises ends the loop right after it. */
  lemma RaisingStep(outs: seq<Outcome>, i: nat)
    requires i < |outs| && outs[i].Raised?
    ensures FirstRaise(outs, i) == i && StopAt(outs, i) == i + 1
    ensures RunEvents(outs, i, i + 1) == OutcomeEvents(outs[i])
  {
    assert RunEvents(outs, i, i + 1) == OutcomeEvents(outs[i]) + [];
  }

  /** An execution that completes is followed by the rest of the loop. */
  lemma CompletingStep(outs: seq<Outcome>, i: nat)
    requires i < |outs| && outs[i].Completed?
    ensures FirstRaise(outs, i) == FirstRaise(outs, i + 1)
    ensures StopAt(outs, i) == StopAt(outs, i + 1) > i
    ensures RunEvents(outs, i, StopAt(outs, i)) == OutcomeEvents(outs[i]) + RunEvents(outs, i + 1, StopAt(outs, i + 1))
    ensures PlanNotes(outs, i) == outs[i].notes + PlanNotes(outs, i + 1)
  {
  }

  /** The loop runs the actions strictly in plan order, one execution each: it
      completes exactly when no action raises, and then every action has sent
      its one notification, in order; otherwise it stops right after the first
      action that raises, having executed it and everything before it. */
  lemma RunPlanInOrder(actions: seq<Json>, envAt: nat -> Env)
    ensures var r := RunPlan(actions, envAt, 0);
            && (r.completed <==> forall k :: 0 <= k < |actions| ==> Dispatch(actions[k], envAt(k)).Completed?)
            && (r.completed ==> r.executed == |actions| && |Notes(r.trace)| == |actions|
                                && forall k :: 0 <= k < |actions| ==> Notes(r.trace)[k] == Dispatch(actions[k], envAt(k)).notes[0])
            && (!r.completed ==> 0 < r.executed <= |actions|
                                 && Dispatch(actions[r.executed - 1], envAt(r.executed - 1)).Raised?
                                 && forall k :: 0 <= k < r.executed - 1 ==> Dispatch(actions[k], envAt(k)).Completed?)
  {
    var outs := Outcomes(actions, envAt);
    FirstRaiseIsFirst(outs, 0);
    var r := RunPlan(actions, envAt, 0);
    if r.completed {
      PlanNotesInOrder(outs, 0);
    } else {
      var j := FirstRaise(outs, 0);
      assert outs[j] == Dispatch(actions[j], envAt(j)) && outs[j].Raised?;
    }
  }

  /** When every outcome from `i` on completes, each sends exactly one
      notification, and they come in plan order. */
  lemma {:induction false} PlanNotesInOrder(outs: seq<Outcome>, i: nat)
    requires i <= |outs|
    requires forall k :: i <= k < |outs| ==> outs[k].Completed? && |outs[k].notes| == 1
    ensures |PlanNotes(outs, i)| == |outs| - i
    ensures forall k :: i <= k < |outs| ==> PlanNotes(outs, i)[k - i] == outs[k].notes[0]
    decreases |outs| - i
  {
    if i < |outs| {
      PlanNotesInOrder(outs, i + 1);
      var head := outs[i].notes;
      var tail := PlanNotes(outs, i + 1);
      assert PlanNotes(outs, i) == head + tail;
      forall k | i < k < |outs|
        ensures (head + tail)[k - i] == outs[k].notes[0]
      {
        assert (head + tail)[k - i] == tail[k - (i + 1)];
      }
    }
  }

  /** The answer branch, after the user turn: record the answer, then send it
      to the callback once. No tool is touched. */
  function AnswerTurn(m1: MemoryAgent, a: string, tReply: real): (r: Turn)
    ensures r.completed
    ensures r.memory == AddChat(m1, "assistant", a, tReply)
    ensures r.trace == [Saved(r.memory.data), Notified(a)]
    ensures Notes(r.trace) == [a] && Effects(r.trace) == []
  {
    var m2 := AddChat(m1, "assistant", a, tReply);
    var trace := [Saved(m2.data), Notified(a)];
    assert Notes(trace[1..]) == [a] && Effects(trace[1..]) == [];
    Turn(m2, trace, true)
  }

  /** The plan branch, after the user turn: iterate the plan, executing each
      action with the callback in order, then record the serialised plan as the
      assistant turn. Iterating a value that is not a container, or an action
      that raises, ends the turn with only the user turn recorded. */
  function PlanTurn(m1: MemoryAgent, plan: Json, dumps: Json -> string, envAt: nat -> Env, tReply: real): (r: Turn)
    ensures Iterate(plan).None? ==> r == Turn(m1, [], false)
    ensures !r.completed ==> r.memory == m1
    ensures r.completed ==>
              && Iterate(plan).Some?
              && Notes(r.trace) == PlanNotes(Outcomes(Iterate(plan).value, envAt), 0)
              && r.memory == AddChat(m1, "assistant", dumps(plan), tReply)
              && |r.trace| > 0 && r.trace[|r.trace| - 1] == Saved(r.memory.data)
    ensures Iterate(plan).Some? ==>
              var outs := Outcomes(Iterate(plan).value, envAt);
              && (r.completed <==> FirstRaise(outs, 0) == |outs|)
              && Effects(r.trace) == RunEffects(outs, 0, StopAt(outs, 0))
    // each action's events, action after action, then the record of the plan
    ensures Iterate(plan).Some? ==>
              var outs := Outcomes(Iterate(plan).value, envAt);
              r.trace == RunEvents(outs, 0, StopAt(outs, 0)) + (if r.completed then [Saved(r.memory.data)] else [])
  {
    match Iterate(plan)
    case None => Turn(m1, [], false)
    case Some(actions) =>
      var outs := Outcomes(actions, envAt);
      EffectsOfRunEvents(outs, 0, StopAt(outs, 0));
      AfterPlan(m1, RunPlan(actions, envAt, 0), dumps(plan), tReply)
  }

  /** The end of the plan branch: after a loop that completed, record `record`
      as the assistant turn; after one that raised, leave memory alone. */
  function AfterPlan(m1: MemoryAgent, run: PlanRun, record: string, tReply: real): (r: Turn)
    ensures r.completed == run.completed
    ensures Effects(r.trace) == Effects(run.trace)
    ensures r.trace == run.trace + (if run.completed then [Saved(r.memory.data)] else [])
    ensures !r.completed ==> r == Turn(m1, run.trace, false)
    ensures r.completed ==>
              && Notes(r.trace) == Notes(run.trace)
              && r.memory == AddChat(m1, "assistant", record, tReply)
              && |r.trace| > 0 && r.trace[|r.trace| - 1] == Saved(r.memory.data)
  {
    if !run.completed then Turn(m1, run.trace, false)
    else
      var m2 := AddChat(m1, "assistant", record, tReply);
      assert Notes([Saved(m2.data)]) == [];
      assert Effects([Saved(m2.data)]) == [];
      NotesAppend(run.trace, [Saved(m2.data)]);
      EffectsAppend(run.trace, [Saved(m2.data)]);
      Turn(m2, run.trace + [Saved(m2.data)], true)
  }

  /** What follows the user turn: the answer branch or the plan branch,
      according to the router's decision. */
  function Reply(m1: MemoryAgent, d: Decision, dumps: Json -> string, envAt: nat -> Env, tReply: real): (r: Turn)
    ensures d.Answer? ==>
              && r.completed
              && r.memory == AddChat(m1, "assistant", d.text, tReply)
              && r.trace == [Saved(r.memory.data), Notified(d.text)]
              && Notes(r.trace) == [d.text]
              && Effects(r.trace) == []
    ensures d.Actions? && r.completed ==>
              && Iterate(d.plan).Some?
              && Notes(r.trace) == PlanNotes(Outcomes(Iterate(d.plan).value, envAt), 0)
              && r.memory == AddChat(m1, "assistant", dumps(d.plan), tReply)
    ensures d.Actions? ==>
              && (Iterate(d.plan).None? ==> !r.completed && Effects(r.trace) == [])
              && (Iterate(d.plan).Some? ==>
                    var outs := Outcomes(Iterate(d.plan).value, envAt);
                    && (r.completed <==> FirstRaise(outs, 0) == |outs|)
                    && Effects(r.trace) == RunEffects(outs, 0, StopAt(outs, 0))
                    && r.trace == RunEvents(outs, 0, StopAt(outs, 0)) + (if r.completed then [Saved(r.memory.data)] else []))
    ensures !r.completed ==> r.memory == m1
  {
    match d
    case Answer(a) => AnswerTurn(m1, a, tReply)
    case Actions(plan) => PlanTurn(m1, plan, dumps, envAt, tReply)
  }

  /** `process_message(user_text, cb)`. The text model, `json.loads`,
      `json.dumps`, the per-action environment and the two clock readings are
      supplied from outside. */
  function ProcessMessage(m: MemoryAgent, userText: string, model: string -> string,
                          parse: string -> Option<Json>, dumps: Json -> string,
                          envAt: nat -> Env, tUser: real, tReply: real): (r: Turn)
    // the user turn is recorded, and the document rewritten, before anything else
    ensures |r.trace| > 0 && r.trace[0] == Saved(AddChat(m, "user", userText, tUser).data)
    ensures r.memory.data.knowledge == m.data.knowledge
    ensures |r.memory.data.chatHistory| <= HistoryLimit
    // an answer is recorded, then sent to the callback once; no tool is touched
    ensures Route(userText, model, parse).Answer? ==>
              var a := Route(userText, model, parse).text;
              && r.completed
              && r.memory == AddChat(AddChat(m, "user", userText, tUser), "assistant", a, tReply)
              && Notes(r.trace) == [a]
              && Effects(r.trace) == []
    // a plan that completes: one notification per action in plan order, then its
    // serialisation recorded as the assistant turn
    ensures r.completed && Route(userText, model, parse).Actions? ==>
              var plan := Route(userText, model, parse).plan;
              && Iterate(plan).Some?
              && Notes(r.trace) == PlanNotes(Outcomes(Iterate(plan).value, envAt), 0)
              && r.memory == AddChat(AddChat(m, "user", userText, tUser), "assistant", dumps(plan), tReply)
    // a plan: exactly the tool effects of the actions executed, in plan order;
    // the turn completes exactly when the plan can be iterated and none raises
    ensures Route(userText, model, parse).Actions? ==>
              var plan := Route(userText, model, parse).plan;
              && (Iterate(plan).None? ==> !r.completed && Effects(r.trace) == [])
              && (Iterate(plan).Some? ==>
                    var outs := Outcomes(Iterate(plan).value, envAt);
                    && (r.completed <==> FirstRaise(outs, 0) == |outs|)
                    && Effects(r.trace) == RunEffects(outs, 0, StopAt(outs, 0)))
    // an exception leaves only the user turn recorded
    ensures !r.completed ==> r.memory == AddChat(m, "user", userText, tUser)
    ensures |r.memory.writes| == |m.writes| + (if r.completed then 2 else 1)
  {
    var m1 := AddChat(m, "user", userText, tUser);
    var start := [Saved(m1.data)];
    var rest := Reply(m1, Route(userText, model, parse), dumps, envAt, tReply);
    assert Notes(start) == [] && Effects(start) == [];
    NotesAppend(start, rest.trace);
    EffectsAppend(start, rest.trace);
    Turn(rest.memory, start + rest.trace, rest.completed)
  }

  /** The whole turn in order: the user turn is saved first; an answer is then
      saved and only afterwards sent; a plan streams each action's tool
      requests and its notification before the next action starts, and the
      assistant turn is saved only after the last action completed. */
  lemma ProcessMessageTrace(m: MemoryAgent, userText: string, model: string -> string,
                            parse: string -> Option<Json>, dumps: Json -> string,
                            envAt: nat -> Env, tUser: real, tReply: real)
    ensures var r := ProcessMessage(m, userText, model, parse, dumps, envAt, tUser, tReply);
            var user := Saved(AddChat(m, "user", userText, tUser).data);
            var d := Route(userText, model, parse);
            && (d.Answer? ==> r.trace == [user, Saved(r.memory.data), Notified(d.text)])
            && (d.Actions? && Iterate(d.plan).None? ==> r.trace == [user])
            && (d.Actions? && Iterate(d.plan).Some? ==>
                  var outs := Outcomes(Iterate(d.plan).value, envAt);
                  r.trace == [user] + RunEvents(outs, 0, StopAt(outs, 0))
                             + (if r.completed then [Saved(r.memory.data)] else []))
  {
    var d := Route(userText, model, parse);
    if d.Answer? {
      AnswerMessageTrace(m, userText, model, parse, dumps, envAt, tUser, tReply);
    } else if Iterate(d.plan).Some? {
      PlanMessageTrace(m, userText, model, parse, dumps, envAt, tUser, tReply);
    } else {
      var m1 := AddChat(m, "user", userText, tUser);
      var rest := Reply(m1, d, dumps, envAt, tReply);
      assert rest.trace == [];
      assert [Saved(m1.data)] + rest.trace == [Saved(m1.data)];
    }
  }

  lemma AnswerMessageTrace(m: MemoryAgent, userText: string, model: string -> string,
                     parse: string -> Option<Json>, dumps: Json -> string,
                     envAt: nat -> Env, tUser: real, tReply: real)
    requires Route(userText, model, parse).Answer?
    ensures var r := ProcessMessage(m, userText, model, parse, dumps, envAt, tUser, tReply);
            r.trace == [Saved(AddChat(m, "user", userText, tUser).data), Saved(r.memory.data),
                        Notified(Route(userText, model, parse).text)]
  {
    var m1 := AddChat(m, "user", userText, tUser);
    var rest := Reply(m1, Route(userText, model, parse), dumps, envAt, tReply);
    ConsPair(Saved(m1.data), rest.trace, Saved(rest.memory.data), Notified(Route(userText, model, parse).text));
  }

  lemma ConsPair(first: Event, trace: seq<Event>, second: Event, third: Event)
    requires trace == [second, third]
    ensures [first] + trace == [first, second, third]
  {
  }

  lemma PlanMessageTrace(m: MemoryAgent, userText: string, model: string -> string,
                     parse: string -> Option<Json>, dumps: Json -> string,
                     envAt: nat -> Env, tUser: real, tReply: real)
    ensures var r := ProcessMessage(m, userText, model, parse, dumps, envAt, tUser, tReply);
            var d := Route(userText, model, parse);
            d.Actions? && Iterate(d.plan).Some? ==>
              var outs := Outcomes(Iterate(d.plan).value, envAt);
              r.trace == [Saved(AddChat(m, "user", userText, tUser).data)] + RunEvents(outs, 0, StopAt(outs, 0))
                         + (if r.completed then [Saved(r.memory.data)] else [])
  {
    var m1 := AddChat(m, "user", userText, tUser);
    var d := Route(userText, model, parse);
    if d.Actions? && Iterate(d.plan).Some? {
      var rest := Reply(m1, d, dumps, envAt, tReply);
      var outs := Outcomes(Iterate(d.plan).value, envAt);
      ConsTrace(Saved(m1.data), rest.trace, RunEvents(outs, 0, StopAt(outs, 0)),
                if rest.completed then [Saved(rest.memory.data)] else []);
    }
  }

  lemma ConsTrace(first: Event, trace: seq<Event>, events: seq<Event>, tail: seq<Event>)
    requires trace == events + tail
    ensures [first] + trace == [first] + events + tail
  {
  }

  /** An empty plan executes nothing: no tool is touched and no notification is
      sent, yet the loop completes. */
  lemma EmptyPlanRunsNothing(envAt: nat -> Env)
    ensures RunPlan([], envAt, 0) == PlanRun([], 0, true)
  {
  }

  /** The plan branch of an empty plan: the turn completes, and its only event
      is the save recording the serialised empty plan as the assistant turn. */
  lemma EmptyPlanTurn(m1: MemoryAgent, dumps: Json -> string, envAt: nat -> Env, tReply: real)
    ensures var m2 := AddChat(m1, "assistant", dumps(JArr([])), tReply);
            PlanTurn(m1, JArr([]), dumps, envAt, tReply) == Turn(m2, [Saved(m2.data)], true)
  {
    var outs := Outcomes([], envAt);
    assert Iterate(JArr([])) == Some([]);
    assert FirstRaise(outs, 0) == 0 && StopAt(outs, 0) == 0 && RunEvents(outs, 0, 0) == [];
    var r := PlanTurn(m1, JArr([]), dumps, envAt, tReply);
    assert r.trace == [] + [Saved(r.memory.data)];
  }

  /** Two completing executions: both run, and their events follow each other. */
  lemma TwoCompletions(outs: seq<Outcome>)
    requires |outs| == 2 && outs[0].Completed? && outs[1].Completed?
    ensures FirstRaise(outs, 0) == 2 && StopAt(outs, 0) == 2
    ensures RunEffects(outs, 0, 2) == outs[0].effects + outs[1].effects
    ensures PlanNotes(outs, 0) == outs[0].notes + outs[1].notes
  {
    assert FirstRaise(outs, 1) == 2;
    assert RunEffects(outs, 1, 2) == outs[1].effects + [];
    assert PlanNotes(outs, 1) == outs[1].notes + [];
  }

  /** A two-action plan whose actions both complete runs both, in order. */
  lemma TwoActionPlan(actions: seq<Json>, envAt: nat -> Env)
    requires |actions| == 2
    requires Dispatch(actions[0], envAt(0)).Completed? && Dispatch(actions[1], envAt(1)).Completed?
    ensures var r := RunPlan(actions, envAt, 0);
            var d0 := Dispatch(actions[0], envAt(0));
            var d1 := Dispatch(actions[1], envAt(1));
            && r.completed && r.executed == 2
            && Notes(r.trace) == d0.notes + d1.notes
            && Effects(r.trace) == d0.effects + d1.effects
  {
    var outs := Outcomes(actions, envAt);
    TwoCompletions(outs);
    EffectsOfRunEvents(outs, 0, 2);
  }

  /** Opening an application and then clicking in it: the two tools run in
      that order and the callback hears "Opened Chrome", then
      "Clicked at 100,200". */
  lemma OpenThenClickPlan(envAt: nat -> Env)
    ensures var r := RunPlan([OpenChrome(), ClickAt100By200()], envAt, 0);
            && r.completed && r.executed == 2
            && Notes(r.trace) == ["Opened Chrome", "Clicked at 100,200"]
            && Effects(r.trace) == [LaunchApp(JStr("Chrome")), ClickAt(JNum(100), JNum(200))]
  {
    var actions := [OpenChrome(), ClickAt100By200()];
    var d0 := Dispatch(actions[0], envAt(0));
    var d1 := Dispatch(actions[1], envAt(1));
    OpenChromeOutcome(envAt(0));
    ClickAt100By200Outcome(envAt(1));
    assert d0.notes + d1.notes == ["Opened Chrome", "Clicked at 100,200"];
    assert d0.effects + d1.effects == [LaunchApp(JStr("Chrome")), ClickAt(JNum(100), JNum(200))];
    TwoActionPlan(actions, envAt);
  }
}
