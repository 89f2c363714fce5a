/** `RouterAgent.route`: ask the text model how to handle a message and read
    its reply either as a plan of actions or as a plain answer. */
module Router {
  import opened Wrappers
  import opened Json
  import opened Text

  /** What the router hands back: the answer text, or the value found under
      the plan's `"actions"` key (any JSON value; nothing checks it is a list). */
  datatype Decision = Answer(text: string) | Actions(plan: Json)

  /** The prefix, compared case-insensitively, that marks a reply as a plan. */
  const Marker: string := "COMMAND:"

  /** The instruction sent to the text model for a user message. */
  function Prompt(msg: string): string {
    "User query: " + msg + "\nReturn COMMAND:<json> or ANSWER:<text>"
  }

  /** `out.upper().startswith("COMMAND:")`. */
  predicate IsCommand(out: string) {
    StartsWith(Upper(out), Marker)
  }

  /** The marker test reads the first eight characters only, ignoring the case
      of letters: "command:", "Command:" and "COMMAND:" all mark a plan. */
  lemma IsCommandByCharacters(out: string)
    ensures IsCommand(out) <==> |out| >= |Marker| && forall i :: 0 <= i < |Marker| ==> UpperChar(out[i]) == Marker[i]
  {
    if |out| >= |Marker| {
      assert forall i :: 0 <= i < |Marker| ==> Upper(out)[..|Marker|][i] == UpperChar(out[i]);
    }
  }

  /** A reply that carries the marker has its first ':' right after it, so the
      text `split(":", 1)` returns is everything after the marker. */
  lemma MarkerPayload(out: string)
    requires IsCommand(out)
    ensures AfterFirst(out, ':') == Some(out[|Marker|..])
  {
    IsCommandByCharacters(out);
    assert out[7] == ':';
    forall i | 0 <= i < 7
      ensures out[i] != ':'
    {
      assert UpperChar(out[i]) == Marker[i];
    }
    assert ':' !in out[..7];
  }

  /** The decision for the model's raw reply `out`; `parse` is `json.loads`,
      returning None where it raises. Only a reply with the marker whose payload
      parses to an object yields a plan; every other reply, including a payload
      that does not parse or is not an object (no `.get`, so the `except`
      swallows it), is returned as the answer unchanged. */
  function Decide(out: string, parse: string -> Option<Json>): (d: Decision)
    ensures !IsCommand(out) ==> d == Answer(out)
    ensures d.Answer? ==> d.text == out
    ensures d.Actions? <==>
              IsCommand(out) && parse(Strip(out[|Marker|..])).Some? && parse(Strip(out[|Marker|..])).value.JObj?
    ensures d.Actions? ==>
              d.plan == Lookup(parse(Strip(out[|Marker|..])).value.fields, "actions").GetOr(JArr([]))
  {
    if IsCommand(out) then
      MarkerPayload(out);
      match AfterFirst(out, ':')
      case None => Answer(out)
      case Some(rest) =>
        match parse(Strip(rest))
        case Some(JObj(fields)) => Actions(Lookup(fields, "actions").GetOr(JArr([])))
        case _ => Answer(out)
    else Answer(out)
  }

  /** `route(msg)`: the decision for whatever the text model replies to the
      prompt built from `msg`. */
  function Route(msg: string, model: string -> string, parse: string -> Option<Json>): Decision {
    Decide(model(Prompt(msg)), parse)
  }

  /** The stub backend used when no model is configured: a fixed answer prefix
      followed by the first 200 characters of the prompt. */
  function StubTextModel(prompt: string): string {
    "ANSWER: (Stub LLM Response) " + prompt[..if |prompt| < 200 then |prompt| else 200]
  }

  /** With the stub backend every message is answered, never planned, and the
      answer is the stub's reply verbatim. */
  lemma StubAlwaysAnswers(msg: string, parse: string -> Option<Json>)
    ensures Route(msg, StubTextModel, parse) == Answer(StubTextModel(Prompt(msg)))
  {
    var out := StubTextModel(Prompt(msg));
    assert out[0] == 'A';
    IsCommandByCharacters(out);
  }

  /** The marker may come in any letter case: a lower-case marker is
      recognised like the upper-case one. */
  lemma LowerCaseMarkerIsCommand(payload: string)
    ensures IsCommand("command:" + payload)
  {
    var out := "command:" + payload;
    IsCommandByCharacters(out);
    assert out[..8] == "command:";
  }

  /** Once the marker is recognised, whether the reply is planned, and the
      plan itself, depend only on the payload after it, not on how the marker
      was written. An answer still echoes the raw reply, marker included. */
  lemma DecisionDependsOnPayload(out1: string, out2: string, parse: string -> Option<Json>)
    requires IsCommand(out1) && IsCommand(out2)
    requires out1[|Marker|..] == out2[|Marker|..]
    ensures Decide(out1, parse).Actions? <==> Decide(out2, parse).Actions?
    ensures Decide(out1, parse).Actions? ==> Decide(out1, parse) == Decide(out2, parse)
  {
  }
}
