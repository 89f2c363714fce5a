/** `AutomationAgent.execute`: run one action `{type, value}` and report its
    outcome through the callback. The operating-system tools are abstract
    events; what the screenshot and vision calls return comes in as `Env`. */
module Automation {
  import opened Wrappers
  import opened Json
  import opened Text

  /** A request to an operating-system tool or the vision backend, in the
      order issued. */
  datatype Effect =
    | LaunchApp(name: Json)          // `open -a name`
    | ClickAt(x: Json, y: Json)      // click at a position
    | ClickHere                      // click where the cursor is
    | Screenshot(path: string)       // `screencapture` into path
    | AskVision(prompt: Json)        // the vision model, on the screenshot's bytes
    | Speak(text: string)            // text to speech

  /** How reading back the vision screenshot went: its analysis (the parsed
      model reply, or `{"result": null}` when that does not parse), or the
      read raised because the capture left no file. */
  datatype Vision = Analyzed(result: Json) | ReadFailed

  /** How speaking went: `say` or the pyttsx3 fallback spoke, or the fallback
      raised too (`speak_text` guards only the first attempt). */
  datatype Speech = Voiced | SpeechFailed

  /** What the outside world supplies to one execution: the base directory,
      the clock stamp for file names, and the vision and speech outcomes. */
  datatype Env = Env(baseDir: string, stamp: string, vision: Vision, speech: Speech)

  /** One execution: the tool effects and the notifications sent, or the
      exception that escaped after some effects. */
  datatype Outcome =
    | Completed(effects: seq<Effect>, notes: seq<string>)
    | Raised(effects: seq<Effect>)

  /** `Tools.click(x, y)`: the position is used only when both coordinates are
      truthy; otherwise the click lands where the cursor is. */
  function ClickTarget(x: Json, y: Json): (e: Effect)
    ensures e.ClickAt? <==> Truthy(x) && Truthy(y)
    ensures e.ClickAt? ==> e == ClickAt(x, y)
    ensures e.ClickAt? || e == ClickHere
  {
    if Truthy(x) && Truthy(y) then ClickAt(x, y) else ClickHere
  }

  /** `str(BASE_DIR / name)`. */
  function PathIn(dir: string, name: string): string {
    dir + "/" + name
  }

  function ScreenshotPath(env: Env): string {
    PathIn(env.baseDir, "screenshot_" + env.stamp + ".png")
  }

  function VisionPath(env: Env): string {
    PathIn(env.baseDir, "vision_" + env.stamp + ".png")
  }

  /** The rows of the dispatch table, one per notification the executor can send. */
  datatype Row = OpenRow | ClickAtRow | ClickHereRow | VisionRow | SpeakRow | ScreenshotRow | UnknownRow

  /** The row an action object falls into, read off its `type` and `value`. */
  function RowOf(fields: seq<(string, Json)>): Row {
    var typ := Get(fields, "type");
    if typ == JStr("open_app") then OpenRow
    else if typ == JStr("click") then (if Get(fields, "value").JObj? then ClickAtRow else ClickHereRow)
    else if typ == JStr("vision_task") then VisionRow
    else if typ == JStr("speak") then SpeakRow
    else if typ == JStr("screenshot") then ScreenshotRow
    else UnknownRow
  }

  /** The rows whose tool can let an exception escape in `env`: the vision
      task when its screenshot cannot be read back, and speaking when the
      fallback speech engine fails too. */
  predicate RaisesIn(row: Row, env: Env) {
    || (row == VisionRow && env.vision.ReadFailed?)
    || (row == SpeakRow && env.speech.SpeechFailed?)
  }

  /** One action without the callback: its effects and the one notification it
      would send, or the exception. An action that is not a dict fails at
      `action.get` (AttributeError). */
  function Dispatch(action: Json, env: Env): (r: Outcome)
    ensures r.Raised? <==> !action.JObj? || RaisesIn(RowOf(action.fields), env)
    ensures r.Completed? ==> |r.notes| == 1
  {
    match action
    case JObj(fields) => Perform(RowOf(fields), Get(fields, "type"), Get(fields, "value"), env)
    case _ => Raised([])
  }

  /** The branch of the `if typ == ...` chain that `row` selects, for an action
      of type `typ` and value `val`. */
  function Perform(row: Row, typ: Json, val: Json, env: Env): (r: Outcome)
    ensures r.Raised? <==> RaisesIn(row, env)
    ensures r.Completed? ==> |r.notes| == 1
  {
    match row
    case OpenRow => Completed([LaunchApp(val)], ["Opened " + Str(val)])
    case ClickAtRow =>
      (match val
       case JObj(coords) =>
         var x := Get(coords, "x");
         var y := Get(coords, "y");
         Completed([ClickTarget(x, y)], ["Clicked at " + Str(x) + "," + Str(y)])
       case _ => Completed([ClickHere], ["Clicked current position"]))
    case ClickHereRow => Completed([ClickHere], ["Clicked current position"])
    case VisionRow =>
      (match env.vision
       case ReadFailed => Raised([Screenshot(VisionPath(env))])
       case Analyzed(res) =>
         Completed([Screenshot(VisionPath(env)), AskVision(val)], ["Vision result: " + Str(res)]))
    case SpeakRow =>
      (match env.speech
       case SpeechFailed => Raised([Speak(Str(val))])
       case Voiced => Completed([Speak(Str(val))], ["Spoken."]))
    case ScreenshotRow => Completed([Screenshot(ScreenshotPath(env))], ["Saved screenshot at " + ScreenshotPath(env)])
    case UnknownRow => Completed([], ["Unknown action: " + Str(typ)])
  }

  /** The dispatch table, keyed on the action's `type` string: for each type the
      tool effects, in order, and the exact notification text. */
  lemma DispatchTable(fields: seq<(string, Json)>, env: Env)
    ensures var typ := Get(fields, "type");
            var val := Get(fields, "value");
            var d := Dispatch(JObj(fields), env);
            && (typ == JStr("open_app") ==> d == Completed([LaunchApp(val)], ["Opened " + Str(val)]))
            && (typ == JStr("click") && val.JObj? ==>
                  var x := Get(val.fields, "x");
                  var y := Get(val.fields, "y");
                  d == Completed([ClickTarget(x, y)], ["Clicked at " + Str(x) + "," + Str(y)]))
            && (typ == JStr("click") && !val.JObj? ==> d == Completed([ClickHere], ["Clicked current position"]))
            && (typ == JStr("vision_task") && env.vision.ReadFailed? ==> d == Raised([Screenshot(VisionPath(env))]))
            && (typ == JStr("vision_task") && env.vision.Analyzed? ==>
                  d == Completed([Screenshot(VisionPath(env)), AskVision(val)], ["Vision result: " + Str(env.vision.result)]))
            && (typ == JStr("speak") && env.speech.Voiced? ==> d == Completed([Speak(Str(val))], ["Spoken."]))
            && (typ == JStr("speak") && env.speech.SpeechFailed? ==> d == Raised([Speak(Str(val))]))
            && (typ == JStr("screenshot") ==>
                  d == Completed([Screenshot(ScreenshotPath(env))], ["Saved screenshot at " + ScreenshotPath(env)]))
            && (typ !in [JStr("open_app"), JStr("click"), JStr("vision_task"), JStr("speak"), JStr("screenshot")] ==>
                  d == Completed([], ["Unknown action: " + Str(typ)]))
  {
  }

  /** Every click with a dict value reports the coordinates it was given, but
      clicks at them only when both are truthy, and otherwise where the cursor
      is. */
  lemma ClickActionTarget(fields: seq<(string, Json)>, env: Env)
    requires Get(fields, "type") == JStr("click") && Get(fields, "value").JObj?
    ensures var coords := Get(fields, "value").fields;
            var x := Get(coords, "x");
            var y := Get(coords, "y");
            var d := Dispatch(JObj(fields), env);
            && d.Completed?
            && d.notes == ["Clicked at " + Str(x) + "," + Str(y)]
            && (d.effects == [ClickAt(x, y)] <==> Truthy(x) && Truthy(y))
            && (d.effects == [ClickHere] <==> !(Truthy(x) && Truthy(y)))
  {
    DispatchTable(fields, env);
  }

  /** `execute(action, cb)`: the same effects, and the notification only when a
      callback is given. */
  function Execute(action: Json, hasCallback: bool, env: Env): (r: Outcome)
    ensures r.Raised? <==> Dispatch(action, env).Raised?
    ensures r.effects == Dispatch(action, env).effects
    ensures r.Completed? ==> |r.notes| == (if hasCallback then 1 else 0)
    ensures r.Completed? && hasCallback ==> r.notes == Dispatch(action, env).notes
  {
    var d := Dispatch(action, env);
    if d.Completed? && !hasCallback then Completed(d.effects, []) else d
  }

  /** Executing with the callback sends exactly what the table produces. */
  lemma ExecuteWithCallback(action: Json, env: Env)
    ensures Execute(action, true, env) == Dispatch(action, env)
  {
  }

  /** Reading a notification back: which row of the table sent it. */
  function RowOfNote(note: string): Option<Row> {
    if StartsWith(note, "Opened ") then Some(OpenRow)
    else if note == "Clicked current position" then Some(ClickHereRow)
    else if StartsWith(note, "Clicked at ") then Some(ClickAtRow)
    else if StartsWith(note, "Vision result: ") then Some(VisionRow)
    else if note == "Spoken." then Some(SpeakRow)
    else if StartsWith(note, "Saved screenshot at ") then Some(ScreenshotRow)
    else if StartsWith(note, "Unknown action: ") then Some(UnknownRow)
    else None
  }

  lemma PrefixOfAppend(p: string, rest: string)
    ensures StartsWith(p + rest, p)
  {
    assert (p + rest)[..|p|] == p;
  }

  lemma OpenNoteRow(rest: string)
    ensures RowOfNote("Opened " + rest) == Some(OpenRow)
  {
    PrefixOfAppend("Opened ", rest);
  }

  lemma ClickAtNoteRow(rest: string)
    ensures RowOfNote("Clicked at " + rest) == Some(ClickAtRow)
  {
    var note := "Clicked at " + rest;
    PrefixOfAppend("Clicked at ", rest);
    assert note[0] == 'C' && note[8] == 'a';
  }

  lemma VisionNoteRow(rest: string)
    ensures RowOfNote("Vision result: " + rest) == Some(VisionRow)
  {
    var note := "Vision result: " + rest;
    PrefixOfAppend("Vision result: ", rest);
    assert note[0] == 'V';
  }

  lemma ScreenshotNoteRow(rest: string)
    ensures RowOfNote("Saved screenshot at " + rest) == Some(ScreenshotRow)
  {
    var note := "Saved screenshot at " + rest;
    PrefixOfAppend("Saved screenshot at ", rest);
    assert note[0] == 'S' && note[1] == 'a';
  }

  lemma UnknownNoteRow(rest: string)
    ensures RowOfNote("Unknown action: " + rest) == Some(UnknownRow)
  {
    var note := "Unknown action: " + rest;
    PrefixOfAppend("Unknown action: ", rest);
    assert note[0] == 'U';
  }

  lemma FixedNoteRows()
    ensures RowOfNote("Clicked current position") == Some(ClickHereRow)
    ensures RowOfNote("Spoken.") == Some(SpeakRow)
  {
    var here := "Clicked current position";
    var spoken := "Spoken.";
    assert !StartsWith(here, "Opened ") by { assert here[..7][0] == 'C'; }
    assert !StartsWith(spoken, "Opened ") by { assert spoken[..7][0] == 'S'; }
  }

  /** The notification tells which row of the dispatch table ran: every row
      sends a text no other row can send. */
  lemma {:induction false} NoteIdentifiesRow(action: Json, env: Env)
    requires Dispatch(action, env).Completed?
    ensures RowOfNote(Dispatch(action, env).notes[0]) == Some(RowOf(action.fields))
  {
    var fields := action.fields;
    var val := Get(fields, "value");
    var note := Dispatch(action, env).notes[0];
    match RowOf(fields)
    case OpenRow =>
      assert note == "Opened " + Str(val);
      OpenNoteRow(Str(val));
    case ClickAtRow =>
      var rest := Str(Get(val.fields, "x")) + "," + Str(Get(val.fields, "y"));
      assert note == "Clicked at " + rest;
      ClickAtNoteRow(rest);
    case ClickHereRow =>
      assert note == "Clicked current position";
      FixedNoteRows();
    case VisionRow =>
      assert note == "Vision result: " + Str(env.vision.result);
      VisionNoteRow(Str(env.vision.result));
    case SpeakRow =>
      assert note == "Spoken.";
      FixedNoteRows();
    case ScreenshotRow =>
      assert note == "Saved screenshot at " + ScreenshotPath(env);
      ScreenshotNoteRow(ScreenshotPath(env));
    case UnknownRow =>
      assert note == "Unknown action: " + Str(Get(fields, "type"));
      UnknownNoteRow(Str(Get(fields, "type")));
  }

  /** An action of an unknown type touches no tool and names its type. */
  lemma UnknownTypeHasNoEffect(action: Json, env: Env)
    requires action.JObj? && RowOf(action.fields) == UnknownRow
    ensures Dispatch(action, env) == Completed([], ["Unknown action: " + Str(Get(action.fields, "type"))])
  {
  }

  /** The click notification quotes the coordinates it was given even when the
      tool fell back to the current cursor position: a zero coordinate is
      falsy, so `{"x": 0, "y": 200}` clicks in place yet reports "Clicked at 0,200". */
  lemma ClickNoteMayNameUnusedPosition(env: Env)
    ensures var action := JObj([("type", JStr("click")), ("value", JObj([("x", JNum(0)), ("y", JNum(200))]))]);
            Dispatch(action, env) == Completed([ClickHere], ["Clicked at 0,200"])
  {
    var value := JObj([("x", JNum(0)), ("y", JNum(200))]);
    var action := JObj([("type", JStr("click")), ("value", value)]);
    ZeroClickFields();
    ZeroCoordinateText();
    ClickActionTarget(action.fields, env);
  }

  lemma ZeroClickFields()
    ensures var value := JObj([("x", JNum(0)), ("y", JNum(200))]);
            var fields := [("type", JStr("click")), ("value", value)];
            && Get(fields, "type") == JStr("click") && Get(fields, "value") == value
            && Get(value.fields, "x") == JNum(0) && Get(value.fields, "y") == JNum(200)
  {
    var value := JObj([("x", JNum(0)), ("y", JNum(200))]);
    assert LastWith([("type", JStr("click")), ("value", value)], "type", 2) == 0;
    assert LastWith(value.fields, "x", 2) == 0;
  }

  lemma ZeroCoordinateText()
    ensures "Clicked at " + Str(JNum(0)) + "," + Str(JNum(200)) == "Clicked at 0,200"
  {
    HundredsText();
    assert Str(JNum(0)) == "0";
    assert "Clicked at " + "0" + "," + "200" == "Clicked at 0,200";
  }


  /** `{"type": "open_app", "value": "Chrome"}`. */
  function OpenChrome(): Json {
    JObj([("type", JStr("open_app")), ("value", JStr("Chrome"))])
  }

  /** `{"type": "click", "value": {"x": 100, "y": 200}}`. */
  function ClickAt100By200(): Json {
    JObj([("type", JStr("click")), ("value", JObj([("x", JNum(100)), ("y", JNum(200))]))])
  }

  lemma OpenChromeOutcome(env: Env)
    ensures Dispatch(OpenChrome(), env) == Completed([LaunchApp(JStr("Chrome"))], ["Opened Chrome"])
  {
    var fields := OpenChrome().fields;
    assert LastWith(fields, "type", 2) == 0;
    assert Get(fields, "value") == JStr("Chrome");
    DispatchTable(fields, env);
    assert "Opened " + Str(JStr("Chrome")) == "Opened Chrome";
  }

  lemma ClickAt100By200Outcome(env: Env)
    ensures Dispatch(ClickAt100By200(), env) == Completed([ClickAt(JNum(100), JNum(200))], ["Clicked at 100,200"])
  {
    var fields := ClickAt100By200().fields;
    var coords := [("x", JNum(100)), ("y", JNum(200))];
    assert LastWith(fields, "type", 2) == 0;
    assert Get(fields, "value") == JObj(coords);
    assert LastWith(coords, "x", 2) == 0;
    assert Get(coords, "x") == JNum(100) && Get(coords, "y") == JNum(200);
    ClickActionTarget(fields, env);
    CoordinateText();
  }

  lemma CoordinateText()
    ensures "Clicked at " + Str(JNum(100)) + "," + Str(JNum(200)) == "Clicked at 100,200"
  {
    HundredsText();
    assert "Clicked at " + "100" + "," + "200" == "Clicked at 100,200";
  }

  lemma HundredsText()
    ensures Str(JNum(100)) == "100" && Str(JNum(200)) == "200"
  {
    assert NatToString(10) == "10";
    assert NatToString(20) == "20";
  }
}
