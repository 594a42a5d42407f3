/** The leveled logging operations that `module.log` returns
    (index.js:109-140). Each one hands a `{type, name, msg}` record to the
    alert renderer; here that record is the result, and a call that renders
    nothing returns None. */
module Alerts {
  import opened JsText

  /** The `type` values the operations use. */
  datatype AlertType = Warning | Info | Error | Success

  /** The record given to the alert renderer. */
  datatype Alert = Alert(kind: AlertType, name: Text, msg: Text)

  /** `DEBUG LOG` */
  const DEBUG_LOG: Text := [0x44, 0x45, 0x42, 0x55, 0x47, 0x20, 0x4C, 0x4F, 0x47]
  /** ` - ` */
  const TITLE_SEPARATOR: Text := [0x20, 0x2D, 0x20]
  /** The robot emoji, U+1F916, as its surrogate pair. */
  const ROBOT_FACE: Text := [0xD83E, 0xDD16]
  /** The robot emoji followed by `:` */
  const ROBOT: Text := ROBOT_FACE + [0x3A]
  /** The robot emoji followed by ` OH NO!:` */
  const ROBOT_OH_NO: Text := ROBOT_FACE + [0x20, 0x4F, 0x48, 0x20, 0x4E, 0x4F, 0x21, 0x3A]

  /** The debug alert's name: `DEBUG LOG`, followed by ` - ` and the title
      when the title is not the empty string. */
  function DebugName(title: Text): (name: Text)
    ensures |DEBUG_LOG| <= |name| && name[..|DEBUG_LOG|] == DEBUG_LOG
    ensures name == DEBUG_LOG <==> title == []
    ensures title != [] ==> name[|DEBUG_LOG|..] == TITLE_SEPARATOR + title
  {
    if title != [] then
      var name := DEBUG_LOG + (TITLE_SEPARATOR + title);
      assert |name| > |DEBUG_LOG|;
      name
    else DEBUG_LOG
  }

  /** Reads the title back from a debug alert's name. */
  function DebugTitle(name: Text): Option<Text> {
    var prefix := DEBUG_LOG + TITLE_SEPARATOR;
    if name == DEBUG_LOG then Some([])
    else if |prefix| < |name| && name[..|prefix|] == prefix then Some(name[|prefix|..])
    else None
  }

  /** The title can always be recovered from the name, so different
      titles give different names. */
  lemma DebugNameRoundTrip(title: Text)
    ensures DebugTitle(DebugName(title)) == Some(title)
  {
    var prefix := DEBUG_LOG + TITLE_SEPARATOR;
    if title != [] {
      var name := DebugName(title);
      assert name == prefix + title;
      assert name[..|prefix|] == prefix;
      assert name[|prefix|..] == title;
    }
  }

  /** `debug(msg, title = '', debug = false)`: nothing unless enabled, then
      one warning whose message is the serialisation of `msg`.
      `stringify` stands for JSON.stringify. */
  function Debug<V>(stringify: V -> Text, msg: V, title: Text := [], enabled: bool := false)
    : (r: Option<Alert>)
    ensures r.None? <==> !enabled
    ensures r.Some? ==> r.value.kind == Warning
    ensures r.Some? ==> r.value.name == DebugName(title) && r.value.msg == stringify(msg)
  {
    if enabled then Some(Alert(Warning, DebugName(title), stringify(msg))) else None
  }

  /** `info(msg)` */
  function InfoAlert(msg: Text): Alert {
    Alert(Info, ROBOT, msg)
  }

  /** `error(msg)` */
  function ErrorAlert(msg: Text): Alert {
    Alert(Error, ROBOT_OH_NO, msg)
  }

  /** `success(msg)` */
  function SuccessAlert(msg: Text): Alert {
    Alert(Success, ROBOT, msg)
  }

  /** The three fixed-level operations pass the message through unchanged
      and are told apart by their type: info and success share the robot
      name, error has its own. */
  lemma LeveledAlerts(msg: Text)
    ensures InfoAlert(msg).kind == Info && InfoAlert(msg).msg == msg
    ensures ErrorAlert(msg).kind == Error && ErrorAlert(msg).msg == msg
    ensures SuccessAlert(msg).kind == Success && SuccessAlert(msg).msg == msg
    ensures InfoAlert(msg).name == SuccessAlert(msg).name == ROBOT
    ensures ErrorAlert(msg).name == ROBOT_OH_NO != ROBOT
  {
  }

  /** No two operations can produce the same record, and each fixed-level
      operation keeps its message. This is a consequence of the record
      shape (a distinct type per operation, the message carried as is), not
      a promise the module makes. */
  lemma AlertsIdentifyTheirCall<V>(stringify: V -> Text, v: V, title: Text, m1: Text, m2: Text)
    ensures InfoAlert(m1) != ErrorAlert(m2) && InfoAlert(m1) != SuccessAlert(m2)
    ensures ErrorAlert(m1) != SuccessAlert(m2)
    ensures InfoAlert(m1) == InfoAlert(m2) ==> m1 == m2
    ensures ErrorAlert(m1) == ErrorAlert(m2) ==> m1 == m2
    ensures SuccessAlert(m1) == SuccessAlert(m2) ==> m1 == m2
    ensures var d := Debug(stringify, v, title, true);
      d.value != InfoAlert(m1) && d.value != ErrorAlert(m1) && d.value != SuccessAlert(m1)
  {
  }
}
