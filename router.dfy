/** Routing of server messages and the text forms of chat lines and alerts. */
module Router {
  import opened Types

  /** Where a server message ends up after it has been logged. */
  datatype Destination =
    | AlertDest(kind: AlertType, text: string)
    | CenterDest(text: string)
    | ChatDest(text: string)

  /** `msg.substr(0, 3) == code` for a three-character code: shorter messages never match. */
  predicate HasCode(msg: string, code: string)
    requires |code| == 3
  {
    |msg| >= 3 && msg[..3] == code
  }

  /** The four directive codes a server message may start with when server alerts are on. */
  const NoticeCode: string := "N% "
  const ErrorCode: string := "!% "
  const WarningCode: string := "%% "
  const CenterCode: string := "C% "

  /** Dispatch of ServerSentMessage after logging: the codes are tried in this order. */
  function RouteServerMessage(msg: string, serverAlert: bool): (d: Destination)
    ensures d.ChatDest? <==>
      !(serverAlert && (HasCode(msg, NoticeCode) || HasCode(msg, ErrorCode) || HasCode(msg, WarningCode) || HasCode(msg, CenterCode)))
    ensures d.ChatDest? ==> d.text == msg
    ensures !d.ChatDest? ==> |msg| >= 3 && d.text == msg[3..]
    ensures d.CenterDest? <==> serverAlert && HasCode(msg, CenterCode)
    ensures d == AlertDest(Notice, d.text) <==> serverAlert && HasCode(msg, NoticeCode)
    ensures d == AlertDest(Error, d.text) <==> serverAlert && HasCode(msg, ErrorCode)
    ensures d == AlertDest(Warning, d.text) <==> serverAlert && HasCode(msg, WarningCode)
  {
    if serverAlert && HasCode(msg, NoticeCode) then AlertDest(Notice, msg[3..])
    else if serverAlert && HasCode(msg, ErrorCode) then AlertDest(Error, msg[3..])
    else if serverAlert && HasCode(msg, WarningCode) then AlertDest(Warning, msg[3..])
    else if serverAlert && HasCode(msg, CenterCode) then CenterDest(msg[3..])
    else ChatDest(msg)
  }

  /** A routed message loses nothing: the code and the destination's text give back the message. */
  lemma RouteKeepsText(msg: string, serverAlert: bool)
    ensures var d := RouteServerMessage(msg, serverAlert);
      msg == (match d
        case AlertDest(Notice, t) => NoticeCode + t
        case AlertDest(Error, t) => ErrorCode + t
        case AlertDest(Warning, t) => WarningCode + t
        case CenterDest(t) => CenterCode + t
        case ChatDest(t) => t)
  {
    var d := RouteServerMessage(msg, serverAlert);
    if !d.ChatDest? {
      assert msg == msg[..3] + msg[3..];
    }
  }

  /** "N% Base captured" raises a Notice alert reading "Base captured"; plain text goes to the chat window. */
  lemma RouteExamples()
    ensures RouteServerMessage("N% Base captured", true) == AlertDest(Notice, "Base captured")
    ensures RouteServerMessage("Hello everyone", true) == ChatDest("Hello everyone")
    ensures RouteServerMessage("N% Base captured", false) == ChatDest("N% Base captured")
    ensures RouteServerMessage("N%", true) == ChatDest("N%")
  {
    assert "N% Base captured"[..3] == NoticeCode;
    assert "N% Base captured"[3..] == "Base captured";
    assert "Hello everyone"[..3] == "Hel";
  }

  // ---------------------------------------------------------------- alerts

  /** Timeout the two-argument ShowAlert uses for each severity. */
  function DefaultAlertTimeout(kind: AlertType): (r: real)
    ensures r > 0.0
    ensures kind == Notice <==> r == 2.5
    ensures kind != Notice <==> r == 3.0
  {
    match kind
    case Notice => 2.5
    case Warning => 3.0
    case Error => 3.0
  }

  /** The alert sound plays for warnings and errors unless the caller asked for quiet. */
  predicate AlertSoundPlays(kind: AlertType, quiet: bool) {
    kind != Notice && !quiet
  }

  const AlertSound: string := "Sounds/Feedback/Alert.opus"
  const ChatSound: string := "Sounds/Feedback/Chat.opus"

  // ---------------------------------------------------------------- chat lines

  /** The net-log line for a player's chat message: `[Global] name (team): msg` or `[Team] name (team): msg`. */
  function ChatNetLogLine(global: bool, name: string, teamName: string, msg: string): (line: string) {
    (if global then "[Global] " else "[Team] ") + name + " (" + teamName + "): " + msg
  }

  /** The chat-log entry of the scripted UI: `[Global] ` only for global chat, then `name: msg`. */
  function ChatLogLine(global: bool, name: string, msg: string): (line: string) {
    (if global then "[Global] " else "") + name + ": " + msg
  }

  /** The net-log line can be split back into its tag, sender, team and message. */
  lemma ChatNetLogLineLayout(global: bool, name: string, teamName: string, msg: string)
    ensures var line := ChatNetLogLine(global, name, teamName, msg);
      var tag := if global then "[Global] " else "[Team] ";
      var n := |tag| + |name|;
      && |line| == n + 2 + |teamName| + 3 + |msg|
      && line[..|tag|] == tag
      && line[|tag|..n] == name
      && line[n..n + 2] == " ("
      && line[n + 2..n + 2 + |teamName|] == teamName
      && line[n + 2 + |teamName|..n + 5 + |teamName|] == "): "
      && line[n + 5 + |teamName|..] == msg
  {
    var tag := if global then "[Global] " else "[Team] ";
    var line := ChatNetLogLine(global, name, teamName, msg);
    assert line == tag + name + " (" + teamName + "): " + msg;
  }

  lemma ChatNetLogLineExample()
    ensures ChatNetLogLine(true, "Alice", "Blue", "gg") == "[Global] Alice (Blue): gg"
  {
  }
}
