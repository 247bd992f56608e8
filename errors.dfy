/** The error taxonomy of errors.py: a numeric error code, read per logical
    API key, becomes the lines printed to the user and a flag saying whether
    the process then exits. */
module Errors {
  import opened Values
  import opened Text

  /** What one handler does: the lines it prints, and whether it ends the
      process (`sys.exit()`). */
  datatype Report = Report(messages: seq<string>, terminates: bool)

  /** The name used in the "Error in ... request" header (errors.py:11-16).
      The `dsInfo` assignment is overwritten by the if/else that follows it,
      so only `dsTask` gets a spelled-out name. */
  function FullApiName(api: string): (name: string)
    ensures api == "dsTask" ==> name == "Disk Station Task"
    ensures api != "dsTask" ==> name == Title(api)
  {
    if api == "dsTask" then "Disk Station Task" else Title(api)
  }

  /** The message of the codes every API shares (errors.py:20-35). */
  function GenericMessage(code: int): Option<string>
  {
    if code == 100 then Some("Unknown error")
    else if code == 101 then Some("Invalid parameter")
    else if code == 102 then Some("The requested API does not exist")
    else if code == 103 then Some("The requested method does not exist")
    else if code == 104 then Some("The requested version does not support the functionality")
    else if code == 105 then Some("The logged in session does not have permission")
    else if code == 106 then Some("Session timeout")
    else if code == 107 then Some("Session interrupted by duplicate login")
    else None
  }

  function Lines(m: Option<string>): seq<string>
  {
    if m.Some? then [m.value] else []
  }

  /** `handle_error(code, api)`: a header naming the API when the key is
      non-empty, then the generic message for the code, if it has one.  It
      never exits. */
  function HandleError(code: int, api: string): (r: Report)
    ensures !r.terminates
    ensures |r.messages| <= 2
  {
    var header := if api != "" then ["Error in " + FullApiName(api) + " request"] else [];
    Report(header + Lines(GenericMessage(code)), false)
  }

  /** The authentication-specific messages (errors.py:39-48). */
  function AuthMessage(code: int): Option<string>
  {
    if code == 400 then Some("No such account or incorrect password")
    else if code == 401 then Some("Account disabled")
    else if code == 402 then Some("Permission denied")
    else if code == 403 then Some("2-step verification code required")
    else if code == 404 then Some("Failed to authenticate 2-step verification code")
    else None
  }

  /** `handle_auth_error(code)`: prints the message of the code, if it has
      one, and always exits. */
  function HandleAuthError(code: int): (r: Report)
    ensures r.terminates
    ensures |r.messages| <= 1
  {
    Report(Lines(AuthMessage(code)), true)
  }

  /** The task-management-specific messages (errors.py:53-70). */
  function TaskMessage(code: int): Option<string>
  {
    if code == 400 then Some("File upload failed")
    else if code == 401 then Some("Max number of tasks reached")
    else if code == 402 then Some("Destination denied")
    else if code == 403 then Some("Destination does not exist")
    else if code == 404 then Some("Invalid task id")
    else if code == 405 then Some("Invalid task action")
    else if code == 406 then Some("No default destination")
    else if code == 407 then Some("Set destination failed")
    else if code == 408 then Some("File does not exist")
    else None
  }

  /** `handle_ds_task_error(code)`: prints the message of the code, if it has
      one, and always exits. */
  function HandleDsTaskError(code: int): (r: Report)
    ensures r.terminates
    ensures |r.messages| <= 1
  {
    Report(Lines(TaskMessage(code)), true)
  }

  // ---------------------------------------------------------------------
  // Properties of the taxonomy

  /** Codes 100 to 107 each have a generic message and no two share one;
      no other code has a generic message. */
  lemma GenericCodesDistinct(c1: int, c2: int)
    ensures GenericMessage(c1).Some? <==> 100 <= c1 <= 107
    ensures GenericMessage(c1).Some? && GenericMessage(c2).Some? && c1 != c2 ==>
      GenericMessage(c1).value != GenericMessage(c2).value
  {
  }

  /** The lines handle_error prints: exactly one generic line for codes
      100-107 and none otherwise, after a header that is there exactly when
      the API key is non-empty. */
  lemma HandleErrorLines(code: int, api: string)
    ensures var r := HandleError(code, api);
      |r.messages| == (if api != "" then 1 else 0) + (if 100 <= code <= 107 then 1 else 0)
    ensures api != "" ==> HandleError(code, api).messages[0] == "Error in " + FullApiName(api) + " request"
    ensures api == "" && 100 <= code <= 107 ==> HandleError(code, api).messages == [GenericMessage(code).value]
  {
  }

  /** The dsInfo key is named by its title-cased key, "Dsinfo", and not
      "Disk Station Info". */
  lemma DsInfoHeader()
    ensures FullApiName("dsInfo") == "Dsinfo"
    ensures HandleError(106, "dsInfo").messages == ["Error in Dsinfo request", "Session timeout"]
  {
    var s := "dsInfo";
    TitlePointwise(s);
    assert Title(s) == "Dsinfo";
    assert "Error in " + "Dsinfo" + " request" == "Error in Dsinfo request";
    assert HandleError(106, s).messages == ["Error in " + "Dsinfo" + " request"] + ["Session timeout"];
  }

  /** Authentication codes 400-404 and task codes 400-408 each have a message
      of their own; no other code has one; and the same code means different
      things to the two APIs. */
  lemma SpecificCodes(code: int)
    ensures AuthMessage(code).Some? <==> 400 <= code <= 404
    ensures TaskMessage(code).Some? <==> 400 <= code <= 408
    ensures AuthMessage(code).Some? ==> AuthMessage(code) != TaskMessage(code)
    ensures 400 <= code <= 408 ==> GenericMessage(code).None?
  {
  }

  /** Both specific handlers exit for every code, and an unlisted code exits
      without printing anything. */
  lemma SpecificHandlersAlwaysExit(code: int)
    ensures HandleAuthError(code).terminates && HandleDsTaskError(code).terminates
    ensures !(400 <= code <= 404) ==> HandleAuthError(code).messages == []
    ensures !(400 <= code <= 408) ==> HandleDsTaskError(code).messages == []
  {
  }
}
