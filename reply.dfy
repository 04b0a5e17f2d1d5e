/** The command path: waiting for the reply line and classifying it. */
module Reply {
  import Json
  import opened Protocol
  import CommandLine

  /** The text whose presence marks a line as a reply. */
  const ErrorKey: string := "\"error\":"

  /** `pat` occurs in `s` starting at position `i`. */
  predicate OccursAt(s: string, pat: string, i: nat)
  {
    i + |pat| <= |s| && s[i..i + |pat|] == pat
  }

  /** Substring search on the text of a line. */
  predicate Contains(s: string, pat: string)
  {
    exists i: nat | i <= |s| :: OccursAt(s, pat, i)
  }

  /** The wait loop accepts a line exactly when its text contains `"error":`. */
  predicate IsReplyLine(line: string)
  {
    Contains(line, ErrorKey)
  }

  /** Position of the first reply line among `lines`. */
  function FirstReplyIndex(lines: seq<string>): (r: nat)
    requires exists k :: 0 <= k < |lines| && IsReplyLine(lines[k])
    ensures r < |lines| && IsReplyLine(lines[r])
    ensures forall j :: 0 <= j < r ==> !IsReplyLine(lines[j])
  {
    if IsReplyLine(lines[0]) then 0
    else
      var k :| 0 <= k < |lines| && IsReplyLine(lines[k]);
      assert lines[1..][k - 1] == lines[k];
      1 + FirstReplyIndex(lines[1..])
  }

  /** The loop of `send_command_sync`: the buffer starts empty and is cleared and
      refilled with the next incoming line until it contains `"error":`. Returns that
      line and how many lines were read. */
  method AwaitReply(incoming: seq<string>) returns (response: string, consumed: nat)
    requires exists k :: 0 <= k < |incoming| && IsReplyLine(incoming[k])
    ensures 1 <= consumed <= |incoming|
    ensures consumed == FirstReplyIndex(incoming) + 1
    ensures response == incoming[consumed - 1] && IsReplyLine(response)
    ensures forall j :: 0 <= j < consumed - 1 ==> !IsReplyLine(incoming[j])
  {
    ghost var first := FirstReplyIndex(incoming);
    response := "";
    consumed := 0;
    while !Contains(response, ErrorKey)
      invariant consumed <= first + 1
      invariant consumed == 0 ==> response == ""
      invariant consumed > 0 ==> response == incoming[consumed - 1]
      decreases first + 1 - consumed
    {
      response := incoming[consumed];
      consumed := consumed + 1;
    }
  }

  /** What `run_command` makes of the parsed reply. */
  function ClassifyReply(reply: ParseResult): (r: Result<()>)
    ensures r.Ok? <==>
      reply.Parsed? && Json.HasStringMember(reply.value, "error")
      && Json.StringMember(reply.value, "error") == "success"
    ensures r.Err? && r.error.MpvError? <==>
      reply.Parsed? && Json.HasStringMember(reply.value, "error")
      && Json.StringMember(reply.value, "error") != "success"
    ensures r.Err? && r.error.MpvError? ==> r.error.msg == Json.StringMember(reply.value, "error")
    ensures r == Err(UnexpectedResult) <==>
      reply.Parsed? && !Json.HasStringMember(reply.value, "error")
    ensures r.Err? && r.error.JsonParseError? <==> reply.ParseFailed?
    ensures reply.ParseFailed? ==> r.error.msg == reply.msg
  {
    match reply
    case Parsed(feedback) =>
      (match Json.Index(feedback, "error")
       case String(error) => if error == "success" then Ok(()) else Err(MpvError(error))
       case _ => Err(UnexpectedResult))
    case ParseFailed(why) => Err(JsonParseError(why))
  }

  /** A whole `run_command` call: the line it writes, its result and how many
      incoming lines it read. The JSON parser is the parameter `parse`. */
  method RunCommand(command: string, args: seq<string>, incoming: seq<string>,
                    parse: string -> ParseResult)
    returns (sent: string, result: Result<()>, consumed: nat)
    requires exists k :: 0 <= k < |incoming| && IsReplyLine(incoming[k])
    ensures sent == CommandLine.Line(command, args)
    ensures consumed == FirstReplyIndex(incoming) + 1
    ensures forall j :: 0 <= j < consumed - 1 ==> !IsReplyLine(incoming[j])
    ensures result == ClassifyReply(parse(incoming[consumed - 1]))
  {
    sent := CommandLine.Encode(command, args);
    var response;
    response, consumed := AwaitReply(incoming);
    result := ClassifyReply(parse(response));
  }

  /** A reply `{"error": "property not found"}` is reported as that command failure. */
  lemma PropertyNotFound()
    ensures ClassifyReply(Parsed(Json.Object(map["error" := Json.String("property not found")])))
         == Err(MpvError("property not found"))
  {
  }
}
