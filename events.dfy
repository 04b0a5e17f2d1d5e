/** The event path of `listen`: one line is read, its trailing whitespace removed,
    the rest parsed, and the `"event"` member mapped to an `Event`. */
module Events {
  import Json
  import opened Protocol

  /** Characters with the Unicode White_Space property, which `trim_end` removes. */
  predicate IsWhitespace(c: char)
  {
    ('\t' <= c <= '\r') || c == ' ' || c == '\U{85}' || c == '\U{A0}' || c == '\U{1680}'
    || ('\U{2000}' <= c <= '\U{200A}') || c == '\U{2028}' || c == '\U{2029}'
    || c == '\U{202F}' || c == '\U{205F}' || c == '\U{3000}'
  }

  predicate AllWhitespace(s: string)
  {
    forall i :: 0 <= i < |s| ==> IsWhitespace(s[i])
  }

  /** `s` without its trailing whitespace: the longest prefix of `s` that does not
      end in whitespace, with only whitespace after it. */
  function TrimEnd(s: string): (r: string)
    ensures r <= s
    ensures r == [] || !IsWhitespace(r[|r| - 1])
    ensures AllWhitespace(s[|r|..])
  {
    if s != [] && IsWhitespace(s[|s| - 1]) then
      var r := TrimEnd(s[..|s| - 1]);
      assert s[|r|..] == s[..|s| - 1][|r|..] + [s[|s| - 1]];
      r
    else s
  }

  /** Whitespace appended to a line, such as its newline, never reaches the parser. */
  lemma {:induction false} TrimEndIgnoresTrailingWhitespace(s: string, ws: string)
    requires AllWhitespace(ws)
    ensures TrimEnd(s + ws) == TrimEnd(s)
  {
    if ws != [] {
      var shorter := ws[..|ws| - 1];
      assert (s + ws)[..|s + ws| - 1] == s + shorter;
      TrimEndIgnoresTrailingWhitespace(s, shorter);
    } else {
      assert s + ws == s;
    }
  }

  /** Trimming twice is trimming once. */
  lemma TrimEndIdempotent(s: string)
    ensures TrimEnd(TrimEnd(s)) == TrimEnd(s)
  {
  }

  /** The event names for which `listen` asks the player for the current position. */
  predicate QueriesPosition(name: string)
  {
    name == "seek" || name == "pause" || name == "unpause"
  }

  /** The fixed map from event name to event; `pos` is the answer of the position
      query, which only the three typed events use. */
  function EventFromName(name: string, pos: Json.F64): (e: Event)
    ensures e == Seek(pos) <==> name == "seek"
    ensures e == Pause(pos) <==> name == "pause"
    ensures e == Play(pos) <==> name == "unpause"
    ensures e == Unimplemented <==> !QueriesPosition(name)
  {
    match name
    case "seek" => Seek(pos)
    case "pause" => Pause(pos)
    case "unpause" => Play(pos)
    case _ => Unimplemented
  }

  /** How a call of `listen` ends: it returns a result, or panics (`unreachable!()`,
      or `unwrap` on a failed position query). */
  datatype Listened = Returned(result: Result<Event>) | Panicked

  /** What `listen` makes of a parsed line. `query` is what the position query would
      return; it is consulted, and unwrapped, only for the three typed events. */
  function ClassifyEvent(parsed: ParseResult, query: Result<Json.F64>): (o: Listened)
    ensures parsed.ParseFailed? ==> o == Returned(Err(JsonParseError(parsed.msg)))
    ensures parsed.Parsed? ==> !(o.Returned? && o.result.Err?)
    ensures o.Panicked? <==>
      parsed.Parsed? && (!Json.HasStringMember(parsed.value, "event")
                         || (QueriesPosition(Json.StringMember(parsed.value, "event")) && query.Err?))
    ensures o.Returned? && o.result.Ok? <==>
      parsed.Parsed? && Json.HasStringMember(parsed.value, "event")
      && (!QueriesPosition(Json.StringMember(parsed.value, "event")) || query.Ok?)
    ensures o.Returned? && o.result.Ok? && QueriesPosition(Json.StringMember(parsed.value, "event")) ==>
      o.result.value == EventFromName(Json.StringMember(parsed.value, "event"), query.value)
    ensures o.Returned? && o.result.Ok? && !QueriesPosition(Json.StringMember(parsed.value, "event")) ==>
      o.result.value == Unimplemented
  {
    match parsed
    case Parsed(e) =>
      (match Json.Index(e, "event")
       case String(name) =>
         if QueriesPosition(name) then
           (match query
            case Ok(pos) => Returned(Ok(EventFromName(name, pos)))
            case Err(_) => Panicked)
         else Returned(Ok(Unimplemented))
       case _ => Panicked)
    case ParseFailed(why) => Returned(Err(JsonParseError(why)))
  }

  /** The line `listen` hands to the parser: the next line with its trailing
      whitespace removed, or the empty line at end of stream. */
  function NextLine(incoming: seq<string>): string
  {
    if incoming == [] then "" else TrimEnd(incoming[0])
  }

  /** One call of `listen` on the lines still to be read. The parser is the
      parameter `parse`, the position query's outcome the parameter `query`. */
  function Listen(incoming: seq<string>, parse: string -> ParseResult,
                  query: Result<Json.F64>): (o: Listened)
    ensures var parsed := parse(NextLine(incoming));
      o.Returned? && o.result.Err? <==> parsed.ParseFailed?
    ensures var parsed := parse(NextLine(incoming));
      parsed.ParseFailed? ==> o == Returned(Err(JsonParseError(parsed.msg)))
    ensures var parsed := parse(NextLine(incoming));
      parsed.Parsed? && !Json.HasStringMember(parsed.value, "event") ==> o.Panicked?
    ensures var parsed := parse(NextLine(incoming));
      (parsed.Parsed? && Json.HasStringMember(parsed.value, "event")
       && !QueriesPosition(Json.StringMember(parsed.value, "event")))
      ==> o == Returned(Ok(Unimplemented))
    ensures var parsed := parse(NextLine(incoming));
      (parsed.Parsed? && Json.HasStringMember(parsed.value, "event") && query.Ok?
       && QueriesPosition(Json.StringMember(parsed.value, "event")))
      ==> o == Returned(Ok(EventFromName(Json.StringMember(parsed.value, "event"), query.value)))
  {
    var response := if incoming == [] then "" else incoming[0];
    ClassifyEvent(parse(TrimEnd(response)), query)
  }

  /** A line and the same line followed by its newline (or any whitespace) give
      the same outcome. */
  lemma ListenIgnoresTrailingWhitespace(line: string, ws: string, rest: seq<string>,
                                        parse: string -> ParseResult, query: Result<Json.F64>)
    requires AllWhitespace(ws)
    ensures Listen([line + ws] + rest, parse, query) == Listen([line] + rest, parse, query)
  {
    TrimEndIgnoresTrailingWhitespace(line, ws);
  }

  /** `{"event": "idle"}` is an event the client does not model; it gives
      `Unimplemented` whatever the position query would have answered. */
  lemma IdleIsUnimplemented(query: Result<Json.F64>)
    ensures ClassifyEvent(Parsed(Json.Object(map["event" := Json.String("idle")])), query)
         == Returned(Ok(Unimplemented))
  {
  }
}
