/** The generate-insights server function: the three summaries it builds for
    the model, the cleaning of the model's answer, and the fixed fallback it
    substitutes when that answer does not parse. */
module GenerateInsights {
  import opened Wrappers
  import opened Text
  import opened Sequences

  datatype Insights = Insights(mood: string, personality: string, motivation: string, suggestions: seq<string>)

  /** The object returned when the model's answer does not parse; it depends on nothing. */
  const Fallback: Insights := Insights(
    "neutral",
    "Thoughtful and curious, always exploring new ideas.",
    "Keep moving forward, one day at a time.",
    ["Continue journaling regularly", "Set small achievable goals"])

  /** `entries?.map(e => e.content).join('\n\n') || 'No entries yet'`. */
  function JournalSummary(contents: Option<seq<string>>): string {
    var joined := if contents.Some? then Join(contents.value, "\n\n") else "";
    if joined != "" then joined else "No entries yet"
  }

  /** The summary is never empty: the placeholder stands in exactly when the
      join is empty (no entry, or one empty entry), and otherwise the summary is
      the contents joined by a blank line. */
  lemma JournalSummaryPlaceholder(contents: Option<seq<string>>)
    ensures JournalSummary(contents) != ""
    ensures contents.None? || |contents.value| == 0 || (|contents.value| == 1 && contents.value[0] == "")
      ==> JournalSummary(contents) == "No entries yet"
    ensures contents.Some? && !(|contents.value| == 0 || (|contents.value| == 1 && contents.value[0] == ""))
      ==> JournalSummary(contents) == Join(contents.value, "\n\n")
  {
    if contents.Some? {
      JoinEmptyIff(contents.value, "\n\n");
    }
  }

  /** The test `t => t.completed`, on the selected `completed` flags. */
  predicate IsCompleted(completed: bool) {
    completed
  }

  /** `tasks?.length ? "${c} completed out of ${n} tasks" : 'No tasks'`, where `c`
      is `tasks.filter(t => t.completed).length`. */
  function TasksSummary(completed: Option<seq<bool>>): string {
    if completed.Some? && |completed.value| > 0 then
      NatToString(|Filter(completed.value, IsCompleted)|) + " completed out of "
      + NatToString(|completed.value|) + " tasks"
    else "No tasks"
  }

  /** With at least one task, the summary opens with the decimal count of completed
      tasks: it reads back as the number of completed flags, no larger than the
      task count, and is "0" exactly when no task is completed. */
  lemma TasksSummaryCounts(completed: seq<bool>)
    requires |completed| > 0
    ensures var c := NatToString(|Filter(completed, IsCompleted)|);
      && TasksSummary(Some(completed))[..|c|] == c
      && ParseNat(c) == Count(completed, IsCompleted) <= |completed|
      && (c == "0" <==> forall k :: 0 <= k < |completed| ==> !completed[k])
  {
    var n := |Filter(completed, IsCompleted)|;
    FilterCount(completed, IsCompleted);
    NatToStringRoundTrip(n);
    NatToStringRoundTrip(0);
    if NatToString(n) == "0" {
      assert ParseNat(NatToString(n)) == ParseNat(NatToString(0));
    }
  }

  /** `healthMentions?.map(h => h.content).join(', ') || 'No health data'`. */
  function HealthSummary(contents: Option<seq<string>>): string {
    var joined := if contents.Some? then Join(contents.value, ", ") else "";
    if joined != "" then joined else "No health data"
  }

  /** The summary is never empty: the placeholder stands in exactly when the
      join is empty, and otherwise the summary is the contents joined by ", ". */
  lemma HealthSummaryPlaceholder(contents: Option<seq<string>>)
    ensures HealthSummary(contents) != ""
    ensures contents.None? || |contents.value| == 0 || (|contents.value| == 1 && contents.value[0] == "")
      ==> HealthSummary(contents) == "No health data"
    ensures contents.Some? && !(|contents.value| == 0 || (|contents.value| == 1 && contents.value[0] == ""))
      ==> HealthSummary(contents) == Join(contents.value, ", ")
  {
    if contents.Some? {
      JoinEmptyIff(contents.value, ", ");
    }
  }

  /** One global `replace(/<marker>\n?/g, '')`: every occurrence of `marker`, found
      left to right, is removed together with one newline right after it. */
  function RemoveMarker(s: string, marker: string): (r: string)
    requires marker != []
    ensures |r| <= |s|
    decreases |s|
  {
    if s == [] then []
    else if marker <= s then
      var rest := s[|marker|..];
      if rest != [] && rest[0] == '\n' then RemoveMarker(rest[1..], marker) else RemoveMarker(rest, marker)
    else [s[0]] + RemoveMarker(s[1..], marker)
  }

  /** The cleaning at line 103: drop every "```json" and then every "```" (each with
      one newline after it), then trim. */
  function Clean(s: string): string {
    Trim(RemoveMarker(RemoveMarker(s, "```json"), "```"))
  }

  predicate NoBacktick(s: string) {
    forall k :: 0 <= k < |s| ==> s[k] != '`'
  }

  /** Text without a backtick in front of the rest passes the removal untouched. */
  lemma {:induction false} RemoveMarkerSkips(a: string, t: string, marker: string)
    requires marker != [] && marker[0] == '`' && NoBacktick(a)
    ensures RemoveMarker(a + t, marker) == a + RemoveMarker(t, marker)
    decreases |a|
  {
    if a != [] {
      assert !(marker <= a + t) by {
        assert (a + t)[0] == a[0];
      }
      assert (a + t)[1..] == a[1..] + t;
      RemoveMarkerSkips(a[1..], t, marker);
    } else {
      assert a + t == t;
    }
  }

  /** Backtick-free text is only trimmed. */
  lemma CleanWithoutBackticks(s: string)
    requires NoBacktick(s)
    ensures Clean(s) == Trim(s)
  {
    RemoveMarkerSkips(s, [], "```json");
    RemoveMarkerSkips(s, [], "```");
    assert s + [] == s;
  }

  /** The first replace drops the opening "```json" line and nothing else. */
  lemma RemoveOpeningFence(body: string)
    requires NoBacktick(body)
    ensures RemoveMarker("```json\n" + body + "\n```", "```json") == body + "\n```"
  {
    var closing := "\n```";
    var tail := body + closing;
    var fenced := "```json" + ("\n" + tail);
    assert fenced == "```json\n" + body + "\n```";
    assert "```json" <= fenced;
    assert fenced[7..] == "\n" + tail;
    assert ("\n" + tail)[1..] == tail;
    assert RemoveMarker(closing, "```json") == closing by {
      assert closing[1..] == "```";
      assert "```"[1..] == "``";
      assert "``"[1..] == "`";
      assert "`"[1..] == [];
    }
    RemoveMarkerSkips(body, closing, "```json");
  }

  /** The second replace drops the closing "```" and nothing else. */
  lemma RemoveClosingFence(body: string)
    requires NoBacktick(body)
    ensures RemoveMarker(body + "\n```", "```") == body + "\n"
  {
    var closing := "\n```";
    assert RemoveMarker(closing, "```") == "\n" by {
      assert closing[1..] == "```";
    }
    RemoveMarkerSkips(body, closing, "```");
  }

  /** A backtick-free, trimmed JSON text wrapped in a "```json" fence comes out
      of the cleaning unchanged. */
  lemma CleanUnwrapsFence(body: string)
    requires NoBacktick(body) && IsTrimmed(body)
    ensures Clean("```json\n" + body + "\n```") == body
  {
    RemoveOpeningFence(body);
    RemoveClosingFence(body);
    TrimPadded([], body, "\n");
    assert [] + body + "\n" == body + "\n";
  }

  /** What `JSON.parse` can yield: an object with the insights' keys, or any
      other JSON value (`null`, an array, a number, ...), kept as its JSON text. */
  datatype JsonValue = Record(insights: Insights) | Other(json: string)

  /** `JSON.parse` of the cleaned text, or the fallback when it throws; whatever
      parses is answered as it is. */
  function ParseInsights(answer: string, parse: string -> Option<JsonValue>): (r: JsonValue)
    ensures parse(Clean(answer)).None? ==> r == Record(Fallback)
    ensures parse(Clean(answer)).Some? ==> r == parse(Clean(answer)).value
  {
    match parse(Clean(answer))
    case Some(value) => value
    case None => Record(Fallback)
  }

  /** Only the cleaned text decides what the handler answers. */
  lemma ParseSameClean(a: string, b: string, parse: string -> Option<JsonValue>)
    requires Clean(a) == Clean(b)
    ensures ParseInsights(a, parse) == ParseInsights(b, parse)
  {
  }

  /** Wrapping a trimmed, backtick-free JSON text in a "```json" fence does not
      change what the handler answers. */
  lemma ParseIgnoresFence(body: string, parse: string -> Option<JsonValue>)
    requires NoBacktick(body) && IsTrimmed(body)
    ensures ParseInsights("```json\n" + body + "\n```", parse) == ParseInsights(body, parse)
  {
    var fenced := "```json\n" + body + "\n```";
    assert Clean(fenced) == body by {
      CleanUnwrapsFence(body);
    }
    assert Clean(body) == body by {
      CleanWithoutBackticks(body);
      TrimOfTrimmed(body);
    }
    ParseSameClean(fenced, body, parse);
  }

  /** The three summaries the prompt is built from. */
  datatype Summaries = Summaries(journal: string, tasks: string, health: string)

  /** The model's answer: whether the gateway answered `ok`, and its text (the
      message content on success, the error body otherwise). */
  datatype AiReply = AiReply(ok: bool, text: string)

  datatype Failure = UserIdRequired | EntriesQueryFailed | ApiKeyMissing | AiError(body: string)

  datatype Response = Answer(body: JsonValue) | ErrorResponse(failure: Failure) {
    /** Every failure is answered with status 500. */
    function Status(): int {
      if Answer? then 200 else 500
    }
  }

  /** The handler. The three selects are inputs: the entries' contents (an error
      there aborts), and the tasks' `completed` flags and the health contents (whose
      errors read as missing data). `ai` stands for the gateway, asked with the
      summaries. */
  function Handle(userId: Option<string>, entries: Fetch<string>, tasks: Option<seq<bool>>,
                  health: Option<seq<string>>, apiKeyConfigured: bool,
                  ai: Summaries -> AiReply, parse: string -> Option<JsonValue>): Response
  {
    if !Truthy(userId) then ErrorResponse(UserIdRequired)
    else if entries.LoadError? then ErrorResponse(EntriesQueryFailed)
    else
      var summaries := Summaries(JournalSummary(entries.data), TasksSummary(tasks), HealthSummary(health));
      if !apiKeyConfigured then ErrorResponse(ApiKeyMissing)
      else
        var reply := ai(summaries);
        if !reply.ok then ErrorResponse(AiError(reply.text))
        else Answer(ParseInsights(reply.text, parse))
  }

  /** Without a user id the answer is the same 500 whatever the stored data and the
      model would have said: nothing is queried and nothing is asked. */
  lemma MissingUserIdIgnoresEverything(userId: Option<string>,
      e1: Fetch<string>, t1: Option<seq<bool>>, h1: Option<seq<string>>, k1: bool, a1: Summaries -> AiReply,
      e2: Fetch<string>, t2: Option<seq<bool>>, h2: Option<seq<string>>, k2: bool, a2: Summaries -> AiReply,
      parse: string -> Option<JsonValue>)
    requires !Truthy(userId)
    ensures Handle(userId, e1, t1, h1, k1, a1, parse) == Handle(userId, e2, t2, h2, k2, a2, parse)
    ensures Handle(userId, e1, t1, h1, k1, a1, parse).Status() == 500
  {
  }

  /** A model answer that fails to parse yields the fixed fallback, the same for
      every user's data; a gateway error yields a 500 and no insights. */
  lemma FallbackIndependentOfData(userId: string, entries: Fetch<string>, tasks: Option<seq<bool>>,
      health: Option<seq<string>>, ai: Summaries -> AiReply, parse: string -> Option<JsonValue>)
    requires userId != "" && entries.Loaded?
    ensures var reply := ai(Summaries(JournalSummary(entries.data), TasksSummary(tasks), HealthSummary(health)));
      && (reply.ok && parse(Clean(reply.text)).None? ==>
            Handle(Some(userId), entries, tasks, health, true, ai, parse) == Answer(Record(Fallback)))
      && (!reply.ok ==> Handle(Some(userId), entries, tasks, health, true, ai, parse).Status() == 500)
  {
  }
}
