/** The dashboard's insights panel: the four counters, the task progress bar,
    the mood badge, and the state that `fetchData` updates. */
module InsightsDisplay {
  import opened Wrappers
  import opened Text
  import opened Sequences

  /** The columns `id, completed` selected from `tasks`. */
  datatype TaskStatus = TaskStatus(id: string, completed: bool)

  datatype Stats = Stats(totalEntries: nat, completedTasks: nat, totalTasks: nat, notesCount: nat)

  /** The object the insights function answers with. */
  datatype Insights = Insights(mood: string, personality: string, motivation: string, suggestions: seq<string>)

  /** `res.data?.length || 0`: missing data counts as zero rows. */
  function RowCount<T>(data: Option<seq<T>>): (n: nat)
    ensures data.None? ==> n == 0
    ensures data.Some? ==> n == |data.value|
  {
    match data
    case None => 0
    case Some(rows) => |rows|
  }

  /** The test `t => t.completed`. */
  predicate Done(t: TaskStatus) {
    t.completed
  }

  /** `tasksRes.data?.filter(t => t.completed).length || 0`. */
  function CompletedCount(data: Option<seq<TaskStatus>>): nat {
    match data
    case None => 0
    case Some(rows) => |Filter(rows, Done)|
  }

  /** The counters set at lines 46-54: each is the number of rows its select
      returned (zero for missing data), and the completed count is the number of
      tasks marked completed, so it never exceeds the task count. */
  function ComputeStats(entries: Option<seq<string>>, tasks: Option<seq<TaskStatus>>, notes: Option<seq<string>>)
    : (s: Stats)
    ensures s.completedTasks <= s.totalTasks
    ensures s.totalEntries == (if entries.Some? then |entries.value| else 0)
    ensures s.notesCount == (if notes.Some? then |notes.value| else 0)
    ensures tasks.None? ==> s.totalTasks == 0 && s.completedTasks == 0
    ensures tasks.Some? ==> s.totalTasks == |tasks.value| && s.completedTasks == Count(tasks.value, Done)
  {
    if tasks.Some? then FilterCount(tasks.value, Done); Stats(RowCount(entries), CompletedCount(tasks), RowCount(tasks), RowCount(notes))
    else Stats(RowCount(entries), CompletedCount(tasks), RowCount(tasks), RowCount(notes))
  }

  /** The completed count is the task count when every task is completed, and
      zero when none is. */
  lemma CompletedCountExtremes(rows: seq<TaskStatus>)
    ensures (forall k :: 0 <= k < |rows| ==> rows[k].completed) ==> CompletedCount(Some(rows)) == |rows|
    ensures (forall k :: 0 <= k < |rows| ==> !rows[k].completed) ==> CompletedCount(Some(rows)) == 0
  {
    FilterCount(rows, Done);
  }

  /** The progress bar's value, in exact arithmetic: zero when there are no tasks,
      otherwise the completed share in percent. */
  function TaskProgress(s: Stats): (p: real)
    ensures s.totalTasks == 0 ==> p == 0.0
    ensures s.completedTasks <= s.totalTasks ==> 0.0 <= p <= 100.0
    ensures s.totalTasks > 0 ==> (p == 100.0 <==> s.completedTasks == s.totalTasks)
  {
    if s.totalTasks > 0 then (s.completedTasks as real / s.totalTasks as real) * 100.0 else 0.0
  }

  /** The colour classes of the mood badge. */
  datatype MoodTone = Green | Red | Yellow

  /** `getMoodColor`: the lower-cased mood picks the colour; anything but
      "positive" and "negative" is yellow. */
  function MoodColor(mood: string): (c: MoodTone)
    ensures c == Green <==> Lower(mood) == "positive"
    ensures c == Red <==> Lower(mood) == "negative"
  {
    var m := Lower(mood);
    if m == "positive" then Green else if m == "negative" then Red else Yellow
  }

  /** `insights?.mood || 'neutral'`: the mood passed to the badge. */
  function DisplayedMood(insights: Option<Insights>): string {
    if insights.Some? && insights.value.mood != "" then insights.value.mood else "neutral"
  }

  /** The badge ignores letter case. */
  lemma MoodColorIgnoresCase(mood: string)
    ensures MoodColor(mood) == MoodColor(Lower(mood))
  {
    LowerIdempotent(mood);
  }

  /** Capitalised moods get their colour, and the badge is yellow when there
      are no insights yet. */
  lemma MoodColorFacts()
    ensures MoodColor("Positive") == Green && MoodColor("NEGATIVE") == Red
    ensures MoodColor(DisplayedMood(None)) == Yellow
  {
    assert Lower("Positive") == "positive";
    assert Lower("NEGATIVE") == "negative";
  }

  /** The answer of `supabase.functions.invoke("generate-insights")`. */
  datatype InvokeReply = InvokeError | InvokeData(data: Option<Insights>)

  /** The calls this panel makes. */
  datatype Request = CountEntries(userId: string) | CountTasks(userId: string)
                   | CountNotes(userId: string) | GenerateInsights(userId: string)

  class InsightsView {
    var insights: Option<Insights>
    var stats: Stats
    var loading: bool
    var requests: seq<Request>

    /** The `useState` initial values. */
    constructor ()
      ensures insights == None && stats == Stats(0, 0, 0, 0) && loading && requests == []
    {
      insights := None;
      stats := Stats(0, 0, 0, 0);
      loading := true;
      requests := [];
    }

    /** `fetchData`: with no user nothing is asked and nothing but `loading`
        changes. Otherwise the three counts are fetched and the counters set, then
        the insights function is invoked; its answer replaces `insights` only
        when it is neither an error nor empty. `loading` ends false on every path. */
    method FetchData(user: Option<string>, entries: Option<seq<string>>, tasks: Option<seq<TaskStatus>>,
                     notes: Option<seq<string>>, reply: InvokeReply)
      modifies this
      ensures user.None? ==> stats == old(stats) && insights == old(insights) && requests == old(requests)
      ensures user.Some? ==>
        && requests == old(requests) + [CountEntries(user.value), CountTasks(user.value),
                                        CountNotes(user.value), GenerateInsights(user.value)]
        && stats == ComputeStats(entries, tasks, notes)
        && insights == (if reply.InvokeData? && reply.data.Some? then reply.data else old(insights))
      ensures !loading
    {
      if user.Some? {
        var id := user.value;
        requests := requests + [CountEntries(id), CountTasks(id), CountNotes(id)];
        stats := ComputeStats(entries, tasks, notes);
        requests := requests + [GenerateInsights(id)];
        if reply.InvokeData? && reply.data.Some? {
          insights := reply.data;
        }
      }
      loading := false;
    }
  }
}
