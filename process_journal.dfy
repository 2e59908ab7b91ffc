/** The process-journal server function: it checks the request, asks the AI
    gateway to extract tasks, events, notes and health mentions from the entry,
    strips a Markdown fence from the answer, stores the journal entry and then
    one batch of rows per extracted category, each row tagged with the entry. */
module ProcessJournal {
  import opened Wrappers
  import opened Text

  // ---------------------------------------------------------------------------
  // Fence stripping (the three chained calls at line 129)
  // ---------------------------------------------------------------------------

  /** What `^```json` matches, in any letter case. */
  predicate OpensFence(s: string) {
    |s| >= 7 && Lower(s[..7]) == "```json"
  }

  /** What "```$" matches. */
  predicate ClosesFence(s: string) {
    |s| >= 3 && s[|s| - 3..] == "```"
  }

  /** The first regex replace: a leading "```json", in any letter case, is
      dropped together with all the whitespace after it; the result is a suffix,
      and without that marker it is the whole input. */
  function StripLeadingFence(s: string): (r: string)
    ensures |r| <= |s| && r == s[|s| - |r|..]
    ensures !OpensFence(s) ==> r == s
    ensures OpensFence(s) ==>
      && |r| <= |s| - 7 && (r == [] || !IsSpace(r[0]))
      && AllSpace(s[7..|s| - |r|])
  {
    if OpensFence(s) then
      var t := s[7..];
      var r := TrimStart(t);
      assert s[7..|s| - |r|] == t[..|t| - |r|];
      r
    else s
  }

  /** The second regex replace: a final "```" is dropped together with all the
      whitespace before it; the result is a prefix, and without that marker it
      is the whole input. */
  function StripTrailingFence(s: string): (r: string)
    ensures |r| <= |s| && r == s[..|r|]
    ensures !ClosesFence(s) ==> r == s
    ensures ClosesFence(s) ==>
      && |r| <= |s| - 3 && (r == [] || !IsSpace(r[|r| - 1]))
      && AllSpace(s[|r|..|s| - 3])
  {
    if ClosesFence(s) then
      var t := s[..|s| - 3];
      var r := TrimEnd(t);
      assert s[|r|..|s| - 3] == t[|r|..];
      r
    else s
  }

  /** The cleaned answer handed to `JSON.parse`: an answer that neither opens
      with "```json" (in any letter case) nor ends with "```" is only trimmed. */
  function StripFence(s: string): (r: string)
    ensures !OpensFence(s) && !ClosesFence(s) ==> r == Trim(s)
  {
    Trim(StripTrailingFence(StripLeadingFence(s)))
  }

  /** A piece of a piece of `s` is a piece of `s`. */
  lemma PieceOfPiece(s: string, t: string, a: nat, u: string, b: nat)
    requires a + |t| <= |s| && t == s[a..a + |t|]
    requires b + |u| <= |t| && u == t[b..b + |u|]
    ensures u == s[a + b..a + b + |u|]
  {
    forall k | 0 <= k < |u| ensures u[k] == s[a + b + k] {
      assert u[k] == t[b + k];
      assert t[b + k] == s[a + b + k];
    }
  }

  /** The trimmed form of a piece of `s` is itself a piece of `s`. */
  lemma TrimOfPiece(s: string, t: string, a: nat)
    requires a + |t| <= |s| && t == s[a..a + |t|]
    ensures exists i :: OccursAt(s, Trim(t), i)
  {
    var r := Trim(t);
    var b := LeadingSpaces(t);
    TrimIsPiece(t);
    PieceOfPiece(s, t, a, r, b);
    assert OccursAt(s, r, a + b);
  }

  /** The cleaned answer is a contiguous piece of the raw answer, with no
      whitespace at either end. */
  lemma StripFenceIsSlice(s: string)
    ensures IsTrimmed(StripFence(s))
    ensures exists i :: OccursAt(s, StripFence(s), i)
  {
    var lead := StripLeadingFence(s);
    var a := |s| - |lead|;
    var t := StripTrailingFence(lead);
    assert a + |t| <= |s| && t == s[a..a + |t|] by {
      assert lead == s[a..a + |lead|];
      assert t == lead[0..0 + |t|];
      PieceOfPiece(s, lead, a, t, 0);
    }
    TrimOfPiece(s, t, a);
    TrimIsTrimmed(t);
  }

  /** An opening fence tagged "json" in any letter case is dropped together with
      the whitespace after it. */
  lemma DropLeadingFence(tag: string, pre: string, rest: string)
    requires |tag| == 4 && Lower(tag) == "json" && AllSpace(pre) && (rest == [] || !IsSpace(rest[0]))
    ensures StripLeadingFence("```" + tag + pre + rest) == rest
  {
    var open := "```" + tag;
    var s := open + (pre + rest);
    assert s == "```" + tag + pre + rest;
    assert s[..7] == open;
    assert Lower(open) == "```json" by {
      forall k | 0 <= k < 7 ensures Lower(open)[k] == "```json"[k] {
        if k >= 3 {
          assert open[k] == tag[k - 3];
          assert Lower(tag)[k - 3] == "json"[k - 3];
        }
      }
    }
    assert s[7..] == pre + rest;
    TrimStartSpaces(pre, rest);
  }

  /** A closing fence is dropped together with all the whitespace before it. */
  lemma DropTrailingFence(x: string, post: string)
    requires AllSpace(post) && (x == [] || !IsSpace(x[|x| - 1]))
    ensures StripTrailingFence(x + post + "```") == x
  {
    var s := x + post + "```";
    assert s[|s| - 3..] == "```";
    assert s[..|s| - 3] == x + post;
    TrimEndSpaces(x, post);
  }

  /** An empty fence, whatever whitespace it holds, cleans to the empty text. */
  lemma StripEmptyFence(tag: string, pre: string, post: string)
    requires |tag| == 4 && Lower(tag) == "json"
    requires AllSpace(pre) && AllSpace(post)
    ensures StripFence("```" + tag + pre + post + "```") == []
  {
    var fenced := "```" + tag + pre + post + "```";
    assert StripLeadingFence(fenced) == "```" by {
      AllSpaceConcat(pre, post);
      assert fenced == "```" + tag + (pre + post) + "```";
      DropLeadingFence(tag, pre + post, "```");
    }
    assert StripTrailingFence("```") == [] by {
      assert "```"[..0] == [];
    }
  }

  /** A JSON text wrapped in a fence whose tag is "json" in any letter case is
      recovered exactly, whatever whitespace separates it from the fence markers,
      provided it has no whitespace at either end itself. */
  lemma StripFenceUnwraps(tag: string, pre: string, body: string, post: string)
    requires |tag| == 4 && Lower(tag) == "json" && IsTrimmed(body)
    requires AllSpace(pre) && AllSpace(post)
    ensures StripFence("```" + tag + pre + body + post + "```") == body
  {
    if body == [] {
      assert "```" + tag + pre + body + post + "```" == "```" + tag + pre + post + "```";
      StripEmptyFence(tag, pre, post);
    } else {
      var rest := body + post + "```";
      assert StripLeadingFence("```" + tag + pre + body + post + "```") == rest by {
        assert "```" + tag + pre + body + post + "```" == "```" + tag + pre + rest;
        assert rest[0] == body[0];
        DropLeadingFence(tag, pre, rest);
      }
      DropTrailingFence(body, post);
      TrimOfTrimmed(body);
    }
  }

  // ---------------------------------------------------------------------------
  // The extracted data and the rows built from it (lines 157-225)
  // ---------------------------------------------------------------------------

  datatype TaskItem = TaskItem(title: string, priority: Option<string>)
  datatype EventItem = EventItem(title: string, date: Option<string>, time: Option<string>)
  datatype ContentItem = ContentItem(content: string)

  /** The four arrays the model is asked for; each may be absent. */
  datatype Extraction = Extraction(
    tasks: Option<seq<TaskItem>>,
    events: Option<seq<EventItem>>,
    notes: Option<seq<ContentItem>>,
    health: Option<seq<ContentItem>>)

  /** What `JSON.parse` yields: the literal `null`, or an object. */
  datatype Payload = Null | Object(extraction: Extraction)

  datatype TaskRow = TaskRow(userId: Option<string>, journalEntryId: string, title: string, priority: string)
  datatype EventRow = EventRow(userId: Option<string>, journalEntryId: string, title: string,
                               eventDate: Option<string>, eventTime: Option<string>)
  /** A row of `notes` or of `health_mentions`. */
  datatype ContentRow = ContentRow(userId: Option<string>, journalEntryId: string, content: string)
  datatype EntryRow = EntryRow(id: string, userId: Option<string>, content: string)

  /** `x || null` for a string field. */
  function NullIfFalsy(s: Option<string>): (r: Option<string>)
    ensures r.Some? <==> Truthy(s)
    ensures r.Some? ==> r == s && r.value != ""
  {
    if Truthy(s) then s else None
  }

  /** The rows built at lines 158-163: every row carries the user and the new
      entry, copies the title, and has a non-empty priority, "medium" when the
      item gives none. */
  function TaskRows(items: seq<TaskItem>, userId: Option<string>, entryId: string): (rows: seq<TaskRow>)
    ensures |rows| == |items|
    ensures forall k :: 0 <= k < |rows| ==>
      && rows[k].userId == userId && rows[k].journalEntryId == entryId
      && rows[k].title == items[k].title && rows[k].priority != ""
      && (Truthy(items[k].priority) ==> rows[k].priority == items[k].priority.value)
      && (!Truthy(items[k].priority) ==> rows[k].priority == "medium")
  {
    seq(|items|, k requires 0 <= k < |items| =>
      TaskRow(userId, entryId, items[k].title, OrElse(items[k].priority, "medium")))
  }

  /** The rows built at lines 176-182: a missing or empty date or time is stored
      as null, and a stored one is the item's own. */
  function EventRows(items: seq<EventItem>, userId: Option<string>, entryId: string): (rows: seq<EventRow>)
    ensures |rows| == |items|
    ensures forall k :: 0 <= k < |rows| ==>
      && rows[k].userId == userId && rows[k].journalEntryId == entryId && rows[k].title == items[k].title
      && (rows[k].eventDate.Some? <==> Truthy(items[k].date))
      && (rows[k].eventDate.Some? ==> rows[k].eventDate == items[k].date)
      && (rows[k].eventTime.Some? <==> Truthy(items[k].time))
      && (rows[k].eventTime.Some? ==> rows[k].eventTime == items[k].time)
  {
    seq(|items|, k requires 0 <= k < |items| =>
      EventRow(userId, entryId, items[k].title, NullIfFalsy(items[k].date), NullIfFalsy(items[k].time)))
  }

  /** The rows built at lines 195-199 and 212-216. */
  function ContentRows(items: seq<ContentItem>, userId: Option<string>, entryId: string): (rows: seq<ContentRow>)
    ensures |rows| == |items|
    ensures forall k :: 0 <= k < |rows| ==>
      rows[k].userId == userId && rows[k].journalEntryId == entryId && rows[k].content == items[k].content
  {
    seq(|items|, k requires 0 <= k < |items| => ContentRow(userId, entryId, items[k].content))
  }

  /** `data.category && data.category.length > 0`. */
  predicate Present<T>(xs: Option<seq<T>>) {
    xs.Some? && |xs.value| > 0
  }

  function Items<T>(xs: Option<seq<T>>): seq<T> {
    if xs.Some? then xs.value else []
  }

  /** One batch insert into a derived table. */
  datatype Batch =
    | TasksBatch(taskRows: seq<TaskRow>)
    | EventsBatch(eventRows: seq<EventRow>)
    | NotesBatch(noteRows: seq<ContentRow>)
    | HealthBatch(healthRows: seq<ContentRow>)
  {
    function Size(): nat {
      match this
      case TasksBatch(rows) => |rows|
      case EventsBatch(rows) => |rows|
      case NotesBatch(rows) => |rows|
      case HealthBatch(rows) => |rows|
    }

    /** Every row of the batch carries this user and this journal entry. */
    predicate Tagged(userId: Option<string>, entryId: string) {
      match this
      case TasksBatch(rows) => forall k :: 0 <= k < |rows| ==> rows[k].userId == userId && rows[k].journalEntryId == entryId
      case EventsBatch(rows) => forall k :: 0 <= k < |rows| ==> rows[k].userId == userId && rows[k].journalEntryId == entryId
      case NotesBatch(rows) => forall k :: 0 <= k < |rows| ==> rows[k].userId == userId && rows[k].journalEntryId == entryId
      case HealthBatch(rows) => forall k :: 0 <= k < |rows| ==> rows[k].userId == userId && rows[k].journalEntryId == entryId
    }
  }

  /** The calls the handler makes, in order. */
  datatype Call =
    | AskAi(journalContent: string)
    | InsertEntry(userId: Option<string>, content: string)
    | InsertBatch(batch: Batch)

  function When(c: bool, call: Call): seq<Call> {
    if c then [call] else []
  }

  /** The derived inserts for one extraction: tasks, events, notes, health, each
      only when its array is present and non-empty. */
  function DerivedCalls(ext: Extraction, userId: Option<string>, entryId: string): seq<Call> {
    When(Present(ext.tasks), InsertBatch(TasksBatch(TaskRows(Items(ext.tasks), userId, entryId))))
    + When(Present(ext.events), InsertBatch(EventsBatch(EventRows(Items(ext.events), userId, entryId))))
    + When(Present(ext.notes), InsertBatch(NotesBatch(ContentRows(Items(ext.notes), userId, entryId))))
    + When(Present(ext.health), InsertBatch(HealthBatch(ContentRows(Items(ext.health), userId, entryId))))
  }

  function PresentCount(ext: Extraction): nat {
    (if Present(ext.tasks) then 1 else 0) + (if Present(ext.events) then 1 else 0)
    + (if Present(ext.notes) then 1 else 0) + (if Present(ext.health) then 1 else 0)
  }

  /** One batch per present category, none for an absent or empty one; the
      batch for a category holds one row per item. */
  lemma DerivedCallsPerCategory(ext: Extraction, userId: Option<string>, entryId: string)
    ensures var calls := DerivedCalls(ext, userId, entryId);
      && |calls| == PresentCount(ext)
      && (Present(ext.tasks) <==> InsertBatch(TasksBatch(TaskRows(Items(ext.tasks), userId, entryId))) in calls)
      && (Present(ext.events) <==> InsertBatch(EventsBatch(EventRows(Items(ext.events), userId, entryId))) in calls)
      && (Present(ext.notes) <==> InsertBatch(NotesBatch(ContentRows(Items(ext.notes), userId, entryId))) in calls)
      && (Present(ext.health) <==> InsertBatch(HealthBatch(ContentRows(Items(ext.health), userId, entryId))) in calls)
  {
  }

  /** Every derived batch is a non-empty insert whose rows all carry the user and
      the new entry. */
  lemma DerivedCallsTagged(ext: Extraction, userId: Option<string>, entryId: string)
    ensures forall c :: c in DerivedCalls(ext, userId, entryId) ==>
      c.InsertBatch? && c.batch.Tagged(userId, entryId) && c.batch.Size() > 0
  {
    var t := When(Present(ext.tasks), InsertBatch(TasksBatch(TaskRows(Items(ext.tasks), userId, entryId))));
    var e := When(Present(ext.events), InsertBatch(EventsBatch(EventRows(Items(ext.events), userId, entryId))));
    var n := When(Present(ext.notes), InsertBatch(NotesBatch(ContentRows(Items(ext.notes), userId, entryId))));
    var h := When(Present(ext.health), InsertBatch(HealthBatch(ContentRows(Items(ext.health), userId, entryId))));
    forall c | c in t ensures c.InsertBatch? && c.batch.Tagged(userId, entryId) && c.batch.Size() > 0 { }
    forall c | c in e ensures c.InsertBatch? && c.batch.Tagged(userId, entryId) && c.batch.Size() > 0 { }
    forall c | c in n ensures c.InsertBatch? && c.batch.Tagged(userId, entryId) && c.batch.Size() > 0 { }
    forall c | c in h ensures c.InsertBatch? && c.batch.Tagged(userId, entryId) && c.batch.Size() > 0 { }
  }

  lemma AppendFour<T>(s: seq<T>, a: seq<T>, b: seq<T>, c: seq<T>, d: seq<T>)
    ensures s + a + b + c + d == s + (a + b + c + d)
  {
  }

  // ---------------------------------------------------------------------------
  // The handler
  // ---------------------------------------------------------------------------

  /** The gateway's answer: `ok`, the HTTP status, and the message content. */
  datatype AiReply = AiReply(ok: bool, status: int, content: string)

  /** The store's answers, in call order: the new entry's id (None when the
      entry insert fails) and whether each derived batch insert succeeded. */
  datatype InsertReplies = InsertReplies(entryId: Option<string>, tasksOk: bool, eventsOk: bool,
                                         notesOk: bool, healthOk: bool)

  /** A response body: success with the entry id and the extracted data, or an
      error whose message is fixed by the code (`Some`) or comes from a foreign
      exception such as a JSON syntax error or a store error (`None`). */
  datatype Body = Success(journalEntryId: string, extracted: Extraction) | Error(message: Option<string>)

  datatype Response = Response(status: int, body: Body)

  /** The reply to a gateway answer that is not `ok` (lines 94-120): 429 and 402
      are passed on with their own messages, any other status becomes a 500. */
  function AiFailure(status: int): (r: Response)
    ensures r.body.Error? && r.body.message.Some?
    ensures r.status == (if status == 429 || status == 402 then status else 500)
  {
    if status == 429 then Response(429, Error(Some("Rate limit exceeded. Please try again later.")))
    else if status == 402 then Response(402, Error(Some("AI credits depleted. Please add credits to continue.")))
    else Response(500, Error(Some("AI processing failed")))
  }

  /** The five tables the handler writes. */
  datatype Tables = Tables(entries: seq<EntryRow>, tasks: seq<TaskRow>, events: seq<EventRow>,
                           notes: seq<ContentRow>, health: seq<ContentRow>)

  /** The rows of a batch that the store accepted. */
  function Landed<T>(ok: bool, rows: seq<T>): seq<T> {
    if ok then rows else []
  }

  /** The tables after the derived batches for entry `id`, each landing only
      when the store accepts it. */
  function Derived(db: Tables, ext: Extraction, userId: Option<string>, id: string, replies: InsertReplies): Tables {
    db.(tasks := db.tasks + Landed(replies.tasksOk && Present(ext.tasks), TaskRows(Items(ext.tasks), userId, id)),
        events := db.events + Landed(replies.eventsOk && Present(ext.events), EventRows(Items(ext.events), userId, id)),
        notes := db.notes + Landed(replies.notesOk && Present(ext.notes), ContentRows(Items(ext.notes), userId, id)),
        health := db.health + Landed(replies.healthOk && Present(ext.health), ContentRows(Items(ext.health), userId, id)))
  }

  /** The tables after a successful entry insert with id `id` followed by the
      derived batches. */
  function AfterSuccess(db: Tables, userId: Option<string>, journalContent: string, id: string,
                        ext: Extraction, replies: InsertReplies): Tables
  {
    Derived(db.(entries := db.entries + [EntryRow(id, userId, journalContent)]), ext, userId, id, replies)
  }

  /** Every derived row stored by a successful run points at the entry it
      created, and a failed batch leaves its table as it was without holding
      back the others. */
  lemma AfterSuccessTagged(db: Tables, userId: Option<string>, journalContent: string, id: string,
                           ext: Extraction, replies: InsertReplies)
    ensures var db' := AfterSuccess(db, userId, journalContent, id, ext, replies);
      && db'.entries[|db.entries|] == EntryRow(id, userId, journalContent)
      && (forall k :: |db.tasks| <= k < |db'.tasks| ==> db'.tasks[k].journalEntryId == id && db'.tasks[k].userId == userId)
      && (forall k :: |db.events| <= k < |db'.events| ==> db'.events[k].journalEntryId == id && db'.events[k].userId == userId)
      && (forall k :: |db.notes| <= k < |db'.notes| ==> db'.notes[k].journalEntryId == id && db'.notes[k].userId == userId)
      && (forall k :: |db.health| <= k < |db'.health| ==> db'.health[k].journalEntryId == id && db'.health[k].userId == userId)
      && (!replies.tasksOk ==> db'.tasks == db.tasks)
      && (!replies.eventsOk ==> db'.events == db.events)
      && (!replies.notesOk ==> db'.notes == db.notes)
      && (!replies.healthOk ==> db'.health == db.health)
      && (replies.tasksOk ==> |db'.tasks| == |db.tasks| + |Items(ext.tasks)|)
      && (replies.eventsOk ==> |db'.events| == |db.events| + |Items(ext.events)|)
      && (replies.notesOk ==> |db'.notes| == |db.notes| + |Items(ext.notes)|)
      && (replies.healthOk ==> |db'.health| == |db.health| + |Items(ext.health)|)
  {
    var db' := AfterSuccess(db, userId, journalContent, id, ext, replies);
    var t := Landed(replies.tasksOk && Present(ext.tasks), TaskRows(Items(ext.tasks), userId, id));
    forall k | |db.tasks| <= k < |db'.tasks|
      ensures db'.tasks[k].journalEntryId == id && db'.tasks[k].userId == userId
    {
      assert db'.tasks[k] == t[k - |db.tasks|];
    }
    var e := Landed(replies.eventsOk && Present(ext.events), EventRows(Items(ext.events), userId, id));
    forall k | |db.events| <= k < |db'.events|
      ensures db'.events[k].journalEntryId == id && db'.events[k].userId == userId
    {
      assert db'.events[k] == e[k - |db.events|];
    }
    var n := Landed(replies.notesOk && Present(ext.notes), ContentRows(Items(ext.notes), userId, id));
    forall k | |db.notes| <= k < |db'.notes|
      ensures db'.notes[k].journalEntryId == id && db'.notes[k].userId == userId
    {
      assert db'.notes[k] == n[k - |db.notes|];
    }
    var h := Landed(replies.healthOk && Present(ext.health), ContentRows(Items(ext.health), userId, id));
    forall k | |db.health| <= k < |db'.health|
      ensures db'.health[k].journalEntryId == id && db'.health[k].userId == userId
    {
      assert db'.health[k] == h[k - |db.health|];
    }
  }

  /** The store and gateway as the handler sees them: the tables it writes and
      the log of calls it makes. */
  class Backend {
    var db: Tables
    var calls: seq<Call>

    constructor (db0: Tables)
      ensures db == db0 && calls == []
    {
      db := db0;
      calls := [];
    }

    /** Lines 156-225: one batch insert per present category, in the order
        tasks, events, notes, health. A batch the store refuses is only logged:
        its table keeps its rows and the later batches are still sent. */
    method InsertDerived(ext: Extraction, userId: Option<string>, id: string, replies: InsertReplies)
      modifies this
      ensures calls == old(calls) + DerivedCalls(ext, userId, id)
      ensures db == Derived(old(db), ext, userId, id, replies)
    {
      ghost var t := When(Present(ext.tasks), InsertBatch(TasksBatch(TaskRows(Items(ext.tasks), userId, id))));
      ghost var e := When(Present(ext.events), InsertBatch(EventsBatch(EventRows(Items(ext.events), userId, id))));
      ghost var n := When(Present(ext.notes), InsertBatch(NotesBatch(ContentRows(Items(ext.notes), userId, id))));
      ghost var h := When(Present(ext.health), InsertBatch(HealthBatch(ContentRows(Items(ext.health), userId, id))));
      ghost var calls0 := calls;
      InsertTasks(ext.tasks, userId, id, replies.tasksOk);
      InsertEvents(ext.events, userId, id, replies.eventsOk);
      InsertNotes(ext.notes, userId, id, replies.notesOk);
      InsertHealth(ext.health, userId, id, replies.healthOk);
      AppendFour(calls0, t, e, n, h);
    }

    /** Lines 157-172. */
    method InsertTasks(items: Option<seq<TaskItem>>, userId: Option<string>, id: string, ok: bool)
      modifies this
      ensures calls == old(calls) + When(Present(items), InsertBatch(TasksBatch(TaskRows(Items(items), userId, id))))
      ensures db == old(db).(tasks := old(db).tasks + Landed(ok && Present(items), TaskRows(Items(items), userId, id)))
    {
      if Present(items) {
        var rows := TaskRows(items.value, userId, id);
        calls := calls + [InsertBatch(TasksBatch(rows))];
        if ok {
          db := db.(tasks := db.tasks + rows);
        }
      }
    }

    /** Lines 175-191. */
    method InsertEvents(items: Option<seq<EventItem>>, userId: Option<string>, id: string, ok: bool)
      modifies this
      ensures calls == old(calls) + When(Present(items), InsertBatch(EventsBatch(EventRows(Items(items), userId, id))))
      ensures db == old(db).(events := old(db).events + Landed(ok && Present(items), EventRows(Items(items), userId, id)))
    {
      if Present(items) {
        var rows := EventRows(items.value, userId, id);
        calls := calls + [InsertBatch(EventsBatch(rows))];
        if ok {
          db := db.(events := db.events + rows);
        }
      }
    }

    /** Lines 194-208. */
    method InsertNotes(items: Option<seq<ContentItem>>, userId: Option<string>, id: string, ok: bool)
      modifies this
      ensures calls == old(calls) + When(Present(items), InsertBatch(NotesBatch(ContentRows(Items(items), userId, id))))
      ensures db == old(db).(notes := old(db).notes + Landed(ok && Present(items), ContentRows(Items(items), userId, id)))
    {
      if Present(items) {
        var rows := ContentRows(items.value, userId, id);
        calls := calls + [InsertBatch(NotesBatch(rows))];
        if ok {
          db := db.(notes := db.notes + rows);
        }
      }
    }

    /** Lines 211-225. */
    method InsertHealth(items: Option<seq<ContentItem>>, userId: Option<string>, id: string, ok: bool)
      modifies this
      ensures calls == old(calls) + When(Present(items), InsertBatch(HealthBatch(ContentRows(Items(items), userId, id))))
      ensures db == old(db).(health := old(db).health + Landed(ok && Present(items), ContentRows(Items(items), userId, id)))
    {
      if Present(items) {
        var rows := ContentRows(items.value, userId, id);
        calls := calls + [InsertBatch(HealthBatch(rows))];
        if ok {
          db := db.(health := db.health + rows);
        }
      }
    }

    /** Lines 139-225, once the answer has parsed: the entry is inserted first and,
        if the store refuses it, nothing else is written. A JSON `null` keeps the
        entry and then fails on reading its fields; an object has its present
        categories stored and is answered with success. */
    method Store(text: string, userId: Option<string>, payload: Payload, replies: InsertReplies)
      returns (resp: Response)
      modifies this
      ensures replies.entryId.None? ==>
        resp == Response(500, Error(None)) && db == old(db) && calls == old(calls) + [InsertEntry(userId, text)]
      ensures replies.entryId.Some? && payload.Null? ==>
        && resp == Response(500, Error(None)) && calls == old(calls) + [InsertEntry(userId, text)]
        && db == old(db).(entries := old(db).entries + [EntryRow(replies.entryId.value, userId, text)])
      ensures replies.entryId.Some? && payload.Object? ==>
        && resp == Response(200, Success(replies.entryId.value, payload.extraction))
        && calls == old(calls) + [InsertEntry(userId, text)] + DerivedCalls(payload.extraction, userId, replies.entryId.value)
        && db == AfterSuccess(old(db), userId, text, replies.entryId.value, payload.extraction, replies)
    {
      calls := calls + [InsertEntry(userId, text)];
      if replies.entryId.None? {
        return Response(500, Error(None));
      }
      var id := replies.entryId.value;
      db := db.(entries := db.entries + [EntryRow(id, userId, text)]);
      if payload.Null? {
        return Response(500, Error(None));
      }
      InsertDerived(payload.extraction, userId, id, replies);
      resp := Response(200, Success(id, payload.extraction));
    }

    /** The request handler. `journalContent` and `userId` are the request's
        fields; `apiKeyConfigured` whether the gateway key is set; `ai` the
        gateway's answer; `parse` stands for `JSON.parse` (None when it throws);
        `replies` the store's answers. */
    method Handle(journalContent: Option<string>, userId: Option<string>, apiKeyConfigured: bool,
                  ai: AiReply, parse: string -> Option<Payload>, replies: InsertReplies)
      returns (resp: Response)
      modifies this
      // a missing or empty content is refused before anything is asked or written
      ensures !Truthy(journalContent) ==>
        resp == Response(400, Error(Some("Journal content is required"))) && db == old(db) && calls == old(calls)
      ensures Truthy(journalContent) && !apiKeyConfigured ==>
        resp == Response(500, Error(Some("LOVABLE_API_KEY is not configured"))) && db == old(db) && calls == old(calls)
      // a gateway failure is mapped to its status and nothing is written
      ensures Truthy(journalContent) && apiKeyConfigured && !ai.ok ==>
        resp == AiFailure(ai.status) && db == old(db) && calls == old(calls) + [AskAi(journalContent.value)]
      // an answer that does not parse is a 500 and nothing is written
      ensures Truthy(journalContent) && apiKeyConfigured && ai.ok && parse(StripFence(ai.content)).None? ==>
        resp == Response(500, Error(None)) && db == old(db) && calls == old(calls) + [AskAi(journalContent.value)]
      // the entry is written first; if that fails, nothing else is
      ensures Truthy(journalContent) && apiKeyConfigured && ai.ok && parse(StripFence(ai.content)).Some?
              && replies.entryId.None? ==>
        && resp == Response(500, Error(None)) && db == old(db)
        && calls == old(calls) + [AskAi(journalContent.value)] + [InsertEntry(userId, journalContent.value)]
      // a JSON `null` keeps the entry, then fails on reading its fields
      ensures Truthy(journalContent) && apiKeyConfigured && ai.ok && parse(StripFence(ai.content)) == Some(Null)
              && replies.entryId.Some? ==>
        && resp == Response(500, Error(None))
        && calls == old(calls) + [AskAi(journalContent.value)] + [InsertEntry(userId, journalContent.value)]
        && db == old(db).(entries := old(db).entries + [EntryRow(replies.entryId.value, userId, journalContent.value)])
      // otherwise every present category is attempted, and the answer is a success
      ensures Truthy(journalContent) && apiKeyConfigured && ai.ok && replies.entryId.Some?
              && parse(StripFence(ai.content)).Some? && parse(StripFence(ai.content)).value.Object? ==>
        var ext := parse(StripFence(ai.content)).value.extraction;
        var id := replies.entryId.value;
        && resp == Response(200, Success(id, ext))
        && calls == old(calls) + [AskAi(journalContent.value)] + [InsertEntry(userId, journalContent.value)]
                    + DerivedCalls(ext, userId, id)
        && db == AfterSuccess(old(db), userId, journalContent.value, id, ext, replies)
    {
      if !Truthy(journalContent) {
        return Response(400, Error(Some("Journal content is required")));
      }
      if !apiKeyConfigured {
        return Response(500, Error(Some("LOVABLE_API_KEY is not configured")));
      }
      calls := calls + [AskAi(journalContent.value)];
      if !ai.ok {
        return AiFailure(ai.status);
      }
      var parsed := parse(StripFence(ai.content));
      if parsed.None? {
        return Response(500, Error(None));
      }
      resp := Store(journalContent.value, userId, parsed.value, replies);
    }
  }
}
