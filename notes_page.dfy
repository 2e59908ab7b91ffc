/** The notes page: its search and date-range filter, and the local state that
    `fetchNotes` and `addNote` update. */
module NotesPage {
  import opened Wrappers
  import opened Text
  import opened Sequences
  import opened DateBuckets

  /** One row of the `notes` table; `createdAt` in milliseconds. */
  datatype Note = Note(id: string, content: string, createdAt: int)

  /** The single condition under which a note is shown. */
  predicate NoteShown(n: Note, query: string, dateFilter: string, now: int, dayStart: int) {
    MatchesSearch(n.content, query) && InBucket(dateFilter, n.createdAt, now, dayStart)
  }

  /** The page's filter effect: the search, then (unless the filter is "all")
      the date-range switch. */
  function FilterNotes(notes: seq<Note>, query: string, dateFilter: string, now: int, dayStart: int): seq<Note> {
    var searched := Filter(notes, (n: Note) => MatchesSearch(n.content, query));
    if dateFilter != "all" then Filter(searched, (n: Note) => InBucket(dateFilter, n.createdAt, now, dayStart))
    else searched
  }

  /** The two-stage pipeline is one filter by `NoteShown`. */
  lemma FilterNotesIsOnePass(notes: seq<Note>, query: string, dateFilter: string, now: int, dayStart: int)
    ensures FilterNotes(notes, query, dateFilter, now, dayStart)
         == Filter(notes, (n: Note) => NoteShown(n, query, dateFilter, now, dayStart))
  {
    var search := (n: Note) => MatchesSearch(n.content, query);
    var bucket := (n: Note) => InBucket(dateFilter, n.createdAt, now, dayStart);
    if dateFilter == "all" {
      FilterKeepsAll(Filter(notes, search), bucket);
    }
    FilterFilter(notes, search, bucket, (n: Note) => NoteShown(n, query, dateFilter, now, dayStart));
  }

  /** The shown notes keep their order and are exactly the notes that match the
      search and fall in the chosen date range. */
  lemma FilterNotesCorrect(notes: seq<Note>, query: string, dateFilter: string, now: int, dayStart: int)
    ensures var r := FilterNotes(notes, query, dateFilter, now, dayStart);
      && IsSubsequence(r, notes)
      && (forall k :: 0 <= k < |r| ==> NoteShown(r[k], query, dateFilter, now, dayStart))
      && (forall k :: 0 <= k < |notes| && NoteShown(notes[k], query, dateFilter, now, dayStart) ==> notes[k] in r)
  {
    FilterNotesIsOnePass(notes, query, dateFilter, now, dayStart);
    FilterIsSubsequence(notes, (n: Note) => NoteShown(n, query, dateFilter, now, dayStart));
  }

  /** A wider date range never shows fewer notes: what "today" shows, "week" shows,
      and what "week" shows, "month" shows. */
  lemma NotesBucketsNested(notes: seq<Note>, query: string, now: int, dayStart: int)
    requires now - 7 * DayMs <= dayStart
    ensures var today := FilterNotes(notes, query, "today", now, dayStart);
      var week := FilterNotes(notes, query, "week", now, dayStart);
      var month := FilterNotes(notes, query, "month", now, dayStart);
      && (forall k :: 0 <= k < |today| ==> today[k] in week)
      && (forall k :: 0 <= k < |week| ==> week[k] in month)
      && |today| <= |week| <= |month|
  {
    FilterNotesIsOnePass(notes, query, "today", now, dayStart);
    FilterNotesIsOnePass(notes, query, "week", now, dayStart);
    FilterNotesIsOnePass(notes, query, "month", now, dayStart);
    FilterMonotone(notes, (n: Note) => NoteShown(n, query, "today", now, dayStart),
                          (n: Note) => NoteShown(n, query, "week", now, dayStart));
    FilterMonotone(notes, (n: Note) => NoteShown(n, query, "week", now, dayStart),
                          (n: Note) => NoteShown(n, query, "month", now, dayStart));
  }

  /** The calls this page makes to the `notes` table. */
  datatype Request = SelectNotes | InsertNote(content: string, userId: string)

  class NotesView {
    var notes: seq<Note>
    var loading: bool
    var newNote: string
    var isAdding: bool
    var searchQuery: string
    var dateFilter: string
    var requests: seq<Request>

    /** The `useState` initial values. */
    constructor ()
      ensures notes == [] && loading && newNote == "" && !isAdding
      ensures searchQuery == "" && dateFilter == "all" && requests == []
    {
      notes := [];
      loading := true;
      newNote := "";
      isAdding := false;
      searchQuery := "";
      dateFilter := "all";
      requests := [];
    }

    /** `filteredNotes` at the instant `now`, whose day starts at `dayStart`. */
    function Visible(now: int, dayStart: int): seq<Note>
      reads this
    {
      FilterNotes(notes, searchQuery, dateFilter, now, dayStart)
    }

    /** The filter menu's callback sets the date filter whatever the filter type. */
    method ChangeFilter(filterType: string, value: string)
      modifies this
      ensures dateFilter == value
      ensures notes == old(notes) && searchQuery == old(searchQuery) && requests == old(requests)
      ensures newNote == old(newNote) && isAdding == old(isAdding) && loading == old(loading)
    {
      dateFilter := value;
    }

    /** `fetchNotes`: a successful select replaces the list (null data reads as
        empty); a failed one leaves it; either way loading ends. */
    method FetchNotes(reply: Fetch<Note>)
      modifies this
      ensures requests == old(requests) + [SelectNotes]
      ensures notes == if reply.Loaded? then reply.data.GetOr([]) else old(notes)
      ensures !loading
      ensures newNote == old(newNote) && isAdding == old(isAdding)
      ensures searchQuery == old(searchQuery) && dateFilter == old(dateFilter)
    {
      requests := requests + [SelectNotes];
      if reply.Loaded? {
        notes := reply.data.GetOr([]);
      }
      loading := false;
    }

    /** `addNote`: blank content, or no signed-in user, sends nothing. Otherwise the
        text is inserted for the user as typed (untrimmed); on success the input is
        cleared, the form closed and the list fetched again. */
    method AddNote(user: Option<string>, insertOk: bool, refetch: Fetch<Note>)
      modifies this
      ensures IsBlank(old(newNote)) || user.None? ==>
        requests == old(requests) && notes == old(notes) && newNote == old(newNote)
        && isAdding == old(isAdding) && loading == old(loading)
      ensures !IsBlank(old(newNote)) && user.Some? && !insertOk ==>
        requests == old(requests) + [InsertNote(old(newNote), user.value)]
        && notes == old(notes) && newNote == old(newNote) && isAdding == old(isAdding)
        && loading == old(loading)
      ensures !IsBlank(old(newNote)) && user.Some? && insertOk ==>
        requests == old(requests) + [InsertNote(old(newNote), user.value), SelectNotes]
        && newNote == "" && !isAdding && !loading
        && notes == (if refetch.Loaded? then refetch.data.GetOr([]) else old(notes))
      ensures searchQuery == old(searchQuery) && dateFilter == old(dateFilter)
    {
      if IsBlank(newNote) {
        return;
      }
      if user.None? {
        return;
      }
      requests := requests + [InsertNote(newNote, user.value)];
      if insertOk {
        newNote := "";
        isAdding := false;
        FetchNotes(refetch);
      }
    }
  }
}
