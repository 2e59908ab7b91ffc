/** The previous-entries page: the list of journal entries, its loading flag,
    and the local removal that follows a successful delete. */
module PreviousEntries {
  import opened Wrappers
  import opened Sequences

  /** One row of the `journal_entries` table; `createdAt` in milliseconds. */
  datatype JournalEntry = JournalEntry(id: string, content: string, createdAt: int)

  /** `entries.filter(entry => entry.id !== id)`. */
  function RemoveById(entries: seq<JournalEntry>, id: string): seq<JournalEntry> {
    Filter(entries, (e: JournalEntry) => e.id != id)
  }

  /** The removal drops exactly the entries carrying that id, and the others
      keep their relative order. */
  lemma RemoveByIdCorrect(entries: seq<JournalEntry>, id: string)
    ensures var r := RemoveById(entries, id);
      && IsSubsequence(r, entries)
      && (forall k :: 0 <= k < |r| ==> r[k].id != id)
      && (forall k :: 0 <= k < |entries| && entries[k].id != id ==> entries[k] in r)
  {
    FilterIsSubsequence(entries, (e: JournalEntry) => e.id != id);
  }

  /** Deleting an id that no entry carries leaves the list as it was. */
  lemma RemoveAbsentId(entries: seq<JournalEntry>, id: string)
    requires forall k :: 0 <= k < |entries| ==> entries[k].id != id
    ensures RemoveById(entries, id) == entries
  {
    FilterKeepsAll(entries, (e: JournalEntry) => e.id != id);
  }

  /** Deleting an id that an entry carries makes the list shorter. */
  lemma {:induction false} RemovePresentId(entries: seq<JournalEntry>, i: nat)
    requires i < |entries|
    ensures |RemoveById(entries, entries[i].id)| < |entries|
    decreases |entries|
  {
    var id := entries[i].id;
    if i > 0 {
      RemovePresentId(entries[1..], i - 1);
    }
  }

  /** The calls this page makes to the `journal_entries` table. */
  datatype Request = SelectEntries | DeleteEntry(id: string)

  class EntriesView {
    var entries: seq<JournalEntry>
    var loading: bool
    var requests: seq<Request>

    /** The `useState` initial values. */
    constructor ()
      ensures entries == [] && loading && requests == []
    {
      entries := [];
      loading := true;
      requests := [];
    }

    /** `fetchEntries`: a successful select replaces the list (null data reads as
        empty); a failed one leaves it; either way loading ends. */
    method FetchEntries(reply: Fetch<JournalEntry>)
      modifies this
      ensures requests == old(requests) + [SelectEntries]
      ensures entries == if reply.Loaded? then reply.data.GetOr([]) else old(entries)
      ensures !loading
    {
      requests := requests + [SelectEntries];
      if reply.Loaded? {
        entries := reply.data.GetOr([]);
      }
      loading := false;
    }

    /** `deleteEntry(id)`: the delete is sent; only when it succeeds is the entry
        removed from the local list. The list is not fetched again. */
    method DeleteEntry(id: string, deleteOk: bool)
      modifies this
      ensures requests == old(requests) + [Request.DeleteEntry(id)]
      ensures entries == if deleteOk then RemoveById(old(entries), id) else old(entries)
      ensures loading == old(loading)
    {
      requests := requests + [Request.DeleteEntry(id)];
      if deleteOk {
        entries := RemoveById(entries, id);
      }
    }
  }
}
