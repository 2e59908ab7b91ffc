/** The health and wellness page: its search and date-range filter, and the
    local state that `fetchHealthMentions` updates. */
module HealthPage {
  import opened Wrappers
  import opened Text
  import opened Sequences
  import opened DateBuckets

  /** One row of the `health_mentions` table; `createdAt` in milliseconds. */
  datatype HealthMention = HealthMention(id: string, content: string, createdAt: int)

  /** The single condition under which a mention is shown. */
  predicate MentionShown(m: HealthMention, query: string, dateFilter: string, now: int, dayStart: int) {
    MatchesSearch(m.content, query) && InBucket(dateFilter, m.createdAt, now, dayStart)
  }

  /** The page's filter effect: the search, then (unless the filter is "all")
      the date-range switch. */
  function FilterMentions(mentions: seq<HealthMention>, query: string, dateFilter: string, now: int, dayStart: int)
    : seq<HealthMention>
  {
    var searched := Filter(mentions, (m: HealthMention) => MatchesSearch(m.content, query));
    if dateFilter != "all"
    then Filter(searched, (m: HealthMention) => InBucket(dateFilter, m.createdAt, now, dayStart))
    else searched
  }

  /** The shown mentions keep their order and are exactly the mentions that match
      the search and fall in the chosen date range. */
  lemma FilterMentionsCorrect(mentions: seq<HealthMention>, query: string, dateFilter: string, now: int, dayStart: int)
    ensures var r := FilterMentions(mentions, query, dateFilter, now, dayStart);
      && r == Filter(mentions, (m: HealthMention) => MentionShown(m, query, dateFilter, now, dayStart))
      && IsSubsequence(r, mentions)
      && (forall k :: 0 <= k < |r| ==> MentionShown(r[k], query, dateFilter, now, dayStart))
      && (forall k :: 0 <= k < |mentions| && MentionShown(mentions[k], query, dateFilter, now, dayStart)
            ==> mentions[k] in r)
  {
    var search := (m: HealthMention) => MatchesSearch(m.content, query);
    var bucket := (m: HealthMention) => InBucket(dateFilter, m.createdAt, now, dayStart);
    var shown := (m: HealthMention) => MentionShown(m, query, dateFilter, now, dayStart);
    if dateFilter == "all" {
      FilterKeepsAll(Filter(mentions, search), bucket);
    }
    FilterFilter(mentions, search, bucket, shown);
    FilterIsSubsequence(mentions, shown);
  }

  /** With an empty search, "all" and every date value the switch does not name
      show the whole list, future timestamps included. */
  lemma UnnamedFilterShowsAll(mentions: seq<HealthMention>, dateFilter: string, now: int, dayStart: int)
    requires !IsNamedBucket(dateFilter)
    ensures FilterMentions(mentions, "", dateFilter, now, dayStart) == mentions
  {
    forall k | 0 <= k < |mentions| ensures MentionShown(mentions[k], "", dateFilter, now, dayStart) {
      ContainsEmpty(Lower(mentions[k].content));
      BucketBounds(dateFilter, mentions[k].createdAt, now, dayStart);
    }
    FilterMentionsCorrect(mentions, "", dateFilter, now, dayStart);
    FilterKeepsAll(mentions, (m: HealthMention) => MentionShown(m, "", dateFilter, now, dayStart));
  }

  /** The call this page makes to the `health_mentions` table. */
  datatype Request = SelectMentions

  class HealthView {
    var healthMentions: seq<HealthMention>
    var loading: bool
    var searchQuery: string
    var dateFilter: string
    var requests: seq<Request>

    /** The `useState` initial values. */
    constructor ()
      ensures healthMentions == [] && loading && searchQuery == "" && dateFilter == "all"
      ensures requests == []
    {
      healthMentions := [];
      loading := true;
      searchQuery := "";
      dateFilter := "all";
      requests := [];
    }

    /** `filteredHealthMentions` at the instant `now`, whose day starts at `dayStart`. */
    function Visible(now: int, dayStart: int): seq<HealthMention>
      reads this
    {
      FilterMentions(healthMentions, searchQuery, dateFilter, now, dayStart)
    }

    /** The filter menu's callback sets the date filter whatever the filter type. */
    method ChangeFilter(filterType: string, value: string)
      modifies this
      ensures dateFilter == value
      ensures healthMentions == old(healthMentions) && searchQuery == old(searchQuery)
      ensures loading == old(loading) && requests == old(requests)
    {
      dateFilter := value;
    }

    /** `fetchHealthMentions`: a successful select replaces the list (null data
        reads as empty); a failed one leaves it; either way loading ends. */
    method FetchHealthMentions(reply: Fetch<HealthMention>)
      modifies this
      ensures requests == old(requests) + [SelectMentions]
      ensures healthMentions == if reply.Loaded? then reply.data.GetOr([]) else old(healthMentions)
      ensures !loading
      ensures searchQuery == old(searchQuery) && dateFilter == old(dateFilter)
    {
      requests := requests + [SelectMentions];
      if reply.Loaded? {
        healthMentions := reply.data.GetOr([]);
      }
      loading := false;
    }
  }
}
