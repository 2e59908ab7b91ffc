/** The google-calendar-sync server function: it finds the user's stored Google
    credential, renews the access token with a refresh-token grant (section 6 of
    RFC 6749) when the stored expiry has passed, and then creates or deletes one
    event in the user's primary calendar. */
module CalendarSync {
  import opened Wrappers

  // ---------------------------------------------------------------------------
  // Credentials and their renewal (lines 44-69)
  // ---------------------------------------------------------------------------

  /** A row of `user_google_tokens`; the expiry in milliseconds. */
  datatype Credential = Credential(accessToken: Option<string>, refreshToken: Option<string>, tokenExpiry: Option<int>)

  /** The token endpoint's answer: `access_token` and `expires_in` (seconds), each
      possibly missing. */
  datatype RefreshReply = RefreshReply(accessToken: Option<string>, expiresIn: Option<int>)

  /** The guard at line 46: a stored expiry that lies strictly before `now`. */
  predicate NeedsRefresh(cred: Credential, now: int) {
    cred.tokenExpiry.Some? && cred.tokenExpiry.value < now
  }

  /** The row after the update at lines 62-68: the new access token and an expiry
      `expiresIn` seconds after `now`; the refresh token is kept. */
  function Refreshed(cred: Credential, accessToken: Option<string>, now: int, expiresIn: int): (c: Credential)
    ensures c.refreshToken == cred.refreshToken && c.accessToken == accessToken
    ensures c.tokenExpiry.Some? && c.tokenExpiry.value - now == expiresIn * 1000
  {
    Credential(accessToken, cred.refreshToken, Some(now + expiresIn * 1000))
  }

  /** A credential renewed with a non-negative lifetime is not renewed again
      before that lifetime has passed. */
  lemma RefreshedStaysFresh(cred: Credential, accessToken: Option<string>, now: int, expiresIn: int, later: int)
    requires expiresIn >= 0 && later <= now + expiresIn * 1000
    ensures !NeedsRefresh(Refreshed(cred, accessToken, now, expiresIn), later)
    ensures !NeedsRefresh(Refreshed(cred, accessToken, now, expiresIn), now)
  {
  }

  /** A credential without an expiry is never renewed, and one is renewed at
      every instant after its expiry. */
  lemma RefreshMonotone(cred: Credential, now: int, later: int)
    requires now <= later
    ensures cred.tokenExpiry.None? ==> !NeedsRefresh(cred, now)
    ensures NeedsRefresh(cred, now) ==> NeedsRefresh(cred, later)
  {
  }

  // ---------------------------------------------------------------------------
  // The event sent to Google (lines 73-83)
  // ---------------------------------------------------------------------------

  /** The request's `eventData`. */
  datatype EventData = EventData(title: Option<string>, eventDate: string, eventTime: Option<string>,
                                 googleCalendarId: Option<string>)

  /** The body posted to the events endpoint (the time zone is left out). */
  datatype CalendarEvent = CalendarEvent(summary: Option<string>, start: string, end: string)

  /** `${date}T${time || fallback}`. */
  function DateTime(date: string, time: Option<string>, fallback: string): (r: string)
    ensures |r| > |date| && r[..|date| + 1] == date + "T"
    ensures Truthy(time) ==> r[|date| + 1..] == time.value
    ensures !Truthy(time) ==> r[|date| + 1..] == fallback
  {
    date + "T" + OrElse(time, fallback)
  }

  function BuildEvent(e: EventData): CalendarEvent {
    CalendarEvent(e.title, DateTime(e.eventDate, e.eventTime, "00:00:00"), DateTime(e.eventDate, e.eventTime, "01:00:00"))
  }

  /** The summary is the title; start and end both begin with the event's date;
      with a time given, start and end are the same instant (a zero-length event),
      and without one the event runs from midnight to one o'clock. */
  lemma BuildEventShape(e: EventData)
    ensures var ev := BuildEvent(e);
      && ev.summary == e.title
      && ev.start[..|e.eventDate|] == e.eventDate && ev.end[..|e.eventDate|] == e.eventDate
      && (Truthy(e.eventTime) <==> ev.start == ev.end)
      && (Truthy(e.eventTime) ==> ev.start[|e.eventDate| + 1..] == e.eventTime.value)
      && (!Truthy(e.eventTime) ==> ev.start[|e.eventDate| + 1..] == "00:00:00" && ev.end[|e.eventDate| + 1..] == "01:00:00")
  {
    var ev := BuildEvent(e);
    var n := |e.eventDate|;
    assert ev.start[..n] == ev.start[..n + 1][..n];
    assert ev.end[..n] == ev.end[..n + 1][..n];
    if !Truthy(e.eventTime) {
      assert ev.start[n + 1..] != ev.end[n + 1..] by {
        assert ev.start[n + 1..][1] == '0' && ev.end[n + 1..][1] == '1';
      }
    }
  }

  // ---------------------------------------------------------------------------
  // Dispatch on the action (lines 71-124)
  // ---------------------------------------------------------------------------

  /** The calls made to Google's endpoints. */
  datatype GoogleCall =
    | TokenRequest(grantType: string, refreshToken: string)
    | CreateEvent(bearer: Option<string>, event: CalendarEvent)
    | DeleteEvent(bearer: Option<string>, eventId: string)

  /** A response body: the created event's id (absent when Google's answer has
      none), a bare success, or an error whose message is fixed by the code
      (`Some`) or comes from a runtime exception (`None`). */
  datatype Body = Created(googleCalendarId: Option<string>) | Done | Error(message: Option<string>)

  datatype Reply = Reply(status: int, body: Body)

  datatype Outcome = Outcome(reply: Reply, calls: seq<GoogleCall>)

  /** What the action leads to, given the bearer token in use and the id Google
      gives a created event. Reading a field of a missing `eventData` throws,
      which is answered with a 500. */
  function Dispatch(action: string, eventData: Option<EventData>, bearer: Option<string>,
                    createdId: Option<string>): Outcome
  {
    if action == "create" then
      if eventData.None? then Outcome(Reply(500, Error(None)), [])
      else Outcome(Reply(200, Created(createdId)), [CreateEvent(bearer, BuildEvent(eventData.value))])
    else if action == "delete" && eventData.None? then Outcome(Reply(500, Error(None)), [])
    else if action == "delete" && Truthy(eventData.value.googleCalendarId) then
      Outcome(Reply(200, Done), [DeleteEvent(bearer, eventData.value.googleCalendarId.value)])
    else Outcome(Reply(400, Error(Some("Invalid action"))), [])
  }

  /** At most one call is made, exactly when the answer is a success; it uses the
      bearer token given; a delete names the event's stored Google id; and every
      action other than "create" and "delete" is refused. */
  lemma DispatchFacts(action: string, eventData: Option<EventData>, bearer: Option<string>, createdId: Option<string>)
    ensures var o := Dispatch(action, eventData, bearer, createdId);
      && |o.calls| <= 1
      && (o.calls != [] <==> o.reply.status == 200)
      && (forall c :: c in o.calls ==> c.bearer == bearer)
      && (forall c :: c in o.calls && c.DeleteEvent? ==>
            action == "delete" && eventData.Some? && eventData.value.googleCalendarId == Some(c.eventId) && c.eventId != "")
      && (forall c :: c in o.calls && c.CreateEvent? ==> action == "create" && c.event == BuildEvent(eventData.value))
      && (o.reply.status == 200 && action == "create" ==> o.reply.body == Created(createdId))
      && (action != "create" && action != "delete" ==> o == Outcome(Reply(400, Error(Some("Invalid action"))), []))
  {
  }

  // ---------------------------------------------------------------------------
  // The handler
  // ---------------------------------------------------------------------------

  /** The credential table and the log of calls to Google. */
  class Bridge {
    var tokens: map<string, Credential>
    var calls: seq<GoogleCall>

    constructor (tokens0: map<string, Credential>)
      ensures tokens == tokens0 && calls == []
    {
      tokens := tokens0;
      calls := [];
    }

    /** The request handler. `user` is the authenticated user's id; `now` the
        clock in milliseconds; `refresh` the token endpoint's answer, if asked;
        `updateOk` whether the credential update is stored; `createdId` the id
        in Google's answer to a create. */
    method Sync(user: Option<string>, action: string, eventData: Option<EventData>, now: int,
                refresh: RefreshReply, updateOk: bool, createdId: Option<string>) returns (reply: Reply)
      modifies this
      // no user: refused before the credential is looked up
      ensures user.None? ==>
        reply == Reply(500, Error(Some("Unauthorized"))) && tokens == old(tokens) && calls == old(calls)
      // no credential: refused, nothing else happens
      ensures user.Some? && user.value !in old(tokens) ==>
        reply == Reply(400, Error(Some("Google Calendar not connected"))) && tokens == old(tokens) && calls == old(calls)
      // an unexpired credential is used as stored
      ensures user.Some? && user.value in old(tokens) && !NeedsRefresh(old(tokens)[user.value], now) ==>
        var o := Dispatch(action, eventData, old(tokens)[user.value].accessToken, createdId);
        reply == o.reply && tokens == old(tokens) && calls == old(calls) + o.calls
      // an expired one is renewed first with its refresh token
      ensures user.Some? && user.value in old(tokens) && NeedsRefresh(old(tokens)[user.value], now) ==>
        var cred := old(tokens)[user.value];
        && |calls| >= |old(calls)| + 1
        && calls[..|old(calls)| + 1] == old(calls) + [TokenRequest("refresh_token", cred.refreshToken.GetOr(""))]
      // a renewal without a lifetime fails while building the update: 500, nothing stored
      ensures user.Some? && user.value in old(tokens) && NeedsRefresh(old(tokens)[user.value], now)
              && refresh.expiresIn.None? ==>
        reply.status == 500 && tokens == old(tokens) && |calls| == |old(calls)| + 1
      // otherwise the reply's token is used, and stored with the new expiry if the
      // update goes through; the update's body is serialised with `JSON.stringify`,
      // which leaves out a missing `access_token`, so the stored token is then kept
      ensures user.Some? && user.value in old(tokens) && NeedsRefresh(old(tokens)[user.value], now)
              && refresh.expiresIn.Some? ==>
        var cred := old(tokens)[user.value];
        var o := Dispatch(action, eventData, refresh.accessToken, createdId);
        var stored := if refresh.accessToken.Some? then refresh.accessToken else cred.accessToken;
        && reply == o.reply
        && calls == old(calls) + [TokenRequest("refresh_token", cred.refreshToken.GetOr(""))] + o.calls
        && tokens == if updateOk
                     then old(tokens)[user.value := Refreshed(cred, stored, now, refresh.expiresIn.value)]
                     else old(tokens)
    {
      if user.None? {
        return Reply(500, Error(Some("Unauthorized")));
      }
      var uid := user.value;
      if uid !in tokens {
        return Reply(400, Error(Some("Google Calendar not connected")));
      }
      var cred := tokens[uid];
      var accessToken := cred.accessToken;
      if cred.tokenExpiry.Some? && cred.tokenExpiry.value < now {
        calls := calls + [TokenRequest("refresh_token", cred.refreshToken.GetOr(""))];
        accessToken := refresh.accessToken;
        if refresh.expiresIn.None? {
          return Reply(500, Error(None));
        }
        if updateOk {
          var stored := if accessToken.Some? then accessToken else cred.accessToken;
          tokens := tokens[uid := Credential(stored, cred.refreshToken, Some(now + refresh.expiresIn.value * 1000))];
        }
      }
      if action == "create" {
        if eventData.None? {
          return Reply(500, Error(None));
        }
        var e := eventData.value;
        var event := CalendarEvent(e.title, DateTime(e.eventDate, e.eventTime, "00:00:00"),
                                   DateTime(e.eventDate, e.eventTime, "01:00:00"));
        calls := calls + [CreateEvent(accessToken, event)];
        return Reply(200, Created(createdId));
      } else if action == "delete" {
        if eventData.None? {
          return Reply(500, Error(None));
        }
        if Truthy(eventData.value.googleCalendarId) {
          calls := calls + [DeleteEvent(accessToken, eventData.value.googleCalendarId.value)];
          return Reply(200, Done);
        }
      }
      reply := Reply(400, Error(Some("Invalid action")));
    }
  }
}
