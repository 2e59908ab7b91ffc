/** The journal input form: the `content`/`processing` state machine around
    one submission to the process-journal function. */
module JournalInput {
  import opened Wrappers
  import opened Text

  /** The awaited calls `handleSubmit` makes, each with the value `processing`
      had while it was outstanding. */
  datatype Call =
    | GetUser(processingDuring: bool)
    | InvokeProcessJournal(journalContent: string, userId: string, processingDuring: bool)

  datatype SubmitOutcome = EmptyContent | SignInRequired | Processed | Failed

  class JournalForm {
    var content: string
    var processing: bool
    /** How many times the `onProcessed` callback has been called. */
    var processedCount: nat
    var calls: seq<Call>

    /** The `useState` initial values. */
    constructor ()
      ensures content == "" && !processing && processedCount == 0 && calls == []
    {
      content := "";
      processing := false;
      processedCount := 0;
      calls := [];
    }

    /** `handleSubmit`. Blank content is refused before anything else happens.
        Otherwise `processing` is raised for the whole exchange (the user lookup
        and the function call) and lowered again on every path. Without a user
        nothing is sent. With one, the content is sent as typed; success clears
        it and calls `onProcessed` once, failure keeps it and calls nothing.
        `invokeOk` is whether the function answered without error. */
    method HandleSubmit(user: Option<string>, invokeOk: bool) returns (outcome: SubmitOutcome)
      modifies this
      ensures IsBlank(old(content)) ==>
        outcome == EmptyContent && content == old(content) && processing == old(processing)
        && processedCount == old(processedCount) && calls == old(calls)
      ensures !IsBlank(old(content)) ==> !processing
      ensures !IsBlank(old(content)) && user.None? ==>
        outcome == SignInRequired && content == old(content) && processedCount == old(processedCount)
        && calls == old(calls) + [GetUser(true)]
      ensures !IsBlank(old(content)) && user.Some? ==>
        calls == old(calls) + [GetUser(true), InvokeProcessJournal(old(content), user.value, true)]
      ensures !IsBlank(old(content)) && user.Some? && invokeOk ==>
        outcome == Processed && content == "" && processedCount == old(processedCount) + 1
      ensures !IsBlank(old(content)) && user.Some? && !invokeOk ==>
        outcome == Failed && content == old(content) && processedCount == old(processedCount)
    {
      if IsBlank(content) {
        return EmptyContent;
      }
      processing := true;
      calls := calls + [GetUser(processing)];
      if user.None? {
        outcome := SignInRequired;
      } else {
        calls := calls + [InvokeProcessJournal(content, user.value, processing)];
        if invokeOk {
          content := "";
          processedCount := processedCount + 1;
          outcome := Processed;
        } else {
          outcome := Failed;
        }
      }
      processing := false;
    }
  }

  /** Every call the form has made so far was made while `processing` was raised,
      so the submit button was disabled throughout. */
  ghost predicate AllCallsWhileProcessing(calls: seq<Call>) {
    forall k :: 0 <= k < |calls| ==> calls[k].processingDuring
  }

  /** Submissions keep every recorded call under a raised `processing` flag. */
  method SubmitKeepsCallsGuarded(form: JournalForm, user: Option<string>, invokeOk: bool)
    requires AllCallsWhileProcessing(form.calls)
    modifies form
    ensures AllCallsWhileProcessing(form.calls)
  {
    var _ := form.HandleSubmit(user, invokeOk);
  }
}
