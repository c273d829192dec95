/** What `transcribe_and_index_orchestrator` guarantees about the runs the
    runtime can drive it through: how it starts, how it stops when no
    transcription id comes back, the fixed expiry, the 10-second timers, the
    bound on the number of status checks, the exact indexing sequence, and
    that any failure or the expiry ends it for good. */
module PollingProperties {
  import opened Wrappers
  import Text
  import opened Orchestrators

  // ---------------------------------------------------------------------
  // Replaying one more event

  lemma CountSnoc(t: seq<Option<Action>>, x: Option<Action>, p: Option<Action> -> bool)
    ensures Count(t + [x], p) == Count(t, p) + (if p(x) then 1 else 0)
  {
  }

  /** One more event adds one entry to each count, when the new pending action
      is of that kind. */
  lemma CountsSnoc(input: TranscribeInput, history: seq<Event>, e: Event)
    ensures ChecksIssued(input, history + [e]) ==
              ChecksIssued(input, history) + (if IsCheckCall(Decide(input, history + [e])) then 1 else 0)
    ensures TimersCreated(input, history + [e]) ==
              TimersCreated(input, history) + (if IsTimer(Decide(input, history + [e])) then 1 else 0)
  {
  }

  /** Before any event, no check and no timer has been asked for. */
  lemma CountsAtStart(input: TranscribeInput)
    ensures ChecksIssued(input, []) == 0 && TimersCreated(input, []) == 0
  {
    PendingKinds(input, AwaitStart);
    var x := Decide(input, []);
    assert Trace(input, []) == [] + [x];
    CountSnoc([], x, IsCheckCall);
    CountSnoc([], x, IsTimer);
  }

  /** Only a phase awaiting a status check has a `check_transcription` call
      pending, and only one awaiting a timer has a timer pending. */
  lemma PendingKinds(input: TranscribeInput, p: Phase)
    ensures IsCheckCall(PendingAction(input, p)) <==> p.AwaitCheck?
    ensures IsTimer(PendingAction(input, p)) <==> p.AwaitTimer?
  {
  }

  /** The generator is at its first `yield` only before any event. */
  lemma AwaitStartOnlyAtStart(input: TranscribeInput, history: seq<Event>)
    ensures Replay(input, history).AwaitStart? <==> history == []
  {
  }

  // ---------------------------------------------------------------------
  // Starting

  /** With an empty history the only action is the call of
      "start_transcription" with the uploaded file's URL. */
  lemma FirstActionStartsTranscription(input: TranscribeInput)
    ensures Trace(input, []) == [Some(CallActivity(StartTranscription, Plain(input.fileUrl), None))]
  {
  }

  /** After any history, the orchestrator has asked at most once for
      "start_transcription", and that was its first action. */
  lemma {:induction false} StartRequestedOnce(input: TranscribeInput, history: seq<Event>, k: nat)
    requires 0 < k <= |history|
    ensures var a := Decide(input, history[..k]);
      !(a.Some? && a.value.CallActivity? && a.value.name == StartTranscription)
  {
  }

  // ---------------------------------------------------------------------
  // Termination of the generator

  /** Once the orchestrator has returned, no further event leads to an action:
      a history that continues past the `return` is not one it produces. */
  lemma {:induction false} NothingAfterReturn(input: TranscribeInput, history: seq<Event>, rest: seq<Event>)
    requires Decide(input, history).Some? && Decide(input, history).value.Return?
    requires rest != []
    ensures Decide(input, history + rest) == None
    ensures Replay(input, history + rest).Diverged?
    decreases |rest|
  {
    var n := |rest|;
    assert history + rest == (history + rest[..n - 1]) + [rest[n - 1]];
    ReplaySnoc(input, history + rest[..n - 1], rest[n - 1]);
    if n == 1 {
      assert history + rest[..n - 1] == history;
    } else {
      NothingAfterReturn(input, history, rest[..n - 1]);
    }
  }

  /** A falsy transcription id ("" or None) makes the orchestrator return
      `{"error": "Transcription could not be started"}` straight away: it never
      asks for a status check or a timer, and nothing follows. */
  lemma {:induction false} NotStartedEndsOrchestration(input: TranscribeInput, history: seq<Event>)
    requires |history| >= 1 && history[0].ActivityCompleted? && !Text.Truthy(history[0].result)
    ensures Decide(input, history[..1]) == Some(Return(ErrorDict("Transcription could not be started")))
    ensures |history| > 1 ==> Decide(input, history) == None
    ensures ChecksIssued(input, history) == 0 && TimersCreated(input, history) == 0
    decreases |history|
  {
    var n := |history|;
    ReplaySnoc(input, [], history[0]);
    assert [] + [history[0]] == history[..1];
    if n == 1 {
      assert history[..1] == history;
      assert history == [] + [history[0]];
      CountsAtStart(input);
      CountsSnoc(input, [], history[0]);
      PendingKinds(input, Replay(input, history));
    } else {
      var prefix := history[..n - 1];
      assert prefix[..1] == history[..1];
      NotStartedEndsOrchestration(input, prefix);
      assert history == history[..1] + history[1..];
      NothingAfterReturn(input, history[..1], history[1..]);
      assert history == prefix + [history[n - 1]];
      CountsSnoc(input, prefix, history[n - 1]);
      PendingKinds(input, Replay(input, history));
    }
  }

  /** Any activity that fails (a raised exception at its `yield`) ends the
      orchestration with output `{"error": str(e)}`. */
  lemma ActivityFailureReturnsError(input: TranscribeInput, history: seq<Event>, reason: string, at: int)
    requires Decide(input, history).Some? && Decide(input, history).value.CallActivity?
    ensures Decide(input, history + [ActivityFailed(reason, at)]) == Some(Return(ErrorDict(reason)))
  {
  }

  // ---------------------------------------------------------------------
  // The polling loop

  /** The transcription id and the expiry that the loop carries are those of
      the first event: the id "start_transcription" returned, and the time it
      completed plus two hours. The expiry is computed once. */
  lemma {:induction false} ExpiryComputedOnce(input: TranscribeInput, history: seq<Event>)
    ensures var p := Replay(input, history);
      p.AwaitCheck? || p.AwaitTimer? ==>
        && |history| >= 1 && history[0].ActivityCompleted? && Text.Truthy(history[0].result)
        && p.transcriptionId == history[0].result.value
        && p.expiry == history[0].at + MaxWait
    decreases |history|
  {
    if history != [] {
      var n := |history|;
      var prefix := history[..n - 1];
      assert history == prefix + [history[n - 1]];
      ReplaySnoc(input, prefix, history[n - 1]);
      ExpiryComputedOnce(input, prefix);
      AwaitStartOnlyAtStart(input, prefix);
      if prefix != [] {
        assert prefix[0] == history[0];
      }
    }
  }

  /** "check_transcription" is asked for only while the orchestration time is
      before the expiry. */
  lemma CheckOnlyBeforeExpiry(input: TranscribeInput, history: seq<Event>)
    requires IsCheckCall(Decide(input, history))
    ensures |history| >= 1 && history[|history| - 1].at < history[0].at + MaxWait
  {
    PendingKinds(input, Replay(input, history));
    ExpiryComputedOnce(input, history);
    var n := |history|;
    var prefix := history[..n - 1];
    assert history == prefix + [history[n - 1]];
    ReplaySnoc(input, prefix, history[n - 1]);
  }

  /** Each falsy check result is followed by exactly one timer, due 10 seconds
      after the time the check completed. */
  lemma FalsyCheckSchedulesTimer(input: TranscribeInput, history: seq<Event>, result: Option<string>, at: int)
    requires IsCheckCall(Decide(input, history))
    requires !Text.Truthy(result)
    ensures Decide(input, history + [ActivityCompleted(result, at)]) == Some(CreateTimer(at + 10))
  {
  }

  /** The 10-second timer follows the completion time of the check, not the
      expiry: a check answered one second before the expiry sets a timer due
      nine seconds after it. */
  lemma TimerCanBeDueAfterExpiry(input: TranscribeInput, id: string, t: int)
    requires id != ""
    ensures var h := [ActivityCompleted(Some(id), t), ActivityCompleted(None, t + MaxWait - 1)];
      && Decide(input, h) == Some(CreateTimer(t + MaxWait + 9))
      && t + MaxWait + 9 > h[0].at + MaxWait
  {
    var e0 := ActivityCompleted(Some(id), t);
    var e1 := ActivityCompleted(None, t + MaxWait - 1);
    ReplaySnoc(input, [], e0);
    assert [] + [e0] == [e0];
    ReplaySnoc(input, [e0], e1);
    assert [e0] + [e1] == [e0, e1];
  }

  /** When the timer fires, the orchestrator checks again with the same id if
      the time is still before the expiry; otherwise it falls off the end of
      the generator and returns None, after which nothing follows. */
  lemma TimerFiredChecksOrReturnsNone(input: TranscribeInput, history: seq<Event>, at: int, rest: seq<Event>)
    requires IsTimer(Decide(input, history))
    ensures var p := Replay(input, history);
      at < p.expiry ==>
        Decide(input, history + [TimerFired(at)]) == Some(CallActivity(CheckTranscription, Plain(p.transcriptionId), None))
    ensures var p := Replay(input, history);
      at >= p.expiry ==> Decide(input, history + [TimerFired(at)]) == Some(Return(NoneOutput))
    ensures at >= Replay(input, history).expiry && rest != [] ==>
      Decide(input, history + [TimerFired(at)] + rest) == None
  {
    PendingKinds(input, Replay(input, history));
    ReplaySnoc(input, history, TimerFired(at));
    if at >= Replay(input, history).expiry && rest != [] {
      NothingAfterReturn(input, history + [TimerFired(at)], rest);
    }
  }

  /** A truthy transcript leads to exactly this sequence, with nothing in
      between: create the search index, index the transcript into it, return
      the index name. */
  lemma TranscriptLeadsToIndexing(input: TranscribeInput, history: seq<Event>, transcript: string,
                                  e1: Event, e2: Event, at: int)
    requires IsCheckCall(Decide(input, history))
    requires transcript != ""
    requires e1.ActivityCompleted? && e2.ActivityCompleted?
    ensures var h1 := history + [ActivityCompleted(Some(transcript), at)];
      && Decide(input, h1) == Some(CallActivity(CreateSearchIndex, Plain(IndexName(input.podcastId)), None))
      && Decide(input, h1 + [e1]) ==
           Some(CallActivity(IndexTranscript, IndexRequest(IndexName(input.podcastId), transcript), None))
      && Decide(input, h1 + [e1] + [e2]) == Some(Return(IndexNameJson(input.podcastId + "-index")))
  {
  }

  // ---------------------------------------------------------------------
  // At most 720 status checks

  /** A history the runtime can produce in time: the orchestration clock never
      goes back, and a timer never fires before the time it was set for. */
  ghost predicate WellTimed(input: TranscribeInput, history: seq<Event>) {
    && (forall i, j :: 0 <= i < j < |history| ==> history[i].at <= history[j].at)
    && (forall k :: 0 <= k < |history| && history[k].TimerFired? && Replay(input, history[..k]).AwaitTimer? ==>
          history[k].at >= Replay(input, history[..k]).fireAt)
  }

  lemma WellTimedPrefix(input: TranscribeInput, history: seq<Event>, e: Event)
    requires WellTimed(input, history + [e])
    ensures WellTimed(input, history)
    ensures history != [] ==> history[|history| - 1].at <= e.at
    ensures e.TimerFired? && Replay(input, history).AwaitTimer? ==> e.at >= Replay(input, history).fireAt
  {
    var h := history + [e];
    assert forall k :: 0 <= k <= |history| ==> h[..k] == history[..k];
    assert h[..|history|] == history;
    if history != [] {
      assert h[|history| - 1] == history[|history| - 1];
    }
  }

  /** The invariant of the polling loop, for phase `p` after `c` status checks
      with `last` the time of the latest event: with `start` the expiry minus
      two hours, the c-th check was asked for no earlier than
      `start + 10 * (c - 1)` and before the expiry, and the timer that follows
      it is due no earlier than `start + 10 * c`; hence `c <= 720`. */
  ghost predicate PollInv(p: Phase, c: int, last: int) {
    && 0 <= c <= MaxWait / PollInterval
    && (p.AwaitStart? ==> c == 0)
    && (p.AwaitCheck? ==> c >= 1 && p.expiry - MaxWait + PollInterval * (c - 1) <= last < p.expiry)
    && (p.AwaitTimer? ==> c >= 1 && p.expiry - MaxWait + PollInterval * c <= p.fireAt)
  }

  /** One event keeps the polling invariant, provided the clock does not go
      back and a timer does not fire early. */
  lemma PollInvStep(input: TranscribeInput, p: Phase, c: int, last: int, e: Event)
    requires PollInv(p, c, last)
    requires !p.AwaitStart? ==> last <= e.at
    requires p.AwaitTimer? && e.TimerFired? ==> p.fireAt <= e.at
    ensures var q := Step(input, p, e);
      PollInv(q, c + (if q.AwaitCheck? then 1 else 0), e.at)
  {
  }

  /** Replaying one more event keeps the polling invariant, provided the
      clock does not go back and a timer does not fire early. */
  lemma PollingInvariantSnoc(input: TranscribeInput, prefix: seq<Event>, e: Event)
    requires PollInv(Replay(input, prefix), ChecksIssued(input, prefix),
                     if prefix == [] then 0 else prefix[|prefix| - 1].at)
    requires prefix != [] ==> prefix[|prefix| - 1].at <= e.at
    requires e.TimerFired? && Replay(input, prefix).AwaitTimer? ==> e.at >= Replay(input, prefix).fireAt
    ensures PollInv(Replay(input, prefix + [e]), ChecksIssued(input, prefix + [e]), e.at)
  {
    AwaitStartOnlyAtStart(input, prefix);
    PollInvStep(input, Replay(input, prefix), ChecksIssued(input, prefix),
                if prefix == [] then 0 else prefix[|prefix| - 1].at, e);
    ReplaySnoc(input, prefix, e);
    CountsSnoc(input, prefix, e);
    PendingKinds(input, Replay(input, prefix + [e]));
  }

  /** The polling invariant holds after every well-timed history. */
  lemma {:induction false} PollingInvariant(input: TranscribeInput, history: seq<Event>)
    requires WellTimed(input, history)
    ensures PollInv(Replay(input, history), ChecksIssued(input, history),
                    if history == [] then 0 else history[|history| - 1].at)
    decreases |history|
  {
    if history == [] {
      CountsAtStart(input);
    } else {
      var n := |history|;
      var prefix := history[..n - 1];
      var e := history[n - 1];
      assert history == prefix + [e];
      WellTimedPrefix(input, prefix, e);
      PollingInvariant(input, prefix);
      PollingInvariantSnoc(input, prefix, e);
    }
  }

  /** Under a clock that never goes back and timers that never fire early, the
      orchestrator asks for at most 720 status checks (two hours of
      10-second polls). */
  lemma AtMost720Checks(input: TranscribeInput, history: seq<Event>)
    requires WellTimed(input, history)
    ensures ChecksIssued(input, history) <= 720
  {
    PollingInvariant(input, history);
  }
}
