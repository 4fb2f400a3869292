/** The delivery-log screen of one campaign: every fetch replaces the local
    snapshot `{logs, campaignStatus, stats}`, a re-poll is armed only while the
    campaign is running, a draft campaign is started by a status update followed
    by a send trigger, and progress is the share of processed messages. */
module CampaignLogs {
  import opened Common
  import opened Text

  datatype DeliveryLog = DeliveryLog(id: string, customerId: string, message: string, status: Option<string>)

  /** The delivery counters as they arrive; a missing counter reads as 0. */
  datatype Stats = Stats(audienceSize: Option<int>, sent: Option<int>, failed: Option<int>)

  const ZeroStats := Stats(Some(0), Some(0), Some(0))

  /** The body of a logs response; every part of it may be missing. */
  datatype LogsBody = LogsBody(logs: Option<seq<DeliveryLog>>, campaignStatus: Option<string>,
                               stats: Option<Stats>)

  /** The network calls the screen issues. */
  datatype Request = GetLogs(campaignId: string) | UpdateStatus(campaignId: string, status: string)
                   | Send(campaignId: string)

  const Running := "running"
  const Draft := "draft"
  const FetchError := "Failed to fetch campaign logs. Please try again."
  const StartError := "Failed to start campaign. Please try again."

  // ---------------------------------------------------------------------------
  // Progress and colours
  // ---------------------------------------------------------------------------

  /** `n || 0`. */
  function Count(n: Option<int>): int
  {
    n.GetOr(0)
  }

  function Completed(s: Stats): int
  {
    Count(s.sent) + Count(s.failed)
  }

  /** `c / t * 100` for a positive divisor, and where it lies. */
  lemma Percentage(c: real, t: real)
    requires 0.0 < t
    ensures (c / t * 100.0) * t == c * 100.0
    ensures 0.0 <= c <= t ==> 0.0 <= c / t * 100.0 <= 100.0
    ensures c == t ==> c / t * 100.0 == 100.0
  {
    var q := c / t;
    assert q * t == c;
  }

  /** `renderProgress`: processed messages as a percentage of the audience,
      and exactly 0 when there is no audience to divide by. */
  function Progress(s: Stats): (p: real)
    ensures Count(s.audienceSize) <= 0 ==> p == 0.0
    ensures Count(s.audienceSize) > 0 ==> p * Count(s.audienceSize) as real == Completed(s) as real * 100.0
    ensures 0 <= Completed(s) <= Count(s.audienceSize) ==> 0.0 <= p <= 100.0
    ensures 0 < Count(s.audienceSize) == Completed(s) ==> p == 100.0
  {
    var total := Count(s.audienceSize);
    var completed := Completed(s);
    if total > 0 then
      Percentage(completed as real, total as real);
      completed as real / total as real * 100.0
    else 0.0
  }

  /** More processed messages never show less progress. */
  lemma ProgressMonotone(s: Stats, t: Stats)
    requires Count(s.audienceSize) == Count(t.audienceSize)
    requires Completed(s) <= Completed(t)
    ensures Progress(s) <= Progress(t)
  {
    var total := Count(s.audienceSize) as real;
    if total > 0.0 {
      var ps, pt := Progress(s), Progress(t);
      assert (pt - ps) * total == (Completed(t) - Completed(s)) as real * 100.0;
      SignOfFactor(pt - ps, total);
    }
  }

  /** A product with a positive factor has the sign of the other factor. */
  lemma SignOfFactor(d: real, t: real)
    requires 0.0 < t
    ensures d * t >= 0.0 ==> d >= 0.0
    ensures d * t == 0.0 ==> d == 0.0
  {
  }

  /** `getStatusColor` for one log line: compared upper-cased, absent gives default. */
  function LogStatusColor(status: Option<string>): (c: Color)
    ensures status.None? ==> c == Default
    ensures c == Success <==> status.Some? && ToUpper(status.value) == "SENT"
    ensures c == Error <==> status.Some? && ToUpper(status.value) == "FAILED"
    ensures c == Warning <==> status.Some? && ToUpper(status.value) == "PENDING"
    ensures c in {Success, Error, Warning, Default}
  {
    match status
    case None => Default
    case Some(s) =>
      var u := ToUpper(s);
      if u == "SENT" then Success
      else if u == "FAILED" then Error
      else if u == "PENDING" then Warning
      else Default
  }

  lemma LogStatusColorIgnoresCase(s: string)
    ensures LogStatusColor(Some(ToLower(s))) == LogStatusColor(Some(s))
    ensures LogStatusColor(Some(ToUpper(s))) == LogStatusColor(Some(s))
  {
    UpperIgnoresCase(s);
  }

  /** `getCampaignStatusColor`: compared lower-cased, absent gives default. */
  function CampaignStatusColor(status: Option<string>): (c: Color)
    ensures status.None? ==> c == Default
    ensures c == Success <==> status.Some? && ToLower(status.value) == "completed"
    ensures c == Info <==> status.Some? && ToLower(status.value) == "running"
    ensures c == Error <==> status.Some? && ToLower(status.value) == "failed"
    ensures c in {Success, Info, Error, Default}
  {
    match status
    case None => Default
    case Some(s) =>
      var l := ToLower(s);
      if l == "completed" then Success
      else if l == "running" then Info
      else if l == "failed" then Error
      else Default
  }

  lemma CampaignStatusColorIgnoresCase(s: string)
    ensures CampaignStatusColor(Some(ToLower(s))) == CampaignStatusColor(Some(s))
    ensures CampaignStatusColor(Some(ToUpper(s))) == CampaignStatusColor(Some(s))
  {
    LowerIgnoresCase(s);
  }

  // ---------------------------------------------------------------------------
  // The screen as a state machine
  // ---------------------------------------------------------------------------

  /** The screen's state. `pendingPolls` counts the re-poll timers that have
      been armed and have not fired yet; `requests` lists the calls issued. */
  datatype TrackerState = TrackerState(
    logs: seq<DeliveryLog>, loading: bool, error: Option<string>, campaignStatus: Option<string>,
    stats: Stats, retryCount: nat, startingCampaign: bool, pendingPolls: nat, requests: seq<Request>)

  const Initial := TrackerState([], true, None, None, ZeroStats, 0, false, 0, [])

  /** `fetchLogs` for the route's `id`, given what the logs call returned. */
  function AfterFetch(id: Option<string>, s: TrackerState, reply: Reply<LogsBody>): TrackerState
  {
    if id.None? then s
    else
      var asked := s.(requests := s.requests + [GetLogs(id.value)]);
      match reply
      case Ok(body) =>
        asked.(logs := body.logs.GetOr([]), campaignStatus := body.campaignStatus,
               stats := body.stats.GetOr(ZeroStats), error := None, loading := false,
               pendingPolls := if body.campaignStatus == Some(Running) then s.pendingPolls + 1
                               else s.pendingPolls)
      case Fail(_) =>
        asked.(error := Some(FetchError), logs := [], loading := false)
  }

  /** The timer fires: `retryCount` goes up, which runs `fetchLogs` again. */
  function AfterPoll(id: Option<string>, s: TrackerState, reply: Reply<LogsBody>): TrackerState
    requires s.pendingPolls > 0
  {
    AfterFetch(id, s.(pendingPolls := s.pendingPolls - 1, retryCount := s.retryCount + 1), reply)
  }

  /** `handleStartCampaign`: the status update, then the send trigger, then a
      refresh of the logs, each only if the one before succeeded. */
  function AfterStart(id: string, s: TrackerState, update: Reply<()>, send: Reply<()>,
                      refresh: Reply<LogsBody>): TrackerState
  {
    var asked := s.(startingCampaign := true, error := None,
                    requests := s.requests + [UpdateStatus(id, Running)]);
    if update.Fail? then asked.(error := Some(StartError), startingCampaign := false)
    else
      var sent := asked.(requests := asked.requests + [Send(id)]);
      if send.Fail? then sent.(error := Some(StartError), startingCampaign := false)
      else AfterFetch(Some(id), sent, refresh).(startingCampaign := false)
  }

  /** The Start button is on screen (the spinner replaces everything while loading). */
  predicate ShowsStartButton(s: TrackerState)
  {
    !s.loading && s.campaignStatus == Some(Draft)
  }

  /** The progress bar is on screen. */
  predicate ShowsProgress(s: TrackerState)
  {
    !s.loading && s.campaignStatus == Some(Running)
  }

  /** With no `id` a fetch does nothing at all: not even `loading` is cleared. */
  lemma FetchWithoutId(s: TrackerState, reply: Reply<LogsBody>)
    ensures AfterFetch(None, s, reply) == s
  {
  }

  /** A successful fetch replaces the snapshot with the response, whatever was
      there before: nothing is merged, absent logs read as [] and absent stats
      as all zero, and the error is cleared. */
  lemma FetchReplacesSnapshot(id: string, s: TrackerState, s': TrackerState, body: LogsBody)
    ensures var t, t' := AfterFetch(Some(id), s, Ok(body)), AfterFetch(Some(id), s', Ok(body));
      t.logs == t'.logs == body.logs.GetOr([]) && t.campaignStatus == t'.campaignStatus == body.campaignStatus
      && t.stats == t'.stats == body.stats.GetOr(ZeroStats) && t.error == t'.error == None
      && !t.loading && !t'.loading
  {
  }

  /** A failed fetch clears the logs, reports the error and stops loading; the
      status and stats last seen stay. */
  lemma FailedFetch(id: string, s: TrackerState, e: HttpError)
    ensures var t := AfterFetch(Some(id), s, Fail(e));
      t.logs == [] && t.error == Some(FetchError) && !t.loading
      && t.campaignStatus == s.campaignStatus && t.stats == s.stats && t.pendingPolls == s.pendingPolls
  {
  }

  /** A fetch arms one more poll exactly when it succeeds with status `running`;
      otherwise it arms none. */
  lemma RepollIffRunning(id: Option<string>, s: TrackerState, reply: Reply<LogsBody>)
    ensures var t := AfterFetch(id, s, reply);
      (t.pendingPolls == s.pendingPolls + 1 <==> id.Some? && reply.Ok? && reply.data.campaignStatus == Some(Running))
      && (t.pendingPolls == s.pendingPolls <==> !(id.Some? && reply.Ok? && reply.data.campaignStatus == Some(Running)))
  {
  }

  /** Polling stops: once the last armed timer fires and its fetch sees any
      status but `running` (or fails), no timer is left to fire. */
  lemma PollingStops(id: Option<string>, s: TrackerState, reply: Reply<LogsBody>)
    requires s.pendingPolls == 1
    requires !(reply.Ok? && reply.data.campaignStatus == Some(Running))
    ensures AfterPoll(id, s, reply).pendingPolls == 0
    ensures AfterPoll(id, s, reply).retryCount == s.retryCount + 1
  {
  }

  /** The start sequence: the status update always goes first; the send is
      issued only after a successful update, and the refresh only after a
      successful send; either failure reports the start error; the flag ends false. */
  lemma StartOrder(id: string, s: TrackerState, update: Reply<()>, send: Reply<()>, refresh: Reply<LogsBody>)
    ensures var t := AfterStart(id, s, update, send, refresh);
      !t.startingCampaign
      && (update.Fail? ==> t.requests == s.requests + [UpdateStatus(id, Running)] && t.error == Some(StartError))
      && (update.Ok? && send.Fail? ==>
            t.requests == s.requests + [UpdateStatus(id, Running), Send(id)] && t.error == Some(StartError))
      && (update.Ok? && send.Ok? ==>
            t.requests == s.requests + [UpdateStatus(id, Running), Send(id), GetLogs(id)])
  {
    var t := AfterStart(id, s, update, send, refresh);
    if update.Ok? {
      assert s.requests + [UpdateStatus(id, Running)] + [Send(id)] == s.requests + [UpdateStatus(id, Running), Send(id)];
      if send.Ok? {
        assert s.requests + [UpdateStatus(id, Running)] + [Send(id)] + [GetLogs(id)]
            == s.requests + [UpdateStatus(id, Running), Send(id), GetLogs(id)];
      }
    }
  }

  /** When the update succeeds and the send fails, the screen keeps its last
      snapshot: a draft still shows the Start button, so a retry is a fresh
      click that issues the status update again. */
  lemma DispatchFailureKeepsDraft(id: string, s: TrackerState, e: HttpError, refresh: Reply<LogsBody>)
    requires ShowsStartButton(s)
    ensures var t := AfterStart(id, s, Ok(()), Fail(e), refresh);
      ShowsStartButton(t) && t.error == Some(StartError) && t.stats == s.stats && t.logs == s.logs
  {
  }

  /** The Start button and the progress bar are never on screen together. */
  lemma StartAndProgressExclusive(s: TrackerState)
    ensures !(ShowsStartButton(s) && ShowsProgress(s))
  {
  }

  /** A running campaign at 100/40/10 shows 50% and arms a poll; when that
      poll sees `completed`, no further poll is armed. */
  lemma RunningThenCompleted(id: string, s: TrackerState, logs: Option<seq<DeliveryLog>>)
    requires s.pendingPolls == 0
    ensures var running := Stats(Some(100), Some(40), Some(10));
      var t := AfterFetch(Some(id), s, Ok(LogsBody(logs, Some(Running), Some(running))));
      Progress(t.stats) == 50.0 && ShowsProgress(t) && t.pendingPolls == 1
      && AfterPoll(Some(id), t, Ok(LogsBody(logs, Some("completed"), Some(running)))).pendingPolls == 0
  {
  }

  // ---------------------------------------------------------------------------
  // The screen's state and its handlers
  // ---------------------------------------------------------------------------

  class Tracker {
    /** The route's campaign id. */
    const id: Option<string>
    var logs: seq<DeliveryLog>
    var loading: bool
    var error: Option<string>
    var campaignStatus: Option<string>
    var stats: Stats
    var retryCount: nat
    var startingCampaign: bool
    var pendingPolls: nat
    var requests: seq<Request>

    function State(): TrackerState
      reads this
    {
      TrackerState(logs, loading, error, campaignStatus, stats, retryCount, startingCampaign,
                   pendingPolls, requests)
    }

    constructor (id: Option<string>)
      ensures this.id == id && State() == Initial
    {
      this.id := id;
      logs, loading, error, campaignStatus := [], true, None, None;
      stats := Stats(Some(0), Some(0), Some(0));
      retryCount, startingCampaign, pendingPolls, requests := 0, false, 0, [];
    }

    /** `fetchLogs`, run when the screen mounts and whenever `retryCount` changes. */
    method FetchLogs(reply: Reply<LogsBody>)
      modifies this
      ensures State() == AfterFetch(id, old(State()), reply)
    {
      if id.None? {
        return;
      }
      requests := requests + [GetLogs(id.value)];
      match reply {
        case Ok(body) =>
          logs := if body.logs.Some? then body.logs.value else [];
          campaignStatus := body.campaignStatus;
          stats := if body.stats.Some? then body.stats.value else Stats(Some(0), Some(0), Some(0));
          error := None;
          if body.campaignStatus == Some(Running) {
            pendingPolls := pendingPolls + 1;
          }
        case Fail(_) =>
          error := Some(FetchError);
          logs := [];
      }
      loading := false;
    }

    /** An armed timer fires after its delay. */
    method PollElapsed(reply: Reply<LogsBody>)
      requires pendingPolls > 0
      modifies this
      ensures State() == AfterPoll(id, old(State()), reply)
    {
      pendingPolls := pendingPolls - 1;
      retryCount := retryCount + 1;
      FetchLogs(reply);
    }

    /** `handleStartCampaign`, reachable from the Start button, which is shown
        for a draft and disabled while a start is in progress. */
    method HandleStartCampaign(update: Reply<()>, send: Reply<()>, refresh: Reply<LogsBody>)
      requires id.Some? && ShowsStartButton(State()) && !startingCampaign
      modifies this
      ensures State() == AfterStart(id.value, old(State()), update, send, refresh)
    {
      startingCampaign := true;
      error := None;
      requests := requests + [UpdateStatus(id.value, Running)];
      if update.Fail? {
        error := Some(StartError);
      } else {
        requests := requests + [Send(id.value)];
        if send.Fail? {
          error := Some(StartError);
        } else {
          FetchLogs(refresh);
        }
      }
      startingCampaign := false;
    }
  }
}
