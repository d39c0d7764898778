/**
 * What one iteration of the tracking loop does, and what a run of iterations
 * does, stated over MinterGuard.Iteration and MinterGuard.Run (which Step and
 * Track are proved to produce).
 */
module GuardProperties {
  import opened Wrappers
  import opened MinterApi
  import opened Events
  import opened Failover
  import opened MinterGuard

  /** The error an iteration logs about the missed-blocks query itself, if any. */
  function StatusFailure(status: seq<Call<StatusResponse>>): Option<Cause>
  {
    match Outcome(status)
    case None => Some(Exhausted)
    case Some(resp) =>
      match resp.error
      case Some(body) =>
        if body.code == Some(NotFound) then None
        else if body.code.None? then Some(BadResponse)
        else Some(RemoteError(body))
      case None => if resp.missedBlocksCount.None? then Some(BadResponse) else None
  }

  /** The set-off transaction was taken: the first endpoint to return replied without an error. */
  predicate Accepted(send: seq<Call<SendResponse>>)
  {
    Outcome(send).Some? && Outcome(send).value.error.None?
  }

  /** The warning a dispatch logs when it is accepted. */
  function Confirmation(send: seq<Call<SendResponse>>, mb: int): seq<Entry>
  {
    if Accepted(send) then [Warned(mb)] else []
  }

  /** The error an iteration logs about the dispatch after its failover loop, if any. */
  function DispatchFailure(send: seq<Call<SendResponse>>): Option<Cause>
  {
    match Outcome(send)
    case None => Some(Exhausted)
    case Some(resp) => if resp.error.Some? then Some(RemoteError(resp.error.value)) else None
  }

  /** The entry of an optional failure. */
  function Logged(failure: Option<Cause>): seq<Entry>
  {
    match failure case None => [] case Some(f) => [Failed(f)]
  }

  /** The error record of an optional failure. */
  function ErrorRecord(failure: Option<Cause>): seq<Event>
  {
    match failure case None => [] case Some(f) => [Error(f)]
  }

  /** An iteration is the query, then the dispatch when due, then the query's error, then the sleep. */
  lemma IterationShape(g: Guard, round: Round)
    requires Fits(g, round)
    ensures Iteration(g, round) ==
      FailoverLog(g.apiUrls, GetMissedBlocks(g.pubKey), round.status, true)
      + Dispatch(g, round)
      + Logged(StatusFailure(round.status))
      + [Slept(g.sleepTimeMs)]
  {
  }

  /** A dispatch is the send loop, then either its error or the warning. */
  lemma SetOffShape(g: Guard, mb: int, send: seq<Call<SendResponse>>)
    requires |send| == |g.apiUrls|
    ensures SetOff(g, mb, send) ==
      FailoverLog(g.apiUrls, SendTransaction(g.setOffTx), send, false)
      + Logged(DispatchFailure(send))
      + Confirmation(send, mb)
  {
  }

  /** A logged failure holds nothing but its error record. */
  lemma LoggedOf(k: Kind, failure: Option<Cause>)
    ensures Of(k, Logged(failure)) == if k == ErrorRecords then ErrorRecord(failure) else []
  {
    if failure.Some? { OfOne(k, Failed(failure.value)); }
  }

  /** A confirmation holds nothing but its warning. */
  lemma ConfirmationOf(k: Kind, send: seq<Call<SendResponse>>, mb: int)
    ensures Of(k, Confirmation(send, mb)) == if k == WarningRecords && Accepted(send) then [Warning(mb)] else []
  {
    if Accepted(send) { OfOne(k, Warned(mb)); }
  }

  /** The dispatch of an iteration: the set-off sequence when the count is due, nothing otherwise. */
  function Dispatch(g: Guard, round: Round): seq<Entry>
    requires Fits(g, round)
  {
    if Due(g, round) then SetOff(g, Reported(round.status).value, round.send) else []
  }

  /**
   * The records of kind `k` in a dispatch: those of its send loop, then those
   * of its failure, then those of its warning.
   */
  lemma SetOffOf(k: Kind, g: Guard, mb: int, send: seq<Call<SendResponse>>, loop: seq<Event>, failed: seq<Event>, warned: seq<Event>)
    requires |send| == |g.apiUrls|
    requires Of(k, FailoverLog(g.apiUrls, SendTransaction(g.setOffTx), send, false)) == loop
    requires Of(k, Logged(DispatchFailure(send))) == failed
    requires Of(k, Confirmation(send, mb)) == warned
    ensures Of(k, SetOff(g, mb, send)) == loop + failed + warned
  {
    var a := FailoverLog(g.apiUrls, SendTransaction(g.setOffTx), send, false);
    var f := Logged(DispatchFailure(send));
    var w := Confirmation(send, mb);
    assert SetOff(g, mb, send) == a + f + w by { SetOffShape(g, mb, send); }
    OfAppend(k, a, f);
    OfAppend(k, a + f, w);
  }

  /**
   * The records of kind `k` of a dispatch: those of its send loop, then the
   * error record of its own failure, then the warning when it is accepted.
   */
  function SetOffView(k: Kind, g: Guard, mb: int, send: seq<Call<SendResponse>>): seq<Event>
    requires |send| == |g.apiUrls|
  {
    LoopView(k, g.apiUrls, SendTransaction(g.setOffTx), send, false)
    + (if k == ErrorRecords then ErrorRecord(DispatchFailure(send)) else [])
    + (if k == WarningRecords && Accepted(send) then [Warning(mb)] else [])
  }

  /** What a dispatch records, kind by kind. */
  lemma SetOffRecords(k: Kind, g: Guard, mb: int, send: seq<Call<SendResponse>>)
    requires |send| == |g.apiUrls|
    ensures Of(k, SetOff(g, mb, send)) == SetOffView(k, g, mb, send)
  {
    LoopRecords(k, g.apiUrls, SendTransaction(g.setOffTx), send, false);
    LoggedOf(k, DispatchFailure(send));
    ConfirmationOf(k, send, mb);
    SetOffOf(k, g, mb, send, LoopView(k, g.apiUrls, SendTransaction(g.setOffTx), send, false),
             if k == ErrorRecords then ErrorRecord(DispatchFailure(send)) else [],
             if k == WarningRecords && Accepted(send) then [Warning(mb)] else []);
  }

  /** What the dispatch of an iteration records, kind by kind. */
  lemma DispatchRecords(k: Kind, g: Guard, round: Round)
    requires Fits(g, round)
    ensures Of(k, Dispatch(g, round)) ==
      if Due(g, round) then SetOffView(k, g, Reported(round.status).value, round.send) else []
  {
    if Due(g, round) { SetOffRecords(k, g, Reported(round.status).value, round.send); }
  }

  /**
   * The records of kind `k` in an iteration: those of its query loop, then
   * those of its dispatch, then those of the query's failure, then the sleep's.
   */
  lemma IterationOf(k: Kind, g: Guard, round: Round, query: seq<Event>, dispatch: seq<Event>, failed: seq<Event>, slept: seq<Event>)
    requires Fits(g, round)
    requires Of(k, FailoverLog(g.apiUrls, GetMissedBlocks(g.pubKey), round.status, true)) == query
    requires Of(k, Dispatch(g, round)) == dispatch
    requires Of(k, Logged(StatusFailure(round.status))) == failed
    requires Of(k, [Slept(g.sleepTimeMs)]) == slept
    ensures Of(k, Iteration(g, round)) == query + dispatch + failed + slept
  {
    var q := FailoverLog(g.apiUrls, GetMissedBlocks(g.pubKey), round.status, true);
    var d := Dispatch(g, round);
    var f := Logged(StatusFailure(round.status));
    assert Iteration(g, round) == q + d + f + [Slept(g.sleepTimeMs)] by { IterationShape(g, round); }
    OfAppend(k, q, d);
    OfAppend(k, q + d, f);
    OfAppend(k, q + d + f, [Slept(g.sleepTimeMs)]);
  }

  /**
   * The records of kind `k` of one iteration: those of the missed-blocks loop
   * (which announces its attempts), those of the dispatch when the count is
   * due, the error record of the query's own failure, and the sleep.
   */
  function IterationView(k: Kind, g: Guard, round: Round): seq<Event>
    requires Fits(g, round)
  {
    LoopView(k, g.apiUrls, GetMissedBlocks(g.pubKey), round.status, true)
    + (if Due(g, round) then SetOffView(k, g, Reported(round.status).value, round.send) else [])
    + (if k == ErrorRecords then ErrorRecord(StatusFailure(round.status)) else [])
    + (if k == Sleeps then [Sleep(g.sleepTimeMs)] else [])
  }

  /** What an iteration records, kind by kind. */
  lemma IterationRecords(k: Kind, g: Guard, round: Round)
    requires Fits(g, round)
    ensures Of(k, Iteration(g, round)) == IterationView(k, g, round)
  {
    LoopRecords(k, g.apiUrls, GetMissedBlocks(g.pubKey), round.status, true);
    DispatchRecords(k, g, round);
    LoggedOf(k, StatusFailure(round.status));
    OfOne(k, Slept(g.sleepTimeMs));
    IterationOf(k, g, round, LoopView(k, g.apiUrls, GetMissedBlocks(g.pubKey), round.status, true),
                if Due(g, round) then SetOffView(k, g, Reported(round.status).value, round.send) else [],
                if k == ErrorRecords then ErrorRecord(StatusFailure(round.status)) else [],
                if k == Sleeps then [Sleep(g.sleepTimeMs)] else []);
  }

  /** The sleep view of an iteration: the one sleep. */
  lemma SleepsView(g: Guard, round: Round)
    requires Fits(g, round)
    ensures IterationView(Sleeps, g, round) == [Sleep(g.sleepTimeMs)]
  {
  }

  /** Every iteration ends in a sleep of the configured interval, and sleeps nowhere else. */
  lemma IterationSleepsOnce(g: Guard, round: Round)
    requires Fits(g, round)
    ensures Of(Sleeps, Iteration(g, round)) == [Sleep(g.sleepTimeMs)]
  {
    IterationRecords(Sleeps, g, round);
    SleepsView(g, round);
  }

  /** Every iteration, the 404 one included, ends in the sleep. */
  lemma IterationEndsAsleep(g: Guard, round: Round)
    requires Fits(g, round)
    ensures Iteration(g, round)[|Iteration(g, round)| - 1] == Slept(g.sleepTimeMs)
  {
    var q := FailoverLog(g.apiUrls, GetMissedBlocks(g.pubKey), round.status, true);
    var before := q + Dispatch(g, round) + Logged(StatusFailure(round.status));
    assert Iteration(g, round) == before + [Slept(g.sleepTimeMs)] by { IterationShape(g, round); }
    LastOf(before, Slept(g.sleepTimeMs));
  }

  /** The call view of an iteration: the query loop's calls, then the dispatch's when due. */
  lemma CallsView(g: Guard, round: Round)
    requires Fits(g, round)
    ensures IterationView(Calls, g, round) ==
      Numbered(GetMissedBlocks(g.pubKey), AttemptCount(round.status))
      + (if Due(g, round) then Numbered(SendTransaction(g.setOffTx), AttemptCount(round.send)) else [])
  {
  }

  /**
   * The calls of an iteration: the missed-blocks query to endpoints 0, 1, ...
   * up to the first that returns, then, only when the count is due, the
   * prepared transaction to endpoints 0, 1, ... up to the first that returns.
   */
  lemma CallsOfIteration(g: Guard, round: Round)
    requires Fits(g, round)
    ensures Of(Calls, Iteration(g, round)) ==
      Numbered(GetMissedBlocks(g.pubKey), AttemptCount(round.status))
      + (if Due(g, round) then Numbered(SendTransaction(g.setOffTx), AttemptCount(round.send)) else [])
  {
    IterationRecords(Calls, g, round);
    CallsView(g, round);
  }

  /** The send view of an iteration: the dispatch's sends when due. */
  lemma SendsView(g: Guard, round: Round)
    requires Fits(g, round)
    ensures IterationView(Sends, g, round) ==
      if Due(g, round) then Numbered(SendTransaction(g.setOffTx), AttemptCount(round.send)) else []
  {
  }

  /**
   * The prepared transaction is sent, unchanged, only when the count read is
   * due, to endpoints 0, 1, ... up to the first that returns.
   */
  lemma SendsOfIteration(g: Guard, round: Round)
    requires Fits(g, round)
    ensures Of(Sends, Iteration(g, round)) ==
      if Due(g, round) then Numbered(SendTransaction(g.setOffTx), AttemptCount(round.send)) else []
  {
    IterationRecords(Sends, g, round);
    SendsView(g, round);
  }

  /** The threshold test: the prepared transaction is sent iff the count read is at least the threshold. */
  lemma DispatchIffDue(g: Guard, round: Round)
    requires Fits(g, round)
    ensures Of(Sends, Iteration(g, round)) != [] <==> Due(g, round)
  {
    SendsOfIteration(g, round);
    if Due(g, round) {
      var n := AttemptCount(round.send);
      assert n > 0 by {
        assert Outcome(round.status).Some?;
      }
      NumberedAt(SendTransaction(g.setOffTx), n);
    }
  }

  /** The info view of an iteration: the query loop's announcements. */
  lemma InfosView(g: Guard, round: Round)
    requires Fits(g, round)
    ensures IterationView(InfoRecords, g, round) == Announced(g.apiUrls, AttemptCount(round.status))
  {
  }

  /**
   * Only the missed-blocks loop announces its attempts: one info record for
   * each endpoint after the first, up to the one that returned; the dispatch
   * announces nothing.
   */
  lemma InfosOfIteration(g: Guard, round: Round)
    requires Fits(g, round)
    ensures Of(InfoRecords, Iteration(g, round)) == Announced(g.apiUrls, AttemptCount(round.status))
  {
    IterationRecords(InfoRecords, g, round);
    InfosView(g, round);
  }

  /** The warning view of an iteration: the warning of a taken dispatch. */
  lemma WarningsView(g: Guard, round: Round)
    requires Fits(g, round)
    ensures IterationView(WarningRecords, g, round) ==
      if Due(g, round) && Accepted(round.send) then [Warning(Reported(round.status).value)] else []
  {
  }

  /** The set-off warning is logged iff a due dispatch was taken without an error. */
  lemma WarningIffAccepted(g: Guard, round: Round)
    requires Fits(g, round)
    ensures Of(WarningRecords, Iteration(g, round)) ==
      if Due(g, round) && Accepted(round.send) then [Warning(Reported(round.status).value)] else []
  {
    IterationRecords(WarningRecords, g, round);
    WarningsView(g, round);
  }

  /** The error view of an iteration, with the empty parts dropped. */
  lemma ErrorsView(g: Guard, round: Round)
    requires Fits(g, round)
    ensures IterationView(ErrorRecords, g, round) ==
      RaisedRecords(round.status, FirstReturned(round.status))
      + (if Due(g, round) then RaisedRecords(round.send, FirstReturned(round.send)) + ErrorRecord(DispatchFailure(round.send)) else [])
      + ErrorRecord(StatusFailure(round.status))
  {
  }

  /**
   * The error records of an iteration: one per endpoint that raised on the
   * query, then, when due, one per endpoint that raised on the dispatch and
   * the dispatch's own failure, then the query's own failure.
   */
  lemma ErrorsOfIteration(g: Guard, round: Round)
    requires Fits(g, round)
    ensures Of(ErrorRecords, Iteration(g, round)) ==
      RaisedRecords(round.status, FirstReturned(round.status))
      + (if Due(g, round) then RaisedRecords(round.send, FirstReturned(round.send)) + ErrorRecord(DispatchFailure(round.send)) else [])
      + ErrorRecord(StatusFailure(round.status))
  {
    IterationRecords(ErrorRecords, g, round);
    ErrorsView(g, round);
  }

  /**
   * A due dispatch that is not taken is logged: every send that raised, then
   * the exhaustion or the remote error; no warning.
   */
  lemma RejectedDispatchLogged(g: Guard, round: Round)
    requires Fits(g, round) && Due(g, round) && !Accepted(round.send)
    ensures DispatchFailure(round.send).Some?
    ensures Of(ErrorRecords, Iteration(g, round)) ==
      RaisedRecords(round.status, FirstReturned(round.status))
      + RaisedRecords(round.send, FirstReturned(round.send))
      + [Error(DispatchFailure(round.send).value)]
    ensures Of(WarningRecords, Iteration(g, round)) == []
  {
    var raised, sendRaised := RaisedRecords(round.status, FirstReturned(round.status)), RaisedRecords(round.send, FirstReturned(round.send));
    var failure := DispatchFailure(round.send);
    assert failure.Some? && StatusFailure(round.status) == None;
    assert Of(ErrorRecords, Iteration(g, round)) == raised + (sendRaised + [Error(failure.value)]) + [] by {
      ErrorsOfIteration(g, round);
    }
    Unit(raised + (sendRaised + [Error(failure.value)]));
    Associative(raised, sendRaised, [Error(failure.value)]);
    WarningIffAccepted(g, round);
  }

  /**
   * "Validator not found" (code 404) is not an error: no record beyond those
   * of endpoints that raised before it, nothing sent, one sleep.
   */
  lemma NotFoundIsQuiet(g: Guard, round: Round)
    requires Fits(g, round)
    requires Outcome(round.status).Some? && Outcome(round.status).value.error.Some?
    requires Outcome(round.status).value.error.value.code == Some(NotFound)
    ensures Iteration(g, round) == FailoverLog(g.apiUrls, GetMissedBlocks(g.pubKey), round.status, true) + [Slept(g.sleepTimeMs)]
    ensures Of(ErrorRecords, Iteration(g, round)) == RaisedRecords(round.status, FirstReturned(round.status))
    ensures Of(Sends, Iteration(g, round)) == [] && Of(WarningRecords, Iteration(g, round)) == []
  {
    var raised := RaisedRecords(round.status, FirstReturned(round.status));
    assert !Due(g, round) && StatusFailure(round.status) == None;
    assert Of(ErrorRecords, Iteration(g, round)) == raised + [] + [] by { ErrorsOfIteration(g, round); }
    Unit(raised); Unit(raised + []);
    SendsOfIteration(g, round);
    WarningIffAccepted(g, round);
  }

  /**
   * Any other error in the reply is logged once, after the records of the
   * endpoints that raised, and nothing is sent.
   */
  lemma OtherErrorLoggedOnce(g: Guard, round: Round)
    requires Fits(g, round)
    requires Outcome(round.status).Some? && Outcome(round.status).value.error.Some?
    requires Outcome(round.status).value.error.value.code != Some(NotFound)
    ensures var body := Outcome(round.status).value.error.value;
      Of(ErrorRecords, Iteration(g, round)) ==
        RaisedRecords(round.status, FirstReturned(round.status))
        + [Error(if body.code.None? then BadResponse else RemoteError(body))]
    ensures Of(Sends, Iteration(g, round)) == []
  {
    var raised := RaisedRecords(round.status, FirstReturned(round.status));
    var body := Outcome(round.status).value.error.value;
    var failed := [Error(if body.code.None? then BadResponse else RemoteError(body))];
    assert !Due(g, round) && ErrorRecord(StatusFailure(round.status)) == failed;
    assert Of(ErrorRecords, Iteration(g, round)) == raised + [] + failed by { ErrorsOfIteration(g, round); }
    Unit(raised);
    SendsOfIteration(g, round);
  }

  /**
   * When every endpoint raises on the missed-blocks query, the iteration logs
   * one error per endpoint and one for the exhaustion, and sends nothing.
   */
  lemma StatusExhausted(g: Guard, round: Round)
    requires Fits(g, round)
    requires forall j :: 0 <= j < |round.status| ==> round.status[j].Raised?
    ensures var e := Of(ErrorRecords, Iteration(g, round)); var n := |g.apiUrls|;
      |e| == n + 1 && e[n] == Error(Exhausted) &&
      forall j :: 0 <= j < n ==> e[j] == Error(CallFailed(round.status[j].exc))
    ensures Of(Sends, Iteration(g, round)) == []
  {
    var n := |round.status|;
    var raised := RaisedRecords(round.status, n);
    assert FirstReturned(round.status) == n && !Due(g, round) && StatusFailure(round.status) == Some(Exhausted);
    assert Of(ErrorRecords, Iteration(g, round)) == raised + [] + [Error(Exhausted)] by { ErrorsOfIteration(g, round); }
    Unit(raised);
    RaisedRecordsAt(round.status, n);
    SendsOfIteration(g, round);
  }

  /** A run on one round more is the run so far followed by that round's iteration. */
  lemma RunSnoc(g: Guard, rounds: seq<Round>, r: Round)
    requires forall t :: 0 <= t < |rounds| ==> Fits(g, rounds[t])
    requires Fits(g, r)
    ensures forall t :: 0 <= t < |rounds + [r]| ==> Fits(g, (rounds + [r])[t])
    ensures Run(g, rounds + [r]) == Run(g, rounds) + Iteration(g, r)
  {
    assert (rounds + [r])[..|rounds|] == rounds;
  }

  /** Iterations are independent: the run of two stretches of rounds is the one run after the other. */
  lemma {:induction false} RunAppend(g: Guard, a: seq<Round>, b: seq<Round>)
    requires forall t :: 0 <= t < |a| ==> Fits(g, a[t])
    requires forall t :: 0 <= t < |b| ==> Fits(g, b[t])
    ensures forall t :: 0 <= t < |a + b| ==> Fits(g, (a + b)[t])
    ensures Run(g, a + b) == Run(g, a) + Run(g, b)
    decreases |b|
  {
    if b == [] {
      assert a + b == a;
    } else {
      var b' := b[..|b| - 1];
      var last := b[|b| - 1];
      assert b == b' + [last];
      assert a + b == (a + b') + [last];
      assert forall t :: 0 <= t < |b'| ==> Fits(g, b'[t]);
      RunAppend(g, a, b');
      var x, y, z := Run(g, a), Run(g, b'), Iteration(g, last);
      RunSnoc(g, a + b', last);
      RunSnoc(g, b', last);
      Associative(x, y, z);
    }
  }

  /** A run sleeps once per iteration, always for the configured interval. */
  lemma {:induction false} RunSleeps(g: Guard, rounds: seq<Round>)
    requires forall t :: 0 <= t < |rounds| ==> Fits(g, rounds[t])
    ensures var s := Of(Sleeps, Run(g, rounds));
      |s| == |rounds| && forall j :: 0 <= j < |s| ==> s[j] == Sleep(g.sleepTimeMs)
  {
    if rounds != [] {
      var prefix := rounds[..|rounds| - 1];
      var last := rounds[|rounds| - 1];
      RunSleeps(g, prefix);
      IterationSleepsOnce(g, last);
      assert Run(g, rounds) == Run(g, prefix) + Iteration(g, last);
      OfAppend(Sleeps, Run(g, prefix), Iteration(g, last));
    }
  }

  /**
   * Nothing is remembered between iterations: iteration t of a run is
   * Iteration on round t alone, so a dispatch that failed earlier is simply
   * attempted again whenever round t is due, and only then.
   */
  lemma RetriedWhileDue(g: Guard, rounds: seq<Round>, t: nat)
    requires forall u :: 0 <= u < |rounds| ==> Fits(g, rounds[u])
    requires t < |rounds|
    ensures Run(g, rounds) == Run(g, rounds[..t]) + Iteration(g, rounds[t]) + Run(g, rounds[t + 1..])
    ensures Of(Sends, Iteration(g, rounds[t])) != [] <==> Due(g, rounds[t])
  {
    assert rounds == rounds[..t] + [rounds[t]] + rounds[t + 1..];
    RunAppend(g, rounds[..t], [rounds[t]]);
    RunAppend(g, rounds[..t] + [rounds[t]], rounds[t + 1..]);
    assert Run(g, [rounds[t]]) == Iteration(g, rounds[t]) by {
      assert [rounds[t]][..0] == [];
    }
    DispatchIffDue(g, rounds[t]);
  }
}
