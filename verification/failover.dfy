/**
 * The failover loop the guard runs three times over its list of API clients:
 * call each endpoint in list order, log the exception of every call that
 * raises, and stop at the first call that returns, whatever it returned.
 */
module Failover {
  import opened Wrappers
  import opened MinterApi
  import opened Events

  /** Index of the first call that returned, or |calls| when every call raised. */
  function FirstReturned<T>(calls: seq<Call<T>>): (k: nat)
    ensures k <= |calls|
    ensures k < |calls| ==> calls[k].Returned?
  {
    if calls == [] then 0
    else if calls[0].Returned? then 0
    else 1 + FirstReturned(calls[1..])
  }

  /** Every call before FirstReturned raised. */
  lemma {:induction false} FirstReturnedIs<T>(calls: seq<Call<T>>)
    ensures forall j :: 0 <= j < FirstReturned(calls) ==> calls[j].Raised?
  {
    if calls != [] && calls[0].Raised? {
      var rest := calls[1..];
      FirstReturnedIs(rest);
      forall j | 0 < j < FirstReturned(calls) ensures calls[j].Raised? {
        assert calls[j] == rest[j - 1];
      }
    }
  }

  /** The value the loop leaves behind: the first returned value, or None. */
  function Outcome<T>(calls: seq<Call<T>>): Option<T>
  {
    var k := FirstReturned(calls);
    if k < |calls| then Some(calls[k].value) else None
  }

  /**
   * The loop leaves nothing behind exactly when every call raised, and
   * otherwise the value of a call that returned after all the earlier ones raised.
   */
  lemma OutcomeIs<T>(calls: seq<Call<T>>)
    ensures Outcome(calls).None? <==> forall j :: 0 <= j < |calls| ==> calls[j].Raised?
    ensures Outcome(calls).Some? ==>
      exists k :: 0 <= k < |calls| && calls[k] == Returned(Outcome(calls).value) &&
        forall j :: 0 <= j < k ==> calls[j].Raised?
  {
    FirstReturnedIs(calls);
  }

  /** How many endpoints are called: all up to and including the first that returns. */
  function AttemptCount<T>(calls: seq<Call<T>>): (n: nat)
    ensures n <= |calls|
  {
    var k := FirstReturned(calls);
    if k < |calls| then k + 1 else k
  }

  /** Only the last endpoint called can have returned. */
  lemma AttemptCountIs<T>(calls: seq<Call<T>>)
    ensures forall j :: 0 <= j < AttemptCount(calls) && calls[j].Returned? ==> j == AttemptCount(calls) - 1
  {
    FirstReturnedIs(calls);
  }

  /** The exception a call raised, if it raised. */
  function ExcOf<T>(call: Call<T>): Option<Exc>
  {
    match call
    case Raised(e) => Some(e)
    case Returned(_) => None
  }

  /** Trying endpoint `i`: announced when asked to and it is not the first. */
  function Attempt<T>(urls: seq<Url>, req: Request, calls: seq<Call<T>>, announce: bool, i: nat): Entry
    requires |calls| == |urls| && i < |calls|
  {
    Tried(i, urls[i], announce && i > 0, req, ExcOf(calls[i]))
  }

  /** The attempts on the first `n` endpoints. */
  function AttemptsLog<T>(urls: seq<Url>, req: Request, calls: seq<Call<T>>, announce: bool, n: nat): (log: seq<Entry>)
    requires |calls| == |urls| && n <= |calls|
    ensures |log| == n
  {
    if n == 0 then [] else AttemptsLog(urls, req, calls, announce, n - 1) + [Attempt(urls, req, calls, announce, n - 1)]
  }

  /** Entry j of the attempts on the first `n` endpoints is the attempt on endpoint j. */
  lemma {:induction false} AttemptsLogIs<T>(urls: seq<Url>, req: Request, calls: seq<Call<T>>, announce: bool, n: nat)
    requires |calls| == |urls| && n <= |calls|
    ensures Attempts(AttemptsLog(urls, req, calls, announce, n), urls, req, calls, announce)
  {
    if n > 0 {
      var init := AttemptsLog(urls, req, calls, announce, n - 1);
      var log := AttemptsLog(urls, req, calls, announce, n);
      AttemptsLogIs(urls, req, calls, announce, n - 1);
      forall j | 0 <= j < n ensures log[j] == Attempt(urls, req, calls, announce, j) {
        if j < n - 1 { assert log[j] == init[j]; }
      }
    }
  }

  /** `log` holds the attempts on the first |log| endpoints, in order. */
  predicate Attempts<T>(log: seq<Entry>, urls: seq<Url>, req: Request, calls: seq<Call<T>>, announce: bool)
  {
    |calls| == |urls| && |log| <= |calls| &&
    forall j :: 0 <= j < |log| ==> log[j] == Attempt(urls, req, calls, announce, j)
  }

  /** Everything the loop logs and calls. */
  function FailoverLog<T>(urls: seq<Url>, req: Request, calls: seq<Call<T>>, announce: bool): seq<Entry>
    requires |calls| == |urls|
  {
    AttemptsLog(urls, req, calls, announce, AttemptCount(calls))
  }

  /**
   * One failover loop: `calls[i]` is what the client for `urls[i]` does when
   * asked `req`. With `announce`, every attempt after the first is preceded by
   * an info record naming the endpoint (the missed-blocks loop does this).
   */
  method Try<T>(urls: seq<Url>, req: Request, calls: seq<Call<T>>, announce: bool)
    returns (result: Option<T>, log: seq<Entry>)
    requires |calls| == |urls|
    ensures result == Outcome(calls)
    ensures log == FailoverLog(urls, req, calls, announce)
  {
    FirstReturnedIs(calls);
    result := None;
    log := [];
    var i := 0;
    while i < |urls|
      invariant i <= FirstReturned(calls)
      invariant log == AttemptsLog(urls, req, calls, announce, i)
    {
      match calls[i]
      case Returned(v) =>
        log := log + [Tried(i, urls[i], announce && i > 0, req, None)];
        result := Some(v);
        return;
      case Raised(e) =>
        log := log + [Tried(i, urls[i], announce && i > 0, req, Some(e))];
      i := i + 1;
    }
  }

  /** Dropping the last attempt leaves the attempts on one endpoint fewer. */
  lemma AttemptsInit<T>(log: seq<Entry>, urls: seq<Url>, req: Request, calls: seq<Call<T>>, announce: bool)
    requires Attempts(log, urls, req, calls, announce) && log != []
    ensures Attempts(log[..|log| - 1], urls, req, calls, announce)
    ensures log[|log| - 1] == Attempt(urls, req, calls, announce, |log| - 1)
  {
    var init := log[..|log| - 1];
    forall j | 0 <= j < |init| ensures init[j] == Attempt(urls, req, calls, announce, j) {
      assert init[j] == log[j];
    }
  }

  /** `req` issued to endpoints 0, 1, ..., n - 1, in that order. */
  function Numbered(req: Request, n: nat): seq<Event>
  {
    if n == 0 then [] else Numbered(req, n - 1) + [Request(n - 1, req)]
  }

  lemma {:induction false} NumberedAt(req: Request, n: nat)
    ensures |Numbered(req, n)| == n && forall j :: 0 <= j < n ==> Numbered(req, n)[j] == Request(j, req)
  {
    if n > 0 {
      NumberedAt(req, n - 1);
      var r := Numbered(req, n);
      forall j | 0 <= j < n ensures r[j] == Request(j, req) {
        if j < n - 1 { assert r[j] == Numbered(req, n - 1)[j]; }
      }
    }
  }

  /** The error records of the calls among the first `n` that raised. */
  function RaisedRecords<T>(calls: seq<Call<T>>, n: nat): seq<Event>
    requires n <= |calls|
  {
    if n == 0 then []
    else RaisedRecords(calls, n - 1) + (match calls[n - 1] case Raised(e) => [Error(CallFailed(e))] case Returned(_) => [])
  }

  /** Up to the first call that returns, every call raised and left one record. */
  lemma {:induction false} RaisedRecordsAt<T>(calls: seq<Call<T>>, n: nat)
    requires n <= FirstReturned(calls)
    ensures var r := RaisedRecords(calls, n);
      |r| == n && forall j :: 0 <= j < n ==> calls[j].Raised? && r[j] == Error(CallFailed(calls[j].exc))
  {
    if n > 0 {
      RaisedRecordsAt(calls, n - 1);
      FirstReturnedIs(calls);
      var r := RaisedRecords(calls, n);
      forall j | 0 <= j < n ensures calls[j].Raised? && r[j] == Error(CallFailed(calls[j].exc)) {
        if j < n - 1 { assert r[j] == RaisedRecords(calls, n - 1)[j]; }
      }
    }
  }

  /** The info records announcing endpoints 1, ..., n - 1. */
  function Announced(urls: seq<Url>, n: nat): seq<Event>
    requires n <= |urls|
  {
    if n <= 1 then [] else Announced(urls, n - 1) + [Info(n - 1, urls[n - 1])]
  }

  /** Endpoints are called in list order, each once. */
  lemma {:induction false} CallsInOrder<T>(log: seq<Entry>, urls: seq<Url>, req: Request, calls: seq<Call<T>>, announce: bool)
    requires Attempts(log, urls, req, calls, announce)
    ensures Of(Calls, log) == Numbered(req, |log|)
  {
    if log != [] {
      AttemptsInit(log, urls, req, calls, announce);
      CallsInOrder(log[..|log| - 1], urls, req, calls, announce);
    }
  }

  /** Every call that raised leaves one error record, carrying its exception, in endpoint order. */
  lemma {:induction false} ErrorsInOrder<T>(log: seq<Entry>, urls: seq<Url>, req: Request, calls: seq<Call<T>>, announce: bool)
    requires Attempts(log, urls, req, calls, announce)
    ensures Of(ErrorRecords, log) == RaisedRecords(calls, |log|)
  {
    if log != [] {
      AttemptsInit(log, urls, req, calls, announce);
      ErrorsInOrder(log[..|log| - 1], urls, req, calls, announce);
    }
  }

  /** Info records name the second and later endpoints tried, and only when asked to announce. */
  lemma {:induction false} InfosInOrder<T>(log: seq<Entry>, urls: seq<Url>, req: Request, calls: seq<Call<T>>, announce: bool)
    requires Attempts(log, urls, req, calls, announce)
    ensures Of(InfoRecords, log) == if announce then Announced(urls, |log|) else []
  {
    if log != [] {
      AttemptsInit(log, urls, req, calls, announce);
      InfosInOrder(log[..|log| - 1], urls, req, calls, announce);
    }
  }

  /** The loop sends nothing but the request's payload, unchanged, once per endpoint tried. */
  lemma {:induction false} PayloadsUnchanged<T>(log: seq<Entry>, urls: seq<Url>, req: Request, calls: seq<Call<T>>, announce: bool)
    requires Attempts(log, urls, req, calls, announce)
    ensures Of(Sends, log) == if req.SendTransaction? then Numbered(req, |log|) else []
  {
    if log != [] {
      AttemptsInit(log, urls, req, calls, announce);
      PayloadsUnchanged(log[..|log| - 1], urls, req, calls, announce);
    }
  }

  /** The loop does not sleep. */
  lemma {:induction false} NoSleeps<T>(log: seq<Entry>, urls: seq<Url>, req: Request, calls: seq<Call<T>>, announce: bool)
    requires Attempts(log, urls, req, calls, announce)
    ensures Of(Sleeps, log) == []
  {
    if log != [] {
      AttemptsInit(log, urls, req, calls, announce);
      NoSleeps(log[..|log| - 1], urls, req, calls, announce);
    }
  }

  /** The loop does not warn. */
  lemma {:induction false} NoWarnings<T>(log: seq<Entry>, urls: seq<Url>, req: Request, calls: seq<Call<T>>, announce: bool)
    requires Attempts(log, urls, req, calls, announce)
    ensures Of(WarningRecords, log) == []
  {
    if log != [] {
      AttemptsInit(log, urls, req, calls, announce);
      NoWarnings(log[..|log| - 1], urls, req, calls, announce);
    }
  }

  /** The call that returns leaves no error record. */
  lemma RaisedBeforeReturn<T>(calls: seq<Call<T>>)
    ensures RaisedRecords(calls, AttemptCount(calls)) == RaisedRecords(calls, FirstReturned(calls))
  {
    var k := FirstReturned(calls);
    if k < |calls| {
      assert RaisedRecords(calls, k + 1) == RaisedRecords(calls, k) + [];
    }
  }

  /**
   * The records of kind `k` a whole failover loop leaves: the request to every
   * endpoint tried, the payload when it is a transaction, the announcements
   * when asked for, the error of every endpoint that raised, and nothing else.
   */
  function LoopView<T>(k: Kind, urls: seq<Url>, req: Request, calls: seq<Call<T>>, announce: bool): seq<Event>
    requires |calls| == |urls|
  {
    match k
    case Calls => Numbered(req, AttemptCount(calls))
    case Sends => if req.SendTransaction? then Numbered(req, AttemptCount(calls)) else []
    case InfoRecords => if announce then Announced(urls, AttemptCount(calls)) else []
    case ErrorRecords => RaisedRecords(calls, FirstReturned(calls))
    case WarningRecords => []
    case Sleeps => []
  }

  /** What a whole failover loop records, kind by kind. */
  lemma LoopRecords<T>(k: Kind, urls: seq<Url>, req: Request, calls: seq<Call<T>>, announce: bool)
    requires |calls| == |urls|
    ensures Of(k, FailoverLog(urls, req, calls, announce)) == LoopView(k, urls, req, calls, announce)
  {
    var n := AttemptCount(calls);
    var log := FailoverLog(urls, req, calls, announce);
    assert |log| == n && Attempts(log, urls, req, calls, announce) by {
      AttemptsLogIs(urls, req, calls, announce, n);
    }
    match k
    case Calls => CallsInOrder(log, urls, req, calls, announce);
    case Sends => PayloadsUnchanged(log, urls, req, calls, announce);
    case InfoRecords => InfosInOrder(log, urls, req, calls, announce);
    case ErrorRecords =>
      ErrorsInOrder(log, urls, req, calls, announce);
      RaisedBeforeReturn(calls);
    case WarningRecords => NoWarnings(log, urls, req, calls, announce);
    case Sleeps => NoSleeps(log, urls, req, calls, announce);
  }
}
