/**
 * The observable behaviour of the guard: the remote calls it issues and the
 * log records and sleeps it produces, in order.
 */
module Events {
  import opened Wrappers
  import opened MinterApi

  /** The cause of an error-level log record. */
  datatype Cause =
    | CallFailed(exc: Exc)          // one endpoint's call raised
    | Exhausted                     // bare `raise` with no active exception: RuntimeError
    | RemoteError(body: ErrorBody)  // `Exception(response['error'])`
    | BadResponse                   // KeyError, ValueError or TypeError while reading the response

  /** One observable record: a remote call, a log record or a sleep. */
  datatype Event =
    | Request(endpoint: nat, req: Request)  // a call issued to the endpoint at this index
    | Info(attempt: nat, url: Url)          // "<attempt> attempt with <url> API"
    | Error(failure: Cause)
    | Warning(missed: int)                  // "Set candidate off. Blocks missed: <missed>"
    | Sleep(ms: nat)

  /**
   * One step of the guard's behaviour. A failover loop contributes one
   * `Tried` entry per endpoint it tries; the other entries are single records.
   */
  datatype Entry =
    | Tried(endpoint: nat, url: Url, announced: bool, req: Request, raised: Option<Exc>)
    | Failed(failure: Cause)
    | Warned(missed: int)
    | Slept(ms: nat)

  /**
   * The records an entry stands for, in order. Trying an endpoint is: the info
   * record naming it when the attempt is announced, the call, and the error
   * record of the exception when the call raised.
   */
  function Records(e: Entry): seq<Event>
  {
    match e
    case Tried(i, url, announced, req, raised) =>
      (if announced then [Info(i, url)] else [])
      + [Request(i, req)]
      + (match raised case Some(exc) => [Error(CallFailed(exc))] case None => [])
    case Failed(f) => [Error(f)]
    case Warned(m) => [Warning(m)]
    case Slept(ms) => [Sleep(ms)]
  }

  /** The kinds of record a property can single out. */
  datatype Kind = Calls | InfoRecords | ErrorRecords | WarningRecords | Sleeps | Sends

  predicate Is(k: Kind, r: Event)
  {
    match k
    case Calls => r.Request?
    case InfoRecords => r.Info?
    case ErrorRecords => r.Error?
    case WarningRecords => r.Warning?
    case Sleeps => r.Sleep?
    case Sends => r.Request? && r.req.SendTransaction?
  }

  /** The records of kind `k` in `rs`, in order. */
  function Select(k: Kind, rs: seq<Event>): seq<Event>
  {
    if rs == [] then [] else Select(k, rs[..|rs| - 1]) + (if Is(k, rs[|rs| - 1]) then [rs[|rs| - 1]] else [])
  }

  /** The record of kind `k` that entry `e` stands for, if it stands for one. */
  function Keep(k: Kind, e: Entry): (r: seq<Event>)
    ensures |r| <= 1
  {
    match e
    case Tried(i, url, announced, req, raised) =>
      (match k
       case Calls => [Request(i, req)]
       case Sends => if req.SendTransaction? then [Request(i, req)] else []
       case InfoRecords => if announced then [Info(i, url)] else []
       case ErrorRecords => (match raised case Some(exc) => [Error(CallFailed(exc))] case None => [])
       case _ => [])
    case Failed(f) => if k == ErrorRecords then [Error(f)] else []
    case Warned(m) => if k == WarningRecords then [Warning(m)] else []
    case Slept(ms) => if k == Sleeps then [Sleep(ms)] else []
  }

  /** Keep picks out of an entry exactly the records of that kind it stands for. */
  lemma KeepSelects(k: Kind, e: Entry)
    ensures Keep(k, e) == Select(k, Records(e))
  {
    match e
    case Tried(i, url, announced, req, raised) => TriedSelects(k, i, url, announced, req, raised);
    case Failed(f) => SelectOne(k, Error(f));
    case Warned(m) => SelectOne(k, Warning(m));
    case Slept(ms) => SelectOne(k, Sleep(ms));
  }

  lemma TriedSelects(k: Kind, i: nat, url: Url, announced: bool, req: Request, raised: Option<Exc>)
    ensures Keep(k, Tried(i, url, announced, req, raised)) == Select(k, Records(Tried(i, url, announced, req, raised)))
  {
    var pre: seq<Event> := if announced then [Info(i, url)] else [];
    var post: seq<Event> := match raised case Some(exc) => [Error(CallFailed(exc))] case None => [];
    var s1, s2, s3 := Select(k, pre), Select(k, [Request(i, req)]), Select(k, post);
    assert Select(k, Records(Tried(i, url, announced, req, raised))) == s1 + s2 + s3 by {
      assert Records(Tried(i, url, announced, req, raised)) == pre + [Request(i, req)] + post;
      SelectAppend(k, pre + [Request(i, req)], post);
      SelectAppend(k, pre, [Request(i, req)]);
    }
    assert s1 == (if announced && k == InfoRecords then [Info(i, url)] else []) by {
      if announced { SelectOne(k, Info(i, url)); }
    }
    assert s2 == (if k == Calls || (k == Sends && req.SendTransaction?) then [Request(i, req)] else []) by {
      SelectOne(k, Request(i, req));
    }
    assert s3 == (if raised.Some? && k == ErrorRecords then [Error(CallFailed(raised.value))] else []) by {
      if raised.Some? { SelectOne(k, Error(CallFailed(raised.value))); }
    }
    KeepTried(k, i, url, announced, req, raised);
  }

  /** At most one of the three parts of an attempt is of a given kind. */
  lemma KeepTried(k: Kind, i: nat, url: Url, announced: bool, req: Request, raised: Option<Exc>)
    ensures Keep(k, Tried(i, url, announced, req, raised)) ==
      (if announced && k == InfoRecords then [Info(i, url)] else [])
      + (if k == Calls || (k == Sends && req.SendTransaction?) then [Request(i, req)] else [])
      + (if raised.Some? && k == ErrorRecords then [Error(CallFailed(raised.value))] else [])
  {
  }

  /** The records of kind `k` that the entries of `log` stand for, in order. */
  function Of(k: Kind, log: seq<Entry>): seq<Event>
  {
    if log == [] then [] else Of(k, log[..|log| - 1]) + Keep(k, log[|log| - 1])
  }

  /** All the records the entries of `log` stand for, in order. */
  function Flat(log: seq<Entry>): seq<Event>
  {
    if log == [] then [] else Flat(log[..|log| - 1]) + Records(log[|log| - 1])
  }

  /** Of is Select applied to the records the log stands for. */
  lemma {:induction false} OfSelects(k: Kind, log: seq<Entry>)
    ensures Of(k, log) == Select(k, Flat(log))
  {
    if log != [] {
      var init := log[..|log| - 1];
      var last := log[|log| - 1];
      OfSelects(k, init);
      KeepSelects(k, last);
      SelectAppend(k, Flat(init), Records(last));
    }
  }

  lemma {:induction false} SelectAppend(k: Kind, a: seq<Event>, b: seq<Event>)
    ensures Select(k, a + b) == Select(k, a) + Select(k, b)
  {
    if b != [] {
      var init := b[..|b| - 1];
      var t: seq<Event> := if Is(k, b[|b| - 1]) then [b[|b| - 1]] else [];
      assert (a + b)[..|a + b| - 1] == a + init && (a + b)[|a + b| - 1] == b[|b| - 1];
      SelectAppend(k, a, init);
      assert Select(k, a + b) == (Select(k, a) + Select(k, init)) + t;
      assert (Select(k, a) + Select(k, init)) + t == Select(k, a) + (Select(k, init) + t);
    } else {
      assert a + b == a;
    }
  }

  lemma SelectOne(k: Kind, r: Event)
    ensures Select(k, [r]) == if Is(k, r) then [r] else []
  {
    assert [r][..0] == [];
  }

  /** The view of a log distributes over concatenation. */
  lemma {:induction false} OfAppend(k: Kind, a: seq<Entry>, b: seq<Entry>)
    ensures Of(k, a + b) == Of(k, a) + Of(k, b)
  {
    if b != [] {
      var init := b[..|b| - 1];
      var t := Keep(k, b[|b| - 1]);
      assert (a + b)[..|a + b| - 1] == a + init && (a + b)[|a + b| - 1] == b[|b| - 1];
      OfAppend(k, a, init);
      assert Of(k, a + b) == (Of(k, a) + Of(k, init)) + t;
      assert (Of(k, a) + Of(k, init)) + t == Of(k, a) + (Of(k, init) + t);
    } else {
      assert a + b == a;
    }
  }

  lemma OfOne(k: Kind, e: Entry)
    ensures Of(k, [e]) == Keep(k, e)
  {
    assert [e][..0] == [];
  }

  /** The last element of a sequence extended by one. */
  lemma LastOf<T>(x: seq<T>, e: T)
    ensures (x + [e])[|x + [e]| - 1] == e
  {
  }

  /** The empty sequence is a unit of concatenation. */
  lemma Unit<T>(x: seq<T>)
    ensures x + [] == x && [] + x == x
  {
  }

  /** Concatenation is associative. */
  lemma Associative<T>(x: seq<T>, y: seq<T>, z: seq<T>)
    ensures (x + y) + z == x + (y + z)
  {
  }
}
