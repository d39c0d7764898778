/**
 * The guard of minterguard/guard.py: it is built from a list of API URLs, the
 * public key of the validator it watches, a pre-signed set-candidate-off
 * transaction, a missed-blocks threshold and a poll interval; construction
 * checks the transaction, and tracking then polls the missed-blocks count and
 * sends the transaction whenever the count reaches the threshold.
 *
 * Remote calls are not performed: each is represented by what it did (see
 * MinterApi.Call), and everything the guard does is recorded as a sequence of Events.Entry values.
 */
module MinterGuard {
  import opened Wrappers
  import opened MinterApi
  import opened Events
  import opened Failover

  /** Why construction refuses the prepared transaction. */
  datatype StartupError =
    | Undecodable                                          // `MinterTx.from_raw` raised
    | NotSetCandidateOff                                   // decoded to another kind
    | NonceMismatch(txNonce: int, chainNonce: Option<int>) // None: no endpoint answered

  /**
   * What the endpoints do during one iteration of the tracking loop:
   * `status[i]` is the outcome of `get_missed_blocks` on endpoint i,
   * `send[i]` that of `send_transaction` on endpoint i.
   */
  datatype Round = Round(status: seq<Call<StatusResponse>>, send: seq<Call<SendResponse>>)

  class Guard {
    const apiUrls: seq<Url>
    const pubKey: string
    const setOffTx: string
    const missedBlocks: int
    const sleepTimeMs: nat

    /**
     * Sets the attributes; the threshold defaults to 4 missed blocks and the
     * interval to 1000 ms. The checks of construction are in CheckSetOffTx.
     */
    constructor (apiUrls: seq<Url>, pubKey: string, setOffTx: string, missedBlocks: int := 4, sleepTimeMs: nat := 1000)
      ensures this.apiUrls == apiUrls && this.pubKey == pubKey && this.setOffTx == setOffTx
      ensures this.missedBlocks == missedBlocks && this.sleepTimeMs == sleepTimeMs
    {
      this.apiUrls := apiUrls;
      this.pubKey := pubKey;
      this.setOffTx := setOffTx;
      this.missedBlocks := missedBlocks;
      this.sleepTimeMs := sleepTimeMs;
    }

    /**
     * The checks construction makes of the prepared transaction. `decode`
     * stands for `MinterTx.from_raw` (None when it raises) and `nonces[i]` for
     * what `get_nonce` does on endpoint i. A wrong kind is refused before any
     * endpoint is asked; otherwise the nonce is read with failover and must
     * equal the transaction's own.
     */
    method CheckSetOffTx(decode: string -> Option<DecodedTx>, nonces: seq<Call<int>>)
      returns (err: Option<StartupError>, log: seq<Entry>)
      requires |nonces| == |apiUrls|
      ensures decode(setOffTx).None? ==> err == Some(Undecodable) && log == []
      ensures decode(setOffTx).Some? && decode(setOffTx).value.kind != SetCandidateOff ==>
                err == Some(NotSetCandidateOff) && log == []
      ensures decode(setOffTx).Some? && decode(setOffTx).value.kind == SetCandidateOff ==>
                var tx := decode(setOffTx).value;
                log == FailoverLog(apiUrls, GetNonce(tx.fromMx), nonces, false) &&
                (Outcome(nonces) == Some(tx.nonce) ==> err == None) &&
                (Outcome(nonces) != Some(tx.nonce) ==> err == Some(NonceMismatch(tx.nonce, Outcome(nonces))))
    {
      log := [];
      var decoded := decode(setOffTx);
      if decoded.None? {
        return Some(Undecodable), log;
      }
      var tx := decoded.value;
      if tx.kind != SetCandidateOff {
        return Some(NotSetCandidateOff), log;
      }
      var nonce;
      nonce, log := Try(apiUrls, GetNonce(tx.fromMx), nonces, false);
      if nonce != Some(tx.nonce) {
        return Some(NonceMismatch(tx.nonce, nonce)), log;
      }
      err := None;
    }

    /**
     * `Guard(...)`: sets the attributes, then checks the prepared transaction;
     * a guard exists only when the transaction is a set-candidate-off
     * transaction whose nonce is the one the first answering endpoint reports.
     */
    static method Create(apiUrls: seq<Url>, pubKey: string, setOffTx: string, missedBlocks: int := 4, sleepTimeMs: nat := 1000,
                         decode: string -> Option<DecodedTx>, nonces: seq<Call<int>>)
      returns (r: Result<Guard, StartupError>, log: seq<Entry>)
      requires |nonces| == |apiUrls|
      ensures r.Success? <==>
                decode(setOffTx).Some? && decode(setOffTx).value.kind == SetCandidateOff &&
                Outcome(nonces) == Some(decode(setOffTx).value.nonce)
      ensures r.Failure? ==>
                r.error == (if decode(setOffTx).None? then Undecodable
                            else if decode(setOffTx).value.kind != SetCandidateOff then NotSetCandidateOff
                            else NonceMismatch(decode(setOffTx).value.nonce, Outcome(nonces)))
      ensures log == (if decode(setOffTx).Some? && decode(setOffTx).value.kind == SetCandidateOff
                      then FailoverLog(apiUrls, GetNonce(decode(setOffTx).value.fromMx), nonces, false)
                      else [])
      ensures r.Success? ==>
                fresh(r.value) && r.value.apiUrls == apiUrls && r.value.pubKey == pubKey &&
                r.value.setOffTx == setOffTx && r.value.missedBlocks == missedBlocks &&
                r.value.sleepTimeMs == sleepTimeMs
    {
      var g := new Guard(apiUrls, pubKey, setOffTx, missedBlocks, sleepTimeMs);
      var err;
      err, log := g.CheckSetOffTx(decode, nonces);
      r := if err.None? then Success(g) else Failure(err.value);
    }

    /**
     * One pass of the tracking loop: read the missed-blocks count with
     * failover, act on the reply, and sleep once. When no endpoint answers,
     * the bare `raise` is caught and logged like any other exception.
     */
    method Step(round: Round) returns (log: seq<Entry>)
      requires Fits(this, round)
      ensures log == Iteration(this, round)
    {
      var response;
      response, log := Try(apiUrls, GetMissedBlocks(pubKey), round.status, true);
      if response.None? {
        log := log + [Failed(Exhausted), Slept(sleepTimeMs)];
      } else {
        var rest := Act(response.value, round.send);
        log := log + rest;
      }
    }

    /**
     * What the tracking loop does with a returned missed-blocks reply: a 404
     * error means the validator is not known yet and the loop only sleeps;
     * another error, or a reply without a readable count, is logged; a count
     * at or above the threshold sends the set-candidate-off transaction.
     */
    method Act(resp: StatusResponse, send: seq<Call<SendResponse>>) returns (log: seq<Entry>)
      requires |send| == |apiUrls|
      ensures log == Verdict(this, resp, send)
    {
      if resp.error.Some? {
        var body := resp.error.value;
        if body.code.None? {
          log := [Failed(BadResponse)];  // `response['error']['code']` raised KeyError
        } else if body.code.value != NotFound {
          log := [Failed(RemoteError(body))];
        } else {
          log := [];
        }
      } else if resp.missedBlocksCount.None? {
        log := [Failed(BadResponse)];
      } else {
        var mb := resp.missedBlocksCount.value;
        log := [];
        if mb >= missedBlocks {
          log := SendSetOff(mb, send);
        }
      }
      log := log + [Slept(sleepTimeMs)];
    }

    /**
     * Sends the prepared transaction with failover; a failure to send, or an
     * error in the reply, is logged as an error, and success as a warning
     * carrying the missed-blocks count.
     */
    method SendSetOff(mb: int, send: seq<Call<SendResponse>>) returns (log: seq<Entry>)
      requires |send| == |apiUrls|
      ensures log == SetOff(this, mb, send)
    {
      var sent;
      sent, log := Try(apiUrls, SendTransaction(setOffTx), send, false);
      if sent.None? {
        log := log + [Failed(Exhausted)];
      } else if sent.value.error.Some? {
        log := log + [Failed(RemoteError(sent.value.error.value))];
      } else {
        log := log + [Warned(mb)];
      }
    }

    /** The tracking loop, run for as many iterations as `rounds` describes. */
    method Track(rounds: seq<Round>) returns (log: seq<Entry>)
      requires forall t :: 0 <= t < |rounds| ==> Fits(this, rounds[t])
      ensures log == Run(this, rounds)
    {
      log := [];
      var t := 0;
      while t < |rounds|
        invariant t <= |rounds|
        invariant log == Run(this, rounds[..t])
      {
        var events := Step(rounds[t]);
        log := log + events;
        assert rounds[..t + 1][..t] == rounds[..t];
        t := t + 1;
      }
      assert rounds[..t] == rounds;
    }
  }

  /** The round describes every configured endpoint, once for each kind of call. */
  predicate Fits(g: Guard, round: Round)
  {
    |round.status| == |g.apiUrls| && |round.send| == |g.apiUrls|
  }

  /**
   * The missed-blocks count the iteration acts on: present when some endpoint
   * returned a reply with no error and a readable count.
   */
  function Reported(status: seq<Call<StatusResponse>>): Option<int>
  {
    match Outcome(status)
    case None => None
    case Some(resp) => if resp.error.None? then resp.missedBlocksCount else None
  }

  /** The threshold test of the tracking loop: a count equal to the threshold is due. */
  predicate Due(g: Guard, round: Round)
  {
    Reported(round.status).Some? && Reported(round.status).value >= g.missedBlocks
  }

  /** The entries of one iteration of the tracking loop. */
  function Iteration(g: Guard, round: Round): seq<Entry>
    requires Fits(g, round)
  {
    FailoverLog(g.apiUrls, GetMissedBlocks(g.pubKey), round.status, true) +
    match Outcome(round.status)
    case None => [Failed(Exhausted), Slept(g.sleepTimeMs)]
    case Some(resp) => Verdict(g, resp, round.send)
  }

  /** The entries that follow a returned missed-blocks reply. */
  function Verdict(g: Guard, resp: StatusResponse, send: seq<Call<SendResponse>>): seq<Entry>
    requires |send| == |g.apiUrls|
  {
    match resp.error
    case Some(body) =>
      if body.code == Some(NotFound) then [Slept(g.sleepTimeMs)]
      else [Failed(if body.code.None? then BadResponse else RemoteError(body)), Slept(g.sleepTimeMs)]
    case None =>
      match resp.missedBlocksCount
      case None => [Failed(BadResponse), Slept(g.sleepTimeMs)]
      case Some(mb) => (if mb >= g.missedBlocks then SetOff(g, mb, send) else []) + [Slept(g.sleepTimeMs)]
  }

  /** The entries of sending the set-candidate-off transaction. */
  function SetOff(g: Guard, mb: int, send: seq<Call<SendResponse>>): seq<Entry>
    requires |send| == |g.apiUrls|
  {
    FailoverLog(g.apiUrls, SendTransaction(g.setOffTx), send, false) +
    match Outcome(send)
    case None => [Failed(Exhausted)]
    case Some(resp) => if resp.error.Some? then [Failed(RemoteError(resp.error.value))] else [Warned(mb)]
  }

  /** The entries of consecutive iterations; nothing carries over from one to the next. */
  function Run(g: Guard, rounds: seq<Round>): seq<Entry>
    requires forall t :: 0 <= t < |rounds| ==> Fits(g, rounds[t])
  {
    if rounds == [] then []
    else Run(g, rounds[..|rounds| - 1]) + Iteration(g, rounds[|rounds| - 1])
  }
}
