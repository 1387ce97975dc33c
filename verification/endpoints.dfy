/** Connections to interchangeable RPC endpoints and the two loops every
    caller of them runs: the dial loop that fills the client list, and the
    failover loop that asks the clients in list order and keeps the first
    success. Both the API caller and the block syncer run these. */
module Endpoints {
  import opened Wrappers

  /** One endpoint connection (`*ethclient.Client`). */
  class Client {
    const url: string
    var closed: bool

    constructor (url: string)
      ensures this.url == url && !closed
    {
      this.url := url;
      closed := false;
    }

    /** Releases the connection; closing twice is harmless. */
    method Close()
      modifies this
      ensures closed
    {
      closed := true;
    }
  }

  /** The dial loop: one fresh client per URL in input order, stopping at the
      first URL whose dial fails (`dialErrs[i]` is the error the dial of
      `urls[i]` gives, if any). The clients dialled before the failure are
      returned with the failure's error; the failing URL gets no client. */
  method DialAll(urls: seq<string>, dialErrs: seq<Option<Error>>)
    returns (dialled: seq<Client>, err: Option<Error>)
    requires |dialErrs| == |urls|
    ensures |dialled| <= |urls|
    ensures forall i :: 0 <= i < |dialled| ==> fresh(dialled[i]) && !dialled[i].closed
    ensures forall i :: 0 <= i < |dialled| ==> dialled[i].url == urls[i] && dialErrs[i].None?
    ensures |dialled| < |urls| ==> err == dialErrs[|dialled|] && err.Some?
    ensures |dialled| == |urls| ==> err.None?
  {
    dialled := [];
    var i := 0;
    while i < |urls|
      invariant i == |dialled| <= |urls|
      invariant forall j :: 0 <= j < i ==> fresh(dialled[j]) && !dialled[j].closed
      invariant forall j :: 0 <= j < i ==> dialled[j].url == urls[j] && dialErrs[j].None?
    {
      if dialErrs[i].Some? {
        return dialled, dialErrs[i];
      }
      var client := new Client(urls[i]);
      dialled := dialled + [client];
      i := i + 1;
    }
    err := None;
  }

  /** The non-nil clients of a list. */
  ghost function Live(clients: seq<Client?>): set<Client>
  {
    set i | 0 <= i < |clients| && clients[i] != null :: clients[i]
  }

  /** The close loop: closes every non-nil client of the list, skips nil
      entries and touches nothing else. */
  method CloseAll(clients: seq<Client?>)
    modifies Live(clients)
    ensures forall i :: 0 <= i < |clients| && clients[i] != null ==> clients[i].closed
  {
    var i := 0;
    while i < |clients|
      invariant 0 <= i <= |clients|
      invariant forall j :: 0 <= j < i && clients[j] != null ==> clients[j].closed
    {
      if clients[i] != null {
        clients[i].Close();
      }
      i := i + 1;
    }
  }

  /** The position of the first successful reply, or the number of replies
      when none succeeds. */
  function FirstSuccess<T>(replies: seq<Reply<T>>): (k: nat)
    ensures k <= |replies|
    ensures k < |replies| ==> replies[k].Succeeded()
    ensures forall j :: 0 <= j < k ==> !replies[j].Succeeded()
  {
    if replies == [] then 0
    else if replies[0].Succeeded() then 0
    else 1 + FirstSuccess(replies[1..])
  }

  /** What a failover call gives back, when client i would answer
      `replies[i]`: the first success in list order; failing that the last
      client's reply (its error); with no clients the zero value and a nil
      error, which is what Go's named results hold. */
  function Failover<T>(replies: seq<Reply<T>>, zero: T): Reply<T>
  {
    var k := FirstSuccess(replies);
    if k < |replies| then replies[k]
    else if replies == [] then Reply(zero, None)
    else replies[|replies| - 1]
  }

  /** How many clients a failover call asks: up to and including the first
      that succeeds, all of them when none does. */
  function Asked<T>(replies: seq<Reply<T>>): nat
  {
    var k := FirstSuccess(replies);
    if k < |replies| then k + 1 else |replies|
  }

  /** The failover loop: asks client after client, overwriting the named
      results with each reply, and returns at the first success. */
  method CallInOrder<T>(replies: seq<Reply<T>>, zero: T) returns (r: Reply<T>, asked: nat)
    ensures r == Failover(replies, zero)
    ensures asked == Asked(replies)
  {
    r := Reply(zero, None);
    asked := 0;
    while asked < |replies|
      invariant asked <= |replies|
      invariant forall j :: 0 <= j < asked ==> !replies[j].Succeeded()
      invariant asked == 0 ==> r == Reply(zero, None)
      invariant asked > 0 ==> r == replies[asked - 1]
    {
      r := replies[asked];
      asked := asked + 1;
      if r.Succeeded() {
        return;
      }
    }
  }

  /** First success wins: when client i is the first healthy one, the call
      returns its reply and asks nobody after it. */
  lemma FirstHealthyWins<T>(replies: seq<Reply<T>>, zero: T, i: nat)
    requires i < |replies| && replies[i].Succeeded()
    requires forall j :: 0 <= j < i ==> !replies[j].Succeeded()
    ensures Failover(replies, zero) == replies[i]
    ensures Asked(replies) == i + 1
  {
  }

  /** When every client fails, the call reports the last client's reply and
      has asked every client. */
  lemma AllFailLastError<T>(replies: seq<Reply<T>>, zero: T)
    requires replies != []
    requires forall j :: 0 <= j < |replies| ==> !replies[j].Succeeded()
    ensures Failover(replies, zero) == replies[|replies| - 1]
    ensures !Failover(replies, zero).Succeeded()
    ensures Asked(replies) == |replies|
  {
  }

  /** The result of a failover call is one of the clients' replies, or the
      zero value with a nil error when there are no clients; a failure is
      reported only when every client failed. */
  lemma FailoverIsSomeReply<T>(replies: seq<Reply<T>>, zero: T)
    ensures replies == [] ==> Failover(replies, zero) == Reply(zero, None)
    ensures replies != [] ==> Failover(replies, zero) in replies
    ensures !Failover(replies, zero).Succeeded() <==>
              replies != [] && forall j :: 0 <= j < |replies| ==> !replies[j].Succeeded()
  {
  }

  /** The outcome of each of the first `count` retry attempts, when attempt
      a would get the per-client replies `attempts[a]`. */
  function AttemptOutcomes<T>(attempts: seq<seq<Reply<T>>>, count: int, zero: T): (o: seq<Reply<T>>)
    requires count <= |attempts|
    ensures |o| == (if count <= 0 then 0 else count)
    ensures forall a :: 0 <= a < |o| ==> o[a] == Failover(attempts[a], zero)
  {
    if count <= 0 then [] else seq(count, a requires 0 <= a < count => Failover(attempts[a], zero))
  }

  /** The counted retry loop (`for i := 0; i < retryCount; i++`) around a
      failover call: it stops at the first attempt that succeeds and otherwise
      keeps the last attempt's reply, so over attempts it has the shape of
      failover over clients. Returns the reply, the number of attempts made
      and the number of failed attempts among them. */
  method RetryInOrder<T>(attempts: seq<seq<Reply<T>>>, count: int, zero: T)
    returns (r: Reply<T>, tries: nat, failures: nat)
    requires count <= |attempts|
    ensures r == Failover(AttemptOutcomes(attempts, count, zero), zero)
    ensures tries == Asked(AttemptOutcomes(attempts, count, zero))
    ensures failures == if r.Succeeded() && tries > 0 then tries - 1 else tries
  {
    ghost var outcomes := AttemptOutcomes(attempts, count, zero);
    r := Reply(zero, None);
    tries, failures := 0, 0;
    while tries < count
      invariant tries <= |outcomes|
      invariant forall j :: 0 <= j < tries ==> !outcomes[j].Succeeded()
      invariant tries == 0 ==> r == Reply(zero, None)
      invariant tries > 0 ==> r == outcomes[tries - 1]
      invariant failures == tries
    {
      var asked;
      r, asked := CallInOrder(attempts[tries], zero);
      tries := tries + 1;
      if r.Succeeded() {
        return;
      }
      failures := failures + 1;
    }
  }

  /** A retried read whose first n - 1 attempts fail and whose n-th succeeds
      returns the n-th attempt's reply after n attempts (so n - 1 failures,
      each followed by a sleep where the loop sleeps). */
  lemma SucceedsOnAttempt<T>(attempts: seq<seq<Reply<T>>>, count: int, zero: T, n: nat)
    requires count <= |attempts| && 1 <= n <= count
    requires forall a :: 0 <= a < n - 1 ==> !Failover(attempts[a], zero).Succeeded()
    requires Failover(attempts[n - 1], zero).Succeeded()
    ensures Failover(AttemptOutcomes(attempts, count, zero), zero) == Failover(attempts[n - 1], zero)
    ensures Asked(AttemptOutcomes(attempts, count, zero)) == n
  {
    FirstHealthyWins(AttemptOutcomes(attempts, count, zero), zero, n - 1);
  }

  /** A retried read makes at most `count` attempts, and all of them when it
      fails. */
  lemma RetryBound<T>(attempts: seq<seq<Reply<T>>>, count: int, zero: T)
    requires count <= |attempts|
    ensures Asked(AttemptOutcomes(attempts, count, zero)) <= (if count <= 0 then 0 else count)
    ensures !Failover(AttemptOutcomes(attempts, count, zero), zero).Succeeded() ==>
              count > 0 && Asked(AttemptOutcomes(attempts, count, zero)) == count
  {
  }
}
