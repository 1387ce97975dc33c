/** The transaction builder (`distributer.BuildTxArgs`): it resolves the
    sending identity, fills the transaction parameters the caller left
    unset from the gateway, and builds, signs and submits one ERC-20
    `transfer` per reward, reconciling its cached nonce with the live one. */
module SendTx {
  import opened Wrappers
  import opened Bytes
  import opened Abi
  import opened Hex

  const DefaultGasLimit: uint64 := 90000

  /** A decrypted keystore: the signing key and the address it controls. */
  datatype Key = Key(address: Address, privateKey: Bytes)

  /** `types.NewEIP155Signer(chainID)`; a nil chain ID makes a signer for 0. */
  datatype Signer = Eip155Signer(chainId: nat)

  function ChainIdOrZero(chainID: Option<nat>): nat
  {
    if chainID.Some? then chainID.value else 0
  }

  /** `types.NewTransaction(nonce, to, value, gasLimit, gasPrice, data)`. */
  datatype Transaction = Transaction(nonce: uint64, to: Address, value: nat, gasLimit: uint64,
                                     gasPrice: Option<nat>, data: Bytes)

  /** What the opaque signer gives: the signature and the signed
      transaction's hash. Signing and hashing are not part of this model. */
  datatype Signature = Signature(sig: Bytes, hash: Bytes)

  datatype SignedTx = SignedTx(tx: Transaction, sig: Bytes)

  /** The gateway as the builder sees it (the package-level `capi`): each
      query answers with the next scripted reply, and every accepted
      submission is recorded. An error carries a nil value, as with the
      go-ethereum client. */
  class Gateway {
    var chainIds: seq<Result<Option<nat>>>
    var nonces: seq<Result<uint64>>
    var gasPrices: seq<Result<Option<nat>>>
    var sendErrs: seq<Option<Error>>
    var accepted: seq<SignedTx>

    constructor (chainIds: seq<Result<Option<nat>>>, nonces: seq<Result<uint64>>,
                 gasPrices: seq<Result<Option<nat>>>, sendErrs: seq<Option<Error>>)
      ensures this.chainIds == chainIds && this.nonces == nonces && this.gasPrices == gasPrices
      ensures this.sendErrs == sendErrs && accepted == []
    {
      this.chainIds, this.nonces, this.gasPrices := chainIds, nonces, gasPrices;
      this.sendErrs, accepted := sendErrs, [];
    }

    ghost function Replies(): Streams
      reads this`chainIds, this`nonces, this`gasPrices
    {
      Streams(chainIds, nonces, gasPrices)
    }

    method GetChainID() returns (r: Result<Option<nat>>)
      requires chainIds != []
      modifies this`chainIds
      ensures r == old(chainIds[0]) && chainIds == old(chainIds[1..])
    {
      r, chainIds := chainIds[0], chainIds[1..];
    }

    method GetAccountNonce(account: Address) returns (r: Result<uint64>)
      requires nonces != []
      modifies this`nonces
      ensures r == old(nonces[0]) && nonces == old(nonces[1..])
    {
      r, nonces := nonces[0], nonces[1..];
    }

    method SuggestGasPrice() returns (r: Result<Option<nat>>)
      requires gasPrices != []
      modifies this`gasPrices
      ensures r == old(gasPrices[0]) && gasPrices == old(gasPrices[1..])
    {
      r, gasPrices := gasPrices[0], gasPrices[1..];
    }

    method SendTransaction(tx: SignedTx) returns (err: Option<Error>)
      requires sendErrs != []
      modifies this`sendErrs, this`accepted
      ensures err == old(sendErrs[0]) && sendErrs == old(sendErrs[1..])
      ensures accepted == if err.None? then old(accepted) + [tx] else old(accepted)
    {
      err, sendErrs := sendErrs[0], sendErrs[1..];
      if err.None? {
        accepted := accepted + [tx];
      }
    }
  }

  /** The value a nil-able query leaves set: the first reply that succeeds
      with a non-nil value. */
  function FirstSet<T>(s: seq<Result<Option<T>>>): Option<T>
  {
    if s == [] then None
    else if s[0].Ok? && s[0].value.Some? then s[0].value
    else FirstSet(s[1..])
  }

  /** The value of the first successful reply. */
  function FirstOk<T>(s: seq<Result<T>>): Option<T>
  {
    if s == [] then None
    else if s[0].Ok? then Some(s[0].value)
    else FirstOk(s[1..])
  }

  /** The state of a nil-able parameter the `setDefaults` loop fills:
      a supplied value is kept and its query never asked; a value it set is
      the first non-nil success among the replies; while it is still nil no
      consumed reply was a non-nil success. */
  ghost predicate QueriedWhileNil<T>(initial: Option<T>, current: Option<T>,
                                     remaining: seq<Result<Option<T>>>, replies: seq<Result<Option<T>>>)
  {
    && (initial.Some? ==> current == initial && remaining == replies)
    && (initial.None? && current.None? ==> FirstSet(remaining) == FirstSet(replies))
    && (initial.None? && current.Some? ==> current == FirstSet(replies))
  }

  /** As `QueriedWhileNil`, for the nonce, which is set only on success. */
  ghost predicate NonceQueriedWhileNil(initial: Option<uint64>, current: Option<uint64>,
                                       remaining: seq<Result<uint64>>, replies: seq<Result<uint64>>)
  {
    && (initial.Some? ==> current == initial && remaining == replies)
    && (initial.None? && current.None? ==> FirstOk(remaining) == FirstOk(replies))
    && (initial.None? && current.Some? ==> current == FirstOk(replies))
  }

  /** How one pass of the `setDefaults` loop ends. */
  datatype Round = Done | Retry | Exhausted

  lemma QueriedWhileNilTrans<T>(a: Option<T>, b: Option<T>, c: Option<T>,
                                s0: seq<Result<Option<T>>>, s1: seq<Result<Option<T>>>, s2: seq<Result<Option<T>>>)
    requires QueriedWhileNil(a, b, s1, s0) && QueriedWhileNil(b, c, s2, s1)
    ensures QueriedWhileNil(a, c, s2, s0)
  {
  }

  lemma NonceQueriedWhileNilTrans(a: Option<uint64>, b: Option<uint64>, c: Option<uint64>,
                                  s0: seq<Result<uint64>>, s1: seq<Result<uint64>>, s2: seq<Result<uint64>>)
    requires NonceQueriedWhileNil(a, b, s1, s0) && NonceQueriedWhileNil(b, c, s2, s1)
    ensures NonceQueriedWhileNil(a, c, s2, s0)
  {
  }

  /** `remaining` is what is left of `replies` after some were consumed
      from the front. */
  ghost predicate SuffixOf<T>(remaining: seq<T>, replies: seq<T>)
  {
    |remaining| <= |replies| && remaining == replies[|replies| - |remaining|..]
  }

  /** At least one reply was consumed, and the last one consumed was a
      success carrying `value`: the query was retried until it succeeded. */
  ghost predicate LastConsumedOk<T>(replies: seq<Result<T>>, remaining: seq<Result<T>>, value: T)
  {
    SuffixOf(remaining, replies) && |remaining| < |replies|
    && replies[|replies| - |remaining| - 1] == Ok(value)
  }

  lemma SuffixOfTrans<T>(s0: seq<T>, s1: seq<T>, s2: seq<T>)
    requires SuffixOf(s1, s0) && SuffixOf(s2, s1)
    ensures SuffixOf(s2, s0)
  {
    var d := |s0| - |s1|;
    assert s2 == s1[|s1| - |s2|..] == s0[d..][|s1| - |s2|..];
  }

  /** Replies consumed before the last success do not change which one it
      was. */
  lemma LastConsumedOkTrans<T>(s0: seq<Result<T>>, s1: seq<Result<T>>, s2: seq<Result<T>>, v: T)
    requires SuffixOf(s1, s0) && LastConsumedOk(s1, s2, v)
    ensures LastConsumedOk(s0, s2, v)
  {
    SuffixOfTrans(s0, s1, s2);
    var d := |s0| - |s1|;
    assert s1[|s1| - |s2| - 1] == s0[d..][|s1| - |s2| - 1];
  }

  /** The four parameters `setDefaults` fills, at one moment. */
  datatype Params = Params(chainID: Option<nat>, signer: Option<Signer>, nonce: Option<uint64>,
                           gasPrice: Option<nat>)

  /** What is left of the gateway's replies to the three queries. */
  datatype Streams = Streams(chainIds: seq<Result<Option<nat>>>, nonces: seq<Result<uint64>>,
                             gasPrices: seq<Result<Option<nat>>>)

  function Pending(s: Streams): nat
  {
    |s.chainIds| + |s.nonces| + |s.gasPrices|
  }

  /** A still-nil parameter has no replies left. */
  ghost predicate Starved(p: Params, s: Streams)
  {
    || (p.chainID.None? && s.chainIds == [])
    || (p.nonce.None? && s.nonces == [])
    || (p.gasPrice.None? && s.gasPrices == [])
  }

  /** One nil-able parameter between two moments of the `setDefaults` loop
      (`v0` with replies `r0`, then `v` with `r` left): it is queried only
      while nil, replies are consumed from the front, and once it is set it
      holds the last reply consumed for it, a success. */
  ghost predicate Tracked<T>(v0: Option<T>, v: Option<T>, r0: seq<Result<Option<T>>>, r: seq<Result<Option<T>>>)
  {
    && QueriedWhileNil(v0, v, r, r0)
    && SuffixOf(r, r0)
    && (v0.None? && v.Some? ==> LastConsumedOk(r0, r, v))
  }

  /** As `Tracked`, for the nonce, which is set only on success. */
  ghost predicate NonceTracked(v0: Option<uint64>, v: Option<uint64>, r0: seq<Result<uint64>>, r: seq<Result<uint64>>)
  {
    && NonceQueriedWhileNil(v0, v, r, r0)
    && SuffixOf(r, r0)
    && (v0.None? && v.Some? ==> LastConsumedOk(r0, r, v.value))
  }

  lemma TrackedTrans<T>(a: Option<T>, b: Option<T>, c: Option<T>,
                        r0: seq<Result<Option<T>>>, r1: seq<Result<Option<T>>>, r2: seq<Result<Option<T>>>)
    requires Tracked(a, b, r0, r1) && Tracked(b, c, r1, r2)
    ensures Tracked(a, c, r0, r2)
    ensures a.None? && b.None? && LastConsumedOk(r1, r2, c) ==> LastConsumedOk(r0, r2, c)
    ensures a.None? && b.Some? ==> LastConsumedOk(r0, r2, c)
  {
    QueriedWhileNilTrans(a, b, c, r0, r1, r2);
    SuffixOfTrans(r0, r1, r2);
    if a.None? && b.None? && LastConsumedOk(r1, r2, c) {
      LastConsumedOkTrans(r0, r1, r2, c);
    }
  }

  lemma NonceTrackedTrans(a: Option<uint64>, b: Option<uint64>, c: Option<uint64>,
                          r0: seq<Result<uint64>>, r1: seq<Result<uint64>>, r2: seq<Result<uint64>>)
    requires NonceTracked(a, b, r0, r1) && NonceTracked(b, c, r1, r2)
    ensures NonceTracked(a, c, r0, r2)
  {
    NonceQueriedWhileNilTrans(a, b, c, r0, r1, r2);
    SuffixOfTrans(r0, r1, r2);
    if a.None? && b.None? && c.Some? {
      LastConsumedOkTrans(r0, r1, r2, c.value);
    }
  }

  /** What holds between the parameters and replies `setDefaults` started
      from (`p0`, `s0`) and those at the start of any later pass (`p`, `s`):
      each parameter is `Tracked`, and the signer follows the chain ID. */
  ghost predicate Progress(p0: Params, s0: Streams, p: Params, s: Streams)
  {
    && Tracked(p0.chainID, p.chainID, s0.chainIds, s.chainIds)
    && NonceTracked(p0.nonce, p.nonce, s0.nonces, s.nonces)
    && Tracked(p0.gasPrice, p.gasPrice, s0.gasPrices, s.gasPrices)
    && (p0.chainID.Some? ==> p.signer == p0.signer)
    && (p0.chainID.None? && p.chainID.Some? ==> p.signer == Some(Eip155Signer(p.chainID.value)))
  }

  /** The four parameters once `setDefaults` is resolved: the nonce is set,
      and each parameter that was nil was queried until a query succeeded
      and holds that last reply's value (for the chain ID and the gas price
      a successful nil is kept); the signer is built from the chain ID. */
  ghost predicate Finished(p0: Params, s0: Streams, p: Params, s: Streams)
  {
    ChainFinished(p0, s0, p, s) && NonceFinished(p0, s0, p, s) && PriceFinished(p0, s0, p, s)
  }

  ghost predicate ChainFinished(p0: Params, s0: Streams, p: Params, s: Streams)
  {
    p0.chainID.None? ==>
      LastConsumedOk(s0.chainIds, s.chainIds, p.chainID) && p.signer == Some(Eip155Signer(ChainIdOrZero(p.chainID)))
  }

  ghost predicate NonceFinished(p0: Params, s0: Streams, p: Params, s: Streams)
  {
    p.nonce.Some? && (p0.nonce.None? ==> LastConsumedOk(s0.nonces, s.nonces, p.nonce.value))
  }

  ghost predicate PriceFinished(p0: Params, s0: Streams, p: Params, s: Streams)
  {
    p0.gasPrice.None? ==> LastConsumedOk(s0.gasPrices, s.gasPrices, p.gasPrice)
  }

  /** What `setDefaults` leaves of the four parameters: `Finished` when
      resolved, otherwise a still-nil parameter's replies ran out. */
  ghost predicate Filled(p0: Params, s0: Streams, p: Params, s: Streams, resolved: bool)
  {
    && Progress(p0, s0, p, s)
    && (resolved ==> Finished(p0, s0, p, s))
    && (!resolved ==> Starved(p, s))
  }

  /** One pass of the `setDefaults` loop, from (`p0`, `s0`) to (`p`, `s`):
      `Done` means every nil parameter was asked and answered successfully
      in this pass, `Exhausted` that replies ran out, `Retry` that a query
      failed and consumed its reply. */
  ghost predicate PassEffect(p0: Params, s0: Streams, p: Params, s: Streams, round: Round)
  {
    && Progress(p0, s0, p, s)
    && (round == Done ==> Finished(p0, s0, p, s))
    && (round == Exhausted ==> Starved(p, s))
    && (round == Retry ==> Pending(s) < Pending(s0))
    && Pending(s) <= Pending(s0)
  }

  /** The chain-ID step of a pass: asked only while nil; a failed query
      ends the pass (`Retry`), no reply left ends it (`Exhausted`), and a
      success stores the reply's value and builds the signer from it. */
  function AskChainID(p: Params, s: Streams): (Params, Streams, Round)
  {
    if p.chainID.Some? then (p, s, Done)
    else if s.chainIds == [] then (p, s, Exhausted)
    else if s.chainIds[0].Err? then (p, s.(chainIds := s.chainIds[1..]), Retry)
    else
      var v := s.chainIds[0].value;
      (p.(chainID := v, signer := Some(Eip155Signer(ChainIdOrZero(v)))), s.(chainIds := s.chainIds[1..]), Done)
  }

  /** The nonce step of a pass; a success sets the nonce. */
  function AskNonce(p: Params, s: Streams): (Params, Streams, Round)
  {
    if p.nonce.Some? then (p, s, Done)
    else if s.nonces == [] then (p, s, Exhausted)
    else if s.nonces[0].Err? then (p, s.(nonces := s.nonces[1..]), Retry)
    else (p.(nonce := Some(s.nonces[0].value)), s.(nonces := s.nonces[1..]), Done)
  }

  /** The gas-price step of a pass; a success stores the reply's value. */
  function AskGasPrice(p: Params, s: Streams): (Params, Streams, Round)
  {
    if p.gasPrice.Some? then (p, s, Done)
    else if s.gasPrices == [] then (p, s, Exhausted)
    else if s.gasPrices[0].Err? then (p, s.(gasPrices := s.gasPrices[1..]), Retry)
    else (p.(gasPrice := s.gasPrices[0].value), s.(gasPrices := s.gasPrices[1..]), Done)
  }

  /** One pass of the `setDefaults` loop on values: the chain ID, the nonce
      and the gas price are asked in turn, and the first step that does not
      complete ends the pass (Go's `continue`, or replies running out). */
  function Pass(p: Params, s: Streams): (Params, Streams, Round)
  {
    var a := AskChainID(p, s);
    if a.2 != Done then a else AskRest(a.0, a.1)
  }

  /** The rest of a pass once the chain ID is settled: the nonce step, then
      the gas-price step if the nonce step completed. */
  function AskRest(p: Params, s: Streams): (Params, Streams, Round)
  {
    var b := AskNonce(p, s);
    if b.2 != Done then b else AskGasPrice(b.0, b.1)
  }

  /** A parameter that is not asked keeps its value and its replies. */
  lemma NotAsked<T>(v: Option<T>, r: seq<Result<Option<T>>>)
    ensures Tracked(v, v, r, r)
  {
    assert r[|r| - |r|..] == r;
  }

  lemma NonceNotAsked(v: Option<uint64>, r: seq<Result<uint64>>)
    ensures NonceTracked(v, v, r, r)
  {
    assert r[|r| - |r|..] == r;
  }

  /** Asking a nil parameter once consumes one reply; on success the
      parameter holds that reply's value. */
  lemma AskedOnce<T>(r: seq<Result<Option<T>>>)
    requires r != []
    ensures Tracked(None, if r[0].Ok? then r[0].value else None, r, r[1..])
    ensures r[0].Ok? ==> LastConsumedOk(r, r[1..], r[0].value)
  {
    assert r[|r| - |r[1..]|..] == r[1..];
  }

  lemma NonceAskedOnce(r: seq<Result<uint64>>)
    requires r != []
    ensures NonceTracked(None, if r[0].Ok? then Some(r[0].value) else None, r, r[1..])
    ensures r[0].Ok? ==> LastConsumedOk(r, r[1..], r[0].value)
  {
    assert r[|r| - |r[1..]|..] == r[1..];
  }

  /** What one step of a pass does: it keeps the loop invariant, a
      `Retry` consumes a reply, `Exhausted` leaves a nil parameter without
      replies, and replies are only consumed. */
  ghost predicate StepEffect(p0: Params, s0: Streams, p: Params, s: Streams, round: Round)
  {
    && Progress(p0, s0, p, s)
    && (round == Exhausted ==> Starved(p, s))
    && (round == Retry ==> Pending(s) < Pending(s0))
    && Pending(s) <= Pending(s0)
  }

  lemma AskChainIDLaw(p: Params, s: Streams)
    ensures var (p1, s1, round) := AskChainID(p, s);
            && StepEffect(p, s, p1, s1, round)
            && (round == Done ==> ChainFinished(p, s, p1, s1))
            && p1.nonce == p.nonce && p1.gasPrice == p.gasPrice
            && s1.nonces == s.nonces && s1.gasPrices == s.gasPrices
  {
    if p.chainID.None? && s.chainIds != [] {
      AskedOnce(s.chainIds);
    } else {
      NotAsked(p.chainID, s.chainIds);
    }
    NonceNotAsked(p.nonce, s.nonces);
    NotAsked(p.gasPrice, s.gasPrices);
  }

  lemma AskNonceLaw(p: Params, s: Streams)
    ensures var (p1, s1, round) := AskNonce(p, s);
            && StepEffect(p, s, p1, s1, round)
            && (round == Done ==> NonceFinished(p, s, p1, s1))
            && p1.chainID == p.chainID && p1.signer == p.signer && p1.gasPrice == p.gasPrice
            && s1.chainIds == s.chainIds && s1.gasPrices == s.gasPrices
  {
    if p.nonce.None? && s.nonces != [] {
      NonceAskedOnce(s.nonces);
    } else {
      NonceNotAsked(p.nonce, s.nonces);
    }
    NotAsked(p.chainID, s.chainIds);
    NotAsked(p.gasPrice, s.gasPrices);
  }

  lemma AskGasPriceLaw(p: Params, s: Streams)
    ensures var (p1, s1, round) := AskGasPrice(p, s);
            && StepEffect(p, s, p1, s1, round)
            && (round == Done ==> PriceFinished(p, s, p1, s1))
            && p1.chainID == p.chainID && p1.signer == p.signer && p1.nonce == p.nonce
            && s1.chainIds == s.chainIds && s1.nonces == s.nonces
  {
    if p.gasPrice.None? && s.gasPrices != [] {
      AskedOnce(s.gasPrices);
    } else {
      NotAsked(p.gasPrice, s.gasPrices);
    }
    NotAsked(p.chainID, s.chainIds);
    NonceNotAsked(p.nonce, s.nonces);
  }

  /** The nonce and gas-price steps together: the loop invariant is kept,
      and when both complete the nonce is set and a nil gas price holds the
      successful reply just consumed; the chain ID and signer are untouched. */
  lemma AskRestLaw(p: Params, s: Streams)
    ensures var (p2, s2, round) := AskRest(p, s);
            && StepEffect(p, s, p2, s2, round)
            && (round == Done ==> NonceFinished(p, s, p2, s2) && PriceFinished(p, s, p2, s2))
            && p2.chainID == p.chainID && p2.signer == p.signer && s2.chainIds == s.chainIds
  {
    var (p1, s1, r1) := AskNonce(p, s);
    AskNonceLaw(p, s);
    if r1 == Done {
      var (p2, s2, r2) := AskGasPrice(p1, s1);
      AskGasPriceLaw(p1, s1);
      ProgressTrans(p, s, p1, s1, p2, s2);
    }
  }

  /** Every pass is a `PassEffect`: it keeps the loop invariant, a `Retry`
      consumes at least one reply, `Exhausted` leaves a still-nil parameter
      without replies, and `Done` leaves every parameter finished. */
  lemma PassLaw(p: Params, s: Streams)
    ensures PassEffect(p, s, Pass(p, s).0, Pass(p, s).1, Pass(p, s).2)
  {
    var (p1, s1, r1) := AskChainID(p, s);
    AskChainIDLaw(p, s);
    if r1 == Done {
      var (p2, s2, r2) := AskRest(p1, s1);
      AskRestLaw(p1, s1);
      ProgressTrans(p, s, p1, s1, p2, s2);
      if r2 == Done {
        assert ChainFinished(p, s, p2, s2);
        assert NonceFinished(p, s, p2, s2) && PriceFinished(p, s, p2, s2) by {
          assert p.nonce == p1.nonce && s.nonces == s1.nonces;
          assert p.gasPrice == p1.gasPrice && s.gasPrices == s1.gasPrices;
        }
      }
    }
  }

  /** The loop invariant survives one more pass. */
  lemma ProgressTrans(p0: Params, s0: Streams, p1: Params, s1: Streams, p2: Params, s2: Streams)
    requires Progress(p0, s0, p1, s1) && Progress(p1, s1, p2, s2)
    ensures Progress(p0, s0, p2, s2)
  {
    TrackedTrans(p0.chainID, p1.chainID, p2.chainID, s0.chainIds, s1.chainIds, s2.chainIds);
    NonceTrackedTrans(p0.nonce, p1.nonce, p2.nonce, s0.nonces, s1.nonces, s2.nonces);
    TrackedTrans(p0.gasPrice, p1.gasPrice, p2.gasPrice, s0.gasPrices, s1.gasPrices, s2.gasPrices);
  }

  /** The pass that completes leaves the parameters finished, counted from
      the start of the loop: earlier passes only consumed failed replies, or
      set a parameter that later passes left alone. */
  lemma FinishedTrans(p0: Params, s0: Streams, p1: Params, s1: Streams, p2: Params, s2: Streams)
    requires Progress(p0, s0, p1, s1) && Progress(p1, s1, p2, s2) && Finished(p1, s1, p2, s2)
    ensures Finished(p0, s0, p2, s2)
  {
    TrackedTrans(p0.chainID, p1.chainID, p2.chainID, s0.chainIds, s1.chainIds, s2.chainIds);
    NonceTrackedTrans(p0.nonce, p1.nonce, p2.nonce, s0.nonces, s1.nonces, s2.nonces);
    TrackedTrans(p0.gasPrice, p1.gasPrice, p2.gasPrice, s0.gasPrices, s1.gasPrices, s2.gasPrices);
  }

  /** The whole `setDefaults` loop on values: passes repeat while one ends
      in `Retry`; the flag says whether the last pass completed (false when
      a still-nil parameter ran out of replies). */
  function Resolve(p: Params, s: Streams): (Params, Streams, bool)
    decreases Pending(s)
  {
    var (p1, s1, round) := Pass(p, s);
    if round == Retry then
      PassLaw(p, s);
      Resolve(p1, s1)
    else (p1, s1, round == Done)
  }

  /** What the loop leaves is `Filled`: supplied values are kept and their
      queries never asked, each set value is the first non-nil success among
      its replies, and once resolved every parameter that was nil was queried
      until a query succeeded and holds that last reply's value, with the
      signer built from the chain ID. */
  lemma {:induction false} ResolveLaw(p: Params, s: Streams)
    ensures Filled(p, s, Resolve(p, s).0, Resolve(p, s).1, Resolve(p, s).2)
    decreases Pending(s)
  {
    var (p1, s1, round) := Pass(p, s);
    PassLaw(p, s);
    if round == Retry {
      ResolveLaw(p1, s1);
      var (p2, s2, resolved) := Resolve(p1, s1);
      ProgressTrans(p, s, p1, s1, p2, s2);
      if resolved {
        FinishedTrans(p, s, p1, s1, p2, s2);
      }
    }
  }

  /** The live-nonce reconciliation: the cached nonce becomes the larger of
      itself and the live nonce when the live query succeeds. */
  function Reconcile(cached: uint64, live: Result<uint64>): (n: uint64)
    ensures n >= cached
    ensures live.Ok? ==> n >= live.value && (n == cached || n == live.value)
    ensures live.Err? ==> n == cached
  {
    if live.Ok? && live.value > cached then live.value else cached
  }

  /** `*args.Nonce++` on a `uint64`. */
  function NextNonce(n: uint64): (m: uint64)
    ensures n < 0xFFFF_FFFF_FFFF_FFFF ==> m == n + 1
    ensures n == 0xFFFF_FFFF_FFFF_FFFF ==> m == 0
  {
    (n + 1) % 0x1_0000_0000_0000_0000
  }

  /** The identity fields `Check` leaves, and its error, before the
      parameters are resolved. */
  datatype Identity = Identity(sender: string, fromAddr: Address, key: Option<Key>, err: Option<Error>)

  /** The sender validation of `Check`, in order: a non-empty sender that is
      not a hex address is refused before the keystore is read; a keystore
      failure is fatal unless in dry run, where a given sender becomes the
      from-address (an empty one is filled from it); then the sender must
      equal the from-address's text ignoring case. */
  function CheckIdentity(sender: string, fromAddr: Address, key: Option<Key>,
                         keystore: Result<Key>, dryRun: bool): Identity
  {
    if sender != "" && !IsHexAddress(sender) then
      Identity(sender, fromAddr, key, Some("wrong sender address"))
    else
      var loaded :=
        if keystore.Ok? then
          Identity(if sender == "" then AddressString(keystore.value.address) else sender,
                   keystore.value.address, Some(keystore.value), None)
        else Identity(sender, fromAddr, key, Some(keystore.error));
      if loaded.err.Some? && !dryRun then loaded
      else
        var afterDryRun :=
          if loaded.err.None? then loaded
          else if sender != "" then Identity(sender, HexToAddress(sender), key, None)
          else Identity(AddressString(fromAddr), fromAddr, key, None);
        if !EqualFold(afterDryRun.sender, AddressString(afterDryRun.fromAddr)) then
          afterDryRun.(err := Some("sender mismatch"))
        else afterDryRun
  }

  /** A malformed sender is refused whatever the keystore holds. */
  lemma MalformedSenderRefusedFirst(sender: string, fromAddr: Address, key: Option<Key>,
                                    k1: Result<Key>, k2: Result<Key>, dryRun: bool)
    requires sender != "" && !IsHexAddress(sender)
    ensures CheckIdentity(sender, fromAddr, key, k1, dryRun) == CheckIdentity(sender, fromAddr, key, k2, dryRun)
    ensures CheckIdentity(sender, fromAddr, key, k1, dryRun).err.Some?
  {
  }

  /** Whenever the identity check passes, the sender names the from-address. */
  lemma AcceptedSenderMatches(sender: string, fromAddr: Address, key: Option<Key>,
                              keystore: Result<Key>, dryRun: bool)
    ensures var id := CheckIdentity(sender, fromAddr, key, keystore, dryRun);
            id.err.None? ==> EqualFold(id.sender, AddressString(id.fromAddr))
  {
  }

  /** Outside dry run a keystore failure is the check's error. */
  lemma KeystoreFailureFatal(sender: string, fromAddr: Address, key: Option<Key>, e: Error)
    requires sender == "" || IsHexAddress(sender)
    ensures CheckIdentity(sender, fromAddr, key, Err(e), false).err == Some(e)
  {
  }

  /** A readable keystore with no sender given always passes, and the
      sender becomes the keystore's address. */
  lemma KeystoreWithoutSenderPasses(fromAddr: Address, key: Option<Key>, k: Key, dryRun: bool)
    ensures var id := CheckIdentity("", fromAddr, key, Ok(k), dryRun);
            id.err.None? && id.fromAddr == k.address && id.key == Some(k)
  {
    var s := AddressString(k.address);
    assert EqualFold(s, s);
  }

  /** In dry run with an unreadable keystore, a 0x-prefixed sender passes and
      becomes the from-address; one without the prefix is always refused. */
  lemma DryRunSenderStandsIn(sender: string, fromAddr: Address, key: Option<Key>, e: Error)
    requires IsHexAddress(sender)
    ensures var id := CheckIdentity(sender, fromAddr, key, Err(e), true);
            (Has0xPrefix(sender) ==> id.err.None? && id.fromAddr == HexToAddress(sender)) &&
            (!Has0xPrefix(sender) ==> id.err == Some("sender mismatch"))
  {
    if Has0xPrefix(sender) {
      PrefixedSenderMatches(sender);
    } else {
      UnprefixedSenderMismatches(sender, HexToAddress(sender));
    }
  }

  /** A sender without the 0x prefix never passes the check, dry run or not. */
  lemma UnprefixedSenderNeverPasses(sender: string, fromAddr: Address, key: Option<Key>,
                                    keystore: Result<Key>, dryRun: bool)
    requires sender != "" && !Has0xPrefix(sender)
    ensures CheckIdentity(sender, fromAddr, key, keystore, dryRun).err.Some?
  {
    if IsHexAddress(sender) {
      var id := CheckIdentity(sender, fromAddr, key, keystore, dryRun);
      UnprefixedSenderMismatches(sender, id.fromAddr);
    }
  }

  class BuildTxArgs {
    var sender: string
    var nonce: Option<uint64>
    var gasLimit: Option<uint64>
    var gasPrice: Option<nat>
    var key: Option<Key>
    var fromAddr: Address
    var chainID: Option<nat>
    var chainSigner: Option<Signer>

    /** Arguments as the command line gives them: nothing resolved yet. */
    constructor (sender: string, nonce: Option<uint64>, gasLimit: Option<uint64>, gasPrice: Option<nat>)
      ensures this.sender == sender && this.nonce == nonce && this.gasLimit == gasLimit
      ensures this.gasPrice == gasPrice && key == None && fromAddr == ZeroAddress
      ensures chainID == None && chainSigner == None
    {
      this.sender, this.nonce, this.gasLimit, this.gasPrice := sender, nonce, gasLimit, gasPrice;
      key, fromAddr, chainID, chainSigner := None, ZeroAddress, None, None;
    }

    ghost function Fields(): Params
      reads this`chainID, this`chainSigner, this`nonce, this`gasPrice
    {
      Params(chainID, chainSigner, nonce, gasPrice)
    }

    /** What `setDefaults` leaves, from the parameters `p0`, the gas limit
        `limit0` and the replies `s0` it started with: the four parameters,
        the replies left and the outcome are those of `Resolve` (which
        `ResolveLaw` shows `Filled`), and a nil gas limit becomes 90000 once
        resolved. */
    ghost predicate Defaulted(gw: Gateway, resolved: bool, p0: Params, limit0: Option<uint64>, s0: Streams)
      reads this, gw
    {
      && (Fields(), gw.Replies(), resolved) == Resolve(p0, s0)
      && gasLimit == (if limit0.Some? || !resolved then limit0 else Some(DefaultGasLimit))
      && (resolved ==> gasLimit.Some?)
    }

    /** `Check`: resolves the identity (the keystore's outcome is given),
        then fills the defaults. `resolved` is false only when the gateway
        ran out of replies while the source would still be retrying. */
    method Check(dryRun: bool, keystore: Result<Key>, gw: Gateway) returns (err: Option<Error>, resolved: bool)
      modifies this, gw`chainIds, gw`nonces, gw`gasPrices
      ensures var id := CheckIdentity(old(sender), old(fromAddr), old(key), keystore, dryRun);
              sender == id.sender && fromAddr == id.fromAddr && key == id.key && err == id.err
      ensures err.Some? ==> !resolved && unchanged(gw)
      ensures err.Some? ==> nonce == old(nonce) && gasLimit == old(gasLimit) && gasPrice == old(gasPrice)
      ensures err.Some? ==> chainID == old(chainID) && chainSigner == old(chainSigner)
      ensures err.None? ==> EqualFold(sender, AddressString(fromAddr))
      ensures err.None? ==> Defaulted(gw, resolved, old(Fields()), old(gasLimit), old(gw.Replies()))
    {
      resolved := false;
      if sender != "" && !IsHexAddress(sender) {
        return Some("wrong sender address"), false;
      }
      var loadErr: Option<Error> := None;
      if keystore.Ok? {
        key := Some(keystore.value);
        fromAddr := keystore.value.address;
        if sender == "" {
          sender := AddressString(fromAddr);
        }
      } else {
        loadErr := Some(keystore.error);
      }
      if loadErr.Some? {
        if !dryRun {
          return loadErr, false;
        }
        if sender != "" {
          fromAddr := HexToAddress(sender);
        } else {
          sender := AddressString(fromAddr);
        }
      }
      if !EqualFold(sender, AddressString(fromAddr)) {
        return Some("sender mismatch"), false;
      }
      resolved := SetDefaults(gw);
      err := None;
    }

    /** `setDefaults`: queries chain ID, nonce and gas price only while each
        is nil, retrying after every failed query, and defaults a nil gas
        limit to 90000; supplied values are never overwritten. */
    method SetDefaults(gw: Gateway) returns (resolved: bool)
      modifies this`chainID, this`chainSigner, this`nonce, this`gasPrice, this`gasLimit
      modifies gw`chainIds, gw`nonces, gw`gasPrices
      ensures Defaulted(gw, resolved, old(Fields()), old(gasLimit), old(gw.Replies()))
    {
      ghost var p0, s0 := Fields(), gw.Replies();
      var round := Retry;
      while round == Retry
        invariant round == Retry ==> Resolve(Fields(), gw.Replies()) == Resolve(p0, s0)
        invariant round != Retry ==> (Fields(), gw.Replies(), round == Done) == Resolve(p0, s0)
        invariant gasLimit == old(gasLimit)
        decreases Pending(gw.Replies()), if round == Retry then 1 else 0
      {
        ghost var p, s := Fields(), gw.Replies();
        round := DefaultsRound(gw);
        PassLaw(p, s);
      }
      resolved := round == Done;
      if resolved && gasLimit.None? {
        gasLimit := Some(DefaultGasLimit);
      }
    }

    /** One pass of the `setDefaults` loop: each still-nil parameter is
        queried in turn, and the first failed query ends the pass (Go's
        `continue`). `Exhausted` means the scripted replies ran out where the
        source would keep retrying. */
    method DefaultsRound(gw: Gateway) returns (round: Round)
      modifies this`chainID, this`chainSigner, this`nonce, this`gasPrice
      modifies gw`chainIds, gw`nonces, gw`gasPrices
      ensures (Fields(), gw.Replies(), round) == Pass(old(Fields()), old(gw.Replies()))
    {
      round := Done;
      if chainID.None? {
        if gw.chainIds == [] {
          round := Exhausted;
        } else {
          var failed := QueryChainID(gw);
          if failed {
            round := Retry;
          }
        }
      }
      if round == Done && nonce.None? {
        if gw.nonces == [] {
          round := Exhausted;
        } else {
          var failed := QueryNonce(gw);
          if failed {
            round := Retry;
          }
        }
      }
      if round == Done && gasPrice.None? {
        if gw.gasPrices == [] {
          round := Exhausted;
        } else {
          var failed := QueryGasPrice(gw);
          if failed {
            round := Retry;
          }
        }
      }
    }

    /** `sendRewardsTransaction`: in dry run nothing is built and nothing is
        asked. Otherwise the 68-byte transfer payload is built, the cached
        nonce is raised to the live nonce when that query succeeds and is
        larger, the transaction is signed (the signer's outcome is given) and
        submitted once; only an accepted submission advances the nonce, by
        exactly one. */
    method SendRewardsTransaction(account: Address, reward: nat, rewardToken: Address, dryRun: bool,
                                  signing: Result<Signature>, gw: Gateway)
      returns (txHash: Option<Bytes>, err: Option<Error>)
      requires !dryRun ==> nonce.Some? && gasLimit.Some? && gw.nonces != [] && gw.sendErrs != []
      modifies this`nonce, gw`nonces, gw`sendErrs, gw`accepted
      ensures dryRun ==> txHash == None && err == None && nonce == old(nonce) && unchanged(gw)
      ensures !dryRun ==> gw.nonces == old(gw.nonces[1..])
      ensures !dryRun ==>
                var n := Reconcile(old(nonce.value), old(gw.nonces[0]));
                var tx := Transaction(n, rewardToken, 0, gasLimit.value, gasPrice, TransferPayload(account, reward));
                if signing.Err? then
                  err.Some? && txHash == None && nonce == Some(n) && unchanged(gw`sendErrs, gw`accepted)
                else if old(gw.sendErrs[0]).Some? then
                  err.Some? && txHash == None && nonce == Some(n) &&
                  gw.sendErrs == old(gw.sendErrs[1..]) && gw.accepted == old(gw.accepted)
                else
                  err.None? && txHash == Some(signing.value.hash) && nonce == Some(NextNonce(n)) &&
                  gw.sendErrs == old(gw.sendErrs[1..]) &&
                  gw.accepted == old(gw.accepted) + [SignedTx(tx, signing.value.sig)]
    {
      if dryRun {
        return None, None;
      }
      var data := TransferPayload(account, reward);
      var live := gw.GetAccountNonce(fromAddr);
      if live.Ok? && live.value > nonce.value {
        nonce := Some(live.value);
      }
      var rawTx := Transaction(nonce.value, rewardToken, 0, gasLimit.value, gasPrice, data);
      if signing.Err? {
        return None, Some("sign tx failed");
      }
      var signedTx := SignedTx(rawTx, signing.value.sig);
      var sendErr := gw.SendTransaction(signedTx);
      if sendErr.Some? {
        return None, Some("send tx failed");
      }
      nonce := Some(NextNonce(nonce.value));
      txHash, err := Some(signing.value.hash), None;
    }

    /** One chain-ID query of the `setDefaults` loop: the reply's value is
        stored even on an error, and the signer is built only on success. */
    method QueryChainID(gw: Gateway) returns (failed: bool)
      requires chainID.None? && gw.chainIds != []
      modifies this`chainID, this`chainSigner, gw`chainIds
      ensures gw.chainIds == old(gw.chainIds[1..])
      ensures failed == old(gw.chainIds[0]).Err?
      ensures chainID == if failed then None else old(gw.chainIds[0]).value
      ensures failed ==> chainSigner == old(chainSigner)
      ensures !failed ==> chainSigner == Some(Eip155Signer(ChainIdOrZero(chainID)))
      ensures FirstSet(old(gw.chainIds)) == if chainID.Some? then chainID else FirstSet(gw.chainIds)
    {
      var r := gw.GetChainID();
      chainID := if r.Ok? then r.value else None;
      failed := r.Err?;
      if !failed {
        chainSigner := Some(Eip155Signer(ChainIdOrZero(chainID)));
      }
    }

    /** One nonce query of the `setDefaults` loop: the nonce is set only on
        success. */
    method QueryNonce(gw: Gateway) returns (failed: bool)
      requires nonce.None? && gw.nonces != []
      modifies this`nonce, gw`nonces
      ensures gw.nonces == old(gw.nonces[1..])
      ensures failed == old(gw.nonces[0]).Err?
      ensures nonce == if failed then None else Some(old(gw.nonces[0]).value)
      ensures FirstOk(old(gw.nonces)) == if nonce.Some? then nonce else FirstOk(gw.nonces)
    {
      var r := gw.GetAccountNonce(fromAddr);
      failed := r.Err?;
      if !failed {
        nonce := Some(r.value);
      }
    }

    /** One gas-price query of the `setDefaults` loop: the reply's value is
        stored even on an error. */
    method QueryGasPrice(gw: Gateway) returns (failed: bool)
      requires gasPrice.None? && gw.gasPrices != []
      modifies this`gasPrice, gw`gasPrices
      ensures gw.gasPrices == old(gw.gasPrices[1..])
      ensures failed == old(gw.gasPrices[0]).Err?
      ensures gasPrice == if failed then None else old(gw.gasPrices[0]).value
      ensures FirstSet(old(gw.gasPrices)) == if gasPrice.Some? then gasPrice else FirstSet(gw.gasPrices)
    {
      var r := gw.SuggestGasPrice();
      gasPrice := if r.Ok? then r.value else None;
      failed := r.Err?;
    }
  }
}
