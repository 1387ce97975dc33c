/** The API caller (`callapi.APICaller`): an ordered list of endpoint
    clients with a retry count and a retry interval. Every RPC asks the
    clients in order and keeps the first success; balance and contract
    queries wrap that in a counted retry loop.

    What an endpoint answers is not computed here: each method takes, for
    every client in list order, the reply that client gives (and for the
    retried queries one such list per attempt). The account, block number
    and context arguments of the source only select those replies, so they
    do not appear. */
module CallApi {
  import opened Wrappers
  import opened Bytes
  import opened Abi
  import opened Endpoints

  /** One second, in the nanoseconds of Go's `time.Duration`. */
  const Second: int := 1_000_000_000

  /** `ethereum.CallMsg` as the caller fills it: the contract and the data. */
  datatype CallMsg = CallMsg(to: Address, data: Bytes)

  class APICaller {
    var clients: seq<Client?>
    var retryCount: int
    var retryInterval: int

    /** `NewDefaultAPICaller`: no clients, three attempts, one second apart. */
    constructor Default()
      ensures clients == [] && retryCount == 3 && retryInterval == Second
    {
      clients := [];
      retryCount := 3;
      retryInterval := Second;
    }

    /** `NewAPICaller`: no clients and the given retry settings. */
    constructor (retryCount: int, retryInterval: int)
      ensures clients == [] && this.retryCount == retryCount && this.retryInterval == retryInterval
    {
      clients := [];
      this.retryCount := retryCount;
      this.retryInterval := retryInterval;
    }

    /** `DialServer`: appends one client per URL in order and stops at the
        first failed dial with its error; clients dialled before it stay. */
    method DialServer(urls: seq<string>, dialErrs: seq<Option<Error>>) returns (err: Option<Error>)
      requires |dialErrs| == |urls|
      modifies this
      ensures retryCount == old(retryCount) && retryInterval == old(retryInterval)
      ensures old(|clients|) <= |clients| <= old(|clients|) + |urls|
      ensures clients[..old(|clients|)] == old(clients)
      ensures forall i :: old(|clients|) <= i < |clients| ==>
                clients[i] != null && fresh(clients[i]) && clients[i].url == urls[i - old(|clients|)]
      ensures forall i :: old(|clients|) <= i < |clients| ==>
                dialErrs[i - old(|clients|)].None? && clients[i] != null && !clients[i].closed
      ensures err.None? <==> |clients| == old(|clients|) + |urls|
      ensures err.Some? ==> err == dialErrs[|clients| - old(|clients|)]
    {
      var dialled;
      dialled, err := DialAll(urls, dialErrs);
      clients := clients + dialled;
    }

    /** `CloseClient`: closes every non-nil client. */
    method CloseClient()
      modifies Live(clients)
      ensures forall i :: 0 <= i < |clients| && clients[i] != null ==> clients[i].closed
    {
      CloseAll(clients);
    }

    /** `BalanceAt`: failover of the balance query. */
    method BalanceAt(replies: seq<Reply<Option<nat>>>) returns (balance: Option<nat>, err: Option<Error>, asked: nat)
      requires |replies| == |clients|
      ensures Reply(balance, err) == Failover(replies, None) && asked == Asked(replies)
    {
      var r;
      r, asked := CallInOrder(replies, None);
      balance, err := r.value, r.err;
    }

    /** `GetAccountNonce`: failover of the pending-nonce query. */
    method GetAccountNonce(replies: seq<Reply<uint64>>) returns (nonce: uint64, err: Option<Error>, asked: nat)
      requires |replies| == |clients|
      ensures Reply(nonce, err) == Failover(replies, 0) && asked == Asked(replies)
    {
      var r;
      r, asked := CallInOrder(replies, 0);
      nonce, err := r.value, r.err;
    }

    /** `SendTransaction`: failover of a submission, attempted once per client
        at most and never retried. */
    method SendTransaction(replies: seq<Option<Error>>) returns (err: Option<Error>, asked: nat)
      requires |replies| == |clients|
      ensures Reply((), err) == Failover(seq(|replies|, i requires 0 <= i < |replies| => Reply((), replies[i])), ())
      ensures asked == Asked(seq(|replies|, i requires 0 <= i < |replies| => Reply((), replies[i])))
    {
      var r;
      r, asked := CallInOrder(seq(|replies|, i requires 0 <= i < |replies| => Reply((), replies[i])), ());
      err := r.err;
    }

    /** `GetChainID`: failover of the network-id query. */
    method GetChainID(replies: seq<Reply<Option<nat>>>) returns (chainID: Option<nat>, err: Option<Error>, asked: nat)
      requires |replies| == |clients|
      ensures Reply(chainID, err) == Failover(replies, None) && asked == Asked(replies)
    {
      var r;
      r, asked := CallInOrder(replies, None);
      chainID, err := r.value, r.err;
    }

    /** `SuggestGasPrice`: failover of the gas-price query. */
    method SuggestGasPrice(replies: seq<Reply<Option<nat>>>) returns (gasPrice: Option<nat>, err: Option<Error>, asked: nat)
      requires |replies| == |clients|
      ensures Reply(gasPrice, err) == Failover(replies, None) && asked == Asked(replies)
    {
      var r;
      r, asked := CallInOrder(replies, None);
      gasPrice, err := r.value, r.err;
    }

    /** `SyncProgress`: failover of the sync-state query. */
    method SyncProgress<P>(replies: seq<Reply<Option<P>>>) returns (progress: Option<P>, err: Option<Error>, asked: nat)
      requires |replies| == |clients|
      ensures Reply(progress, err) == Failover(replies, None) && asked == Asked(replies)
    {
      var r;
      r, asked := CallInOrder(replies, None);
      progress, err := r.value, r.err;
    }

    /** `DoCall`: failover of a contract call. */
    method DoCall(replies: seq<Reply<Bytes>>) returns (res: Bytes, err: Option<Error>, asked: nat)
      requires |replies| == |clients|
      ensures Reply(res, err) == Failover(replies, []) && asked == Asked(replies)
    {
      var r;
      r, asked := CallInOrder(replies, []);
      res, err := r.value, r.err;
    }

    /** `HeaderByNumber`: failover of the header query. */
    method HeaderByNumber<H>(replies: seq<Reply<Option<H>>>) returns (header: Option<H>, err: Option<Error>, asked: nat)
      requires |replies| == |clients|
      ensures Reply(header, err) == Failover(replies, None) && asked == Asked(replies)
    {
      var r;
      r, asked := CallInOrder(replies, None);
      header, err := r.value, r.err;
    }

    /** `GetCoinBalance`: up to `retryCount` balance queries, no pause between
        them, stopping at the first success; a failure gives a nil balance,
        and a retry count of zero or less gives a nil balance and nil error. */
    method GetCoinBalance(attempts: seq<seq<Reply<Option<nat>>>>) returns (balance: Option<nat>, err: Option<Error>, tries: nat)
      requires retryCount <= |attempts|
      requires forall a :: 0 <= a < |attempts| ==> |attempts[a]| == |clients|
      ensures var o := Failover(AttemptOutcomes(attempts, retryCount, None), None);
              err == o.err && balance == (if o.Succeeded() then o.value else None)
      ensures tries == Asked(AttemptOutcomes(attempts, retryCount, None))
      ensures retryCount <= 0 ==> balance == None && err == None && tries == 0
    {
      var r, failures;
      r, tries, failures := RetryInOrder(attempts, retryCount, None);
      if !r.Succeeded() {
        return None, r.err, tries;
      }
      balance, err := r.value, None;
    }

    /** What the retried contract call gives for these attempts. */
    ghost function ContractReply(attempts: seq<seq<Reply<Bytes>>>): Reply<Bytes>
      reads this
      requires retryCount <= |attempts|
    {
      Failover(AttemptOutcomes(attempts, retryCount, []), [])
    }

    /** `CallContract`: up to `retryCount` calls, stopping at the first success
        and sleeping one interval after every failed attempt, the last one
        included; the last attempt's result and error are returned. */
    method CallContract(contract: Address, data: Bytes, attempts: seq<seq<Reply<Bytes>>>)
      returns (msg: CallMsg, res: Bytes, err: Option<Error>, tries: nat, sleeps: nat)
      requires retryCount <= |attempts|
      requires forall a :: 0 <= a < |attempts| ==> |attempts[a]| == |clients|
      ensures msg == CallMsg(contract, data)
      ensures Reply(res, err) == ContractReply(attempts)
      ensures tries == Asked(AttemptOutcomes(attempts, retryCount, []))
      ensures sleeps == if err.None? && tries > 0 then tries - 1 else tries
      ensures retryCount <= 0 ==> res == [] && err == None && tries == 0
    {
      msg := CallMsg(contract, data);
      var r;
      r, tries, sleeps := RetryInOrder(attempts, retryCount, []);
      res, err := r.value, r.err;
    }

    /** `GetTokenTotalSupply`: `totalSupply()` on the token, word 0 as a number. */
    method GetTokenTotalSupply(token: Address, attempts: seq<seq<Reply<Bytes>>>)
      returns (msg: CallMsg, supply: Option<nat>, err: Option<Error>)
      requires retryCount <= |attempts|
      requires forall a :: 0 <= a < |attempts| ==> |attempts[a]| == |clients|
      ensures msg == CallMsg(token, TotalSupplySelector)
      ensures err == ContractReply(attempts).err
      ensures supply == if err.None? then Some(WordValue(ContractReply(attempts).value)) else None
    {
      var res, tries, sleeps;
      msg, res, err, tries, sleeps := CallContract(token, TotalSupplySelector, attempts);
      supply := if err.None? then Some(WordValue(res)) else None;
    }

    /** `GetExchangeLiquidity`: the exchange's own total supply. */
    method GetExchangeLiquidity(exchange: Address, attempts: seq<seq<Reply<Bytes>>>)
      returns (msg: CallMsg, liquidity: Option<nat>, err: Option<Error>)
      requires retryCount <= |attempts|
      requires forall a :: 0 <= a < |attempts| ==> |attempts[a]| == |clients|
      ensures msg == CallMsg(exchange, TotalSupplySelector)
      ensures err == ContractReply(attempts).err
      ensures liquidity == if err.None? then Some(WordValue(ContractReply(attempts).value)) else None
    {
      msg, liquidity, err := GetTokenTotalSupply(exchange, attempts);
    }

    /** `GetTokenBalance`: `balanceOf(account)` on the token, 36 bytes of
        call data, word 0 of the answer as a number. */
    method GetTokenBalance(token: Address, account: Address, attempts: seq<seq<Reply<Bytes>>>)
      returns (msg: CallMsg, balance: Option<nat>, err: Option<Error>)
      requires retryCount <= |attempts|
      requires forall a :: 0 <= a < |attempts| ==> |attempts[a]| == |clients|
      ensures msg == CallMsg(token, BalanceOfCall(account))
      ensures |msg.data| == 36 && msg.data[..4] == BalanceOfSelector && msg.data[16..] == account
      ensures err == ContractReply(attempts).err
      ensures balance == if err.None? then Some(WordValue(ContractReply(attempts).value)) else None
    {
      var res, tries, sleeps;
      msg, res, err, tries, sleeps := CallContract(token, PackBytes([BalanceOfSelector, account]), attempts);
      balance := if err.None? then Some(WordValue(res)) else None;
    }

    /** `GetExchangeTokenBalance(exchange, token)`: the exchange's balance of
        the token, i.e. `GetTokenBalance(token, exchange)`. */
    method GetExchangeTokenBalance(exchange: Address, token: Address, attempts: seq<seq<Reply<Bytes>>>)
      returns (msg: CallMsg, balance: Option<nat>, err: Option<Error>)
      requires retryCount <= |attempts|
      requires forall a :: 0 <= a < |attempts| ==> |attempts[a]| == |clients|
      ensures msg == CallMsg(token, BalanceOfCall(exchange))
      ensures err == ContractReply(attempts).err
      ensures balance == if err.None? then Some(WordValue(ContractReply(attempts).value)) else None
    {
      msg, balance, err := GetTokenBalance(token, exchange, attempts);
    }

    /** `GetLiquidityBalance(exchange, account)`: the account's balance of the
        exchange's liquidity token. */
    method GetLiquidityBalance(exchange: Address, account: Address, attempts: seq<seq<Reply<Bytes>>>)
      returns (msg: CallMsg, balance: Option<nat>, err: Option<Error>)
      requires retryCount <= |attempts|
      requires forall a :: 0 <= a < |attempts| ==> |attempts[a]| == |clients|
      ensures msg == CallMsg(exchange, BalanceOfCall(account))
      ensures err == ContractReply(attempts).err
      ensures balance == if err.None? then Some(WordValue(ContractReply(attempts).value)) else None
    {
      msg, balance, err := GetTokenBalance(exchange, account, attempts);
    }

    /** `GetExchangeTokenAddress`: the zero address when the call fails,
        otherwise the low 20 bytes of word 0. */
    method GetExchangeTokenAddress(exchange: Address, attempts: seq<seq<Reply<Bytes>>>)
      returns (msg: CallMsg, token: Address)
      requires retryCount <= |attempts|
      requires forall a :: 0 <= a < |attempts| ==> |attempts[a]| == |clients|
      ensures msg == CallMsg(exchange, TokenAddressSelector)
      ensures token == if ContractReply(attempts).Succeeded()
                       then GetData(ContractReply(attempts).value, 0, WordSize)[12..]
                       else ZeroAddress
    {
      var res, err, tries, sleeps;
      msg, res, err, tries, sleeps := CallContract(exchange, TokenAddressSelector, attempts);
      if err.Some? {
        return msg, ZeroAddress;
      }
      token := WordAddress(res);
    }

    /** `GetExchangeFactoryAddress`: as `GetExchangeTokenAddress`, with the
        `factoryAddress()` selector. */
    method GetExchangeFactoryAddress(exchange: Address, attempts: seq<seq<Reply<Bytes>>>)
      returns (msg: CallMsg, factory: Address)
      requires retryCount <= |attempts|
      requires forall a :: 0 <= a < |attempts| ==> |attempts[a]| == |clients|
      ensures msg == CallMsg(exchange, FactoryAddressSelector)
      ensures factory == if ContractReply(attempts).Succeeded()
                         then GetData(ContractReply(attempts).value, 0, WordSize)[12..]
                         else ZeroAddress
    {
      var res, err, tries, sleeps;
      msg, res, err, tries, sleeps := CallContract(exchange, FactoryAddressSelector, attempts);
      if err.Some? {
        return msg, ZeroAddress;
      }
      factory := WordAddress(res);
    }

    /** `GetErc20Name`: `name()`, decoded by the string unpacker `unpack`
        (`UnpackABIEncodedStringInIndex(res, 0)`), which is not part of this
        model; a failed call gives the empty string and the call's error. */
    method GetErc20Name(erc20: Address, attempts: seq<seq<Reply<Bytes>>>, unpack: Bytes -> Reply<string>)
      returns (msg: CallMsg, name: string, err: Option<Error>)
      requires retryCount <= |attempts|
      requires forall a :: 0 <= a < |attempts| ==> |attempts[a]| == |clients|
      ensures msg == CallMsg(erc20, NameSelector)
      ensures !ContractReply(attempts).Succeeded() ==> name == "" && err == ContractReply(attempts).err
      ensures ContractReply(attempts).Succeeded() ==> Reply(name, err) == unpack(ContractReply(attempts).value)
    {
      var res, tries, sleeps;
      msg, res, err, tries, sleeps := CallContract(erc20, NameSelector, attempts);
      if err.Some? {
        return msg, "", err;
      }
      var u := unpack(res);
      name, err := u.value, u.err;
    }

    /** `GetErc20Symbol`: as `GetErc20Name`, with the `symbol()` selector. */
    method GetErc20Symbol(erc20: Address, attempts: seq<seq<Reply<Bytes>>>, unpack: Bytes -> Reply<string>)
      returns (msg: CallMsg, symbol: string, err: Option<Error>)
      requires retryCount <= |attempts|
      requires forall a :: 0 <= a < |attempts| ==> |attempts[a]| == |clients|
      ensures msg == CallMsg(erc20, SymbolSelector)
      ensures !ContractReply(attempts).Succeeded() ==> symbol == "" && err == ContractReply(attempts).err
      ensures ContractReply(attempts).Succeeded() ==> Reply(symbol, err) == unpack(ContractReply(attempts).value)
    {
      var res, tries, sleeps;
      msg, res, err, tries, sleeps := CallContract(erc20, SymbolSelector, attempts);
      if err.Some? {
        return msg, "", err;
      }
      var u := unpack(res);
      symbol, err := u.value, u.err;
    }

    /** `GetErc20Decimals`: the low 8 bits of word 0, or 0 and the error. */
    method GetErc20Decimals(erc20: Address, attempts: seq<seq<Reply<Bytes>>>)
      returns (msg: CallMsg, decimals: uint8, err: Option<Error>)
      requires retryCount <= |attempts|
      requires forall a :: 0 <= a < |attempts| ==> |attempts[a]| == |clients|
      ensures msg == CallMsg(erc20, DecimalsSelector)
      ensures err == ContractReply(attempts).err
      ensures err.Some? ==> decimals == 0
      ensures err.None? ==> decimals == GetData(ContractReply(attempts).value, 0, WordSize)[31]
    {
      var res, tries, sleeps;
      msg, res, err, tries, sleeps := CallContract(erc20, DecimalsSelector, attempts);
      if err.Some? {
        return msg, 0, err;
      }
      decimals := WordUint8(res);
    }

    /** `GetErc20TotalSupply`: `totalSupply()` on the token, word 0 as a number. */
    method GetErc20TotalSupply(erc20: Address, attempts: seq<seq<Reply<Bytes>>>)
      returns (msg: CallMsg, supply: Option<nat>, err: Option<Error>)
      requires retryCount <= |attempts|
      requires forall a :: 0 <= a < |attempts| ==> |attempts[a]| == |clients|
      ensures msg == CallMsg(erc20, TotalSupplySelector)
      ensures err == ContractReply(attempts).err
      ensures supply == if err.None? then Some(WordValue(ContractReply(attempts).value)) else None
    {
      var res, tries, sleeps;
      msg, res, err, tries, sleeps := CallContract(erc20, TotalSupplySelector, attempts);
      supply := if err.None? then Some(WordValue(res)) else None;
    }

    /** `GetSyncProgress`: repeats the sync-state query, sleeping after each
        failure, until one succeeds. The source never gives up; here the
        rounds the endpoints answer are finite, and `found` is false when all
        of them fail. */
    method GetSyncProgress<P>(rounds: seq<seq<Reply<Option<P>>>>) returns (progress: Option<P>, found: bool, sleeps: nat)
      requires forall a :: 0 <= a < |rounds| ==> |rounds[a]| == |clients|
      ensures var o := AttemptOutcomes(rounds, |rounds|, None);
              found == (FirstSuccess(o) < |o|) &&
              (found ==> progress == o[FirstSuccess(o)].value && sleeps == FirstSuccess(o))
      ensures !found ==> progress == None && sleeps == |rounds|
    {
      ghost var o := AttemptOutcomes(rounds, |rounds|, None);
      sleeps := 0;
      while sleeps < |rounds|
        invariant sleeps <= |rounds|
        invariant forall j :: 0 <= j < sleeps ==> !o[j].Succeeded()
      {
        var p, err, asked := SyncProgress(rounds[sleeps]);
        if err.None? {
          return p, true, sleeps;
        }
        sleeps := sleeps + 1;
      }
      return None, false, sleeps;
    }
  }
}
