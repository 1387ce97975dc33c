/** The block syncer's own endpoint list (package `syncer`): a second copy
    of the dial, close and failover loops, over the package-level client list
    held here by one object. As in the API caller, each getter takes the
    reply every client gives, in list order. */
module Syncer {
  import opened Wrappers
  import opened Endpoints

  class SyncClients {
    var clients: seq<Client?>

    constructor ()
      ensures clients == []
    {
      clients := [];
    }

    /** `dialServer`: appends clients in URL order and stops at the first
        failed dial with its error. */
    method DialServer(urls: seq<string>, dialErrs: seq<Option<Error>>) returns (err: Option<Error>)
      requires |dialErrs| == |urls|
      modifies this
      ensures old(|clients|) <= |clients| <= old(|clients|) + |urls|
      ensures clients[..old(|clients|)] == old(clients)
      ensures forall i :: old(|clients|) <= i < |clients| ==>
                clients[i] != null && fresh(clients[i]) && clients[i].url == urls[i - old(|clients|)]
      ensures forall i :: old(|clients|) <= i < |clients| ==>
                dialErrs[i - old(|clients|)].None? && clients[i] != null && !clients[i].closed
      ensures err.None? <==> |clients| == old(|clients|) + |urls|
      ensures err.Some? ==> err == dialErrs[|clients| - old(|clients|)]
    {
      var dialled;
      dialled, err := DialAll(urls, dialErrs);
      clients := clients + dialled;
    }

    /** `closeClient`: closes every non-nil client and skips nil entries. */
    method CloseClient()
      modifies Live(clients)
      ensures forall i :: 0 <= i < |clients| && clients[i] != null ==> clients[i].closed
    {
      CloseAll(clients);
    }

    /** `getHeaderByNumber`: the first client's success, else the last error. */
    method GetHeaderByNumber<H>(replies: seq<Reply<Option<H>>>) returns (header: Option<H>, err: Option<Error>, asked: nat)
      requires |replies| == |clients|
      ensures Reply(header, err) == Failover(replies, None) && asked == Asked(replies)
      ensures clients == [] ==> header == None && err == None
    {
      var r;
      r, asked := CallInOrder(replies, None);
      header, err := r.value, r.err;
    }

    /** `getBlockByNumber`: the first client's success, else the last error. */
    method GetBlockByNumber<B>(replies: seq<Reply<Option<B>>>) returns (block: Option<B>, err: Option<Error>, asked: nat)
      requires |replies| == |clients|
      ensures Reply(block, err) == Failover(replies, None) && asked == Asked(replies)
      ensures clients == [] ==> block == None && err == None
    {
      var r;
      r, asked := CallInOrder(replies, None);
      block, err := r.value, r.err;
    }

    /** `getTransactionReceipt`: the first client's success, else the last error. */
    method GetTransactionReceipt<R>(replies: seq<Reply<Option<R>>>) returns (receipt: Option<R>, err: Option<Error>, asked: nat)
      requires |replies| == |clients|
      ensures Reply(receipt, err) == Failover(replies, None) && asked == Asked(replies)
      ensures clients == [] ==> receipt == None && err == None
    {
      var r;
      r, asked := CallInOrder(replies, None);
      receipt, err := r.value, r.err;
    }
  }
}
