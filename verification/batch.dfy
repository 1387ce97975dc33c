/** The reward batch of the distributor: the checks made before any reward
    is sent, and the loop that sends one transfer per ledger entry. */
module Batch {
  import W = Wrappers
  import opened Bytes
  import opened TitleLine

  type Hash = Bytes

  /** One ledger entry: an account and its reward, which may be missing. */
  datatype AccountStat = AccountStat(account: Address, reward: W.Option<int>)

  /** Only entries with a present, strictly positive reward are sent. */
  predicate Positive(stat: AccountStat)
  {
    stat.reward.Some? && stat.reward.value > 0
  }

  function RewardOf(stat: AccountStat): int
  {
    if stat.reward.Some? then stat.reward.value else 0
  }

  /** A transfer that went out: the entry's position, the entry and the
      hash the send reported (none in a dry run). */
  datatype Sent = Sent(index: nat, stat: AccountStat, txHash: W.Option<Hash>)

  /** The state of the batch after a prefix of the ledger: the transfers
      made, the rewards sent so far and the entry whose send failed. */
  datatype BatchRun = BatchRun(sent: seq<Sent>, total: int, failedAt: W.Option<nat>)

  /** The batch over `stats`, where `outcomes[i]` is what sending entry `i`
      would return.  Entries are taken in order; a failure stops the run. */
  function Run(stats: seq<AccountStat>, outcomes: seq<W.Result<W.Option<Hash>>>): BatchRun
    requires |outcomes| == |stats|
    decreases |stats|
  {
    if stats == [] then BatchRun([], 0, W.None)
    else
      var n := |stats| - 1;
      var prev := Run(stats[..n], outcomes[..n]);
      if prev.failedAt.Some? || !Positive(stats[n]) then prev
      else if outcomes[n].Err? then prev.(failedAt := W.Some(n))
      else BatchRun(prev.sent + [Sent(n, stats[n], outcomes[n].value)],
                    prev.total + RewardOf(stats[n]), W.None)
  }

  /** One more ledger entry extends the run as `Run` prescribes. */
  lemma RunStep(stats: seq<AccountStat>, outcomes: seq<W.Result<W.Option<Hash>>>, i: nat)
    requires |outcomes| == |stats| && i < |stats|
    ensures var prev := Run(stats[..i], outcomes[..i]);
      Run(stats[..i + 1], outcomes[..i + 1]) ==
        if prev.failedAt.Some? || !Positive(stats[i]) then prev
        else if outcomes[i].Err? then prev.(failedAt := W.Some(i))
        else BatchRun(prev.sent + [Sent(i, stats[i], outcomes[i].value)],
                      prev.total + RewardOf(stats[i]), W.None)
  {
    assert stats[..i + 1][..i] == stats[..i];
    assert outcomes[..i + 1][..i] == outcomes[..i];
  }

  /** The number of entries the run got through. */
  function Stop(r: BatchRun, n: nat): nat
  {
    if r.failedAt.Some? then r.failedAt.value else n
  }

  function SumRewards(sent: seq<Sent>): int
  {
    if sent == [] then 0 else SumRewards(sent[..|sent| - 1]) + RewardOf(sent[|sent| - 1].stat)
  }

  function Indices(sent: seq<Sent>): seq<nat>
  {
    seq(|sent|, k requires 0 <= k < |sent| => sent[k].index)
  }

  /** The positions of the positive entries among the first `upto`. */
  function Positions(stats: seq<AccountStat>, upto: nat): seq<nat>
    requires upto <= |stats|
  {
    if upto == 0 then []
    else Positions(stats, upto - 1) + (if Positive(stats[upto - 1]) then [upto - 1] else [])
  }

  /** The positions are increasing, each names a positive entry, and every
      positive entry among the first `upto` is named. */
  lemma {:induction false} PositionsArePositiveEntries(stats: seq<AccountStat>, upto: nat)
    requires upto <= |stats|
    ensures var ps := Positions(stats, upto);
      && (forall k :: 0 <= k < |ps| ==> ps[k] < upto && Positive(stats[ps[k]]))
      && (forall k, l :: 0 <= k < l < |ps| ==> ps[k] < ps[l])
      && (forall i :: 0 <= i < upto && Positive(stats[i]) ==> i in ps)
  {
    if upto > 0 {
      PositionsArePositiveEntries(stats, upto - 1);
    }
  }

  lemma {:induction false} PositionsOfPrefix(stats: seq<AccountStat>, n: nat, upto: nat)
    requires upto <= n <= |stats|
    ensures Positions(stats[..n], upto) == Positions(stats, upto)
  {
    if upto > 0 {
      PositionsOfPrefix(stats, n, upto - 1);
      assert stats[..n][upto - 1] == stats[upto - 1];
    }
  }

  /** Each transfer carries its own ledger entry and the hash that entry's
      send returned. */
  predicate RowsMatch(stats: seq<AccountStat>, outcomes: seq<W.Result<W.Option<Hash>>>,
                      sent: seq<Sent>)
    requires |outcomes| == |stats|
  {
    forall k :: 0 <= k < |sent| ==>
      && sent[k].index < |stats| && sent[k].stat == stats[sent[k].index]
      && outcomes[sent[k].index] == W.Ok(sent[k].txHash)
  }

  lemma {:induction false} RunRowsMatchEntries(stats: seq<AccountStat>,
                                               outcomes: seq<W.Result<W.Option<Hash>>>)
    requires |outcomes| == |stats|
    ensures RowsMatch(stats, outcomes, Run(stats, outcomes).sent)
  {
    if stats != [] {
      var n := |stats| - 1;
      RunRowsMatchEntries(stats[..n], outcomes[..n]);
      var prev := Run(stats[..n], outcomes[..n]);
      assert RowsMatch(stats, outcomes, prev.sent) by {
        forall k | 0 <= k < |prev.sent|
          ensures prev.sent[k].index < n
          ensures stats[prev.sent[k].index] == prev.sent[k].stat
          ensures outcomes[prev.sent[k].index] == W.Ok(prev.sent[k].txHash)
        {
          assert stats[..n][prev.sent[k].index] == stats[prev.sent[k].index];
          assert outcomes[..n][prev.sent[k].index] == outcomes[prev.sent[k].index];
        }
      }
    }
  }

  /** The transfers are exactly the positive entries before the point where
      the run stopped, in ledger order: skipped entries are never sent and
      nothing at or after a failure is attempted. */
  lemma {:induction false} RunSendsPositiveEntries(stats: seq<AccountStat>,
                                                   outcomes: seq<W.Result<W.Option<Hash>>>)
    requires |outcomes| == |stats|
    ensures Stop(Run(stats, outcomes), |stats|) <= |stats|
    ensures Indices(Run(stats, outcomes).sent) == Positions(stats, Stop(Run(stats, outcomes), |stats|))
  {
    if stats != [] {
      var n := |stats| - 1;
      var prev := Run(stats[..n], outcomes[..n]);
      var r := Run(stats, outcomes);
      RunSendsPositiveEntries(stats[..n], outcomes[..n]);
      PositionsOfPrefix(stats, n, Stop(prev, n));
      if prev.failedAt.Some? {
        assert r == prev;
      } else if !Positive(stats[n]) {
        assert r == prev;
        assert Positions(stats, n + 1) == Positions(stats, n);
      } else if outcomes[n].Err? {
        assert r.sent == prev.sent && Stop(r, n + 1) == n;
      } else {
        assert r.sent == prev.sent + [Sent(n, stats[n], outcomes[n].value)];
        assert Indices(r.sent) == Indices(prev.sent) + [n];
        assert Positions(stats, n + 1) == Positions(stats, n) + [n];
      }
    }
  }

  /** The rewards sent so far are the sum of the transferred rewards. */
  lemma {:induction false} RunTotalIsSumOfSent(stats: seq<AccountStat>,
                                               outcomes: seq<W.Result<W.Option<Hash>>>)
    requires |outcomes| == |stats|
    ensures Run(stats, outcomes).total == SumRewards(Run(stats, outcomes).sent)
  {
    if stats != [] {
      var n := |stats| - 1;
      var prev := Run(stats[..n], outcomes[..n]);
      RunTotalIsSumOfSent(stats[..n], outcomes[..n]);
      if prev.failedAt.None? && Positive(stats[n]) && outcomes[n].Ok? {
        var r := Run(stats, outcomes);
        assert r.sent[..|r.sent| - 1] == prev.sent;
      }
    }
  }

  /** The run fails exactly when some positive entry's send fails, and then
      at the first such entry; every positive entry before it was sent. */
  lemma {:induction false} RunFailsAtFirstFailedSend(stats: seq<AccountStat>,
                                                     outcomes: seq<W.Result<W.Option<Hash>>>)
    requires |outcomes| == |stats|
    ensures var r := Run(stats, outcomes);
      && (r.failedAt.None? <==>
            forall i :: 0 <= i < |stats| && Positive(stats[i]) ==> outcomes[i].Ok?)
      && (r.failedAt.Some? ==>
            && r.failedAt.value < |stats|
            && Positive(stats[r.failedAt.value]) && outcomes[r.failedAt.value].Err?
            && forall i :: 0 <= i < r.failedAt.value && Positive(stats[i]) ==> outcomes[i].Ok?)
  {
    if stats != [] {
      var n := |stats| - 1;
      RunFailsAtFirstFailedSend(stats[..n], outcomes[..n]);
      assert forall i :: 0 <= i < n ==> stats[..n][i] == stats[i] && outcomes[..n][i] == outcomes[i];
    }
  }

  /** Once a prefix of the ledger has failed, the rest of the ledger is
      never attempted: the whole run is the run of that prefix. */
  lemma {:induction false} FailureEndsRun(stats: seq<AccountStat>,
                                          outcomes: seq<W.Result<W.Option<Hash>>>, j: nat)
    requires |outcomes| == |stats| && j <= |stats|
    requires Run(stats[..j], outcomes[..j]).failedAt.Some?
    ensures Run(stats, outcomes) == Run(stats[..j], outcomes[..j])
    decreases |stats| - j
  {
    if j < |stats| {
      var n := |stats| - 1;
      assert stats[..n][..j] == stats[..j];
      assert outcomes[..n][..j] == outcomes[..j];
      FailureEndsRun(stats[..n], outcomes[..n], j);
    } else {
      assert stats[..j] == stats && outcomes[..j] == outcomes;
    }
  }

  /** A ledger of a zero, a positive and a negative reward sends one
      transfer, the positive one, and sends its reward in total. */
  lemma SkipsNonPositiveRewards(a: Address, b: Address, c: Address, h: W.Option<Hash>)
    ensures var stats := [AccountStat(a, W.Some(0)), AccountStat(b, W.Some(5)), AccountStat(c, W.Some(-1))];
      var r := Run(stats, [W.Ok(h), W.Ok(h), W.Ok(h)]);
      r.sent == [Sent(1, AccountStat(b, W.Some(5)), h)] && r.total == 5 && r.failedAt.None?
  {
    var stats := [AccountStat(a, W.Some(0)), AccountStat(b, W.Some(5)), AccountStat(c, W.Some(-1))];
    var outs := [W.Ok(h), W.Ok(h), W.Ok(h)];
    assert stats[..2][..1] == stats[..1];
    assert outs[..2][..1] == outs[..1];
    assert Run(stats[..1], outs[..1]) == BatchRun([], 0, W.None);
  }

  /** Of five positive entries, a failure on the third leaves exactly the
      first two sent. */
  lemma ThirdFailureKeepsTwo(stats: seq<AccountStat>, outcomes: seq<W.Result<W.Option<Hash>>>)
    requires |stats| == 5 && |outcomes| == 5
    requires forall i :: 0 <= i < 5 ==> Positive(stats[i])
    requires outcomes[0].Ok? && outcomes[1].Ok? && outcomes[2].Err?
    ensures |Run(stats, outcomes).sent| == 2
    ensures Run(stats, outcomes).failedAt == W.Some(2)
  {
    RunFailsAtFirstFailedSend(stats, outcomes);
    RunSendsPositiveEntries(stats, outcomes);
    var r := Run(stats, outcomes);
    assert Positions(stats, 2) == [0, 1] by {
      assert Positions(stats, 1) == [0];
    }
    assert |Indices(r.sent)| == |r.sent|;
  }

  /** The helpers of the distributor's options that this model takes as
      given: the comment-line test, the blank-or-comma field splitter, the
      normalisation of a `byWhat` method name and its setter, and the sum
      of a ledger's rewards. */
  datatype Helpers = Helpers(isCommentedLine: string -> bool,
                             split: string -> seq<string>,
                             standardByWhat: string -> string,
                             setByWhat: string -> W.Result<string>,
                             calcTotalReward: seq<AccountStat> -> int)

  /** What reading the input file gave: the entries and the title line. */
  datatype Ledger = Ledger(stats: seq<AccountStat>, titleLine: string)

  /** One line of the output file. */
  datatype OutputLine =
    | Title(text: string)
    | StatRow(stat: AccountStat, txHash: W.Option<Hash>)
    | FileRow(account: Address, reward: int, txHash: W.Option<Hash>)

  /** A title line is accepted when it is a comment, splits into at least
      five fields, and its third field either can set an empty `byWhat` or
      names the `byWhat` already chosen. */
  predicate TitleAccepted(h: Helpers, byWhat: string, titleLine: string)
  {
    var parts := h.split(titleLine);
    && h.isCommentedLine(titleLine)
    && |parts| >= 5
    && (if byWhat == "" then h.setByWhat(parts[2]).Ok?
        else byWhat == h.standardByWhat(parts[2]))
  }

  /** The `byWhat` in force after an accepted title line. */
  function ByWhatAfter(h: Helpers, byWhat: string, titleLine: string): string
    requires TitleAccepted(h, byWhat, titleLine)
  {
    if byWhat == "" then h.setByWhat(h.split(titleLine)[2]).value else byWhat
  }

  /** The title written before the rows: the original in a dry run, the
      title with a `txhash` field when the database can be written, and a
      fixed three-column title otherwise. */
  function OutputTitle(h: Helpers, dryRun: bool, canSaveDB: bool, titleLine: string): string
  {
    if dryRun then titleLine
    else if canSaveDB then AddTxHashField(titleLine, h.split(titleLine))
    else "#account,reward,txhash"
  }

  /** The rows written for the transfers: whole entries in a dry run or
      when the database can be written, account and reward otherwise. */
  function Rows(sent: seq<Sent>, withStat: bool): (rows: seq<OutputLine>)
    ensures |rows| == |sent|
  {
    seq(|sent|, k requires 0 <= k < |sent| =>
      if withStat then StatRow(sent[k].stat, sent[k].txHash)
      else FileRow(sent[k].stat.account, RewardOf(sent[k].stat), sent[k].txHash))
  }

  lemma RowsSnoc(sent: seq<Sent>, x: Sent, withStat: bool)
    ensures Rows(sent + [x], withStat) == Rows(sent, withStat) + Rows([x], withStat)
  {
  }

  /** The distributor's options for one batch. */
  class Option {
    const inputFile: string
    const dryRun: bool
    const saveDB: bool
    var byWhat: string
    var totalValue: int
    var output: seq<OutputLine>

    constructor (inputFile: string, dryRun: bool, saveDB: bool, byWhat: string)
      ensures this.inputFile == inputFile && this.dryRun == dryRun && this.saveDB == saveDB
      ensures this.byWhat == byWhat && totalValue == 0 && output == []
    {
      this.inputFile, this.dryRun, this.saveDB := inputFile, dryRun, saveDB;
      this.byWhat, totalValue, output := byWhat, 0, [];
    }

    /** `checkTitleLine`; a refused line leaves `byWhat` as it was. */
    method CheckTitleLine(h: Helpers, titleLine: string) returns (err: W.Option<W.Error>)
      modifies this`byWhat
      ensures err.None? <==> TitleAccepted(h, old(byWhat), titleLine)
      ensures err.None? ==> byWhat == ByWhatAfter(h, old(byWhat), titleLine)
      ensures err.Some? ==> byWhat == old(byWhat)
    {
      if !h.isCommentedLine(titleLine) {
        return W.Some("title line is not comment line");
      }
      var titleParts := h.split(titleLine);
      if |titleParts| < 5 {
        return W.Some("title line parts is less than 5");
      }
      var methodID := titleParts[2];
      if byWhat == "" {
        var chosen := h.setByWhat(methodID);
        if chosen.Err? {
          return W.Some(chosen.error);
        }
        byWhat := chosen.value;
      } else if byWhat != h.standardByWhat(methodID) {
        return W.Some("byWhat mismatch");
      }
      return W.None;
    }

    /** `checkSendRewardsFromFile`: `loaded` is what reading the input file
        gave, `balanceCheck` the sender's balance check against a total and
        `basicErr` the outcome of the basic option check.  A non-empty
        result means the batch may start; the title has then been written. */
    method CheckSendRewardsFromFile(h: Helpers, loaded: W.Result<Ledger>,
                                    balanceCheck: int -> W.Option<W.Error>,
                                    basicErr: W.Option<W.Error>)
      returns (stats: seq<AccountStat>, canSaveDB: bool, err: W.Option<W.Error>)
      modifies this`byWhat, this`totalValue, this`output
      ensures inputFile == "" ==> err.Some? && unchanged(this)
      ensures inputFile != "" && loaded.Err? ==> err == W.Some(loaded.error) && unchanged(this)
      ensures inputFile != "" && loaded.Ok? && loaded.value.stats == [] ==>
                err.None? && unchanged(this)
      ensures err.Some? || stats == [] ==> output == old(output) && stats == [] && !canSaveDB
      ensures err.None? <==>
                stats != [] || (inputFile != "" && loaded.Ok? && loaded.value.stats == [])
      ensures stats != [] <==>
                && inputFile != "" && loaded.Ok? && loaded.value.stats != []
                && TitleAccepted(h, old(byWhat), loaded.value.titleLine)
                && balanceCheck(h.calcTotalReward(loaded.value.stats)).None?
                && (basicErr.None? || !saveDB)
      ensures inputFile != "" && loaded.Ok? && loaded.value.stats != []
              && TitleAccepted(h, old(byWhat), loaded.value.titleLine) ==>
                && byWhat == ByWhatAfter(h, old(byWhat), loaded.value.titleLine)
                && totalValue == h.calcTotalReward(loaded.value.stats)
      ensures inputFile != "" && loaded.Ok? && loaded.value.stats != []
              && !TitleAccepted(h, old(byWhat), loaded.value.titleLine) ==>
                err.Some? && byWhat == old(byWhat) && totalValue == old(totalValue)
      ensures stats != [] ==>
                && err.None? && stats == loaded.value.stats && canSaveDB == basicErr.None?
                && output == old(output) + [Title(OutputTitle(h, dryRun, canSaveDB, loaded.value.titleLine))]
    {
      stats, canSaveDB := [], false;
      if inputFile == "" {
        return stats, canSaveDB, W.Some("must specify input file");
      }
      if loaded.Err? {
        return stats, canSaveDB, W.Some(loaded.error);
      }
      var accountStats := loaded.value.stats;
      var titleLine := loaded.value.titleLine;
      if accountStats == [] {
        return stats, canSaveDB, W.None;
      }
      err := CheckTitleLine(h, titleLine);
      if err.Some? {
        return;
      }
      totalValue := h.calcTotalReward(accountStats);
      err := balanceCheck(totalValue);
      if err.Some? {
        return;
      }
      var ok := basicErr.None?;
      if !ok && saveDB {
        return stats, canSaveDB, W.Some("can not savedb");
      }
      output := output + [Title(OutputTitle(h, dryRun, ok, titleLine))];
      return accountStats, ok, W.None;
    }

    /** `SendRewardsFromFile`: after the checks, sends each positive entry
        in order, where `outcomes[i]` is what sending entry `i` returns, and
        stops at the first failure.  `sent` is the amount sent. */
    method SendRewardsFromFile(h: Helpers, loaded: W.Result<Ledger>,
                               balanceCheck: int -> W.Option<W.Error>,
                               basicErr: W.Option<W.Error>,
                               outcomes: seq<W.Result<W.Option<Hash>>>)
      returns (err: W.Option<W.Error>, stats: seq<AccountStat>, canSaveDB: bool, sent: int)
      requires loaded.Ok? ==> |outcomes| == |loaded.value.stats|
      modifies this`byWhat, this`totalValue, this`output
      ensures stats == [] ==> output == old(output) && sent == 0
      ensures inputFile == "" ==>
                err.Some? && stats == [] && byWhat == old(byWhat) && totalValue == old(totalValue)
      ensures inputFile != "" && loaded.Err? ==>
                err == W.Some(loaded.error) && stats == []
                && byWhat == old(byWhat) && totalValue == old(totalValue)
      ensures inputFile != "" && loaded.Ok? && loaded.value.stats != []
              && TitleAccepted(h, old(byWhat), loaded.value.titleLine) ==>
                && byWhat == ByWhatAfter(h, old(byWhat), loaded.value.titleLine)
                && totalValue == h.calcTotalReward(loaded.value.stats)
      ensures stats != [] <==>
                && inputFile != "" && loaded.Ok? && loaded.value.stats != []
                && TitleAccepted(h, old(byWhat), loaded.value.titleLine)
                && balanceCheck(h.calcTotalReward(loaded.value.stats)).None?
                && (basicErr.None? || !saveDB)
      ensures inputFile != "" && loaded.Ok? && loaded.value.stats != []
              && !TitleAccepted(h, old(byWhat), loaded.value.titleLine) ==>
                err.Some? && byWhat == old(byWhat) && totalValue == old(totalValue)
      ensures stats == [] && err.None? ==>
                inputFile != "" && loaded.Ok? && loaded.value.stats == []
      ensures inputFile != "" && loaded.Ok? && loaded.value.stats == [] ==>
                err.None? && stats == [] && byWhat == old(byWhat) && totalValue == old(totalValue)
      ensures stats != [] ==>
                && loaded.Ok? && stats == loaded.value.stats && canSaveDB == basicErr.None?
                && TitleAccepted(h, old(byWhat), loaded.value.titleLine)
                && totalValue == h.calcTotalReward(stats)
                && var r := Run(stats, outcomes);
                && sent == r.total
                && (err.None? <==> r.failedAt.None?)
                && output == old(output)
                             + [Title(OutputTitle(h, dryRun, canSaveDB, loaded.value.titleLine))]
                             + Rows(r.sent, dryRun || canSaveDB)
    {
      stats, canSaveDB, err := CheckSendRewardsFromFile(h, loaded, balanceCheck, basicErr);
      sent := 0;
      if err.Some? || stats == [] {
        return;
      }
      var withStat := dryRun || canSaveDB;
      ghost var base := output;
      ghost var checkedBy := byWhat;
      ghost var done: seq<Sent> := [];
      var i := 0;
      while i < |stats|
        invariant 0 <= i <= |stats|
        invariant Run(stats[..i], outcomes[..i]) == BatchRun(done, sent, W.None)
        invariant output == base + Rows(done, withStat)
        invariant totalValue == h.calcTotalReward(stats)
        invariant byWhat == checkedBy
      {
        var stat := stats[i];
        RunStep(stats, outcomes, i);
        if !Positive(stat) {
          i := i + 1;
          continue;
        }
        var outcome := outcomes[i];
        if outcome.Err? {
          FailureEndsRun(stats, outcomes, i + 1);
          err := W.Some("[sendRewards] send tx failed");
          return;
        }
        sent := sent + stat.reward.value;
        var row := if withStat then StatRow(stat, outcome.value)
                   else FileRow(stat.account, stat.reward.value, outcome.value);
        RowsSnoc(done, Sent(i, stat, outcome.value), withStat);
        done := done + [Sent(i, stat, outcome.value)];
        output := output + [row];
        i := i + 1;
      }
      assert stats[..i] == stats && outcomes[..i] == outcomes;
    }
  }
}
