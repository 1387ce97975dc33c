/** The title line of the reward ledger: the comma-separated column names
    and the `txhash` column the distributor adds to them. */
module TitleLine {

  /** The position of the last comma, or -1 when there is none. */
  function LastCommaIndex(s: string): (i: int)
    ensures -1 <= i < |s|
    ensures i >= 0 ==> s[i] == ','
    ensures forall j :: i < j < |s| ==> s[j] != ','
  {
    if s == [] then -1
    else if s[|s| - 1] == ',' then |s| - 1
    else LastCommaIndex(s[..|s| - 1])
  }

  /** The fields of a line, cut at every comma. */
  function SplitCommas(s: string): (parts: seq<string>)
    ensures |parts| >= 1
    decreases |s|
  {
    var i := LastCommaIndex(s);
    if i < 0 then [s] else SplitCommas(s[..i]) + [s[i + 1..]]
  }

  /** `strings.Join(parts, ",")`. */
  function JoinCommas(parts: seq<string>): string
  {
    if parts == [] then ""
    else if |parts| == 1 then parts[0]
    else JoinCommas(parts[..|parts| - 1]) + "," + parts[|parts| - 1]
  }

  predicate CommaFree(parts: seq<string>)
  {
    forall k, j :: 0 <= k < |parts| && 0 <= j < |parts[k]| ==> parts[k][j] != ','
  }

  lemma CommaFreeAppend(a: seq<string>, b: seq<string>)
    requires CommaFree(a) && CommaFree(b)
    ensures CommaFree(a + b)
  {
    forall k, j | 0 <= k < |a + b| && 0 <= j < |(a + b)[k]|
      ensures (a + b)[k][j] != ','
    {
      if k >= |a| { assert (a + b)[k] == b[k - |a|]; }
    }
  }

  lemma CommaFreeSlice(parts: seq<string>, lo: nat, hi: nat)
    requires CommaFree(parts) && lo <= hi <= |parts|
    ensures CommaFree(parts[lo..hi])
  {
    forall k, j | 0 <= k < hi - lo && 0 <= j < |parts[lo..hi][k]|
      ensures parts[lo..hi][k][j] != ','
    {
      assert parts[lo..hi][k] == parts[lo + k];
    }
  }

  /** A comma followed by a comma-free field puts the last comma right
      before that field. */
  lemma {:induction false} LastCommaBeforeField(j: string, x: string)
    requires forall m :: 0 <= m < |x| ==> x[m] != ','
    ensures LastCommaIndex(j + "," + x) == |j|
    decreases |x|
  {
    if x != [] {
      var s := j + "," + x;
      assert s[..|s| - 1] == j + "," + x[..|x| - 1];
      LastCommaBeforeField(j, x[..|x| - 1]);
    }
  }

  /** Splitting a joined list of comma-free fields gives the fields back. */
  lemma {:induction false} SplitJoin(parts: seq<string>)
    requires |parts| >= 1 && CommaFree(parts)
    ensures SplitCommas(JoinCommas(parts)) == parts
  {
    var n := |parts|;
    var x := parts[n - 1];
    assert forall j :: 0 <= j < |x| ==> x[j] != ',';
    if n == 1 {
      assert LastCommaIndex(x) < 0;
    } else {
      var front := parts[..n - 1];
      var j := JoinCommas(front);
      var s := j + "," + x;
      assert front + [x] == parts;
      JoinOneMore(front, x);
      LastCommaBeforeField(j, x);
      assert s[..|j|] == j;
      assert s[|j| + 1..] == x;
      CommaFreeSlice(parts, 0, n - 1);
      SplitJoin(front);
    }
  }

  /** `addTxHashFieldToTitleLine`, given the fields the line splits into:
      with at most one field `,txhash` is appended; otherwise `txhash` goes
      in before the last field and the fields are joined with commas. */
  function AddTxHashField(titleLine: string, parts: seq<string>): string
  {
    if |parts| <= 1 then titleLine + ",txhash"
    else JoinCommas(parts[..|parts| - 1]) + ",txhash," + parts[|parts| - 1]
  }

  lemma TxHashFieldCommaFree()
    ensures CommaFree(["txhash"])
  {
    forall k, j | 0 <= k < 1 && 0 <= j < |["txhash"][k]|
      ensures ["txhash"][k][j] != ','
    {
      assert ["txhash"][k] == "txhash";
    }
  }

  /** `j + "," + "txhash" + "," + last`, regrouped around the `,txhash,`
      the source appends. */
  lemma TxHashInfix(j: string, last: string)
    ensures j + "," + "txhash" + "," + last == j + ",txhash," + last
  {
    assert "," + "txhash" + "," == ",txhash,";
  }

  /** Joining the fields with one more appended adds it behind a comma. */
  lemma JoinOneMore(parts: seq<string>, x: string)
    requires |parts| >= 1
    ensures JoinCommas(parts + [x]) == JoinCommas(parts) + "," + x
  {
    assert (parts + [x])[..|parts|] == parts;
  }

  /** Joining the fields with two more appended adds each behind a comma. */
  lemma JoinTwoMore(front: seq<string>, x: string, last: string)
    requires |front| >= 1
    ensures JoinCommas(front + [x, last]) == JoinCommas(front) + "," + x + "," + last
  {
    JoinOneMore(front, x);
    JoinOneMore(front + [x], last);
    assert front + [x] + [last] == front + [x, last];
  }

  /** Read back field by field, the new title has `txhash` as its
      second-to-last field and the old fields around it in order. */
  lemma TxHashBeforeLastField(titleLine: string, parts: seq<string>)
    requires |parts| >= 2 && CommaFree(parts)
    ensures SplitCommas(AddTxHashField(titleLine, parts)) ==
              parts[..|parts| - 1] + ["txhash", parts[|parts| - 1]]
  {
    var n := |parts|;
    var front := parts[..n - 1];
    JoinTwoMore(front, "txhash", parts[n - 1]);
    TxHashInfix(JoinCommas(front), parts[n - 1]);
    CommaFreeSlice(parts, 0, n - 1);
    CommaFreeSlice(parts, n - 1, n);
    TxHashFieldCommaFree();
    CommaFreeAppend(["txhash"], parts[n - 1..n]);
    assert ["txhash"] + parts[n - 1..n] == ["txhash", parts[n - 1]];
    CommaFreeAppend(front, ["txhash", parts[n - 1]]);
    SplitJoin(front + ["txhash", parts[n - 1]]);
  }

  /** A title of one comma-free field reads back as that field and `txhash`. */
  lemma TxHashAppendedToSingleField(titleLine: string, parts: seq<string>)
    requires |parts| <= 1 && CommaFree([titleLine])
    ensures SplitCommas(AddTxHashField(titleLine, parts)) == [titleLine, "txhash"]
  {
    var all := [titleLine, "txhash"];
    assert all[..1] == [titleLine];
    assert JoinCommas(all) == titleLine + "," + "txhash";
    assert titleLine + "," + "txhash" == titleLine + ",txhash";
    TxHashFieldCommaFree();
    CommaFreeAppend([titleLine], ["txhash"]);
    assert [titleLine] + ["txhash"] == all;
    SplitJoin(all);
  }
}
