/**
 * The hourly sweep of G2.Service/Transaction/TransactionBackgroundService.cs
 * over pending transactions.
 *
 * `now` is DateTime.UtcNow.AddHours(1), the service clock rows are stamped
 * with. ErcasPay's VerifyTransaction is the parameter `verify`, keyed by the
 * provider reference; a call that throws aborts the sweep and the database
 * transaction is rolled back, so no row changes.
 */
module TransactionBackgroundService {
  import opened Common
  import opened Text
  import opened Entities

  /** ErcasPay's answer to VerifyTransaction, or the exception the call raised. */
  datatype ErcasCheck = Throws | Checked(requestSuccessful: bool, status: string)

  /**
   * The rows the sweep fetches: live, "pending" in any letter case, and with
   * CreatedAt + 1h >= now. CreatedAt is itself stamped with the service clock,
   * so these are the transactions created during the last hour.
   */
  predicate Selected(t: Transaction, now: int)
  {
    !t.isDeleted && t.createdAt + Hour >= now && EqualsIgnoreCase(t.status, "pending")
  }

  /** One selected row after its turn in the loop. */
  function Refreshed(t: Transaction, now: int, check: ErcasCheck): (r: Transaction)
    ensures r.updatedAt == now
    ensures r == t.(status := r.status, updatedAt := now)
  {
    var status :=
      if EqualsIgnoreCase(t.provider, "ercaspay") then
        (if check.Checked? && check.requestSuccessful then check.status else t.status)
      else if EqualsIgnoreCase(t.provider, "flutterwave") then t.status
      else "Failed";
    t.(status := status, updatedAt := now)
  }

  /** The table once every selected row has had its turn. */
  function Swept(ts: seq<Transaction>, now: int, verify: string -> ErcasCheck): (r: seq<Transaction>)
    ensures |r| == |ts|
  {
    seq(|ts|, i requires 0 <= i < |ts| =>
      if Selected(ts[i], now) then Refreshed(ts[i], now, verify(ts[i].providerReference)) else ts[i])
  }

  /** A selected ErcasPay row whose verification throws: the whole sweep is rolled back. */
  predicate Aborts(ts: seq<Transaction>, now: int, verify: string -> ErcasCheck)
  {
    exists i :: 0 <= i < |ts| && Selected(ts[i], now) && EqualsIgnoreCase(ts[i].provider, "ercaspay")
      && verify(ts[i].providerReference).Throws?
  }

  /** UpdatePendingTransactions: the swept table, or the old one when the sweep aborts. */
  function Sweep(ts: seq<Transaction>, now: int, verify: string -> ErcasCheck): seq<Transaction>
  {
    if Aborts(ts, now, verify) then ts else Swept(ts, now, verify)
  }

  /** Rows that were not selected are never touched; selected ones always get UpdatedAt = now. */
  lemma SweepTouchesOnlySelected(ts: seq<Transaction>, now: int, verify: string -> ErcasCheck, i: nat)
    requires i < |ts|
    ensures var r := Sweep(ts, now, verify);
      |r| == |ts|
      && (!Selected(ts[i], now) ==> r[i] == ts[i])
      && (Selected(ts[i], now) && !Aborts(ts, now, verify) ==> r[i].updatedAt == now)
      && (Aborts(ts, now, verify) ==> r == ts)
  {
  }

  /**
   * The status rules: ErcasPay rows take the verified status when the
   * request succeeded, flutterwave rows keep theirs, and rows of any other
   * provider become "Failed"; nothing else about the row changes.
   */
  lemma SweepStatusRules(ts: seq<Transaction>, now: int, verify: string -> ErcasCheck, i: nat)
    requires i < |ts| && Selected(ts[i], now) && !Aborts(ts, now, verify)
    ensures var t := ts[i];
      var r := Sweep(ts, now, verify)[i];
      var check := verify(t.providerReference);
      r == t.(status := r.status, updatedAt := now)
      && (EqualsIgnoreCase(t.provider, "ercaspay") ==>
            check.Checked? && r.status == (if check.requestSuccessful then check.status else t.status))
      && (!EqualsIgnoreCase(t.provider, "ercaspay") && EqualsIgnoreCase(t.provider, "flutterwave") ==> r.status == t.status)
      && (!EqualsIgnoreCase(t.provider, "ercaspay") && !EqualsIgnoreCase(t.provider, "flutterwave") ==> r.status == "Failed")
  {
  }

  /** A row of an unknown provider leaves the pending state for good after one sweep. */
  lemma UnknownProviderLeavesPending(ts: seq<Transaction>, now: int, verify: string -> ErcasCheck, i: nat)
    requires i < |ts| && Selected(ts[i], now) && !Aborts(ts, now, verify)
    requires !EqualsIgnoreCase(ts[i].provider, "ercaspay") && !EqualsIgnoreCase(ts[i].provider, "flutterwave")
    ensures forall later :: !Selected(Sweep(ts, now, verify)[i], later)
  {
    assert Sweep(ts, now, verify)[i].status == "Failed";
  }

  class TransactionSweeper {
    var transactions: seq<Transaction>

    constructor(ts: seq<Transaction>)
      ensures transactions == ts
    {
      transactions := ts;
    }

    /** UpdatePendingTransactions; `committed` is false when a verification threw and the batch rolled back. */
    method UpdatePendingTransactions(now: int, verify: string -> ErcasCheck) returns (committed: bool)
      modifies this
      ensures committed == !Aborts(old(transactions), now, verify)
      ensures transactions == Sweep(old(transactions), now, verify)
    {
      var before := transactions;
      // BeginTransaction
      var i := 0;
      while i < |transactions|
        invariant 0 <= i <= |transactions| == |before|
        invariant transactions[..i] == Swept(before, now, verify)[..i]
        invariant forall j :: i <= j < |transactions| ==> transactions[j] == before[j]
        invariant forall j :: 0 <= j < i && Selected(before[j], now) ==>
          !(EqualsIgnoreCase(before[j].provider, "ercaspay") && verify(before[j].providerReference).Throws?)
      {
        var t := transactions[i];
        assert t == before[i];
        if Selected(t, now) {
          var status := t.status;
          if EqualsIgnoreCase(t.provider, "ercaspay") {
            var check := verify(t.providerReference);
            if check.Throws? {
              transactions := before;
              return false;
            }
            if check.requestSuccessful {
              status := check.status;
            }
          } else if !EqualsIgnoreCase(t.provider, "flutterwave") {
            status := "Failed";
          }
          assert t.(status := status, updatedAt := now) == Refreshed(t, now, verify(t.providerReference));
          transactions := transactions[i := t.(status := status, updatedAt := now)];
        }
        assert transactions[i] == Swept(before, now, verify)[i];
        assert transactions[..i + 1] == Swept(before, now, verify)[..i + 1] by {
          assert transactions[..i + 1] == transactions[..i] + [transactions[i]];
          assert Swept(before, now, verify)[..i + 1] == Swept(before, now, verify)[..i] + [Swept(before, now, verify)[i]];
        }
        i := i + 1;
      }
      assert transactions == transactions[..i];
      // CommitTransaction
      return true;
    }
  }
}
