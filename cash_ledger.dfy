/**
 * The dues ledger of the cash controller: a registry of periods and a
 * table of transactions, with submission, verification and statistics.
 *
 * Transactions are never deleted by any handler, so the table is kept as a
 * sequence in insertion order and a transaction's id is its position.
 * Every save of a transaction ends with the model's `beforeSave` hook.
 */
module CashLedger {
  import opened Common
  import opened LateFee
  import opened CashTransactionModel

  /** A transaction that blocks a new submission for its (user, period). */
  predicate Live(t: Transaction)
  {
    t.status == Pending || t.status == Complete
  }

  /** Some transaction of the user for the period is PENDING or COMPLETE. */
  predicate HasLive(txs: seq<Transaction>, user: Id, periodId: Id)
  {
    exists i :: 0 <= i < |txs| && txs[i].userId == user && txs[i].periodId == periodId && Live(txs[i])
  }

  /** At most one PENDING or COMPLETE transaction per (user, period). */
  predicate AtMostOneLive(txs: seq<Transaction>)
  {
    forall i, j ::
      (0 <= i < |txs| && 0 <= j < |txs| && i != j && Live(txs[i]) && Live(txs[j])
       && txs[i].periodId == txs[j].periodId) ==> txs[i].userId != txs[j].userId
  }

  /**
   * The body of `PUT /admin/cash/periods/:id`; an absent field is `None`.
   * A due date arrives as a date string, so a given one is never falsy; an
   * empty string is `None` like an absent one. The rate and the active flag
   * are tested with `!== undefined`, so a JSON `null` is given: it is
   * `Some(None)`.
   */
  datatype PeriodPatch = PeriodPatch(
    name: Option<string>,
    amount: Option<int>,
    lateFeePerDay: Option<Option<int>>,
    dueDate: Option<int>,
    isActive: Option<Option<bool>>)

  /** A null rate would break the non-nullable `late_fee_per_day` column. */
  predicate NullRate(u: PeriodPatch)
  {
    u.lateFeePerDay == Some(None)
  }

  /**
   * The body of `POST /cash/transactions` and the uploaded proof file's name.
   * The route takes multipart form data, so every field arrives as a string:
   * an absent or empty field is `None`, and any other value, "0" included,
   * is truthy. A period id or date is given here already parsed.
   */
  datatype Submission = Submission(
    periodId: Option<int>,
    paymentMethod: Option<string>,
    paymentDate: Option<int>,
    proofFile: Option<string>)

  /** `!period_id || !payment_method || !payment_date` fails. */
  predicate HasRequiredFields(s: Submission)
  {
    s.periodId.Some? && TruthyStr(s.paymentMethod) && s.paymentDate.Some?
  }

  /** The value a payment method is stored as in the `payment_method` ENUM. */
  function MethodName(m: PaymentMethod): (s: string)
    ensures s in ["CASH", "TRANSFER"]
  {
    match m
    case Cash => "CASH"
    case Transfer => "TRANSFER"
  }

  /** The payment-method column accepts exactly `CASH` and `TRANSFER`. */
  function ParseMethod(m: string): (r: Option<PaymentMethod>)
    ensures r.Some? <==> m in ["CASH", "TRANSFER"]
    ensures r.Some? ==> MethodName(r.value) == m
  {
    if m == "CASH" then Some(Cash) else if m == "TRANSFER" then Some(Transfer) else None
  }

  /** Storing a payment method and reading it back gives it unchanged. */
  lemma MethodRoundTrip(m: PaymentMethod)
    ensures ParseMethod(MethodName(m)) == Some(m)
  {
  }

  /** The point-in-time statistics of one period. */
  datatype Stats = Stats(
    totalMembers: int,
    paidCount: nat,
    pendingCount: nat,
    unpaidCount: int,
    totalCollected: int,
    totalFines: int)

  /** Transactions of the period in the given status. */
  function CountStatus(txs: seq<Transaction>, periodId: Id, status: TxStatus): (n: nat)
    ensures n <= |txs|
  {
    if txs == [] then 0
    else CountStatus(txs[..|txs| - 1], periodId, status)
         + (if txs[|txs| - 1].periodId == periodId && txs[|txs| - 1].status == status then 1 else 0)
  }

  /** Sum of `amount_paid` over the period's COMPLETE transactions. */
  function SumCollected(txs: seq<Transaction>, periodId: Id): int
  {
    if txs == [] then 0
    else SumCollected(txs[..|txs| - 1], periodId)
         + (if txs[|txs| - 1].periodId == periodId && txs[|txs| - 1].status == Complete then txs[|txs| - 1].amountPaid else 0)
  }

  /** Sum of `fine_amount` over the period's COMPLETE transactions. */
  function SumFines(txs: seq<Transaction>, periodId: Id): int
  {
    if txs == [] then 0
    else SumFines(txs[..|txs| - 1], periodId)
         + (if txs[|txs| - 1].periodId == periodId && txs[|txs| - 1].status == Complete then txs[|txs| - 1].fineAmount else 0)
  }

  /** The users holding a PENDING or COMPLETE transaction for the period. */
  function LiveUsers(txs: seq<Transaction>, periodId: Id): set<Id>
  {
    if txs == [] then {}
    else LiveUsers(txs[..|txs| - 1], periodId)
         + (if txs[|txs| - 1].periodId == periodId && Live(txs[|txs| - 1]) then {txs[|txs| - 1].userId} else {})
  }

  /** A period without COMPLETE transactions has collected nothing and fined nothing. */
  lemma {:induction false} NoCompleteNoTotals(txs: seq<Transaction>, periodId: Id)
    requires CountStatus(txs, periodId, Complete) == 0
    ensures SumCollected(txs, periodId) == 0 && SumFines(txs, periodId) == 0
  {
    if txs != [] {
      NoCompleteNoTotals(txs[..|txs| - 1], periodId);
    }
  }

  /** A user holds a live transaction for the period exactly when it is among its live users. */
  lemma {:induction false} LiveUsersMembership(txs: seq<Transaction>, periodId: Id, user: Id)
    ensures user in LiveUsers(txs, periodId) <==> HasLive(txs, user, periodId)
  {
    if txs != [] {
      var pre := txs[..|txs| - 1];
      LiveUsersMembership(pre, periodId, user);
      if HasLive(pre, user, periodId) {
        var i :| 0 <= i < |pre| && pre[i].userId == user && pre[i].periodId == periodId && Live(pre[i]);
        assert txs[i] == pre[i];
      }
      if HasLive(txs, user, periodId) {
        var i :| 0 <= i < |txs| && txs[i].userId == user && txs[i].periodId == periodId && Live(txs[i]);
        if i < |pre| {
          assert pre[i] == txs[i];
        }
      }
    }
  }

  /**
   * Under the one-live-transaction rule, the paid and pending counts of a
   * period together count distinct users.
   */
  lemma {:induction false} LiveCountIsUserCount(txs: seq<Transaction>, periodId: Id)
    requires AtMostOneLive(txs)
    ensures CountStatus(txs, periodId, Complete) + CountStatus(txs, periodId, Pending) == |LiveUsers(txs, periodId)|
  {
    if txs != [] {
      var pre, t := txs[..|txs| - 1], txs[|txs| - 1];
      assert AtMostOneLive(pre) by {
        forall i, j | 0 <= i < |pre| && 0 <= j < |pre| && i != j && Live(pre[i]) && Live(pre[j])
          && pre[i].periodId == pre[j].periodId
          ensures pre[i].userId != pre[j].userId
        {
          assert pre[i] == txs[i] && pre[j] == txs[j];
        }
      }
      LiveCountIsUserCount(pre, periodId);
      if t.periodId == periodId && Live(t) {
        LiveUsersMembership(pre, periodId, t.userId);
      }
    }
  }

  /** Every live user of the period is a payer of some stored transaction. */
  lemma {:induction false} LiveUsersArePayers(txs: seq<Transaction>, periodId: Id, members: set<Id>)
    requires forall i :: 0 <= i < |txs| ==> txs[i].userId in members
    ensures LiveUsers(txs, periodId) <= members
  {
    if txs != [] {
      var pre := txs[..|txs| - 1];
      assert forall i :: 0 <= i < |pre| ==> pre[i] == txs[i];
      LiveUsersArePayers(pre, periodId, members);
    }
  }

  /**
   * `unpaid_count` is negative only if some transaction belongs to a user
   * who is not counted among the members: with every payer a member and
   * the one-live-transaction rule kept, paid + pending never exceeds the
   * member count.
   */
  lemma UnpaidNonNegative(txs: seq<Transaction>, periodId: Id, members: set<Id>)
    requires AtMostOneLive(txs)
    requires forall i :: 0 <= i < |txs| ==> txs[i].userId in members
    ensures |members| - CountStatus(txs, periodId, Complete) - CountStatus(txs, periodId, Pending) >= 0
  {
    LiveCountIsUserCount(txs, periodId);
    LiveUsersArePayers(txs, periodId, members);
    assert |LiveUsers(txs, periodId)| <= |members| by {
      SubsetCard(LiveUsers(txs, periodId), members);
    }
  }

  lemma SubsetCard(a: set<Id>, b: set<Id>)
    requires a <= b
    ensures |a| <= |b|
  {
    assert b == a + (b - a);
  }

  /**
   * Rejecting a live transaction leaves its (user, period) with no live
   * transaction, so the member may submit again.
   */
  lemma RejectionReopensSubmission(txs: seq<Transaction>, k: nat, verifier: Id)
    requires AtMostOneLive(txs)
    requires k < |txs| && Live(txs[k])
    ensures !HasLive(txs[k := txs[k].(status := Rejected, verifierId := Some(verifier))], txs[k].userId, txs[k].periodId)
  {
  }

  /**
   * Editing a period after a submission changes what verification stores:
   * a transaction saved with its fine against one version of its period
   * gets a different fine when it is verified against an edited version.
   */
  lemma VerificationCanChangeFine()
    ensures exists t: Transaction, before: map<Id, Period>, after: map<Id, Period> ::
      && BeforeSave(t, before) == t
      && BeforeSave(t.(status := Complete, verifierId := Some(2)), after).fineAmount != t.fineAmount
  {
    var t := Transaction(1, 1, None, 100000, 2000, Some(2 * MsPerDay + 1), Transfer, Some("/uploads/proofs/p.png"), Pending);
    var before := map[1 := Period("January", 100000, 1000, 0, Some(true))];
    var after := map[1 := Period("January", 100000, 3000, 0, Some(true))];
    HookFineCharges(0, 2 * MsPerDay + 1, 1000, 2);
    HookFineCharges(0, 2 * MsPerDay + 1, 3000, 2);
    assert BeforeSave(t, before) == t;
    assert BeforeSave(t.(status := Complete, verifierId := Some(2)), after).fineAmount == 6000;
  }

  /**
   * `updatePeriod`'s field rules: name and amount when truthy, the due date
   * when given (a given date string is truthy), rate and flag whenever
   * given, a null flag included. A null rate never reaches the table.
   */
  function ApplyPatch(p: Period, u: PeriodPatch): (r: Period)
    requires !NullRate(u)
    ensures u.amount == Some(0) || u.amount == None ==> r.amount == p.amount
    ensures u.amount.Some? && u.amount.value != 0 ==> r.amount == u.amount.value
    ensures u.name == Some("") || u.name == None ==> r.name == p.name
    ensures u.name.Some? && u.name.value != "" ==> r.name == u.name.value
    ensures r.dueDate == (if u.dueDate.Some? then u.dueDate.value else p.dueDate)
    ensures r.lateFeePerDay == (if u.lateFeePerDay.Some? then u.lateFeePerDay.value.value else p.lateFeePerDay)
    ensures r.isActive == (if u.isActive.Some? then u.isActive.value else p.isActive)
  {
    var p1 := if TruthyStr(u.name) then p.(name := u.name.value) else p;
    var p2 := if TruthyInt(u.amount) then p1.(amount := u.amount.value) else p1;
    var p3 := if u.lateFeePerDay.Some? then p2.(lateFeePerDay := u.lateFeePerDay.value.value) else p2;
    var p4 := if u.dueDate.Some? then p3.(dueDate := u.dueDate.value) else p3;
    if u.isActive.Some? then p4.(isActive := u.isActive.value) else p4
  }

  /** A patch with no fields leaves the period as it was. */
  lemma EmptyPatchIsIdentity(p: Period)
    ensures ApplyPatch(p, PeriodPatch(None, None, None, None, None)) == p
  {
  }

  /**
   * The `is_active` query filter: given (an empty value included), it
   * selects the periods whose stored flag equals `value === 'true'`; a
   * NULL flag equals neither.
   */
  predicate MatchesActiveFilter(p: Period, isActive: Option<string>)
  {
    isActive.None? || p.isActive == Some(isActive.value == "true")
  }

  class Ledger {
    var periods: map<Id, Period>
    var transactions: seq<Transaction>
    var nextPeriodId: Id

    /**
     * Period ids are positive and below the next id; every transaction
     * references a stored period and passes the proof validator; at most
     * one transaction per (user, period) is PENDING or COMPLETE.
     */
    ghost predicate Valid()
      reads this
    {
      && nextPeriodId > 0
      && (forall id :: id in periods ==> 0 < id < nextPeriodId)
      && (forall i :: 0 <= i < |transactions| ==> transactions[i].periodId in periods)
      && (forall i :: 0 <= i < |transactions| ==> ProofRequired(transactions[i]))
      && AtMostOneLive(transactions)
    }

    constructor ()
      ensures Valid()
      ensures periods == map[] && transactions == [] && nextPeriodId == 1
    {
      periods := map[];
      transactions := [];
      nextPeriodId := 1;
    }

    /** Every stored transaction passes the model's `proofRequired` validator. */
    lemma StoredRowsPassValidation()
      requires Valid()
      ensures forall i :: 0 <= i < |transactions| ==> ValidateProof(transactions[i]) == Ok(transactions[i])
    {
    }

    /**
     * `getAllPeriods`: the ids of the periods the `is_active` query selects.
     * The query is tested with `!== undefined`, so `?is_active=` is
     * `Some("")` and selects the stored `false` flags.
     */
    function ListPeriods(isActive: Option<string>): (ids: set<Id>)
      reads this
      ensures forall id :: id in ids <==> id in periods && MatchesActiveFilter(periods[id], isActive)
      ensures isActive == Some("true") ==> forall id :: id in ids <==> id in periods && Active(periods[id])
      ensures isActive.Some? && isActive.value != "true" ==> forall id :: id in ids ==> !Active(periods[id])
    {
      set id | id in periods && MatchesActiveFilter(periods[id], isActive)
    }

    /** `getPeriod`. */
    function GetPeriod(id: Id): (r: Result<Period>)
      reads this
      ensures r.Err? <==> id !in periods
      ensures r.Err? ==> r.error == NotFound
      ensures r.Ok? ==> r.value == periods[id]
    {
      if id in periods then Ok(periods[id]) else Err(NotFound)
    }

    /**
     * `createPeriod`: name and amount must be truthy and a due date given
     * (a given date string is truthy); a new period is active.
     */
    method CreatePeriod(name: Option<string>, amount: Option<int>, lateFeePerDay: Option<int>, dueDate: Option<int>)
      returns (r: Result<Id>)
      requires Valid()
      modifies this
      ensures Valid()
      ensures transactions == old(transactions)
      ensures !(TruthyStr(name) && TruthyInt(amount) && dueDate.Some?) ==>
        r == Err(BadRequest(MissingFields)) && periods == old(periods) && nextPeriodId == old(nextPeriodId)
      ensures TruthyStr(name) && TruthyInt(amount) && dueDate.Some? ==>
        && r == Ok(old(nextPeriodId))
        && old(nextPeriodId) !in old(periods)
        && periods == old(periods)[old(nextPeriodId) := Period(name.value, amount.value, OrZero(lateFeePerDay), dueDate.value, Some(true))]
        && nextPeriodId == old(nextPeriodId) + 1
    {
      if !TruthyStr(name) || !TruthyInt(amount) || dueDate.None? {
        return Err(BadRequest(MissingFields));
      }
      var id := nextPeriodId;
      periods := periods[id := Period(name.value, amount.value, OrZero(lateFeePerDay), dueDate.value, Some(true))];
      nextPeriodId := nextPeriodId + 1;
      r := Ok(id);
    }

    /**
     * `updatePeriod`: a partial update of a stored period. A null rate fails
     * the column's not-null validation on save, which stores nothing.
     */
    method UpdatePeriod(id: Id, patch: PeriodPatch) returns (r: Result<Period>)
      requires Valid()
      modifies this
      ensures Valid()
      ensures transactions == old(transactions) && nextPeriodId == old(nextPeriodId)
      ensures id !in old(periods) ==> r == Err(NotFound) && periods == old(periods)
      ensures id in old(periods) && NullRate(patch) ==>
        r == Err(BadRequest(ValidationError)) && periods == old(periods)
      ensures id in old(periods) && !NullRate(patch) ==>
        && r == Ok(ApplyPatch(old(periods)[id], patch))
        && periods == old(periods)[id := ApplyPatch(old(periods)[id], patch)]
    {
      if id !in periods {
        return Err(NotFound);
      }
      var p := periods[id];
      if TruthyStr(patch.name) { p := p.(name := patch.name.value); }
      if TruthyInt(patch.amount) { p := p.(amount := patch.amount.value); }
      if patch.lateFeePerDay.Some? {
        if patch.lateFeePerDay.value.None? {
          return Err(BadRequest(ValidationError));
        }
        p := p.(lateFeePerDay := patch.lateFeePerDay.value.value);
      }
      if patch.dueDate.Some? { p := p.(dueDate := patch.dueDate.value); }
      if patch.isActive.Some? { p := p.(isActive := patch.isActive.value); }
      periods := periods[id := p];
      r := Ok(p);
    }

    /** `deletePeriod`: refused while any transaction, in any status, references the period. */
    method DeletePeriod(id: Id) returns (r: Result<()>)
      requires Valid()
      modifies this
      ensures Valid()
      ensures transactions == old(transactions) && nextPeriodId == old(nextPeriodId)
      ensures id !in old(periods) ==> r == Err(NotFound) && periods == old(periods)
      ensures id in old(periods) && (exists i :: 0 <= i < |transactions| && transactions[i].periodId == id) ==>
        r == Err(BadRequest(HasTransactions)) && periods == old(periods)
      ensures id in old(periods) && (forall i :: 0 <= i < |transactions| ==> transactions[i].periodId != id) ==>
        r == Ok(()) && periods == old(periods) - {id}
    {
      if id !in periods {
        return Err(NotFound);
      }
      var referenced := exists i :: 0 <= i < |transactions| && transactions[i].periodId == id;
      if referenced {
        return Err(BadRequest(HasTransactions));
      }
      periods := periods - {id};
      r := Ok(());
    }

    /**
     * `submitTransaction`: guards in the source's order, then one insert
     * whose fine the save hook recomputes. A payment method outside the
     * column's ENUM passes every guard and is refused by the database on
     * insert. No failure changes the ledger.
     */
    method SubmitTransaction(user: Id, s: Submission) returns (r: Result<Id>)
      requires Valid()
      modifies this
      ensures Valid()
      ensures periods == old(periods) && nextPeriodId == old(nextPeriodId)
      ensures r.Err? ==> transactions == old(transactions)
      ensures !HasRequiredFields(s) ==> r == Err(BadRequest(MissingFields))
      ensures HasRequiredFields(s) && (s.periodId.value < 0 || s.periodId.value !in periods) ==> r == Err(NotFound)
      ensures HasRequiredFields(s) && s.periodId.value >= 0 && s.periodId.value in periods ==>
        var pid := s.periodId.value as Id;
        && (!Active(periods[pid]) ==> r == Err(BadRequest(PeriodInactive)))
        && (Active(periods[pid]) && HasLive(old(transactions), user, pid) ==> r == Err(BadRequest(AlreadySubmitted)))
        && ((Active(periods[pid]) && !HasLive(old(transactions), user, pid) && s.paymentMethod.value == "TRANSFER"
             && s.proofFile.None?) ==> r == Err(BadRequest(ProofMissing)))
        && ((Active(periods[pid]) && !HasLive(old(transactions), user, pid)
             && ParseMethod(s.paymentMethod.value).None?) ==> r == Err(DatabaseError))
      ensures r.Ok? <==>
        && HasRequiredFields(s) && s.periodId.value >= 0 && s.periodId.value in periods
        && Active(periods[s.periodId.value])
        && !HasLive(old(transactions), user, s.periodId.value)
        && !(s.paymentMethod.value == "TRANSFER" && s.proofFile.None?)
        && ParseMethod(s.paymentMethod.value).Some?
      ensures r.Ok? ==>
        && HasRequiredFields(s) && s.periodId.value >= 0
        && var pid := s.periodId.value as Id;
        && var period := periods[pid];
        && r.value == |old(transactions)| && |transactions| == r.value + 1
        && var t := transactions[r.value];
        && transactions == old(transactions) + [t]
        && Active(period) && !HasLive(old(transactions), user, pid)
        && t.userId == user && t.periodId == pid && t.verifierId == None
        && t.amountPaid == period.amount
        && t.paymentDate == s.paymentDate
        && MethodName(t.paymentMethod) == s.paymentMethod.value
        && (t.status == Complete <==> t.paymentMethod == Cash)
        && (t.status == Pending <==> t.paymentMethod == Transfer)
        && (s.proofFile.None? <==> t.proofImageUrl.None?)
        && (s.proofFile.Some? ==> t.proofImageUrl == Some("/uploads/proofs/" + s.proofFile.value))
        && t.fineAmount == HookFine(period.dueDate, s.paymentDate.value, period.lateFeePerDay)
    {
      if !HasRequiredFields(s) {
        return Err(BadRequest(MissingFields));
      }
      if s.periodId.value < 0 || s.periodId.value !in periods {
        return Err(NotFound);
      }
      var pid: Id := s.periodId.value;
      var period := periods[pid];
      if !Active(period) {
        return Err(BadRequest(PeriodInactive));
      }
      if HasLive(transactions, user, pid) {
        return Err(BadRequest(AlreadySubmitted));
      }
      var date := s.paymentDate.value;
      var lateFee := CalculateLateFee(period.dueDate, date, period.lateFeePerDay);
      var methodName := s.paymentMethod.value;
      if methodName == "TRANSFER" && s.proofFile.None? {
        return Err(BadRequest(ProofMissing));
      }
      var method_ := ParseMethod(methodName);
      if method_.None? {
        return Err(DatabaseError);
      }
      var draft := NewTransaction(user, pid).(
        amountPaid := period.amount,
        fineAmount := lateFee,
        paymentDate := Some(date),
        paymentMethod := method_.value,
        proofImageUrl := if s.proofFile.Some? then Some("/uploads/proofs/" + s.proofFile.value) else None,
        status := if methodName == "CASH" then Complete else Pending);
      assert ValidateProof(draft) == Ok(draft);
      var stored := BeforeSave(draft, periods);
      transactions := transactions + [stored];
      r := Ok(|transactions| - 1);
      assert AtMostOneLive(transactions) by {
        forall a, b | 0 <= a < |transactions| && 0 <= b < |transactions| && a != b && Live(transactions[a]) && Live(transactions[b])
          && transactions[a].periodId == transactions[b].periodId
          ensures transactions[a].userId != transactions[b].userId
        {
          if a == |transactions| - 1 || b == |transactions| - 1 {
            var other := if a == |transactions| - 1 then b else a;
            assert transactions[other] == old(transactions)[other];
          }
        }
      }
    }

    /**
     * `verifyTransaction`: the decision is checked before the lookup; only a
     * PENDING transaction moves, to the decision, with the verifier
     * recorded; the save hook then recomputes the fine from the period as
     * it is now.
     */
    method VerifyTransaction(verifier: Id, txId: Id, decision: Option<string>) returns (r: Result<Transaction>)
      requires Valid()
      modifies this
      ensures Valid()
      ensures periods == old(periods) && nextPeriodId == old(nextPeriodId)
      ensures r.Err? ==> transactions == old(transactions)
      ensures decision != Some("COMPLETE") && decision != Some("REJECTED") ==> r == Err(BadRequest(InvalidDecision))
      ensures (decision == Some("COMPLETE") || decision == Some("REJECTED")) && txId >= |old(transactions)| ==>
        r == Err(NotFound)
      ensures ((decision == Some("COMPLETE") || decision == Some("REJECTED")) && txId < |old(transactions)|
               && old(transactions)[txId].status != Pending) ==> r == Err(BadRequest(NotPending))
      ensures ((decision == Some("COMPLETE") || decision == Some("REJECTED")) && txId < |old(transactions)|
               && old(transactions)[txId].status == Pending) ==>
        var decided := if decision == Some("COMPLETE") then Complete else Rejected;
        var t := BeforeSave(old(transactions)[txId].(status := decided, verifierId := Some(verifier)), periods);
        r == Ok(t) && transactions == old(transactions)[txId := t]
    {
      if decision != Some("COMPLETE") && decision != Some("REJECTED") {
        return Err(BadRequest(InvalidDecision));
      }
      if txId >= |transactions| {
        return Err(NotFound);
      }
      var t := transactions[txId];
      if t.status != Pending {
        return Err(BadRequest(NotPending));
      }
      t := t.(status := if decision == Some("COMPLETE") then Complete else Rejected);
      t := t.(verifierId := Some(verifier));
      t := BeforeSave(t, periods);
      transactions := transactions[txId := t];
      r := Ok(t);
      assert AtMostOneLive(transactions) by {
        forall a, b | 0 <= a < |transactions| && 0 <= b < |transactions| && a != b && Live(transactions[a]) && Live(transactions[b])
          && transactions[a].periodId == transactions[b].periodId
          ensures transactions[a].userId != transactions[b].userId
        {
          assert Live(old(transactions)[a]) && Live(old(transactions)[b]);
        }
      }
    }

    /**
     * `getStatistics` for a period, with `totalMembers` the global user
     * count: paid and pending counts, unpaid as their difference from the
     * member count, and collected and fined totals over COMPLETE
     * transactions, 0 when there are none. `period_id` is a query-string
     * value: `None` when absent or empty; any other value, "0" included, is
     * truthy and is looked up.
     */
    function GetStatistics(periodId: Option<int>, totalMembers: nat): (r: Result<Stats>)
      reads this
      ensures periodId.None? ==> r == Err(BadRequest(MissingFields))
      ensures periodId.Some? && (periodId.value < 0 || periodId.value !in periods) ==> r == Err(NotFound)
      ensures periodId.Some? && periodId.value >= 0 && periodId.value in periods ==>
        var paid := CountStatus(transactions, periodId.value, Complete);
        var pending := CountStatus(transactions, periodId.value, Pending);
        r == Ok(Stats(totalMembers, paid, pending, totalMembers - paid - pending,
                      SumCollected(transactions, periodId.value), SumFines(transactions, periodId.value)))
      ensures r.Ok? ==>
        && r.value.paidCount + r.value.pendingCount + r.value.unpaidCount == totalMembers
        && r.value.paidCount + r.value.pendingCount <= |transactions|
        && (r.value.paidCount == 0 ==> r.value.totalCollected == 0 && r.value.totalFines == 0)
    {
      if periodId.None? then Err(BadRequest(MissingFields))
      else if periodId.value < 0 || periodId.value !in periods then Err(NotFound)
      else
        var pid: Id := periodId.value;
        var paid := CountStatus(transactions, pid, Complete);
        var pending := CountStatus(transactions, pid, Pending);
        assert paid == 0 ==> SumCollected(transactions, pid) == 0 && SumFines(transactions, pid) == 0 by {
          if paid == 0 {
            NoCompleteNoTotals(transactions, pid);
          }
        }
        CountsBounded(transactions, pid);
        Ok(Stats(totalMembers, paid, pending, totalMembers - paid - pending,
                 SumCollected(transactions, pid), SumFines(transactions, pid)))
    }
  }

  /** The paid and pending counts of a period never exceed the table size together. */
  lemma {:induction false} CountsBounded(txs: seq<Transaction>, periodId: Id)
    ensures CountStatus(txs, periodId, Complete) + CountStatus(txs, periodId, Pending) <= |txs|
  {
    if txs != [] {
      CountsBounded(txs[..|txs| - 1], periodId);
    }
  }
}
