/**
 * The records of the dues ledger (`CashPeriod` and `CashTransaction`), the
 * transaction model's field defaults, its `proofRequired` validator and its
 * `beforeSave` hook, which recomputes the fine from the period as it is
 * stored at the moment of the save.
 */
module CashTransactionModel {
  import opened Common
  import opened LateFee

  datatype PaymentMethod = Cash | Transfer

  datatype TxStatus = Pending | Complete | Rejected

  /**
   * One billing cycle of dues; amounts are integers in the smallest currency
   * unit. `is_active` is a nullable column: `None` is a stored NULL.
   */
  datatype Period = Period(name: string, amount: int, lateFeePerDay: int, dueDate: int, isActive: Option<bool>)

  /** `period.is_active` is truthy: only a stored `true`; NULL reads as inactive. */
  predicate Active(p: Period)
  {
    p.isActive == Some(true)
  }

  /** One member's payment against one period. */
  datatype Transaction = Transaction(
    userId: Id,
    periodId: Id,
    verifierId: Option<Id>,
    amountPaid: int,
    fineAmount: int,
    paymentDate: Option<int>,
    paymentMethod: PaymentMethod,
    proofImageUrl: Option<string>,
    status: TxStatus)

  /** The column defaults of a transaction row for a user and a period. */
  function NewTransaction(userId: Id, periodId: Id): (t: Transaction)
    ensures t.userId == userId && t.periodId == periodId
    ensures t.status == Pending && t.paymentMethod == Cash
    ensures t.amountPaid == 0 && t.fineAmount == 0
    ensures t.verifierId == None && t.paymentDate == None && t.proofImageUrl == None
  {
    Transaction(userId, periodId, None, 0, 0, None, Cash, None, Pending)
  }

  /** The `proofRequired` model validator holds of the record. */
  predicate ProofRequired(t: Transaction)
  {
    t.paymentMethod == Transfer ==> TruthyStr(t.proofImageUrl)
  }

  /** Model validation on save: a failed validator rejects the record with a validation error. */
  function ValidateProof(t: Transaction): (r: Result<Transaction>)
    ensures r.Ok? ==> r.value == t
    ensures r.Err? <==> t.paymentMethod == Transfer && (t.proofImageUrl == None || t.proofImageUrl == Some(""))
    ensures r.Err? ==> r.error == BadRequest(ValidationError)
  {
    if ProofRequired(t) then Ok(t) else Err(BadRequest(ValidationError))
  }

  /**
   * The `beforeSave` hook: with a truthy period id, a payment date and the
   * period found, it overwrites the fine with the floor rule against the
   * period's current due date and rate; otherwise it leaves the record alone.
   * The rate column is non-nullable, so its `|| 0` fallback is the identity.
   */
  function BeforeSave(t: Transaction, periods: map<Id, Period>): (r: Transaction)
    ensures r == t.(fineAmount := r.fineAmount)
    ensures t.periodId == 0 || t.periodId !in periods || t.paymentDate.None? ==> r == t
    ensures t.periodId != 0 && t.periodId in periods && t.paymentDate.Some? ==>
      r.fineAmount == HookFine(periods[t.periodId].dueDate, t.paymentDate.value, periods[t.periodId].lateFeePerDay)
  {
    if t.periodId != 0 && t.periodId in periods && t.paymentDate.Some? then
      var p := periods[t.periodId];
      t.(fineAmount := if t.paymentDate.value > p.dueDate then FloorDays(t.paymentDate.value - p.dueDate) * p.lateFeePerDay else 0)
    else
      t
  }

  /** Saving twice against the same periods gives the same record as saving once. */
  lemma BeforeSaveIdempotent(t: Transaction, periods: map<Id, Period>)
    ensures BeforeSave(BeforeSave(t, periods), periods) == BeforeSave(t, periods)
  {
  }

  /**
   * The stored fine does not depend on the fine the record carried into the
   * save: whatever the caller computed (the ceiling rule of submission,
   * for one) is discarded when the period is found.
   */
  lemma BeforeSaveDiscardsIncomingFine(t: Transaction, periods: map<Id, Period>, fine: int)
    requires t.periodId != 0 && t.periodId in periods && t.paymentDate.Some?
    ensures BeforeSave(t.(fineAmount := fine), periods) == BeforeSave(t, periods)
  {
  }

  /**
   * On time, the stored fine is 0; late, it is a whole number of days'
   * fees, and a payment under one day late is stored with no fine.
   */
  lemma BeforeSaveFine(t: Transaction, periods: map<Id, Period>)
    requires t.periodId != 0 && t.periodId in periods && t.paymentDate.Some?
    ensures var p := periods[t.periodId];
      && (t.paymentDate.value <= p.dueDate ==> BeforeSave(t, periods).fineAmount == 0)
      && (p.dueDate < t.paymentDate.value < p.dueDate + MsPerDay ==> BeforeSave(t, periods).fineAmount == 0)
      && (t.paymentDate.value > p.dueDate ==>
            exists k :: k >= 0 && k * MsPerDay <= t.paymentDate.value - p.dueDate < (k + 1) * MsPerDay
                        && BeforeSave(t, periods).fineAmount == k * p.lateFeePerDay)
  {
    var p := periods[t.periodId];
    var paid := t.paymentDate.value;
    if paid > p.dueDate {
      var k := FloorDays(paid - p.dueDate);
      assert k * MsPerDay <= paid - p.dueDate < (k + 1) * MsPerDay;
      if paid < p.dueDate + MsPerDay {
        UnderOneDayLate(p.dueDate, paid, p.lateFeePerDay);
      }
    }
  }
}
