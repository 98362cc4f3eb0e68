/** The data-entry dialog (components/AddDataModal.tsx): its form state, the
    quick-access debt buttons, and the submit handler that turns the form into
    one call on the store, or none. Field values are kept as the numbers
    `Number(...)` would give. */
module Modal {
  import opened Text
  import opened Types
  import opened Store
  import opened Bookkeeping
  import opened Dashboard

  /** The default category of a new transaction. */
  const DefaultCategory: string := "সাধারণ"
  /** Category of a transfer to the father. */
  const FatherCategory: string := "পিতার জন্য"
  /** Fixed note of a transfer to the father. */
  const FatherNote: string := "আব্বুর ব্যাংক একাউন্টে পাঠানো টাকা"
  /** The ids behind the three quick-access debt buttons. */
  const QuickDebtIds: seq<string> := ["sd-toma", "sd-mama", "sd-kisti"]

  /** Which of the four tabs of the form is showing. */
  datatype FormMode = TransactionMode | RepaymentMode | FatherMode | SettingsMode

  /** `tData`: the general transaction form, also read by the father tab. */
  datatype TransactionFields = TransactionFields(
    amount: real, kind: TransactionType, category: string, note: string, date: Date)

  /** `repaymentData`; the empty id means no liability has been chosen yet. */
  datatype RepaymentFields = RepaymentFields(liabilityId: string, amount: real)

  /** `settings`. */
  datatype SettingsFields = SettingsFields(installment: real, fatherSupport: real)

  /** One call from the dialog into the store. */
  datatype StoreCall =
    | AddTransactionCall(draft: TransactionDraft)
    | RecordDebtPaymentCall(liabilityId: string, amount: real)
    | UpdateSettingsCall(installment: real, fatherSupport: real)

  /** What a submit does: the store calls it makes, and whether it closes the dialog. */
  datatype Submission = Submission(calls: seq<StoreCall>, closes: bool)

  /** `handleSubmit`: the form mode and fields decide on one store call, or none. */
  function Dispatch(mode: FormMode, t: TransactionFields, rep: RepaymentFields,
                    settings: SettingsFields): (r: Submission)
    ensures |r.calls| <= 1
    ensures r.closes <==> r.calls != []
    ensures r.calls == [] <==> mode == RepaymentMode && rep.liabilityId == ""
    ensures mode == TransactionMode ==>
      r.calls == [AddTransactionCall(TransactionDraft(t.kind, t.amount, t.category, t.date, t.note))]
    ensures mode == FatherMode ==>
      r.calls == [AddTransactionCall(TransactionDraft(Expense, t.amount, FatherCategory, t.date, FatherNote))]
    ensures mode == RepaymentMode && rep.liabilityId != "" ==>
      r.calls == [RecordDebtPaymentCall(rep.liabilityId, rep.amount)]
    ensures mode == SettingsMode ==>
      r.calls == [UpdateSettingsCall(settings.installment, settings.fatherSupport)]
  {
    match mode
    case TransactionMode =>
      Submission([AddTransactionCall(TransactionDraft(t.kind, t.amount, t.category, t.date, t.note))], true)
    case SettingsMode =>
      Submission([UpdateSettingsCall(settings.installment, settings.fatherSupport)], true)
    case FatherMode =>
      Submission([AddTransactionCall(TransactionDraft(Expense, t.amount, FatherCategory, t.date, FatherNote))], true)
    case RepaymentMode =>
      if rep.liabilityId == "" then Submission([], false)
      else Submission([RecordDebtPaymentCall(rep.liabilityId, rep.amount)], true)
  }

  /** The dialog's component state. */
  class ModalForm {
    var formType: FormMode
    var tData: TransactionFields
    var repaymentData: RepaymentFields
    var settings: SettingsFields

    /** No input edits the category, so it stays the default for the dialog's life. */
    predicate Valid()
      reads this
    {
      tData.category == DefaultCategory
    }

    /** A freshly opened dialog: the transaction tab, an empty expense dated today,
        no liability chosen, and the settings prefilled with the current targets. */
    constructor (currentInstallment: real, currentFatherSupport: real, today: Date)
      ensures Valid()
      ensures formType == TransactionMode
      ensures tData == TransactionFields(0.0, Expense, DefaultCategory, "", today)
      ensures repaymentData == RepaymentFields("", 0.0)
      ensures settings == SettingsFields(currentInstallment, currentFatherSupport)
    {
      formType := TransactionMode;
      tData := TransactionFields(0.0, Expense, DefaultCategory, "", today);
      repaymentData := RepaymentFields("", 0.0);
      settings := SettingsFields(currentInstallment, currentFatherSupport);
    }

    /** A tab button: switch the form mode and keep every field. */
    method SetFormType(mode: FormMode)
      modifies this
      ensures old(Valid()) ==> Valid()
      ensures formType == mode
      ensures tData == old(tData) && repaymentData == old(repaymentData) && settings == old(settings)
    {
      formType := mode;
    }

    /** The income/expense select of the transaction tab. */
    method SetTransactionType(kind: TransactionType)
      modifies this
      ensures old(Valid()) ==> Valid()
      ensures tData == old(tData).(kind := kind)
      ensures formType == old(formType) && repaymentData == old(repaymentData) && settings == old(settings)
    {
      tData := tData.(kind := kind);
    }

    /** The amount input, shared by the transaction and father tabs. */
    method SetTransactionAmount(amount: real)
      modifies this
      ensures old(Valid()) ==> Valid()
      ensures tData == old(tData).(amount := amount)
      ensures formType == old(formType) && repaymentData == old(repaymentData) && settings == old(settings)
    {
      tData := tData.(amount := amount);
    }

    /** The note input of the transaction tab. */
    method SetTransactionNote(note: string)
      modifies this
      ensures old(Valid()) ==> Valid()
      ensures tData == old(tData).(note := note)
      ensures formType == old(formType) && repaymentData == old(repaymentData) && settings == old(settings)
    {
      tData := tData.(note := note);
    }

    /** The date input of the transaction tab. */
    method SetTransactionDate(date: Date)
      modifies this
      ensures old(Valid()) ==> Valid()
      ensures tData == old(tData).(date := date)
      ensures formType == old(formType) && repaymentData == old(repaymentData) && settings == old(settings)
    {
      tData := tData.(date := date);
    }

    /** The liability select of the repayment tab. */
    method SetRepaymentLiability(id: string)
      modifies this
      ensures old(Valid()) ==> Valid()
      ensures repaymentData == old(repaymentData).(liabilityId := id)
      ensures formType == old(formType) && tData == old(tData) && settings == old(settings)
    {
      repaymentData := repaymentData.(liabilityId := id);
    }

    /** The amount input of the repayment tab. */
    method SetRepaymentAmount(amount: real)
      modifies this
      ensures old(Valid()) ==> Valid()
      ensures repaymentData == old(repaymentData).(amount := amount)
      ensures formType == old(formType) && tData == old(tData) && settings == old(settings)
    {
      repaymentData := repaymentData.(amount := amount);
    }

    /** The installment input of the settings tab. */
    method SetInstallment(installment: real)
      modifies this
      ensures old(Valid()) ==> Valid()
      ensures settings == old(settings).(installment := installment)
      ensures formType == old(formType) && tData == old(tData) && repaymentData == old(repaymentData)
    {
      settings := settings.(installment := installment);
    }

    /** The father-support input of the settings tab. */
    method SetFatherSupport(fatherSupport: real)
      modifies this
      ensures old(Valid()) ==> Valid()
      ensures settings == old(settings).(fatherSupport := fatherSupport)
      ensures formType == old(formType) && tData == old(tData) && repaymentData == old(repaymentData)
    {
      settings := settings.(fatherSupport := fatherSupport);
    }

    /** `handleQuickDebtSelect`: choose the liability and switch to the repayment
        tab; the amount already entered is kept. */
    method HandleQuickDebtSelect(id: string)
      modifies this
      ensures old(Valid()) ==> Valid()
      ensures repaymentData == RepaymentFields(id, old(repaymentData.amount))
      ensures formType == RepaymentMode
      ensures tData == old(tData) && settings == old(settings)
    {
      repaymentData := repaymentData.(liabilityId := id);
      formType := RepaymentMode;
    }

    /** `handleSubmit`, as the chain of tests the handler makes. */
    method HandleSubmit() returns (r: Submission)
      ensures r == Dispatch(formType, tData, repaymentData, settings)
      ensures Valid() && formType == TransactionMode ==>
        r.calls == [AddTransactionCall(TransactionDraft(tData.kind, tData.amount, DefaultCategory, tData.date, tData.note))]
    {
      var calls: seq<StoreCall> := [];
      if formType == TransactionMode {
        calls := [AddTransactionCall(TransactionDraft(tData.kind, tData.amount, tData.category, tData.date, tData.note))];
      } else if formType == SettingsMode {
        calls := [UpdateSettingsCall(settings.installment, settings.fatherSupport)];
      } else if formType == FatherMode {
        calls := [AddTransactionCall(TransactionDraft(Expense, tData.amount, FatherCategory, tData.date, FatherNote))];
      } else if formType == RepaymentMode {
        if repaymentData.liabilityId == "" {
          return Submission([], false);
        }
        calls := [RecordDebtPaymentCall(repaymentData.liabilityId, repaymentData.amount)];
      }
      r := Submission(calls, true);
    }
  }

  /** The store operation a call becomes, once the store has stamped it with a
      fresh id and today's date. */
  function ToOp(call: StoreCall, freshId: string, today: Date): Op
  {
    match call
    case AddTransactionCall(d) => AddTransactionOp(d, freshId)
    case RecordDebtPaymentCall(id, amount) => RecordDebtPaymentOp(id, amount, freshId, today)
    case UpdateSettingsCall(i, f) => UpdateSettingsOp(i, f)
  }

  /** The state after the store has handled a submission's calls. */
  function Perform(s: FinancialState, sub: Submission, freshId: string, today: Date): FinancialState
  {
    if sub.calls == [] then s else Apply(s, ToOp(sub.calls[0], freshId, today))
  }

  /** A submit keeps the bank balance equal to the signed sum of the transactions. */
  lemma SubmissionKeepsBalanced(s: FinancialState, mode: FormMode, t: TransactionFields,
                                rep: RepaymentFields, st: SettingsFields, freshId: string, today: Date)
    requires Balanced(s)
    requires forall x :: x in s.transactions ==> x.id != freshId
    ensures Balanced(Perform(s, Dispatch(mode, t, rep, st), freshId, today))
  {
    var sub := Dispatch(mode, t, rep, st);
    if sub.calls != [] {
      ApplyKeepsBalanced(s, ToOp(sub.calls[0], freshId, today));
    }
  }

  /** The father tab's fixed note names the father. */
  lemma FatherNoteMentionsFather()
    ensures Contains(FatherNote, FatherMarker)
  {
    assert FatherNote[..|FatherMarker|] == FatherMarker;
  }

  /** A father transfer dated this month is counted, in full, by the dashboard's
      father-transfer sum. */
  lemma FatherSubmissionCounted(s: FinancialState, t: TransactionFields, rep: RepaymentFields,
                                st: SettingsFields, freshId: string, today: Date)
    ensures var r := Perform(s, Dispatch(FatherMode, t, rep, st), freshId, today);
      && r.transactions[0].kind == Expense && r.transactions[0].category == FatherCategory
      && FatherTransfersThisMonth(r, t.date.year, t.date.month) ==
         FatherTransfersThisMonth(s, t.date.year, t.date.month) + t.amount
  {
    var d := TransactionDraft(Expense, t.amount, FatherCategory, t.date, FatherNote);
    FatherNoteMentionsFather();
    FatherTransfersAfterAdd(s, d, freshId, t.date.year, t.date.month);
  }

  /** A repayment submit with a chosen liability pays it down by the amount entered
      and books that amount as an expense. */
  lemma RepaymentSubmission(s: FinancialState, t: TransactionFields, rep: RepaymentFields,
                            st: SettingsFields, freshId: string, today: Date)
    requires rep.liabilityId != ""
    ensures var r := Perform(s, Dispatch(RepaymentMode, t, rep, st), freshId, today);
      && r == RecordDebtPayment(s, rep.liabilityId, rep.amount, freshId, today)
      && r.bankBalance == s.bankBalance - rep.amount
      && (CountId(s.liabilities, rep.liabilityId) == 1 ==>
            TotalRemainingDebt(r.liabilities) == TotalRemainingDebt(s.liabilities) - rep.amount)
  {
    RecordDebtPaymentRemainingDebt(s, rep.liabilityId, rep.amount, freshId, today);
  }

  /** The quick-access buttons name exactly the seeded debts, each of which is the
      only seeded liability with its id. */
  lemma QuickIdsAreSeeded()
    ensures |QuickDebtIds| == |Seed().liabilities|
    ensures forall i :: 0 <= i < |QuickDebtIds| ==> QuickDebtIds[i] == Seed().liabilities[i].id
    ensures forall i :: 0 <= i < |QuickDebtIds| ==> CountId(Seed().liabilities, QuickDebtIds[i]) == 1
  {
    SeedIdsUnique();
  }

  /** Quick-selecting a seeded debt and submitting pays that debt down from the seed. */
  lemma QuickPaymentFromSeed(k: nat, t: TransactionFields, amount: real,
                             st: SettingsFields, freshId: string, today: Date)
    requires k < |QuickDebtIds|
    ensures var r := Perform(Seed(), Dispatch(RepaymentMode, t, RepaymentFields(QuickDebtIds[k], amount), st),
                             freshId, today);
      TotalRemainingDebt(r.liabilities) == 290000.0 - amount
  {
    QuickIdsAreSeeded();
    SeedRemainingDebt();
    RepaymentSubmission(Seed(), t, RepaymentFields(QuickDebtIds[k], amount), st, freshId, today);
  }
}
