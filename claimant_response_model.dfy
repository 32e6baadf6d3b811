/**
 * The shapes the claimant-response converter reads and builds: the claimant's
 * draft (one optional field per wizard step) and the finalised claim-store
 * objects. Amounts are exact decimals (`real`), dates are day numbers.
 *
 * A draft form object that wraps a single value (`paidAmount.amount`,
 * `freeMediation.option`, `rejectionReason.text`, `settleAdmitted.admitted`,
 * `paymentDate.date`, `formaliseRepaymentPlan.option`) is flattened to an
 * optional value of its inner field.
 */
module ClaimantResponseModel {
  import opened Wrappers

  /** A calendar day, counted in days; "+5 days" is plain addition. */
  type Day = int

  /** A money amount in pounds, as an exact decimal. */
  type Amount = real

  datatype YesNoOption = YES | NO

  datatype FreeMediationOption = YES | NO

  /** Who decided the repayment plan the claimant accepts. */
  datatype DecisionType = CLAIMANT | DEFENDANT | COURT | CLAIMANT_IN_FAVOUR_OF_DEFENDANT

  /** The claimant's choice of how to formalise an accepted plan; any value
      other than the three known ones is kept as `UnknownFormaliseOption`. */
  datatype FormaliseRepaymentPlanOption =
    | SIGN_SETTLEMENT_AGREEMENT
    | REQUEST_COUNTY_COURT_JUDGEMENT
    | REFER_TO_JUDGE
    | UnknownFormaliseOption(value: string)

  /** How a party will pay. The draft's payment type and the claim-store's
      payment option carry the same values (the draft's "by set date" is the
      claim-store's BY_SPECIFIED_DATE), and the converter copies the value
      across, so one datatype serves both; a value outside the known three is
      kept as `UnlistedPaymentOption`. */
  datatype PaymentOption =
    | IMMEDIATELY
    | BY_SPECIFIED_DATE
    | INSTALMENTS
    | UnlistedPaymentOption(value: string)

  datatype PaymentSchedule = EACH_WEEK | EVERY_TWO_WEEKS | EVERY_MONTH

  // ---- claim-store objects ----

  datatype RepaymentPlan = RepaymentPlan(
    instalmentAmount: Amount,
    firstPaymentDate: Day,
    paymentSchedule: PaymentSchedule)

  datatype PaymentIntention = PaymentIntention(
    paymentOption: PaymentOption,
    paymentDate: Option<Day>,
    repaymentPlan: Option<RepaymentPlan>)

  datatype CourtDetermination = CourtDetermination(
    courtDecision: Option<PaymentIntention>,
    courtPaymentIntention: Option<PaymentIntention>,
    rejectionReason: Option<string>,
    disposableIncome: Amount,
    decisionType: Option<DecisionType>)

  /** The finalised claimant response: a rejection or an acceptance. */
  datatype ClaimantResponse =
    | ResponseRejection(
        amountPaid: Option<Amount>,
        freeMediation: Option<bool>,
        reason: Option<string>)
    | ResponseAcceptance(
        amountPaid: Option<Amount>,
        formaliseOption: Option<string>,
        courtDetermination: Option<CourtDetermination>,
        claimantPaymentIntention: Option<PaymentIntention>)

  // ---- draft objects ----

  datatype PaymentPlan = PaymentPlan(
    firstPaymentDate: Day,
    instalmentAmount: Amount,
    paymentSchedule: PaymentSchedule)

  /** The claimant's own proposed payment intention, as entered in the wizard. */
  datatype DraftPaymentIntention = DraftPaymentIntention(
    paymentOption: PaymentOption,
    paymentDate: Option<Day>,
    paymentPlan: Option<PaymentPlan>)

  datatype DraftClaimantResponse = DraftClaimantResponse(
    settleAdmitted: Option<YesNoOption>,
    paidAmount: Option<Amount>,
    freeMediation: Option<FreeMediationOption>,
    rejectionReason: Option<string>,
    formaliseRepaymentPlan: Option<FormaliseRepaymentPlanOption>,
    courtDecisionType: Option<DecisionType>,
    courtOfferedPaymentIntention: Option<PaymentIntention>,
    courtCalculatedPaymentIntention: Option<PaymentIntention>,
    disposableIncome: Option<Amount>,
    alternatePaymentMethod: Option<DraftPaymentIntention>)

  /** The errors the converter throws for drafts it cannot convert. */
  datatype ConversionError =
    | CourtOfferedIntentionMissing
    | CourtCalculatedIntentionMissing
    | UnknownFormaliseRepaymentOption(value: string)
    | ClaimantIntentionMissing(decisionType: DecisionType)
    | UnknownPaymentOption(option: PaymentOption)
}
