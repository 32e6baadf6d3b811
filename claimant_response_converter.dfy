/**
 * The claimant-response converter: turns a claimant's assembled draft into the
 * finalised response sent to the claim store, a rejection or an acceptance,
 * or the error the converter throws for a draft it cannot convert.
 *
 * "Today" is a parameter rather than a clock reading.
 */
module ClaimantResponseConverter {
  import opened Wrappers
  import opened ClaimantResponseModel

  /** Days between today and the payment date of an immediate payment. */
  const IMMEDIATE_PAYMENT_DAYS: int := 5

  /** The names the claim store accepts for a formalised repayment plan. */
  const FORMALISE_OPTION_NAMES: set<string> := {"SETTLEMENT", "CCJ", "REFER_TO_JUDGE"}

  // ---------------------------------------------------------------------------
  // Rounding an amount to two decimal places
  // ---------------------------------------------------------------------------

  /** `x` is a whole number of pence. */
  predicate IsWholePence(x: Amount) {
    (x * 100.0).Floor as real == x * 100.0
  }

  /** Pence in a non-negative amount, halves rounded up. */
  function RoundedPence(x: Amount): (n: int)
    requires x >= 0.0
    ensures x - 0.005 < n as real / 100.0 <= x + 0.005
  {
    var y := x * 100.0 + 0.5;
    assert y - 1.0 < y.Floor as real <= y;
    y.Floor
  }

  /** A whole number of pence, written as an amount, is whole pence. */
  lemma PenceAreWhole(n: int)
    ensures IsWholePence(n as real / 100.0)
  {
    assert (n as real / 100.0) * 100.0 == n as real;
  }

  /**
   * `Number(x.toFixed(2))` on an exact decimal: the magnitude is rounded to
   * the nearest hundredth, a tie going to the larger magnitude, and the sign
   * is put back.
   */
  function Round2(x: Amount): (r: Amount)
    ensures IsWholePence(r)
    ensures x >= 0.0 ==> r >= 0.0 && x - 0.005 < r <= x + 0.005
    ensures x < 0.0 ==> r <= 0.0 && x - 0.005 <= r < x + 0.005
  {
    if x >= 0.0 then
      PenceAreWhole(RoundedPence(x));
      RoundedPence(x) as real / 100.0
    else
      PenceAreWhole(-RoundedPence(-x));
      (-RoundedPence(-x)) as real / 100.0
  }

  /** An amount already in whole pence is left as it is. */
  lemma Round2OfWholePence(x: Amount)
    requires IsWholePence(x)
    ensures Round2(x) == x
  {
    var n := (x * 100.0).Floor;
    assert x * 100.0 == n as real;
    if x >= 0.0 {
      assert (x * 100.0 + 0.5).Floor == n;
      assert n as real / 100.0 == x;
    } else {
      assert (-x) * 100.0 + 0.5 == (-n) as real + 0.5;
      assert ((-x) * 100.0 + 0.5).Floor == -n;
      assert (-(-n)) as real / 100.0 == x;
    }
  }

  /** Rounding twice is rounding once. */
  lemma Round2Idempotent(x: Amount)
    ensures Round2(Round2(x)) == Round2(x)
  {
    Round2OfWholePence(Round2(x));
  }

  /** No whole-pence amount is closer to `x` than its rounding. */
  lemma Round2IsNearest(x: Amount, c: Amount)
    requires IsWholePence(c)
    ensures Abs(Round2(x) - x) <= Abs(c - x)
  {
    var r := Round2(x);
    var n, m := (r * 100.0).Floor, (c * 100.0).Floor;
    if n != m {
      assert n <= m - 1 || m + 1 <= n;
      assert Abs(c - r) >= 0.01 by {
        assert c - r == (m - n) as real / 100.0;
      }
    }
  }

  function Abs(x: real): real {
    if x < 0.0 then -x else x
  }

  /** The worked examples of the rounding: 123.456 becomes 123.46, 100 stays 100. */
  lemma Round2Examples()
    ensures Round2(123.456) == 123.46
    ensures Round2(100.0) == 100.0
  {
    assert RoundedPence(123.456) == 12346;
    assert RoundedPence(100.0) == 10000;
  }

  /** A repayment plan with its instalment amount rounded to pence. */
  function RoundedPlan(plan: RepaymentPlan): (r: RepaymentPlan)
    ensures r.instalmentAmount == Round2(plan.instalmentAmount)
    ensures IsWholePence(r.instalmentAmount)
    ensures Abs(r.instalmentAmount - plan.instalmentAmount) <= 0.005
    ensures r.firstPaymentDate == plan.firstPaymentDate
    ensures r.paymentSchedule == plan.paymentSchedule
  {
    plan.(instalmentAmount := Round2(plan.instalmentAmount))
  }

  /** The court's decision built from the court-offered intention: the same
      intention with any repayment plan's instalment amount rounded to pence. */
  function RoundedCourtDecision(offered: PaymentIntention): (r: PaymentIntention)
    ensures r.paymentOption == offered.paymentOption
    ensures r.paymentDate == offered.paymentDate
    ensures r.repaymentPlan.Some? <==> offered.repaymentPlan.Some?
    ensures r.repaymentPlan.Some? ==>
      && IsWholePence(r.repaymentPlan.value.instalmentAmount)
      && r.repaymentPlan.value.firstPaymentDate == offered.repaymentPlan.value.firstPaymentDate
      && r.repaymentPlan.value.paymentSchedule == offered.repaymentPlan.value.paymentSchedule
    ensures offered.repaymentPlan.Some? ==> r.repaymentPlan == Some(RoundedPlan(offered.repaymentPlan.value))
  {
    match offered.repaymentPlan
    case None => offered
    case Some(plan) => offered.(repaymentPlan := Some(RoundedPlan(plan)))
  }

  /** A court decision that was already rounded is not changed by rounding it again. */
  lemma RoundedCourtDecisionIdempotent(offered: PaymentIntention)
    ensures RoundedCourtDecision(RoundedCourtDecision(offered)) == RoundedCourtDecision(offered)
  {
    if offered.repaymentPlan.Some? {
      Round2Idempotent(offered.repaymentPlan.value.instalmentAmount);
    }
  }

  // ---------------------------------------------------------------------------
  // Sub-conversions
  // ---------------------------------------------------------------------------

  /** The claim-store name of a formalise option; an unknown option is an error naming its value. */
  function GetFormaliseOption(option: FormaliseRepaymentPlanOption): (r: Result<string, ConversionError>)
    ensures r.Success? <==> !option.UnknownFormaliseOption?
    ensures r.Success? ==> r.value in FORMALISE_OPTION_NAMES
    ensures r.Failure? ==> r.error == UnknownFormaliseRepaymentOption(option.value)
  {
    match option
    case SIGN_SETTLEMENT_AGREEMENT => Success("SETTLEMENT")
    case REQUEST_COUNTY_COURT_JUDGEMENT => Success("CCJ")
    case REFER_TO_JUDGE => Success("REFER_TO_JUDGE")
    case UnknownFormaliseOption(value) => Failure(UnknownFormaliseRepaymentOption(value))
  }

  /** The formalise option read back from its claim-store name. */
  function FormaliseOptionNamed(name: string): Option<FormaliseRepaymentPlanOption> {
    if name == "SETTLEMENT" then Some(SIGN_SETTLEMENT_AGREEMENT)
    else if name == "CCJ" then Some(REQUEST_COUNTY_COURT_JUDGEMENT)
    else if name == "REFER_TO_JUDGE" then Some(REFER_TO_JUDGE)
    else None
  }

  /** The lookup is a bijection between the three known options and the three names. */
  lemma FormaliseOptionRoundTrip(option: FormaliseRepaymentPlanOption, name: string)
    ensures GetFormaliseOption(option) == Success(name) <==>
            (name in FORMALISE_OPTION_NAMES && FormaliseOptionNamed(name) == Some(option))
  {
  }

  /** The draft's formalise choice, converted only when the claimant made one. */
  function FormaliseOptionOf(plan: Option<FormaliseRepaymentPlanOption>): (r: Result<Option<string>, ConversionError>)
    ensures plan.None? ==> r == Success(None)
    ensures plan.Some? ==> r.Success? == GetFormaliseOption(plan.value).Success?
    ensures plan.Some? && r.Success? ==> r.value == Some(GetFormaliseOption(plan.value).value)
    ensures plan.Some? && r.Failure? ==> r.error == GetFormaliseOption(plan.value).error
  {
    match plan
    case None => Success(None)
    case Some(option) =>
      var name :- GetFormaliseOption(option);
      Success(Some(name))
  }

  /**
   * The court determination of an accepted plan. A decision by the court
   * needs the court-offered intention and a decision for the claimant in
   * favour of the defendant needs the court-calculated one; with neither
   * intention there is no determination.
   */
  function CreateCourtDetermination(d: DraftClaimantResponse): (r: Result<Option<CourtDetermination>, ConversionError>)
    ensures r == Failure(CourtOfferedIntentionMissing) <==>
      d.courtDecisionType == Some(COURT) && d.courtOfferedPaymentIntention.None?
    ensures r == Failure(CourtCalculatedIntentionMissing) <==>
      d.courtDecisionType == Some(CLAIMANT_IN_FAVOUR_OF_DEFENDANT) && d.courtCalculatedPaymentIntention.None?
    ensures r.Failure? ==> r.error in {CourtOfferedIntentionMissing, CourtCalculatedIntentionMissing}
    ensures r.Success? ==>
      (r.value.Some? <==> d.courtOfferedPaymentIntention.Some? || d.courtCalculatedPaymentIntention.Some?)
    ensures r.Success? && r.value.Some? ==>
      var cd := r.value.value;
      && cd.courtPaymentIntention == d.courtCalculatedPaymentIntention
      && (cd.courtDecision.Some? <==> d.courtOfferedPaymentIntention.Some?)
      && (cd.courtDecision.Some? ==> cd.courtDecision.value == RoundedCourtDecision(d.courtOfferedPaymentIntention.value))
      && cd.rejectionReason == d.rejectionReason
      && (d.disposableIncome.Some? ==> cd.disposableIncome == d.disposableIncome.value)
      && (d.disposableIncome.None? ==> cd.disposableIncome == 0.0)
      && cd.decisionType == d.courtDecisionType
  {
    if d.courtDecisionType == Some(COURT) && d.courtOfferedPaymentIntention.None? then
      Failure(CourtOfferedIntentionMissing)
    else if d.courtDecisionType == Some(CLAIMANT_IN_FAVOUR_OF_DEFENDANT) && d.courtCalculatedPaymentIntention.None? then
      Failure(CourtCalculatedIntentionMissing)
    else if d.courtCalculatedPaymentIntention.None? && d.courtOfferedPaymentIntention.None? then
      Success(None)
    else
      var courtDecision :=
        match d.courtOfferedPaymentIntention
        case None => None
        case Some(offered) => Some(RoundedCourtDecision(offered));
      Success(Some(CourtDetermination(
        courtDecision := courtDecision,
        courtPaymentIntention := d.courtCalculatedPaymentIntention,
        rejectionReason := d.rejectionReason,
        disposableIncome := d.disposableIncome.GetOr(0.0),
        decisionType := d.courtDecisionType)))
  }

  /** The payment date of a payment option: five days from today for an
      immediate payment, the chosen date for payment by a set date; any other
      option is an error naming it. */
  function ConvertPaymentDate(option: PaymentOption, date: Day, today: Day): (r: Result<Day, ConversionError>)
    ensures r.Success? <==> option == IMMEDIATELY || option == BY_SPECIFIED_DATE
    ensures option == IMMEDIATELY ==> r.Success? && r.value - today == IMMEDIATE_PAYMENT_DAYS
    ensures option == BY_SPECIFIED_DATE ==> r.Success? && r.value == date
    ensures r.Failure? ==> r.error == UnknownPaymentOption(option)
  {
    match option
    case IMMEDIATELY => Success(today + IMMEDIATE_PAYMENT_DAYS)
    case BY_SPECIFIED_DATE => Success(date)
    case _ => Failure(UnknownPaymentOption(option))
  }

  /** Decision types under which the claimant must have proposed a payment intention. */
  predicate RequiresClaimantIntention(decisionType: Option<DecisionType>) {
    decisionType == Some(CLAIMANT) || decisionType == Some(CLAIMANT_IN_FAVOUR_OF_DEFENDANT)
  }

  /** A draft repayment plan as the claim store holds it. */
  function ConvertRepaymentPlan(plan: PaymentPlan): (r: RepaymentPlan)
    ensures r.instalmentAmount == plan.instalmentAmount
    ensures r.firstPaymentDate == plan.firstPaymentDate
    ensures r.paymentSchedule == plan.paymentSchedule
  {
    RepaymentPlan(plan.instalmentAmount, plan.firstPaymentDate, plan.paymentSchedule)
  }

  /**
   * The claimant's own payment intention. Without a draft intention it is
   * absent, unless the decision type demands one. With one, the payment date
   * is converted only when the draft holds a date, and the plan is copied
   * only when the draft holds a plan.
   */
  function ConvertPaymentIntention(draft: Option<DraftPaymentIntention>, decisionType: Option<DecisionType>, today: Day)
    : (r: Result<Option<PaymentIntention>, ConversionError>)
    ensures draft.None? ==> (r.Failure? <==> RequiresClaimantIntention(decisionType))
    ensures draft.None? && r.Failure? ==> r.error == ClaimantIntentionMissing(decisionType.value)
    ensures draft.None? && r.Success? ==> r.value.None?
    ensures draft.Some? ==>
      (r.Failure? <==> draft.value.paymentDate.Some? &&
                       draft.value.paymentOption != IMMEDIATELY && draft.value.paymentOption != BY_SPECIFIED_DATE)
    ensures draft.Some? && r.Failure? ==> r.error == UnknownPaymentOption(draft.value.paymentOption)
    ensures draft.Some? && r.Success? ==>
      && r.value.Some?
      && r.value.value.paymentOption == draft.value.paymentOption
      && (r.value.value.paymentDate.Some? <==> draft.value.paymentDate.Some?)
      && (r.value.value.paymentDate.Some? ==>
            Success(r.value.value.paymentDate.value) ==
            ConvertPaymentDate(draft.value.paymentOption, draft.value.paymentDate.value, today))
      && (r.value.value.repaymentPlan.Some? <==> draft.value.paymentPlan.Some?)
      && (r.value.value.repaymentPlan.Some? ==>
            r.value.value.repaymentPlan.value == ConvertRepaymentPlan(draft.value.paymentPlan.value))
  {
    match draft
    case Some(intention) =>
      var paymentDate :-
        match intention.paymentDate
        case None => Success(None)
        case Some(date) =>
          var converted :- ConvertPaymentDate(intention.paymentOption, date, today);
          Success(Some(converted));
      var repaymentPlan :=
        match intention.paymentPlan
        case None => None
        case Some(plan) => Some(ConvertRepaymentPlan(plan));
      Success(Some(PaymentIntention(intention.paymentOption, paymentDate, repaymentPlan)))
    case None =>
      if RequiresClaimantIntention(decisionType) then Failure(ClaimantIntentionMissing(decisionType.value))
      else Success(None)
  }

  // ---------------------------------------------------------------------------
  // The whole conversion
  // ---------------------------------------------------------------------------

  /** The draft says the claimant does not accept the defendant's admission. */
  predicate IsRejectionDraft(d: DraftClaimantResponse) {
    d.settleAdmitted == Some(YesNoOption.NO)
  }

  /** The rejection built from a draft: each field present exactly when its draft field is. */
  function RejectionOf(d: DraftClaimantResponse): (r: ClaimantResponse)
    ensures r.ResponseRejection?
    ensures r.amountPaid == d.paidAmount
    ensures r.freeMediation.Some? <==> d.freeMediation.Some?
    ensures r.freeMediation.Some? ==> (r.freeMediation.value <==> d.freeMediation.value == FreeMediationOption.YES)
    ensures r.reason == d.rejectionReason
  {
    var freeMediation :=
      match d.freeMediation
      case None => None
      case Some(option) => Some(option == FreeMediationOption.YES);
    ResponseRejection(d.paidAmount, freeMediation, d.rejectionReason)
  }

  /**
   * The acceptance built from a draft. The sub-conversions run in the
   * source's order (formalise option, court determination, claimant payment
   * intention), so the first one to fail names the error.
   */
  function CreateResponseAcceptance(d: DraftClaimantResponse, today: Day): (r: Result<ClaimantResponse, ConversionError>)
    ensures r.Success? ==> r.value.ResponseAcceptance? && r.value.amountPaid == d.paidAmount
    ensures r.Failure? <==>
      || FormaliseOptionOf(d.formaliseRepaymentPlan).Failure?
      || CreateCourtDetermination(d).Failure?
      || ConvertPaymentIntention(d.alternatePaymentMethod, d.courtDecisionType, today).Failure?
    ensures FormaliseOptionOf(d.formaliseRepaymentPlan).Failure? ==>
      r == Failure(FormaliseOptionOf(d.formaliseRepaymentPlan).error)
    ensures FormaliseOptionOf(d.formaliseRepaymentPlan).Success? && CreateCourtDetermination(d).Failure? ==>
      r == Failure(CreateCourtDetermination(d).error)
    ensures && FormaliseOptionOf(d.formaliseRepaymentPlan).Success?
            && CreateCourtDetermination(d).Success?
            && ConvertPaymentIntention(d.alternatePaymentMethod, d.courtDecisionType, today).Failure? ==>
      r == Failure(ConvertPaymentIntention(d.alternatePaymentMethod, d.courtDecisionType, today).error)
    ensures r.Success? ==>
      && r.value.formaliseOption == FormaliseOptionOf(d.formaliseRepaymentPlan).value
      && r.value.courtDetermination == CreateCourtDetermination(d).value
      && r.value.claimantPaymentIntention ==
           ConvertPaymentIntention(d.alternatePaymentMethod, d.courtDecisionType, today).value
  {
    var formaliseOption :- FormaliseOptionOf(d.formaliseRepaymentPlan);
    var courtDetermination :- CreateCourtDetermination(d);
    var claimantPaymentIntention :- ConvertPaymentIntention(d.alternatePaymentMethod, d.courtDecisionType, today);
    Success(ResponseAcceptance(d.paidAmount, formaliseOption, courtDetermination, claimantPaymentIntention))
  }

  /** The finalised claimant response: a rejection when the draft says the
      admission is not accepted, otherwise an acceptance or the error that
      building it throws. */
  function ConvertToClaimantResponse(d: DraftClaimantResponse, today: Day): (r: Result<ClaimantResponse, ConversionError>)
    ensures IsRejectionDraft(d) ==> r.Success? && r.value.ResponseRejection?
    ensures IsRejectionDraft(d) ==>
      && r.value.amountPaid == d.paidAmount
      && (r.value.freeMediation.Some? <==> d.freeMediation.Some?)
      && (r.value.freeMediation.Some? ==> (r.value.freeMediation.value <==> d.freeMediation.value == FreeMediationOption.YES))
      && r.value.reason == d.rejectionReason
    ensures !IsRejectionDraft(d) ==> r == CreateResponseAcceptance(d, today)
    ensures r.Success? ==> (r.value.ResponseRejection? <==> IsRejectionDraft(d))
  {
    if IsRejectionDraft(d) then Success(RejectionOf(d))
    else CreateResponseAcceptance(d, today)
  }

  // ---------------------------------------------------------------------------
  // Properties of the whole conversion
  // ---------------------------------------------------------------------------

  /**
   * The drafts the converter accepts, stated field by field: a rejection is
   * always convertible; an acceptance needs a known formalise option, the
   * intention its decision type depends on, a claimant intention when the
   * decision type calls for one, and a payment option with a date rule when
   * the claimant's intention holds a date.
   */
  predicate ConvertibleDraft(d: DraftClaimantResponse) {
    || IsRejectionDraft(d)
    || (
      && (d.formaliseRepaymentPlan.Some? ==> !d.formaliseRepaymentPlan.value.UnknownFormaliseOption?)
      && (d.courtDecisionType == Some(COURT) ==> d.courtOfferedPaymentIntention.Some?)
      && (d.courtDecisionType == Some(CLAIMANT_IN_FAVOUR_OF_DEFENDANT) ==> d.courtCalculatedPaymentIntention.Some?)
      && (RequiresClaimantIntention(d.courtDecisionType) ==> d.alternatePaymentMethod.Some?)
      && (d.alternatePaymentMethod.Some? && d.alternatePaymentMethod.value.paymentDate.Some? ==>
            d.alternatePaymentMethod.value.paymentOption in {IMMEDIATELY, BY_SPECIFIED_DATE}))
  }

  /** The conversion succeeds exactly on the convertible drafts, whatever the day. */
  lemma ConversionSucceedsIffConvertible(d: DraftClaimantResponse, today: Day)
    ensures ConvertToClaimantResponse(d, today).Success? <==> ConvertibleDraft(d)
  {
  }

  /** What an acceptance holds: a determination exactly when the draft has a
      court intention, rounded to pence; a claimant intention exactly when the
      draft has one; a formalise name exactly when the draft has a choice. */
  lemma AcceptanceShape(d: DraftClaimantResponse, today: Day)
    requires ConvertToClaimantResponse(d, today).Success?
    requires ConvertToClaimantResponse(d, today).value.ResponseAcceptance?
    ensures var a := ConvertToClaimantResponse(d, today).value;
      && (a.formaliseOption.Some? <==> d.formaliseRepaymentPlan.Some?)
      && (a.formaliseOption.Some? ==> a.formaliseOption.value in FORMALISE_OPTION_NAMES)
      && (a.courtDetermination.Some? <==>
            d.courtOfferedPaymentIntention.Some? || d.courtCalculatedPaymentIntention.Some?)
      && (a.claimantPaymentIntention.Some? <==> d.alternatePaymentMethod.Some?)
      && (a.courtDetermination.Some? && a.courtDetermination.value.courtDecision.Some? &&
          a.courtDetermination.value.courtDecision.value.repaymentPlan.Some? ==>
            IsWholePence(a.courtDetermination.value.courtDecision.value.repaymentPlan.value.instalmentAmount))
  {
  }

  /** The worked example: a rejection with an amount paid, free mediation and a reason. */
  lemma RejectionExample(today: Day)
    ensures
      var d := DraftClaimantResponse(
        settleAdmitted := Some(YesNoOption.NO), paidAmount := Some(50.0),
        freeMediation := Some(FreeMediationOption.YES), rejectionReason := Some("disagree"),
        formaliseRepaymentPlan := Some(UnknownFormaliseOption("?")), courtDecisionType := Some(COURT),
        courtOfferedPaymentIntention := None, courtCalculatedPaymentIntention := None,
        disposableIncome := None, alternatePaymentMethod := None);
      ConvertToClaimantResponse(d, today) == Success(ResponseRejection(Some(50.0), Some(true), Some("disagree")))
  {
  }

  /** The payment date follows the draft's date, not the option alone: an
      immediate payment without a draft date has no payment date. */
  lemma ImmediatePaymentWithoutDateHasNoDate(
    intention: DraftPaymentIntention, decisionType: Option<DecisionType>, today: Day)
    requires intention.paymentOption == IMMEDIATELY && intention.paymentDate.None?
    ensures ConvertPaymentIntention(Some(intention), decisionType, today).Success?
    ensures ConvertPaymentIntention(Some(intention), decisionType, today).value.value.paymentDate.None?
  {
  }

  /** A draft date is converted only for an immediate payment or a payment by
      a set date: with any other option the conversion fails, naming it. */
  lemma DatedPaymentNeedsDateOption(
    intention: DraftPaymentIntention, decisionType: Option<DecisionType>, today: Day)
    requires intention.paymentDate.Some?
    requires intention.paymentOption != IMMEDIATELY && intention.paymentOption != BY_SPECIFIED_DATE
    ensures ConvertPaymentIntention(Some(intention), decisionType, today) ==
            Failure(UnknownPaymentOption(intention.paymentOption))
  {
  }

  /** Without a draft date any option converts, instalments and unlisted ones included. */
  lemma UndatedPaymentAlwaysConverts(
    intention: DraftPaymentIntention, decisionType: Option<DecisionType>, today: Day)
    requires intention.paymentDate.None?
    ensures ConvertPaymentIntention(Some(intention), decisionType, today) ==
            Success(Some(PaymentIntention(intention.paymentOption, None,
              if intention.paymentPlan.Some? then Some(ConvertRepaymentPlan(intention.paymentPlan.value)) else None)))
  {
  }

  // ---------------------------------------------------------------------------
  // The draft's own court-offered intention is rounded in place
  // ---------------------------------------------------------------------------

  /** The conversion gets as far as building the court decision: the draft is
      an acceptance, its formalise option is known and its court checks pass. */
  predicate ReachesCourtDecision(d: DraftClaimantResponse) {
    && !IsRejectionDraft(d)
    && FormaliseOptionOf(d.formaliseRepaymentPlan).Success?
    && CreateCourtDetermination(d).Success?
    && d.courtOfferedPaymentIntention.Some?
  }

  /**
   * The draft after a conversion. The court decision is the draft's own
   * court-offered intention object, so rounding its instalment amount
   * changes the draft too, and it does so before the claimant's intention is
   * checked, so a conversion that fails there still leaves the draft rounded.
   */
  function DraftAfterConversion(d: DraftClaimantResponse): (r: DraftClaimantResponse)
    ensures r.(courtOfferedPaymentIntention := d.courtOfferedPaymentIntention) == d
    ensures ReachesCourtDecision(d) ==>
      r.courtOfferedPaymentIntention == Some(RoundedCourtDecision(d.courtOfferedPaymentIntention.value))
    ensures !ReachesCourtDecision(d) ==> r == d
  {
    if ReachesCourtDecision(d) then
      d.(courtOfferedPaymentIntention := Some(RoundedCourtDecision(d.courtOfferedPaymentIntention.value)))
    else d
  }

  /** Converting the modified draft again gives the same response, and modifies it no further. */
  lemma ReconversionIsStable(d: DraftClaimantResponse, today: Day)
    ensures ConvertToClaimantResponse(DraftAfterConversion(d), today) == ConvertToClaimantResponse(d, today)
    ensures DraftAfterConversion(DraftAfterConversion(d)) == DraftAfterConversion(d)
  {
    if ReachesCourtDecision(d) {
      RoundedCourtDecisionIdempotent(d.courtOfferedPaymentIntention.value);
    }
  }

  /** A conversion that fails on the claimant's intention has already rounded the draft. */
  lemma FailedConversionStillRoundsDraft(d: DraftClaimantResponse, today: Day)
    requires ReachesCourtDecision(d)
    requires ConvertPaymentIntention(d.alternatePaymentMethod, d.courtDecisionType, today).Failure?
    ensures ConvertToClaimantResponse(d, today).Failure?
    ensures DraftAfterConversion(d).courtOfferedPaymentIntention ==
            Some(RoundedCourtDecision(d.courtOfferedPaymentIntention.value))
  {
  }

  /** Some conversion fails and still leaves its draft changed: a draft whose
      decision type needs a claimant intention it lacks, with a court offer of
      instalments of 10.125, ends up with an offer of 10.13. */
  lemma FailingConversionCanChangeDraft()
    ensures exists d: DraftClaimantResponse, today: Day ::
      ConvertToClaimantResponse(d, today).Failure? && DraftAfterConversion(d) != d
  {
    var offered := PaymentIntention(INSTALMENTS, None, Some(RepaymentPlan(10.125, 0, EACH_WEEK)));
    var d := DraftClaimantResponse(
      settleAdmitted := None, paidAmount := None, freeMediation := None, rejectionReason := None,
      formaliseRepaymentPlan := None, courtDecisionType := Some(CLAIMANT),
      courtOfferedPaymentIntention := Some(offered), courtCalculatedPaymentIntention := None,
      disposableIncome := None, alternatePaymentMethod := None);
    assert RoundedPence(10.125) == 1013;
    assert DraftAfterConversion(d).courtOfferedPaymentIntention.value.repaymentPlan.value.instalmentAmount == 10.13;
    assert ConvertToClaimantResponse(d, 0).Failure? && DraftAfterConversion(d) != d;
  }

  /** A repayment plan object that the draft and the court decision share. */
  class RepaymentPlanObject {
    var instalmentAmount: Amount
    var firstPaymentDate: Day
    var paymentSchedule: PaymentSchedule

    function Value(): RepaymentPlan
      reads this
    {
      RepaymentPlan(instalmentAmount, firstPaymentDate, paymentSchedule)
    }

    constructor (plan: RepaymentPlan)
      ensures Value() == plan
    {
      instalmentAmount := plan.instalmentAmount;
      firstPaymentDate := plan.firstPaymentDate;
      paymentSchedule := plan.paymentSchedule;
    }

    /** Overwrites the instalment amount with its rounding to pence. */
    method RoundInstalmentAmount()
      modifies this
      ensures Value() == RoundedPlan(old(Value()))
    {
      instalmentAmount := Round2(instalmentAmount);
    }
  }

  /** The draft's court-offered payment intention, as an object. */
  class PaymentIntentionObject {
    var paymentOption: PaymentOption
    var paymentDate: Option<Day>
    var repaymentPlan: RepaymentPlanObject?

    function Value(): PaymentIntention
      reads this, repaymentPlan
    {
      PaymentIntention(paymentOption, paymentDate,
        if repaymentPlan == null then None else Some(repaymentPlan.Value()))
    }

    /** The objects a conversion may write: the shared repayment plan. */
    function PlanFrame(): set<object>
      reads this
    {
      if repaymentPlan == null then {} else {repaymentPlan}
    }
  }

  /**
   * The court determination as the converter builds it, with the draft's
   * court-offered intention held as the object `offered`: the court decision
   * is that very object, and its plan's instalment amount is rounded in place.
   */
  method CreateCourtDeterminationInPlace(d: DraftClaimantResponse, offered: PaymentIntentionObject?)
    returns (r: Result<Option<CourtDetermination>, ConversionError>, decision: PaymentIntentionObject?)
    requires offered == null <==> d.courtOfferedPaymentIntention.None?
    requires offered != null ==> offered.Value() == d.courtOfferedPaymentIntention.value
    modifies if offered == null then {} else offered.PlanFrame()
    ensures r == CreateCourtDetermination(d)
    ensures r.Success? && r.value.Some? ==> decision == offered
    ensures decision != null ==> r.Success? && r.value.Some? && Some(decision.Value()) == r.value.value.courtDecision
    ensures offered != null ==> offered.repaymentPlan == old(offered.repaymentPlan)
    ensures offered != null ==>
      offered.Value() == if r.Success? then RoundedCourtDecision(old(offered.Value())) else old(offered.Value())
  {
    decision := null;
    if d.courtDecisionType == Some(COURT) && offered == null {
      return Failure(CourtOfferedIntentionMissing), null;
    }
    if d.courtDecisionType == Some(CLAIMANT_IN_FAVOUR_OF_DEFENDANT) && d.courtCalculatedPaymentIntention.None? {
      return Failure(CourtCalculatedIntentionMissing), null;
    }
    if d.courtCalculatedPaymentIntention.None? && offered == null {
      return Success(None), null;
    }
    var courtDecision: Option<PaymentIntention> := None;
    if offered != null {
      decision := offered;
      if decision.repaymentPlan != null {
        decision.repaymentPlan.RoundInstalmentAmount();
      }
      courtDecision := Some(decision.Value());
    }
    r := Success(Some(CourtDetermination(
      courtDecision := courtDecision,
      courtPaymentIntention := d.courtCalculatedPaymentIntention,
      rejectionReason := d.rejectionReason,
      disposableIncome := d.disposableIncome.GetOr(0.0),
      decisionType := d.courtDecisionType)));
  }

  /**
   * The converter's entry point (`covertToClaimantResponse` in the source)
   * with the draft's court-offered intention held as the object `offered`: it returns the response the pure conversion
   * describes, and leaves `offered` as the converted draft holds it.
   */
  method ConvertToClaimantResponseInPlace(d: DraftClaimantResponse, offered: PaymentIntentionObject?, today: Day)
    returns (r: Result<ClaimantResponse, ConversionError>)
    requires offered == null <==> d.courtOfferedPaymentIntention.None?
    requires offered != null ==> offered.Value() == d.courtOfferedPaymentIntention.value
    modifies if offered == null then {} else offered.PlanFrame()
    ensures r == ConvertToClaimantResponse(d, today)
    ensures offered != null ==> offered.repaymentPlan == old(offered.repaymentPlan)
    ensures offered != null ==> Some(offered.Value()) == DraftAfterConversion(d).courtOfferedPaymentIntention
  {
    if IsRejectionDraft(d) {
      return Success(RejectionOf(d));
    }
    var formaliseOption := FormaliseOptionOf(d.formaliseRepaymentPlan);
    if formaliseOption.Failure? {
      return Failure(formaliseOption.error);
    }
    var courtDetermination, _ := CreateCourtDeterminationInPlace(d, offered);
    if courtDetermination.Failure? {
      return Failure(courtDetermination.error);
    }
    var claimantPaymentIntention := ConvertPaymentIntention(d.alternatePaymentMethod, d.courtDecisionType, today);
    if claimantPaymentIntention.Failure? {
      return Failure(claimantPaymentIntention.error);
    }
    r := Success(ResponseAcceptance(d.paidAmount, formaliseOption.value,
                                    courtDetermination.value, claimantPaymentIntention.value));
  }
}
