# Claimant response conversion and directions-questionnaire roles

A Dafny model of two pieces of decision logic in the civil money claims
citizen portal:

- **The claimant response converter.** When a claimant finishes the
  claimant-response wizard, the converter turns their draft into the
  finalised response sent to the claim store. A draft that does not accept
  the defendant's admission (`settleAdmitted` is NO) becomes a
  **rejection**. Any other draft becomes an **acceptance**, which can carry a
  formalise option (SETTLEMENT, CCJ or REFER_TO_JUDGE), a court determination
  and the claimant's own payment intention. Some drafts cannot be converted,
  and the converter throws an error for them. The model returns that error as
  a `Failure`.
- **The directions-questionnaire party helpers.** `GetPreferredParty` picks
  the party whose preference controls a shared procedural choice.
  `GetUsersRole` works out whether the signed-in user is the claimant or the
  defendant, and fails when the user has neither role.

Representation choices:

- Amounts are exact decimals (`real`).
- `Number(x.toFixed(2))` is `Round2`. It rounds the magnitude to the nearest
  hundredth, with ties going to the larger magnitude, and then puts the sign
  back.
- Dates are day numbers, so "five days from today" is `today + 5`.
- "Today" is a parameter.
- A draft form object that wraps one value (such as `paidAmount.amount` or
  `freeMediation.option`) is flattened to an optional value of that field.

The converter is pure except in one place. The court decision *is* the
draft's own court-offered intention object, and the converter rounds its
instalment amount in place, so the draft changes too. `DraftAfterConversion`
describes the draft after a conversion. The two methods
`CreateCourtDeterminationInPlace` and `ConvertToClaimantResponseInPlace` hold that
intention as an object whose repayment plan is rounded through its
`modifies` frame. They are proved to return what the pure functions return
and to leave the object as `DraftAfterConversion` says.

Only a present draft date is converted
(claimantResponseConverter.ts:103-105). An immediate payment without a draft
date gets no payment date. An instalment or unlisted option is an error only
when a draft date is present.

Files:

- `wrappers.dfy`: `Option` and `Result`.
- `claimant_response_model.dfy`: the draft and the claim-store datatypes, and the conversion errors.
- `claimant_response_converter.dfy`: the converter, the rounding, and the in-place methods.
- `directions_questionnaire_helper.dfy`: the party helpers.

## Model

| member | source | states |
|---|---|---|
| ClaimantResponseConverter.ConvertToClaimantResponse | src/main/app/claims/converters/claimantResponseConverter.ts:23-37 | A NO settlement answer always gives a rejection and never an error, whatever else the draft holds. Its fields are present exactly when their draft fields are: the amount paid, free mediation (true iff the option is YES) and the reason. Any other draft gives the acceptance result. A successful result is a rejection iff the draft is a rejection draft. |
| ClaimantResponseConverter.RejectionOf | src/main/app/claims/converters/claimantResponseConverter.ts:25-35 | The rejection's fields are present exactly when their draft fields are. Free mediation is true iff the draft option is YES. |
| ClaimantResponseConverter.CreateResponseAcceptance | src/main/app/claims/converters/claimantResponseConverter.ts:39-56 | The acceptance copies the paid amount. It fails iff one of the three sub-conversions fails. The error is the first failing sub-conversion's own error, with the offending value: the formalise lookup, then the court determination, then the claimant intention. On success each optional part is the sub-conversion's result. |
| ClaimantResponseConverter.FormaliseOptionOf | src/main/app/claims/converters/claimantResponseConverter.ts:44-46 | The formalise option is looked up only when the draft has one. It is absent otherwise, and a lookup error is passed on. |
| ClaimantResponseConverter.GetFormaliseOption | src/main/app/claims/converters/claimantResponseConverter.ts:86-97 | The lookup succeeds iff the option is one of the three known ones, and then gives one of SETTLEMENT, CCJ and REFER_TO_JUDGE. An unknown option is an error that carries its value. |
| ClaimantResponseConverter.FormaliseOptionRoundTrip | src/main/app/claims/converters/claimantResponseConverter.ts:86-97 | The lookup is a bijection between the three known options and the three names, checked against the reverse lookup. |
| ClaimantResponseConverter.CreateCourtDetermination | src/main/app/claims/converters/claimantResponseConverter.ts:58-84 | It fails with the offered-intention error iff the decision type is COURT and there is no offered intention. It fails with the calculated-intention error iff the type is CLAIMANT_IN_FAVOUR_OF_DEFENDANT and there is no calculated intention. No other error is possible. On success a determination exists iff either intention exists. The determination carries the calculated intention, the offered intention rounded to pence, the rejection reason, the disposable income (0 when absent) and the decision type. |
| ClaimantResponseConverter.Round2 | src/main/app/claims/converters/claimantResponseConverter.ts:75 | Rounding to two decimal places gives whole pence within half a penny of the input, on the same side of zero. |
| ClaimantResponseConverter.Round2OfWholePence | src/main/app/claims/converters/claimantResponseConverter.ts:75 | An amount already in whole pence is unchanged by rounding. |
| ClaimantResponseConverter.Round2Idempotent | src/main/app/claims/converters/claimantResponseConverter.ts:75 | Rounding twice is the same as rounding once. |
| ClaimantResponseConverter.Round2IsNearest | src/main/app/claims/converters/claimantResponseConverter.ts:75 | No whole-pence amount is closer to the input than its rounding. |
| ClaimantResponseConverter.Round2Examples | src/main/app/claims/converters/claimantResponseConverter.ts:75 | 123.456 rounds to 123.46 and 100 stays 100. |
| ClaimantResponseConverter.RoundedPlan | src/main/app/claims/converters/claimantResponseConverter.ts:74-76 | The rounded plan's instalment is the original rounded by `Round2` (ties to the larger magnitude), so whole pence within half a penny of it. The first payment date and the schedule are unchanged. |
| ClaimantResponseConverter.RoundedCourtDecision | src/main/app/claims/converters/claimantResponseConverter.ts:72-77 | The court decision keeps the offered intention's option and date. It has a plan iff the offered one does, with the same dates and schedule and the offered instalment rounded by `Round2`. |
| ClaimantResponseConverter.RoundedCourtDecisionIdempotent | src/main/app/claims/converters/claimantResponseConverter.ts:72-77 | Building a court decision from an already-rounded decision changes nothing. |
| ClaimantResponseConverter.ConvertPaymentDate | src/main/app/claims/converters/claimantResponseConverter.ts:124-133 | Succeeds iff the option is IMMEDIATELY or BY_SPECIFIED_DATE. Immediately gives today + 5 days, and a set date gives the chosen date. Any other option is an error that names the option. |
| ClaimantResponseConverter.ConvertRepaymentPlan | src/main/app/claims/converters/claimantResponseConverter.ts:106-113 | The claimant's plan is copied with its instalment unrounded, its first payment date and its schedule. |
| ClaimantResponseConverter.ConvertPaymentIntention | src/main/app/claims/converters/claimantResponseConverter.ts:99-122 | With no draft intention it fails iff the decision type is CLAIMANT or CLAIMANT_IN_FAVOUR_OF_DEFENDANT, naming that type, and gives no intention otherwise. With a draft intention it fails iff a date is present and the option is neither immediate nor by set date. On success it copies the option, has a date iff the draft has one (the converted date) and has a plan iff the draft has one (the copied plan). |
| ClaimantResponseConverter.ImmediatePaymentWithoutDateHasNoDate | src/main/app/claims/converters/claimantResponseConverter.ts:99-114 | Every immediate-payment intention without a draft date converts, under any decision type, to an intention with no payment date. |
| ClaimantResponseConverter.DatedPaymentNeedsDateOption | src/main/app/claims/converters/claimantResponseConverter.ts:103-105 | Every intention with a draft date and an option other than immediate or by set date fails with an error naming that option. |
| ClaimantResponseConverter.UndatedPaymentAlwaysConverts | src/main/app/claims/converters/claimantResponseConverter.ts:100-114 | Every intention without a draft date converts, whatever its option, to that option with no date and the copied plan when there is one. |
| ClaimantResponseConverter.ConversionSucceedsIffConvertible | src/main/app/claims/converters/claimantResponseConverter.ts:23-133 | Conversion succeeds on exactly the drafts described field by field by `ConvertibleDraft`, for any day. |
| ClaimantResponseConverter.AcceptanceShape | src/main/app/claims/converters/claimantResponseConverter.ts:39-56 | In a successful acceptance there is a formalise name (one of the three) iff the draft has a choice. There is a court determination iff the draft has a court intention, and its court decision's instalment is whole pence. There is a claimant intention iff the draft has one. |
| ClaimantResponseConverter.RejectionExample | src/main/app/claims/converters/claimantResponseConverter.ts:24-35 | A NO draft with 50 paid, mediation YES and reason "disagree" becomes exactly that rejection, even with an invalid formalise option and a COURT decision without intentions. |
| ClaimantResponseConverter.DraftAfterConversion | src/main/app/claims/converters/claimantResponseConverter.ts:72-76 | After a conversion only the draft's court-offered intention can differ. It is rounded exactly when the conversion got as far as building the court decision. Otherwise the draft is unchanged. |
| ClaimantResponseConverter.ReconversionIsStable | src/main/app/claims/converters/claimantResponseConverter.ts:72-76 | Converting the draft that an earlier conversion modified gives the same response and modifies it no further. |
| ClaimantResponseConverter.FailedConversionStillRoundsDraft | src/main/app/claims/converters/claimantResponseConverter.ts:47-53 | A conversion that fails on the claimant's intention has already rounded the draft's court-offered intention. |
| ClaimantResponseConverter.FailingConversionCanChangeDraft | src/main/app/claims/converters/claimantResponseConverter.ts:47-53 | A concrete draft whose conversion fails still comes out changed. It has decision type CLAIMANT, no claimant intention, and a court offer of instalments of 10.125, which becomes 10.13. |
| ClaimantResponseConverter.RepaymentPlanObject.RoundInstalmentAmount | src/main/app/claims/converters/claimantResponseConverter.ts:75 | The shared plan object now holds the rounded plan. |
| ClaimantResponseConverter.CreateCourtDeterminationInPlace | src/main/app/claims/converters/claimantResponseConverter.ts:58-84 | Returns the pure court determination. The decision it returns is the offered object itself. That object is rounded in place exactly when a determination is built. |
| ClaimantResponseConverter.ConvertToClaimantResponseInPlace | src/main/app/claims/converters/claimantResponseConverter.ts:23-56 | Returns the pure conversion's result and leaves the draft's court-offered intention object as `DraftAfterConversion` describes. |
| DirectionsQuestionnaireHelper.GetPreferredParty | src/main/features/directions-questionnaire/helpers/directionsQuestionnaireHelper.ts:5-12 | The claimant's preference wins iff the defendant is a business, and the defendant's otherwise. It never fails. |
| DirectionsQuestionnaireHelper.GetUsersRole | src/main/features/directions-questionnaire/helpers/directionsQuestionnaireHelper.ts:14-22 | CLAIMANT iff the user is the claimant and there is a response. DEFENDANT iff the user is the defendant, there is no response and the claimant condition fails. The no-role error iff neither condition holds. |
| DirectionsQuestionnaireHelper.RoleConditionsExclusive | src/main/features/directions-questionnaire/helpers/directionsQuestionnaireHelper.ts:15-18 | The claimant and defendant conditions never both hold. |
| DirectionsQuestionnaireHelper.UsersRoleIsAParty | src/main/features/directions-questionnaire/helpers/directionsQuestionnaireHelper.ts:14-21 | A resolved role is CLAIMANT or DEFENDANT, never COURT. DEFENDANT is given exactly when the defendant condition holds. |
| DirectionsQuestionnaireHelper.SelfClaimRoleFollowsResponse | src/main/features/directions-questionnaire/helpers/directionsQuestionnaireHelper.ts:15-18 | A user who is both parties is the claimant after the response and the defendant before it. |

## Left out

- Wall-clock time: the current date is the `today` parameter.
- Calendar semantics of dates: days are integers, and converting a local date to a moment is the identity.
- Floating point: amounts are exact decimals. Binary representation effects of `toFixed` are not modelled, and neither is its exponent notation for magnitudes of 10^21 and above.
- Round2: a negative amount that rounds to zero gives 0 rather than JavaScript's -0.
- A wrapper form object that is present but whose inner field is undefined (such as `paidAmount` without `amount`) is not modelled. Each wrapper is an optional value of its inner field.
- A draft payment intention without a payment option makes the source fail on a property access. The model requires the option to be present by its type.
- A draft payment plan without `firstPaymentDate` or `paymentSchedule` makes the source throw at `.toMoment()` or `.value` (claimantResponseConverter.ts:108, 110). A court-offered repayment plan without `instalmentAmount` makes it throw at `.toFixed` (claimantResponseConverter.ts:75). The model's `PaymentPlan` and `RepaymentPlan` make these fields mandatory, so these crashes are not modelled.
- Object identity in the enum comparisons (`===` against the static option instances): options are compared by value.
- The definitions of `DecisionType`, `MadeBy`, the payment type and the formalise option are not part of this model. `DecisionType` is taken to have four values. `MadeBy` is taken to also have COURT. A payment or formalise value outside the known ones is kept as an explicit unknown value.
- GetPreferredParty: the defendant's `isBusiness()` check is not part of this model. It is a boolean on the party.
- GetUsersRole: the response's contents are not modelled, only whether one is present.
- Error messages: errors are datatype values carrying the offending value or decision type, not message strings.
- The route handlers, the draft store and the other network services, the repayment-plan task's reflective validation, and the tests and page objects.
