/**
 * Party helpers of the directions questionnaire: whose preference decides a
 * shared procedural choice, and which party the signed-in user is.
 */
module DirectionsQuestionnaireHelper {
  import opened Wrappers

  /** The party a choice is made by. */
  datatype MadeBy = CLAIMANT | DEFENDANT | COURT

  /** A party to the claim; `isBusiness` stands for the party's own `isBusiness()` check. */
  datatype Party = Party(isBusiness: bool)

  /** The parts of a claim the helpers read. `defendantId` is absent until a
      defendant is linked to the claim, `hasResponse` says whether the
      defendant's response is on the claim. */
  datatype Claim = Claim(
    claimantId: string,
    defendantId: Option<string>,
    defendant: Party,
    hasResponse: bool)

  datatype User = User(id: string)

  /** The error thrown for a user who is neither party in the current state of the claim. */
  datatype RoleError = NoRoleInClaim

  /** Whose preference controls the choice: the claimant's when the defendant is a business. */
  function GetPreferredParty(claim: Claim): (r: MadeBy)
    ensures r == CLAIMANT <==> claim.defendant.isBusiness
    ensures r == DEFENDANT <==> !claim.defendant.isBusiness
  {
    if claim.defendant.isBusiness then CLAIMANT else DEFENDANT
  }

  /** The user is the claimant and the defendant has already responded. */
  predicate IsRespondedClaimant(claim: Claim, user: User) {
    claim.claimantId == user.id && claim.hasResponse
  }

  /** The user is the defendant and has not responded yet. */
  predicate IsDefendantYetToRespond(claim: Claim, user: User) {
    claim.defendantId == Some(user.id) && !claim.hasResponse
  }

  /**
   * The user's role in the claim: the claimant once there is a response, the
   * defendant while there is none; otherwise the user has no role. The
   * claimant test is made first.
   */
  function GetUsersRole(claim: Claim, user: User): (r: Result<MadeBy, RoleError>)
    ensures r == Success(CLAIMANT) <==> IsRespondedClaimant(claim, user)
    ensures r == Success(DEFENDANT) <==> IsDefendantYetToRespond(claim, user) && !IsRespondedClaimant(claim, user)
    ensures r.Failure? <==> !IsRespondedClaimant(claim, user) && !IsDefendantYetToRespond(claim, user)
    ensures r.Failure? ==> r.error == NoRoleInClaim
  {
    if IsRespondedClaimant(claim, user) then Success(CLAIMANT)
    else if IsDefendantYetToRespond(claim, user) then Success(DEFENDANT)
    else Failure(NoRoleInClaim)
  }

  /** At most one role applies: one needs a response and the other needs none. */
  lemma RoleConditionsExclusive(claim: Claim, user: User)
    ensures !(IsRespondedClaimant(claim, user) && IsDefendantYetToRespond(claim, user))
  {
  }

  /** A resolved role is never the court, and the defendant role needs no
      precedence: it is given exactly when the defendant condition holds. */
  lemma UsersRoleIsAParty(claim: Claim, user: User)
    ensures GetUsersRole(claim, user).Success? ==> GetUsersRole(claim, user).value in {CLAIMANT, DEFENDANT}
    ensures GetUsersRole(claim, user) == Success(DEFENDANT) <==> IsDefendantYetToRespond(claim, user)
  {
    RoleConditionsExclusive(claim, user);
  }

  /** A user who is both claimant and defendant of a claim gets the role the
      response state picks: claimant after the response, defendant before it. */
  lemma SelfClaimRoleFollowsResponse(claim: Claim, user: User)
    requires claim.claimantId == user.id && claim.defendantId == Some(user.id)
    ensures GetUsersRole(claim, user) == Success(if claim.hasResponse then CLAIMANT else DEFENDANT)
  {
  }
}
