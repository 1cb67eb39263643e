/** Constant tables and enumerations of the application (src/lib/constants.ts). */
module Constants {
  import opened Wrappers

  /** `UserTier`: the two subscription levels. */
  datatype Tier = Standard | Pro

  /** The string value of each `UserTier` member. */
  function TierName(t: Tier): string
  {
    match t
    case Standard => "standard"
    case Pro => "pro"
  }

  /** Reading a plan string as a tier: only the two exact names are tiers. */
  function ParseTier(s: string): (t: Option<Tier>)
    ensures t.Some? <==> (s == "standard" || s == "pro")
    ensures t.Some? ==> TierName(t.value) == s
  {
    if s == "standard" then Some(Standard) else if s == "pro" then Some(Pro) else None
  }

  /** Naming a tier and reading the name back gives the tier. */
  lemma TierNameRoundTrip(t: Tier)
    ensures ParseTier(TierName(t)) == Some(t)
  {
  }

  /** The sentinel `CLAIM_LIMITS` uses for "unlimited". */
  const UNLIMITED: int := -1

  /** `CLAIM_LIMITS`: one claim for standard, unlimited for pro. */
  function ClaimLimit(t: Tier): (limit: int)
    ensures limit == UNLIMITED <==> t == Pro
    ensures t == Standard ==> limit == 1
    ensures limit == UNLIMITED || limit > 0
  {
    match t
    case Standard => 1
    case Pro => UNLIMITED
  }

  /** `PRICING`, in pounds. */
  const PRICE_STANDARD: nat := 49
  const PRICE_PRO: nat := 79
  const PRICE_UPGRADE_TO_PRO: nat := 30

  /** The upgrade price is the difference between the two plan prices. */
  lemma UpgradePriceIsDifference()
    ensures PRICE_UPGRADE_TO_PRO == PRICE_PRO - PRICE_STANDARD
  {
  }

  /** A step of the claim form. */
  datatype FormStep = FormStep(id: string, title: string, fields: seq<string>)

  /** `FORM_STEPS`, in order. */
  const FORM_STEPS: seq<FormStep> := [
    FormStep("personal", "Personal Details", ["fullName"]),
    FormStep("health", "Health Conditions", ["mainCondition", "otherConditions", "medications"]),
    FormStep("daily", "Daily Living",
      ["preparingFood", "eatingAndDrinking", "managingTreatments", "washingAndBathing",
       "managingToiletNeeds", "dressingAndUndressing"]),
    FormStep("mobility", "Mobility", ["planningAndFollowingJourneys", "movingAround", "additionalInfo"]),
    FormStep("review", "Review & Submit", [])
  ]

  /** The form steps have distinct ids and end with a review step that asks for no field. */
  lemma FormStepsWellFormed()
    ensures forall i, j :: 0 <= i < j < |FORM_STEPS| ==> FORM_STEPS[i].id != FORM_STEPS[j].id
    ensures FORM_STEPS[|FORM_STEPS| - 1].id == "review" && FORM_STEPS[|FORM_STEPS| - 1].fields == []
    ensures forall i :: 0 <= i < |FORM_STEPS| - 1 ==> FORM_STEPS[i].fields != []
  {
  }
}
