/** The contents of `GlobalHealthDatabase`: the data of the twelve countries, the
    country-specific treatments of each age category and the country resources of each
    financial status, with the facts about them the assessment relies on. */
module HealthData {
  import opened Text
  import opened SocialWork

  const UnitedStates := CountryHealth(
    ["obesity", "diabetes", "heart_disease", "depression", "anxiety"], 26, "private_insurance",
    ["988", "911"], ["individualistic_society", "stigma_around_mental_health"], "insurance_dependent",
    ["annual_checkups", "cancer_screenings", "vaccination"])

  const Canada := CountryHealth(
    ["depression", "anxiety", "substance_abuse", "heart_disease"], 20, "universal_healthcare",
    ["988", "911"], ["multicultural_awareness", "indigenous_health_needs"], "publicly_funded",
    ["mental_health_screening", "chronic_disease_prevention"])

  const UnitedKingdom := CountryHealth(
    ["depression", "anxiety", "diabetes", "respiratory_disease"], 25, "nhs",
    ["999", "116 123 (Samaritans)"], ["class_awareness", "regional_variations"], "free_at_point_of_care",
    ["nhs_health_checks", "mental_health_first_aid"])

  const Australia := CountryHealth(
    ["skin_cancer", "mental_health", "obesity", "heart_disease"], 22, "medicare_plus_private",
    ["000", "13 11 14 (Lifeline)"], ["indigenous_health_gap", "rural_isolation"], "subsidized_healthcare",
    ["skin_cancer_screening", "mental_health_plans"])

  const Germany := CountryHealth(
    ["cardiovascular_disease", "depression", "diabetes", "cancer"], 18, "statutory_insurance",
    ["112", "0800 111 0 111"], ["work_life_balance", "privacy_concerns"], "insurance_covered",
    ["health_checkups", "workplace_wellness"])

  const Japan := CountryHealth(
    ["cardiovascular_disease", "depression", "suicide_risk", "aging_related"], 15, "universal_insurance",
    ["110", "119"], ["mental_health_stigma", "work_stress", "aging_society"],
    "insurance_covered_limited_mental_health", ["longevity_care", "workplace_stress_management"])

  const India := CountryHealth(
    ["diabetes", "cardiovascular_disease", "respiratory_disease", "mental_health"], 13, "mixed_public_private",
    ["100", "108"], ["family_centered_care", "traditional_medicine", "stigma"], "variable_access",
    ["diabetes_prevention", "maternal_health"])

  const Brazil := CountryHealth(
    ["violence_related_trauma", "infectious_disease", "mental_health", "diabetes"], 18, "sus_public_system",
    ["190", "188"], ["family_support", "socioeconomic_disparities"], "public_system_limited_resources",
    ["infectious_disease_prevention", "violence_prevention"])

  const SouthAfrica := CountryHealth(
    ["hiv_aids", "tuberculosis", "mental_health", "violence_trauma"], 16, "two_tier_system",
    ["10177", "112"], ["ubuntu_philosophy", "language_diversity", "historical_trauma"], "public_private_divide",
    ["hiv_prevention", "tb_screening", "trauma_informed_care"])

  const Sweden := CountryHealth(
    ["depression", "anxiety", "seasonal_affective_disorder", "cardiovascular_disease"], 17, "universal_healthcare",
    ["112", "90101"], ["seasonal_depression", "work_life_balance", "gender_equality"], "publicly_funded",
    ["mental_health_promotion", "preventive_medicine"])

  const Israel := CountryHealth(
    ["anxiety", "ptsd", "cardiovascular_disease", "diabetes", "depression"], 21,
    "universal_healthcare_with_supplements", ["100", "101", "1201"],
    ["trauma_informed_care", "military_service_impact", "multicultural_population", "religious_considerations"],
    "universal_with_private_options", ["trauma_screening", "stress_management", "community_resilience"])

  const France := CountryHealth(
    ["depression", "anxiety", "cardiovascular_disease", "cancer", "substance_abuse"], 19, "social_security_system",
    ["15", "112", "3114"],
    ["work_life_balance", "social_solidarity", "secularism", "intellectual_approach_to_therapy"],
    "highly_subsidized", ["mental_health_destigmatization", "workplace_wellness", "social_medicine"])

  const CountryHealthData: map<string, CountryHealth> := map[
    "united_states" := UnitedStates, "canada" := Canada, "united_kingdom" := UnitedKingdom,
    "australia" := Australia, "germany" := Germany, "japan" := Japan, "india" := India,
    "brazil" := Brazil, "south_africa" := SouthAfrica, "sweden" := Sweden, "israel" := Israel,
    "france" := France
  ]

  /** `age_based_treatments[category]["country_specific"]` for each category. */
  const AgeCountrySpecific: map<string, map<string, seq<string>>> := map[
    YoungAdult := map[
      "japan" := ["work_stress_counseling", "social_anxiety_support"],
      "india" := ["family_therapy_integration", "traditional_medicine_complement"],
      "sweden" := ["seasonal_light_therapy", "student_support_services"],
      "israel" := ["trauma_informed_therapy", "military_transition_support", "multicultural_peer_groups"],
      "france" := ["psychoanalytic_approaches", "university_counseling", "secular_therapy_options"]],
    Adult := map[
      "germany" := ["workplace_wellness_programs", "stress_management"],
      "united_states" := ["insurance_navigation_support", "debt_counseling"],
      "brazil" := ["community_health_workers", "family_integration"],
      "israel" := ["reserve_duty_counseling", "work_security_balance", "multicultural_workplace_support"],
      "france" := ["workplace_rights_advocacy", "social_protection_navigation", "burnout_prevention"]],
    MiddleAged := map[
      "japan" := ["aging_parent_care_support", "retirement_planning"],
      "australia" := ["skin_cancer_prevention", "rural_telehealth"],
      "south_africa" := ["chronic_disease_management", "family_health_education"],
      "israel" := ["chronic_stress_management", "intergenerational_trauma_support"],
      "france" := ["midlife_career_transitions", "social_security_optimization"]],
    Senior := map[
      "canada" := ["indigenous_elder_care", "winter_wellness_programs"],
      "united_kingdom" := ["nhs_elderly_care", "community_befriending"],
      "sweden" := ["seasonal_depression_support", "active_aging_programs"],
      "israel" := ["holocaust_survivor_support", "veteran_elder_care", "religious_community_integration"],
      "france" := ["social_solidarity_programs", "retirement_home_alternatives", "cultural_activity_integration"]]
  ]

  /** `financial_treatment_map[status]["country_resources"]` for each status. */
  const FinancialCountryResources: map<string, map<string, seq<string>>> := map[
    "low_income" := map[
      "united_states" := ["medicaid", "community_health_centers", "211_services"],
      "canada" := ["provincial_health_services", "community_mental_health"],
      "united_kingdom" := ["nhs_services", "local_authority_support"],
      "australia" := ["bulk_billing_gps", "community_health_services"],
      "germany" := ["statutory_insurance_coverage", "social_services"],
      "india" := ["government_health_schemes", "ngos", "community_workers"],
      "brazil" := ["sus_services", "community_health_agents"],
      "south_africa" := ["public_health_facilities", "community_organizations"],
      "sweden" := ["regional_health_services", "municipal_support"],
      "japan" := ["national_health_insurance", "municipal_services"],
      "israel" := ["kupat_cholim_services", "municipal_welfare_departments", "nonprofit_organizations"],
      "france" := ["cpam_coverage", "municipal_social_services", "associations_support"]],
    "moderate_income" := map[
      "united_states" := ["employer_insurance", "health_savings_accounts"],
      "canada" := ["extended_health_benefits", "provincial_programs"],
      "united_kingdom" := ["private_healthcare_options", "nhs_plus_private"],
      "australia" := ["medicare_plus_private", "mental_health_plans"],
      "germany" := ["statutory_plus_private_insurance"],
      "sweden" := ["regional_healthcare", "private_supplements"],
      "israel" := ["health_fund_coverage", "supplementary_insurance"],
      "france" := ["secu_plus_mutuelle", "professional_health_coverage"]],
    "stable_income" := map[
      "united_states" := ["private_practice", "concierge_medicine"],
      "united_kingdom" := ["private_healthcare", "bupa_services"],
      "australia" := ["private_health_insurance", "specialist_care"],
      "germany" := ["private_insurance_options", "specialist_clinics"],
      "israel" := ["private_health_services", "premium_health_funds"],
      "france" := ["private_practice_options", "premium_mutuelle_coverage"]]
  ]

  const GlobalHealth := HealthDatabase(CountryHealthData, AgeCountrySpecific, FinancialCountryResources)

  /** The direct lookups of `generate_country_evidence_recommendations` succeed for every age
      and for each of the three financial statuses the intake menu offers. */
  lemma EvidenceLookupsSucceed(age: int, financialStatus: string)
    requires financialStatus in {"low_income", "moderate_income", "stable_income"}
    ensures AgeCategory(age) in GlobalHealth.ageTreatments
    ensures financialStatus in GlobalHealth.financialResources
  {
    AgeLookupSucceeds(AgeCategory(age));
    FinancialLookupSucceeds(financialStatus);
  }

  lemma AgeLookupSucceeds(category: string)
    requires category in {YoungAdult, Adult, MiddleAged, Senior}
    ensures category in AgeCountrySpecific
  {
  }

  lemma FinancialLookupSucceeds(financialStatus: string)
    requires financialStatus in {"low_income", "moderate_income", "stable_income"}
    ensures financialStatus in FinancialCountryResources
  {
  }

  lemma JapanData()
    ensures CountryData(GlobalHealth, "japan") == Japan
    ensures "work_stress" in Japan.culturalConsiderations
  {
  }

  /** A status with "employed" anywhere in it, "unemployed" included, mentions employment. */
  lemma EmployedInsideMentionsEmployed(before: string, after: string)
    ensures MentionsEmployed(before + "employed" + after)
  {
    var status := before + "employed" + after;
    var lower := Lower(status);
    forall k | |before| <= k < |before| + 8
      ensures lower[k] == status[k]
    {
      assert status[k] == "employed"[k - |before|];
    }
    assert lower[|before|..|before| + 8] == "employed";
    ContainsAt(lower, "employed", |before|);
  }

  /** Because of that, an unemployed patient in Japan is told about work stress and
      overwork as if employed (`Japan` is what the table holds for "japan", by `JapanData`). */
  lemma UnemployedTreatedAsEmployedInJapan(patient: PatientProfile)
    requires patient.country == "japan" && patient.employmentStatus == "Unemployed - actively seeking"
    ensures WorkStressLine in CulturalLines(Japan.culturalConsiderations, patient)
    ensures DailyStructure(Japan, patient) == [KaroshiLine]
  {
    assert patient.employmentStatus == "Un" + "employed" + " - actively seeking";
    EmployedInsideMentionsEmployed("Un", " - actively seeking");
    WorkAdviceInJapan(patient);
  }

  /** A patient in Japan whose status mentions employment gets both work-stress lines. */
  lemma WorkAdviceInJapan(patient: PatientProfile)
    requires patient.country == "japan" && MentionsEmployed(patient.employmentStatus)
    ensures WorkStressLine in CulturalLines(Japan.culturalConsiderations, patient)
    ensures DailyStructure(Japan, patient) == [KaroshiLine]
  {
    CulturalLinesSpec(Japan.culturalConsiderations, patient);
  }
}
