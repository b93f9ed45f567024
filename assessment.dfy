/** The patient assessment of the social-worker assistant: the age and city classifiers, and
    the four builders that turn a patient profile and the health database into lists of
    recommendations under fixed headings. Each builder starts from a dictionary holding every
    heading with an empty list and fills it step by step; here that dictionary is a local
    `map` the method reassigns. */
module SocialWork {
  import opened Text
  import opened Countries

  /** `PatientProfile`. The menu-backed fields hold the texts the intake menus store
      ("Poor", "Sedentary", "low_income", "Unemployed - actively seeking", a country code). */
  datatype PatientProfile = PatientProfile(
    name: string, age: int, country: string, city: string, gender: string,
    employmentStatus: string, exerciseLevel: string, mentalState: string,
    financialStatus: string, additionalNotes: string)

  /** One country of `country_health_data`. The prevalence is a fraction in the database and
      only ever printed as a whole percentage, which is what is kept here. */
  datatype CountryHealth = CountryHealth(
    commonIssues: seq<string>, prevalencePercent: nat, healthcareSystem: string,
    crisisResources: seq<string>, culturalConsiderations: seq<string>,
    treatmentAccessibility: string, preventiveFocus: seq<string>)

  /** The parts of `GlobalHealthDatabase` the builders read: the data of each country, the
      `country_specific` treatments of each age category, and the `country_resources` of each
      financial status. */
  datatype HealthDatabase = HealthDatabase(
    countries: map<string, CountryHealth>,
    ageTreatments: map<string, map<string, seq<string>>>,
    financialResources: map<string, map<string, seq<string>>>)

  /** What `country_health_data.get(country, {})` yields, field by field with the defaults
      the builders pass to `.get`, for a country the database does not know. */
  const UnknownCountry := CountryHealth([], 20, "", [], [], "", [])

  function CountryData(db: HealthDatabase, country: string): CountryHealth
  {
    if country in db.countries then db.countries[country] else UnknownCountry
  }

  /** `m.get(key, [])`. */
  function ListFor(m: map<string, seq<string>>, key: string): seq<string>
  {
    if key in m then m[key] else []
  }

  function Min(a: int, b: int): int
  {
    if a <= b then a else b
  }

  /** `mental_state in ["Poor", "Critical"]`. */
  predicate Distressed(mentalState: string)
  {
    mentalState == "Poor" || mentalState == "Critical"
  }

  /** `mental_state in ["Fair", "Poor", "Critical"]`. */
  predicate Struggling(mentalState: string)
  {
    mentalState == "Fair" || Distressed(mentalState)
  }

  /** `"employed" in employment_status.lower()`: true of "Unemployed ..." statuses as well. */
  predicate MentionsEmployed(status: string)
  {
    Contains(Lower(status), "employed")
  }

  predicate MentionsUnemployed(status: string)
  {
    Contains(Lower(status), "unemployed")
  }

  // ---------------------------------------------------------------- age

  const YoungAdult := "young_adult"
  const Adult := "adult"
  const MiddleAged := "middle_aged"
  const Senior := "senior"

  /** `determine_age_category`: three bands from 18 to 64; every other age, children
      included, counts as senior. */
  function AgeCategory(age: int): (c: string)
    ensures c == YoungAdult <==> 18 <= age <= 25
    ensures c == Adult <==> 26 <= age <= 45
    ensures c == MiddleAged <==> 46 <= age <= 64
    ensures c == Senior <==> age < 18 || 64 < age
  {
    if 18 <= age <= 25 then YoungAdult
    else if 26 <= age <= 45 then Adult
    else if 46 <= age <= 64 then MiddleAged
    else Senior
  }

  // ---------------------------------------------------------------- city

  const MajorCity := "major_city"
  const Rural := "rural"
  const Suburban := "suburban"

  const RuralKeywords: seq<string> := ["county", "township", "village", "rural", "farm"]

  /** Whether one of `subs` occurs in `s`, trying them in order (`any(sub in s for sub in subs)`). */
  function AnyContained(s: string, subs: seq<string>): (r: bool)
    ensures r <==> exists i :: 0 <= i < |subs| && Contains(s, subs[i])
  {
    if subs == [] then false
    else Contains(s, subs[0]) || AnyContained(s, subs[1..])
  }

  /** Some major city of `country` occurs in the lower-cased city. */
  predicate NamesMajorCity(cityLower: string, country: string)
  {
    country in MajorCities && exists i :: 0 <= i < |MajorCities[country]| && Contains(cityLower, MajorCities[country][i])
  }

  predicate HasRuralKeyword(cityLower: string)
  {
    exists i :: 0 <= i < |RuralKeywords| && Contains(cityLower, RuralKeywords[i])
  }

  /** `determine_city_category` on `city.lower().strip()`: a major city of the country wins
      over a rural keyword, and anything else is suburban. */
  function CityCategory(city: string, country: string): (c: string)
    ensures var l := Strip(Lower(city));
            && (c == MajorCity <==> NamesMajorCity(l, country))
            && (c == Rural <==> !NamesMajorCity(l, country) && HasRuralKeyword(l))
            && (c == Suburban <==> !NamesMajorCity(l, country) && !HasRuralKeyword(l))
    ensures country !in MajorCities ==> c != MajorCity
  {
    var l := Strip(Lower(city));
    if country in MajorCities && AnyContained(l, MajorCities[country]) then MajorCity
    else if AnyContained(l, RuralKeywords) then Rural
    else Suburban
  }

  /** "London County" is looked up as "london county". */
  lemma LondonCountyLowered(city: string)
    requires city == "London County"
    ensures Strip(Lower(city)) == "london county"
  {
    assert Lower(city) == "london county";
    StripUnpadded("london county");
  }

  /** "london county" names London, a major city of the United Kingdom, and holds the rural
      keyword "county". */
  lemma LondonCountyWords(l: string, country: string)
    requires l == "london county" && country == "united_kingdom"
    ensures NamesMajorCity(l, country) && HasRuralKeyword(l)
  {
    assert l[..6] == "london";
    ContainsAt(l, "london", 0);
    assert l[7..13] == "county";
    ContainsAt(l, "county", 7);
    assert RuralKeywords[0] == "county";
    assert country in MajorCities && MajorCities[country][0] == "london";
  }

  /** A place named after a major city is a major city even when it also names a county. */
  lemma MajorCityBeatsRuralKeyword(city: string, country: string)
    requires city == "London County" && country == "united_kingdom"
    ensures HasRuralKeyword(Strip(Lower(city)))
    ensures CityCategory(city, country) == MajorCity
  {
    LondonCountyLowered(city);
    LondonCountyWords(Strip(Lower(city)), country);
  }

  // ---------------------------------------------------------------- health needs

  const PriorityIssuesKey := "country_priority_health_issues"
  const PreventiveCareKey := "preventive_care_country_specific"
  const CulturalKey := "mental_health_cultural_considerations"
  const NavigationKey := "healthcare_system_navigation"

  const StigmaLine := "Address cultural stigma around mental health treatment"
  const FamilyLine := "Include family in treatment planning when appropriate"
  const WorkStressLine := "Address work-related stress common in this cultural context"
  const InsuranceNavigationLine := "Assist with insurance navigation and coverage verification"
  const PublicServicesLine := "Connect with publicly funded health services"
  const MixedSystemLine := "Evaluate best public vs. private options based on needs and finances"

  function ScreenFor(issue: string): string
  {
    "Screen for " + SpaceUnderscores(issue)
  }

  function PrevalenceLine(percent: nat, country: string): string
  {
    "Mental health affects " + NatToString(percent) + "% of population in " + Display(country)
  }

  /** The lines the cultural factors add, one factor at a time: stigma advice for a Fair,
      Poor or Critical patient, family involvement, and work stress for a status that
      mentions "employed". */
  function CulturalLines(factors: seq<string>, patient: PatientProfile): seq<string>
  {
    if factors == [] then []
    else CulturalLines(factors[..|factors| - 1], patient) + CulturalLine(factors[|factors| - 1], patient)
  }

  /** The line one cultural factor adds, if any. */
  function CulturalLine(f: string, patient: PatientProfile): seq<string>
  {
    if f == "mental_health_stigma" && Struggling(patient.mentalState) then [StigmaLine]
    else if f == "family_centered_care" then [FamilyLine]
    else if f == "work_stress" && MentionsEmployed(patient.employmentStatus) then [WorkStressLine]
    else []
  }

  /** Each cultural line appears exactly when its factor is listed and its condition holds;
      nothing else appears, and there is at most one line per factor. */
  lemma {:induction false} CulturalLinesSpec(factors: seq<string>, patient: PatientProfile)
    ensures var lines := CulturalLines(factors, patient);
            && (StigmaLine in lines <==> "mental_health_stigma" in factors && Struggling(patient.mentalState))
            && (FamilyLine in lines <==> "family_centered_care" in factors)
            && (WorkStressLine in lines <==>
                  "work_stress" in factors && MentionsEmployed(patient.employmentStatus))
            && (forall x :: x in lines ==> x == StigmaLine || x == FamilyLine || x == WorkStressLine)
            && |lines| <= |factors|
  {
    if factors != [] {
      var init := factors[..|factors| - 1];
      var f := factors[|factors| - 1];
      CulturalLinesSpec(init, patient);
      CulturalLineSpec(f, patient);
      assert factors == init + [f];
      var lines := CulturalLines(factors, patient);
      assert lines == CulturalLines(init, patient) + CulturalLine(f, patient);
      assert forall x :: x in lines <==> x in CulturalLines(init, patient) || x in CulturalLine(f, patient);
    }
  }

  /** The same for a single factor. */
  lemma CulturalLineSpec(f: string, patient: PatientProfile)
    ensures var lines := CulturalLine(f, patient);
            && (StigmaLine in lines <==> f == "mental_health_stigma" && Struggling(patient.mentalState))
            && (FamilyLine in lines <==> f == "family_centered_care")
            && (WorkStressLine in lines <==> f == "work_stress" && MentionsEmployed(patient.employmentStatus))
            && (forall x :: x in lines ==> x == StigmaLine || x == FamilyLine || x == WorkStressLine)
            && |lines| <= 1
  {
    assert StigmaLine != FamilyLine && StigmaLine != WorkStressLine && FamilyLine != WorkStressLine;
  }

  /** The loop of `assess_country_specific_health_needs` over the cultural factors. */
  method CollectCulturalLines(factors: seq<string>, patient: PatientProfile) returns (lines: seq<string>)
    ensures lines == CulturalLines(factors, patient)
  {
    lines := [];
    var i := 0;
    while i < |factors|
      invariant 0 <= i <= |factors|
      invariant lines == CulturalLines(factors[..i], patient)
    {
      var factor := factors[i];
      assert factors[..i + 1][..i] == factors[..i];
      assert CulturalLines(factors[..i + 1], patient) == lines + CulturalLine(factor, patient);
      if factor == "mental_health_stigma" && Struggling(patient.mentalState) {
        lines := lines + [StigmaLine];
      } else if factor == "family_centered_care" {
        lines := lines + [FamilyLine];
      } else if factor == "work_stress" && MentionsEmployed(patient.employmentStatus) {
        lines := lines + [WorkStressLine];
      }
      i := i + 1;
    }
    assert factors[..|factors|] == factors;
  }

  /** A screening line for each of the first three common issues. */
  function PriorityScreenings(issues: seq<string>): (p: seq<string>)
    ensures |p| == Min(3, |issues|) && forall i :: 0 <= i < |p| ==> p[i] == ScreenFor(issues[i])
  {
    var top := issues[..Min(3, |issues|)];
    seq(|top|, i requires 0 <= i < |top| => ScreenFor(top[i]))
  }

  /** Each preventive focus, underscores spaced and title-cased. */
  function PreventiveLines(focus: seq<string>): (v: seq<string>)
    ensures |v| == |focus| && forall i :: 0 <= i < |v| ==> v[i] == Title(SpaceUnderscores(focus[i]))
  {
    seq(|focus|, i requires 0 <= i < |focus| => Title(SpaceUnderscores(focus[i])))
  }

  /** The navigation advice for a healthcare system, if it is one of the three the code knows. */
  function NavigationLines(system: string): seq<string>
  {
    if system == "private_insurance" then [InsuranceNavigationLine]
    else if system == "universal_healthcare" then [PublicServicesLine]
    else if system == "mixed_public_private" then [MixedSystemLine]
    else []
  }

  /** `assess_country_specific_health_needs`. */
  method AssessHealthNeeds(db: HealthDatabase, patient: PatientProfile) returns (needs: map<string, seq<string>>)
    ensures needs.Keys == {PriorityIssuesKey, PreventiveCareKey, CulturalKey, NavigationKey}
    ensures var issues := CountryData(db, patient.country).commonIssues;
            var p := needs[PriorityIssuesKey];
            |p| == Min(3, |issues|) && forall i :: 0 <= i < |p| ==> p[i] == ScreenFor(issues[i])
    ensures var focus := CountryData(db, patient.country).preventiveFocus;
            var v := needs[PreventiveCareKey];
            |v| == |focus| && forall i :: 0 <= i < |v| ==> v[i] == Title(SpaceUnderscores(focus[i]))
    ensures var d := CountryData(db, patient.country);
            needs[CulturalKey] ==
              (if Distressed(patient.mentalState) then [PrevalenceLine(d.prevalencePercent, patient.country)] else [])
              + CulturalLines(d.culturalConsiderations, patient)
    ensures var system := CountryData(db, patient.country).healthcareSystem;
            needs[NavigationKey] ==
              if system == "private_insurance" then [InsuranceNavigationLine]
              else if system == "universal_healthcare" then [PublicServicesLine]
              else if system == "mixed_public_private" then [MixedSystemLine]
              else []
  {
    var d := CountryData(db, patient.country);

    var priority := PriorityScreenings(d.commonIssues);

    var lines := CollectCulturalLines(d.culturalConsiderations, patient);
    var cultural := (if Distressed(patient.mentalState) then [PrevalenceLine(d.prevalencePercent, patient.country)] else [])
                    + lines;
    var navigation := NavigationLines(d.healthcareSystem);
    var preventive := PreventiveLines(d.preventiveFocus);

    NeedsKeysDistinct();
    needs := map[PriorityIssuesKey := priority, PreventiveCareKey := preventive,
                 CulturalKey := cultural, NavigationKey := navigation];
  }

  /** The four section keys are distinct (their first letters differ). */
  lemma NeedsKeysDistinct()
    ensures PriorityIssuesKey != PreventiveCareKey && PriorityIssuesKey != CulturalKey && PriorityIssuesKey != NavigationKey
    ensures PreventiveCareKey != CulturalKey && PreventiveCareKey != NavigationKey && CulturalKey != NavigationKey
  {
    assert PriorityIssuesKey[0] == 'c' && PreventiveCareKey[0] == 'p' && CulturalKey[0] == 'm' && NavigationKey[0] == 'h';
  }

  // ---------------------------------------------------------------- safety needs

  const CrisisResourcesKey := "crisis_resources_local"
  const CulturalSafetyKey := "cultural_safety_considerations"
  const CountryRisksKey := "country_specific_risks"
  const SocialSupportKey := "social_support_systems"

  const ViolenceScreeningLine := "Violence-related trauma screening and safety planning"
  const SuicideAwarenessLine := "Elevated suicide risk awareness and prevention"
  const IndigenousSafetyLine := "Consider indigenous cultural safety and traditional healing"
  const SocioeconomicSafetyLine := "Address socioeconomic safety concerns and resource access"

  function Emergency(resource: string): string
  {
    "Emergency: " + resource
  }

  /** `assess_country_specific_safety_needs`. */
  method AssessSafetyNeeds(db: HealthDatabase, patient: PatientProfile) returns (needs: map<string, seq<string>>)
    ensures needs.Keys == {CrisisResourcesKey, CulturalSafetyKey, CountryRisksKey, SocialSupportKey}
    ensures var resources := CountryData(db, patient.country).crisisResources;
            var c := needs[CrisisResourcesKey];
            if Distressed(patient.mentalState) then
              |c| == |resources| && forall i :: 0 <= i < |c| ==> c[i] == Emergency(resources[i])
            else c == []
    ensures var issues := CountryData(db, patient.country).commonIssues;
            needs[CountryRisksKey] ==
              (if "violence_related_trauma" in issues then [ViolenceScreeningLine] else [])
              + (if "suicide_risk" in issues then [SuicideAwarenessLine] else [])
    ensures var factors := CountryData(db, patient.country).culturalConsiderations;
            needs[CulturalSafetyKey] ==
              (if "indigenous_health_needs" in factors then [IndigenousSafetyLine] else [])
              + (if "socioeconomic_disparities" in factors then [SocioeconomicSafetyLine] else [])
    ensures needs[SocialSupportKey] == []
  {
    var d := CountryData(db, patient.country);

    var crisis: seq<string> := [];
    var resources := d.crisisResources;
    if Distressed(patient.mentalState) {
      crisis := seq(|resources|, i requires 0 <= i < |resources| => Emergency(resources[i]));
    }

    var risks: seq<string> := [];
    if "violence_related_trauma" in d.commonIssues {
      risks := risks + [ViolenceScreeningLine];
    }
    if "suicide_risk" in d.commonIssues {
      risks := risks + [SuicideAwarenessLine];
    }
    assert risks == (if "violence_related_trauma" in d.commonIssues then [ViolenceScreeningLine] else [])
                    + (if "suicide_risk" in d.commonIssues then [SuicideAwarenessLine] else []);

    var safety: seq<string> := [];
    if "indigenous_health_needs" in d.culturalConsiderations {
      safety := safety + [IndigenousSafetyLine];
    }
    if "socioeconomic_disparities" in d.culturalConsiderations {
      safety := safety + [SocioeconomicSafetyLine];
    }
    assert safety == (if "indigenous_health_needs" in d.culturalConsiderations then [IndigenousSafetyLine] else [])
                     + (if "socioeconomic_disparities" in d.culturalConsiderations then [SocioeconomicSafetyLine] else []);

    needs := map[CrisisResourcesKey := crisis, CulturalSafetyKey := safety,
                 CountryRisksKey := risks, SocialSupportKey := []];
  }

  // ---------------------------------------------------------------- evidence-based recommendations

  const TreatmentOptionsKey := "Country-Specific Treatment Options"
  const SystemNavigationKey := "Healthcare System Navigation"
  const CulturalAdaptationsKey := "Cultural Treatment Adaptations"
  const FinancialAccessKey := "Financial Access Strategies"

  const NoCostServicesLine := "Utilize publicly funded mental health services with no direct cost"
  const InNetworkLine := "Verify insurance coverage and seek in-network providers"
  const NhsReferralLine := "Access NHS mental health services through GP referral or self-referral"
  const TraditionalHealingLine := "Consider integration of traditional healing practices with modern treatment"
  const FamilyInvolvementLine := "Adapt treatment to include family involvement and collective decision-making"

  function RecommendedLine(ageCategory: string, country: string, treatments: seq<string>): string
  {
    "Recommended for " + ageCategory + " in " + Display(country) + ": " + Join(treatments, ", ")
  }

  function AvailableLine(country: string, resources: seq<string>): string
  {
    "Available in " + Display(country) + ": " + Join(resources, ", ")
  }

  /** `generate_country_evidence_recommendations`. The treatments of the age category and the
      resources of the financial status are looked up by direct indexing, so both must be
      keys of the database; the age categories always are, the financial status is one of
      `low_income`, `moderate_income`, `stable_income` whenever it came from the intake menu. */
  method EvidenceRecommendations(db: HealthDatabase, patient: PatientProfile) returns (recs: map<string, seq<string>>)
    requires AgeCategory(patient.age) in db.ageTreatments
    requires patient.financialStatus in db.financialResources
    ensures recs.Keys == {TreatmentOptionsKey, SystemNavigationKey, CulturalAdaptationsKey, FinancialAccessKey}
    ensures var category := AgeCategory(patient.age);
            var treatments := ListFor(db.ageTreatments[category], patient.country);
            recs[TreatmentOptionsKey] ==
              if treatments == [] then [] else [RecommendedLine(category, patient.country, treatments)]
    ensures var resources := ListFor(db.financialResources[patient.financialStatus], patient.country);
            recs[FinancialAccessKey] == if resources == [] then [] else [AvailableLine(patient.country, resources)]
    ensures var system := CountryData(db, patient.country).healthcareSystem;
            recs[SystemNavigationKey] ==
              if system == "universal_healthcare" then [NoCostServicesLine]
              else if system == "private_insurance" then [InNetworkLine]
              else if system == "nhs" then [NhsReferralLine]
              else []
    ensures var factors := CountryData(db, patient.country).culturalConsiderations;
            recs[CulturalAdaptationsKey] ==
              (if "traditional_medicine" in factors then [TraditionalHealingLine] else [])
              + (if "family_centered_care" in factors then [FamilyInvolvementLine] else [])
  {
    var category := AgeCategory(patient.age);
    var d := CountryData(db, patient.country);

    var options: seq<string> := [];
    var treatments := ListFor(db.ageTreatments[category], patient.country);
    if treatments != [] {
      options := options + [RecommendedLine(category, patient.country, treatments)];
    }

    var financial: seq<string> := [];
    var resources := ListFor(db.financialResources[patient.financialStatus], patient.country);
    if resources != [] {
      financial := [AvailableLine(patient.country, resources)];
    }

    var navigation: seq<string> := [];
    if d.healthcareSystem == "universal_healthcare" {
      navigation := navigation + [NoCostServicesLine];
    } else if d.healthcareSystem == "private_insurance" {
      navigation := navigation + [InNetworkLine];
    } else if d.healthcareSystem == "nhs" {
      navigation := navigation + [NhsReferralLine];
    }

    var adaptations: seq<string> := [];
    if "traditional_medicine" in d.culturalConsiderations {
      adaptations := adaptations + [TraditionalHealingLine];
    }
    if "family_centered_care" in d.culturalConsiderations {
      adaptations := adaptations + [FamilyInvolvementLine];
    }
    assert adaptations == (if "traditional_medicine" in d.culturalConsiderations then [TraditionalHealingLine] else [])
                          + (if "family_centered_care" in d.culturalConsiderations then [FamilyInvolvementLine] else []);

    recs := map[TreatmentOptionsKey := options, SystemNavigationKey := navigation,
                CulturalAdaptationsKey := adaptations, FinancialAccessKey := financial];
  }

  // ---------------------------------------------------------------- comprehensive recommendations

  const PhysicalKey := "Physical Health"
  const MentalKey := "Mental Health"
  const SocialKey := "Social/Professional"
  const DailyKey := "Daily Structure"
  const CrisisKey := "Crisis Support"

  const SunSafeLine := "Sun-safe exercise options due to high skin cancer rates"
  const IndoorExerciseLine := "Indoor exercise options for seasonal depression prevention"
  const FreeExerciseOptions: seq<string> :=
    ["Free community walking groups", "Public park exercise facilities", "Community center programs"]
  const StarterExerciseOptions: seq<string> :=
    ["Start with 10-15 minutes of daily walking", "Consider local fitness facilities"]
  const SafetyPlanningLine := "Immediate safety planning with local cultural considerations"
  const StigmaServicesLine := "Consider culturally-sensitive mental health services that address stigma"
  const FamilyTherapyLine := "Family therapy integration with cultural values"
  const UbuntuLine := "Community-based healing approaches aligned with Ubuntu philosophy"
  const GermanyEmploymentLine := "Access Federal Employment Agency (Bundesagentur f\U{FC}r Arbeit) services"
  const CanadaEmploymentLine := "Utilize Employment Insurance and job training programs"
  const UnitedKingdomEmploymentLine := "Access Jobcentre Plus and Universal Credit support"
  const AustraliaEmploymentLine := "Contact Centrelink for employment services and support"
  const SwedenEmploymentLine := "Register with Arbetsf\U{F6}rmedlingen (Swedish Public Employment Service)"
  const LightTherapyLine := "Light therapy routine during dark winter months"
  const KaroshiLine := "Work-life balance practices to prevent karoshi (overwork)"
  const FamilyMealsLine := "Include family meal times and community connections"

  function ObesityLine(country: string): string
  {
    "Address obesity prevention - priority health issue in " + Display(country)
  }

  function ContactCrisisLine(resources: seq<string>): string
  {
    "Contact crisis services: " + Join(resources, ", ")
  }

  /** "Physical Health": advice only for a sedentary patient: the obesity line first when the
      country lists obesity, sun-safe exercise in Australia when it lists skin cancer, indoor
      exercise in Sweden, and always last the free options for a low-income patient and the
      starter options for anyone else. */
  function PhysicalHealth(d: CountryHealth, patient: PatientProfile): (r: seq<string>)
    ensures patient.exerciseLevel != "Sedentary" ==> r == []
    ensures patient.exerciseLevel == "Sedentary" && patient.financialStatus == "low_income" ==>
              3 <= |r| <= 5 && r[|r| - 3..] == FreeExerciseOptions
    ensures patient.exerciseLevel == "Sedentary" && patient.financialStatus != "low_income" ==>
              2 <= |r| <= 4 && r[|r| - 2..] == StarterExerciseOptions
    ensures patient.exerciseLevel == "Sedentary" ==>
              |r| == (if "obesity" in d.commonIssues then 1 else 0)
                     + (if (patient.country == "australia" && "skin_cancer" in d.commonIssues)
                           || patient.country == "sweden" then 1 else 0)
                     + (if patient.financialStatus == "low_income" then 3 else 2)
    ensures patient.exerciseLevel == "Sedentary" && "obesity" in d.commonIssues ==> r[0] == ObesityLine(patient.country)
    ensures patient.exerciseLevel == "Sedentary" && patient.country == "australia" && "skin_cancer" in d.commonIssues ==>
              r[|r| - (if patient.financialStatus == "low_income" then 4 else 3)] == SunSafeLine
    ensures patient.exerciseLevel == "Sedentary" && patient.country == "sweden" ==>
              r[|r| - (if patient.financialStatus == "low_income" then 4 else 3)] == IndoorExerciseLine
  {
    if patient.exerciseLevel != "Sedentary" then []
    else
      var obesity := if "obesity" in d.commonIssues then [ObesityLine(patient.country)] else [];
      var climate := if patient.country == "australia" && "skin_cancer" in d.commonIssues then [SunSafeLine]
                     else if patient.country == "sweden" then [IndoorExerciseLine]
                     else [];
      var options := if patient.financialStatus == "low_income" then FreeExerciseOptions else StarterExerciseOptions;
      assert (obesity + climate + options)[|obesity + climate|..] == options;
      obesity + climate + options
  }

  /** "Crisis Support": the local crisis numbers and safety planning, only for a Poor or
      Critical patient in a country with crisis numbers. */
  function CrisisSupport(d: CountryHealth, patient: PatientProfile): (r: seq<string>)
    ensures r != [] <==> Distressed(patient.mentalState) && d.crisisResources != []
    ensures r != [] ==> r == [ContactCrisisLine(d.crisisResources), SafetyPlanningLine]
  {
    if Distressed(patient.mentalState) && d.crisisResources != [] then
      [ContactCrisisLine(d.crisisResources), SafetyPlanningLine]
    else []
  }

  /** The countries with a culturally adapted mental-health approach: the cultural
      consideration the country must list, and the approach. */
  const MentalHealthApproaches: map<string, (string, string)> := map[
    "japan" := ("mental_health_stigma", StigmaServicesLine),
    "india" := ("family_centered_care", FamilyTherapyLine),
    "south_africa" := ("ubuntu_philosophy", UbuntuLine)]

  /** "Mental Health": one culturally adapted approach for a Poor or Critical patient in
      Japan, India or South Africa, when the country lists the matching consideration. */
  function MentalHealth(d: CountryHealth, patient: PatientProfile): (r: seq<string>)
    ensures |r| <= 1
    ensures r != [] <==>
              Distressed(patient.mentalState) && patient.country in MentalHealthApproaches
              && MentalHealthApproaches[patient.country].0 in d.culturalConsiderations
    ensures r != [] ==> r == [MentalHealthApproaches[patient.country].1]
  {
    if !Distressed(patient.mentalState) then []
    else if patient.country == "japan" && "mental_health_stigma" in d.culturalConsiderations then [StigmaServicesLine]
    else if patient.country == "india" && "family_centered_care" in d.culturalConsiderations then [FamilyTherapyLine]
    else if patient.country == "south_africa" && "ubuntu_philosophy" in d.culturalConsiderations then [UbuntuLine]
    else []
  }

  /** The countries with a national employment service to point to. */
  const EmploymentServices: map<string, string> := map[
    "germany" := GermanyEmploymentLine,
    "canada" := CanadaEmploymentLine,
    "united_kingdom" := UnitedKingdomEmploymentLine,
    "australia" := AustraliaEmploymentLine,
    "sweden" := SwedenEmploymentLine]

  /** "Social/Professional": the national employment service, for a status that mentions
      "unemployed", in the five countries that have one listed. */
  function SocialProfessional(patient: PatientProfile): (r: seq<string>)
    ensures |r| <= 1
    ensures r != [] <==> MentionsUnemployed(patient.employmentStatus) && patient.country in EmploymentServices
    ensures r != [] ==> r == [EmploymentServices[patient.country]]
  {
    if !MentionsUnemployed(patient.employmentStatus) then []
    else if patient.country == "germany" then [GermanyEmploymentLine]
    else if patient.country == "canada" then [CanadaEmploymentLine]
    else if patient.country == "united_kingdom" then [UnitedKingdomEmploymentLine]
    else if patient.country == "australia" then [AustraliaEmploymentLine]
    else if patient.country == "sweden" then [SwedenEmploymentLine]
    else []
  }

  /** "Daily Structure": at most one routine, chosen by country: light therapy for an adult or
      middle-aged patient in Sweden, work-life balance for an employed patient in Japan, family
      meals in Brazil when it lists family support. */
  function DailyStructure(d: CountryHealth, patient: PatientProfile): (r: seq<string>)
    ensures |r| <= 1
    ensures r == [LightTherapyLine] <==> patient.country == "sweden" && AgeCategory(patient.age) in {Adult, MiddleAged}
    ensures r == [KaroshiLine] <==> patient.country == "japan" && MentionsEmployed(patient.employmentStatus)
    ensures r == [FamilyMealsLine] <==> patient.country == "brazil" && "family_support" in d.culturalConsiderations
    ensures r == [] <==>
              !(patient.country == "sweden" && AgeCategory(patient.age) in {Adult, MiddleAged})
              && !(patient.country == "japan" && MentionsEmployed(patient.employmentStatus))
              && !(patient.country == "brazil" && "family_support" in d.culturalConsiderations)
  {
    if patient.country == "sweden" && AgeCategory(patient.age) in {Adult, MiddleAged} then [LightTherapyLine]
    else if patient.country == "japan" && MentionsEmployed(patient.employmentStatus) then [KaroshiLine]
    else if patient.country == "brazil" && "family_support" in d.culturalConsiderations then [FamilyMealsLine]
    else []
  }

  /** The "Physical Health" part of `generate_comprehensive_recommendations`. */
  method AddPhysicalAdvice(d: CountryHealth, patient: PatientProfile) returns (physical: seq<string>)
    ensures physical == PhysicalHealth(d, patient)
  {
    physical := [];
    if patient.exerciseLevel == "Sedentary" {
      if "obesity" in d.commonIssues {
        physical := physical + [ObesityLine(patient.country)];
      }
      if patient.country == "australia" && "skin_cancer" in d.commonIssues {
        physical := physical + [SunSafeLine];
      } else if patient.country == "sweden" {
        physical := physical + [IndoorExerciseLine];
      }
      if patient.financialStatus == "low_income" {
        physical := physical + FreeExerciseOptions;
      } else {
        physical := physical + StarterExerciseOptions;
      }
    }
  }

  /** The "Crisis Support" and "Mental Health" parts, both only for a Poor or Critical patient. */
  method AddCrisisAdvice(d: CountryHealth, patient: PatientProfile) returns (crisis: seq<string>, mental: seq<string>)
    ensures crisis == CrisisSupport(d, patient)
    ensures mental == MentalHealth(d, patient)
  {
    crisis, mental := [], [];
    if Distressed(patient.mentalState) {
      var resources := d.crisisResources;
      if resources != [] {
        crisis := crisis + [ContactCrisisLine(resources), SafetyPlanningLine];
      }
      if patient.country == "japan" && "mental_health_stigma" in d.culturalConsiderations {
        mental := mental + [StigmaServicesLine];
      } else if patient.country == "india" && "family_centered_care" in d.culturalConsiderations {
        mental := mental + [FamilyTherapyLine];
      } else if patient.country == "south_africa" && "ubuntu_philosophy" in d.culturalConsiderations {
        mental := mental + [UbuntuLine];
      }
    }
  }

  /** The "Social/Professional" part. */
  method AddEmploymentAdvice(patient: PatientProfile) returns (social: seq<string>)
    ensures social == SocialProfessional(patient)
  {
    social := [];
    if MentionsUnemployed(patient.employmentStatus) {
      if patient.country == "germany" {
        social := social + [GermanyEmploymentLine];
      } else if patient.country == "canada" {
        social := social + [CanadaEmploymentLine];
      } else if patient.country == "united_kingdom" {
        social := social + [UnitedKingdomEmploymentLine];
      } else if patient.country == "australia" {
        social := social + [AustraliaEmploymentLine];
      } else if patient.country == "sweden" {
        social := social + [SwedenEmploymentLine];
      }
    }
  }

  /** The "Daily Structure" part. */
  method AddDailyAdvice(d: CountryHealth, patient: PatientProfile) returns (daily: seq<string>)
    ensures daily == DailyStructure(d, patient)
  {
    daily := [];
    var category := AgeCategory(patient.age);
    if patient.country == "sweden" && category in {Adult, MiddleAged} {
      daily := daily + [LightTherapyLine];
    } else if patient.country == "japan" && MentionsEmployed(patient.employmentStatus) {
      daily := daily + [KaroshiLine];
    } else if patient.country == "brazil" && "family_support" in d.culturalConsiderations {
      daily := daily + [FamilyMealsLine];
    }
  }

  /** The five section titles are distinct (their first letters differ). */
  lemma SectionKeysDistinct()
    ensures PhysicalKey != MentalKey && PhysicalKey != SocialKey && PhysicalKey != DailyKey && PhysicalKey != CrisisKey
    ensures MentalKey != SocialKey && MentalKey != DailyKey && MentalKey != CrisisKey
    ensures SocialKey != DailyKey && SocialKey != CrisisKey && DailyKey != CrisisKey
  {
    assert PhysicalKey[0] == 'P' && MentalKey[0] == 'M' && SocialKey[0] == 'S' && DailyKey[0] == 'D' && CrisisKey[0] == 'C';
  }

  /** `generate_comprehensive_recommendations`. */
  method ComprehensiveRecommendations(db: HealthDatabase, patient: PatientProfile) returns (recs: map<string, seq<string>>)
    ensures recs.Keys == {PhysicalKey, MentalKey, SocialKey, DailyKey, CrisisKey}
    ensures var d := CountryData(db, patient.country);
            && recs[PhysicalKey] == PhysicalHealth(d, patient)
            && recs[MentalKey] == MentalHealth(d, patient)
            && recs[SocialKey] == SocialProfessional(patient)
            && recs[DailyKey] == DailyStructure(d, patient)
            && recs[CrisisKey] == CrisisSupport(d, patient)
  {
    var d := CountryData(db, patient.country);
    var physical := AddPhysicalAdvice(d, patient);
    var crisis, mental := AddCrisisAdvice(d, patient);
    var social := AddEmploymentAdvice(patient);
    var daily := AddDailyAdvice(d, patient);
    recs := Sections(physical, mental, social, daily, crisis);
  }

  /** The five sections under their keys. */
  method Sections(physical: seq<string>, mental: seq<string>, social: seq<string>, daily: seq<string>,
                  crisis: seq<string>) returns (recs: map<string, seq<string>>)
    ensures recs.Keys == {PhysicalKey, MentalKey, SocialKey, DailyKey, CrisisKey}
    ensures recs[PhysicalKey] == physical && recs[MentalKey] == mental && recs[SocialKey] == social
            && recs[DailyKey] == daily && recs[CrisisKey] == crisis
  {
    SectionKeysDistinct();
    recs := map[PhysicalKey := physical, MentalKey := mental, SocialKey := social,
                DailyKey := daily, CrisisKey := crisis];
  }
}
