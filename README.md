# Social work board: a verified model

The repository has two halves, and this project models both.

- A therapeutic check-in tracker (a Flask backend over SQLAlchemy).
  - Therapists register, create clients, set weekly goals and write notes.
  - Clients submit a daily check-in with category responses and goal completions.
  - A therapist asks for a weekly report.
  - Two scripts seed the database and migrate a legacy JSON store into it.
- A global social-work assessment tool.
  - Input validators turn console answers into menu keys or values.
  - An assessor buckets age and city size, then builds four dictionaries of country-specific needs and recommendations from a table of twelve countries.

Conventions of the model:

- Tables are Dafny sequences (row id = position + 1) or maps keyed by their natural keys. The check-ins are keyed by (client, date), the category responses by (client, category, date) and the goal completions by (goal, date).
- Dates are proleptic-Gregorian ordinals, as Python's `toordinal` gives them: 0001-01-01 is 1, a Monday, so the weekday is `(ord + 6) % 7`.
- The clock (`today`, `now`), the random draws of the serial generator, the generated password and the random hex of the migration's default therapist are parameters.
- The token check is a map from token to claims.
- A request that raises is a `Failure` with status 500, and the store is left as it was (the handler rolls back).
- A handler behind `require_auth` receives the authenticated user's therapist or client profile as an optional row id. It is absent for an account without one, which the migration can leave behind (`Migration.NamelessTherapistLeavesAccount`, `Migration.BadEnrollmentDateStrandsAccount`); the handler then raises on it.
- The handlers that change the store are methods of `Backend.Server` over a `Schema.Database` object. Each is proved equal to a specification (`Snapshot()` before and after). Pure decisions are functions.
- The migration loops are methods whose result equals a fold over the input files (`TherapistMigration`, `ClientMigration`, `CheckinMigration`). The invariants the folds keep are proved as lemmas.
- A flush that breaks a unique column (a therapist's `license_number`, a client's `client_serial`, new_backend.py:74 and :89) leaves the SQLAlchemy session failed. The fold then carries a `failed` flag, every later step does nothing, and the commit raises: the migration and the initialisation return `None`, and their methods restore the store as it was.
- A JSON key that the code reads differently when it is absent and when it holds `null` is a `Field` (absent, `null`, or a value). A key the code reads the same either way is an `Option`.
- The assessment builders are methods that fill their dictionaries step by step, each proved equal to a closed-form description of every key.

The report's week arithmetic follows the code, not ISO 8601. Week `n` starts `n` weeks after the Monday on or before 1 January. So 2023-W1 is 2023-01-02, and 2024-W1 is 2024-01-08, not 2024-01-01 (`Calendar.ReportWeekExamples`).

## Model

| member | source | states |
|---|---|---|
| Auth.Authorize | new_backend.py:242-273 | the handler runs only for a `Bearer ` header whose token verifies, whose user exists and is active, and whose stored role is allowed (or no roles are listed); a refusal is 401 or 403; a token that does not verify gets 401 "Invalid or expired token", a missing or inactive user 401 "User not found or inactive", and a 403 is "Insufficient permissions" for a listed-roles route the user's role is not on |
| Auth.AuthorizeComplete | new_backend.py:247-271 | when every check passes, the decision is to proceed as the token's user with the user's stored role |
| Auth.HeaderCheckedFirst | new_backend.py:248-249 | a header without the `Bearer ` prefix is refused with 401 "Invalid authorization header" whatever the token, user table and roles |
| Auth.ForbiddenOnlyAfterAuthentication | new_backend.py:262-264 | a refusal is 403 exactly when the header, token and active user all pass and only the role is not allowed |
| Auth.TokenRoleIgnored | new_backend.py:257-264 | the role inside the token plays no part: the user table's role decides |
| Auth.StandardHeader | new_backend.py:251 | `Bearer <t>` yields the token `t` |
| Auth.DoubledPrefixAccepted | new_backend.py:251 | because every `Bearer ` is removed, `Bearer Bearer <t>` also yields `t` |
| Backend.GenerateClientSerial | new_backend.py:275-282 | the serial is `C` plus 8 digits, is not in use, and is the first draw not already in use |
| Backend.RegisterRejection | new_backend.py:300-309 | registration is refused (400) exactly when email, password or role is missing or empty, the role is neither therapist nor client, or the email is taken |
| Backend.MissingFieldsReportedFirst | new_backend.py:301-302 | a missing field is reported as "Missing required fields" before the role and email checks |
| Backend.ChosenCategories | new_backend.py:650-654 | a non-empty requested list is used as given; otherwise exactly the ids of the default categories |
| Backend.GoalsFor | new_backend.py:664-673 | one active goal per initial goal text, in order, all for the given week |
| Backend.FindOwnedClient | new_backend.py:713-719 | the lookup succeeds exactly when the id names a client of this therapist, and otherwise fails with 404 "Client not found" |
| Backend.NotFoundIndistinguishable | new_backend.py:534-540 | a client of another therapist, a missing id and no id at all give the identical answer |
| Backend.GoalWeek | new_backend.py:722-726 | no week start means the Monday of the current week; a given one is used when it parses as a date, and the request fails otherwise |
| Backend.GoalWeekAsGiven | new_backend.py:722-723 | a week start written as a date is taken as that date |
| Backend.CheckinDate | new_backend.py:879-880 | a given date resolves exactly when it parses, to its ordinal; a `null` date does not resolve (the handler answers 500); any resolved date is a valid ordinal |
| Backend.CheckinDefaultsToToday | new_backend.py:879 | an absent date means today |
| Backend.ParseKeysMeaning | new_backend.py:911-915 | the ids parse exactly when every key parses as an integer, and then each pair keeps its value and the parsed key |
| Backend.ParseIdsFails | new_backend.py:915 | one key that is not an integer fails the whole submission |
| Backend.UpsertCheckin | new_backend.py:883-907 | after the upsert there is exactly one row for (client, date), carrying the new time and the six submitted fields (absent ones null); an existing row keeps its creation stamp; other rows are unchanged |
| Backend.ApplyResponsesAt | new_backend.py:909-928 | per key: a response exists afterwards iff it existed or the submission names its category for this client and date; its value is the last submitted one, and an existing row changes only its value |
| Backend.ApplyResponsesStep | new_backend.py:911-928 | one more category pair overwrites only the value of an existing response, or inserts a new one |
| Backend.ApplyCompletionsAt | new_backend.py:930-947 | per key: a completion exists afterwards iff it existed or the submission names its goal for this date; only `completed` of an existing row changes |
| Backend.ApplyCompletionsStep | new_backend.py:932-947 | one more goal pair overwrites only `completed` of an existing completion, or inserts a new one |
| Backend.ApplyResponsesCovers | new_backend.py:909-928 | every submitted category has a response for this client and date afterwards |
| Backend.ApplyCompletionsCovers | new_backend.py:930-947 | every submitted goal has a completion for this date afterwards |
| Backend.ApplyResponsesIdempotent | new_backend.py:909-928 | applying the same responses twice is the same as once |
| Backend.ApplyCompletionsIdempotent | new_backend.py:930-947 | applying the same completions twice is the same as once |
| Backend.ApplyResponsesNoNewRows | new_backend.py:919-920 | when every row already exists, the creation stamp plays no part |
| Backend.ApplyCompletionsNoNewRows | new_backend.py:939-940 | when every row already exists, the creation stamp plays no part |
| Backend.CheckinSubmission | new_backend.py:871-958 | the submission fails with a 500 exactly on a bad date, an account without a client profile, a `null` responses or completions dictionary, or a non-integer category or goal id; otherwise it touches only the check-in, response and completion tables |
| Backend.CheckinResubmission | new_backend.py:883-947 | submitting the same check-in again at the same time leaves the store as it is |
| Backend.SaveCategoryResponses | new_backend.py:909-928 | the loop fails exactly when some key is not an integer, and otherwise yields the specified upsert |
| Backend.SaveGoalCompletions | new_backend.py:930-947 | the loop fails exactly when some key is not an integer, and otherwise yields the specified upsert |
| Backend.WeekLabelRoundTrip | new_backend.py:1031-1033 | a label `<year>-W<n>` parses back to the year and week it was written from |
| Backend.ResolveWeek | new_backend.py:1031-1041 | a week that resolves starts on a Monday, and its seven days are valid dates |
| Backend.ResolveWeekOfLabel | new_backend.py:1031-1041 | the label `<year>-W<n>` resolves to the Monday computed for that year and week whenever the year is accepted and the whole week is in range |
| Backend.CollectWeek | new_backend.py:1047-1056 | the week data has a day exactly when it is one of the seven days from the week start and the client checked in that day, with that check-in's values |
| Backend.GenerateReport | new_backend.py:1016-1067 | an account without a therapist profile is a 500; ownership is checked before the week is parsed (404 otherwise); a week that does not resolve is a 500; the report is produced exactly when the profile exists, owns the client and the week resolves, and carries the client's serial and exactly the week's check-ins |
| Backend.SeedIfEmpty | new_backend.py:1090-1109 | an empty category table is seeded so that categories 1, 2, 3 are the defaults; a non-empty one is left alone |
| Backend.SeedIfEmptyIdempotent | new_backend.py:1090-1109 | seeding twice is seeding once |
| Backend.AddGoals | new_backend.py:666-673 | the goals table grows by exactly the specified goals and nothing else changes |
| Backend.Server.constructor | new_backend.py:1079-1080 | a fresh process has not initialised the database |
| Backend.Server.InitializeDatabase | new_backend.py:1082-1109 | the first call seeds an empty category table; every later call changes nothing |
| Backend.Server.Register | new_backend.py:291-365 | a refusal or a duplicate licence changes nothing; otherwise exactly one user, plus a therapist profile, or a client with a fresh serial and default plans |
| Backend.Server.CreateClient | new_backend.py:615-698 | a taken email is a 400; a missing email, an empty password (which bcrypt refuses) or an account without a therapist profile is a 500; every failure changes nothing; otherwise exactly the user, client, plans, current-week goals and welcome note are added |
| Backend.Server.AddWeeklyGoal | new_backend.py:700-749 | an account without a therapist profile is a 500; the goal is added exactly when the profile exists, the client is the therapist's, the week start resolves and a text is given; a foreign or missing client is 404 with no change |
| Backend.Server.AddTherapistNote | new_backend.py:751-796 | an account without a therapist profile is a 500; the note is added exactly when the profile exists, the client is the therapist's and content is given, with type defaulting to general and mission to false |
| Backend.Server.SubmitCheckin | new_backend.py:871-958 | the store ends as the submission specifies, or unchanged with the same error |
| Schema.DefaultCategoryIdsSpec | new_backend.py:653-654 | the default category ids are exactly the ids of the rows marked default, in ascending order |
| Schema.SeededDefaults | init_db.py:24-55 | the seeded table has exactly three defaults, ids 1 to 3: Emotion Level, Energy and Social Activity |
| Schema.PlansFor | new_backend.py:656-661 | one active plan per category id, in order, for the client |
| Schema.UserById | new_backend.py:258 | a user id resolves exactly when it names a row |
| Schema.Database.constructor | new_backend.py:53-210 | a new database has every table empty |
| Schema.Database.SeedDefaultCategories | new_backend.py:1092-1109 | the six categories are appended and nothing else changes |
| Schema.Database.AddPlans | new_backend.py:656-661 | the plans for the given categories are appended and nothing else changes |
| Calendar.CurrentWeekStart | new_backend.py:665 | the current week starts on a Monday at most six days before today |
| Calendar.CurrentWeekStartUnique | new_backend.py:665 | it is the only such Monday |
| Calendar.ReportWeekStartIsMonday | new_backend.py:1036-1041 | every report week starts on a Monday, whole weeks after the Monday on or before 1 January |
| Calendar.ReportWeekExamples | new_backend.py:1036-1041 | 2023-W1 is 2023-01-02; 2024-W1 is 2024-01-08; 2024-W0 is 2024-01-01 |
| Calendar.ParseIsoDate | new_backend.py:880 | a date that parses is a valid calendar date |
| Calendar.IsoDateRoundTrip | new_backend.py:880 | every valid date written as `YYYY-MM-DD` parses back to itself |
| Calendar.ClockTimeRoundTrip | migrate_json_to_db.py:288 | every `HH:MM` time parses back to itself with zero seconds |
| Text.Strip | input_validation.py:59 | the result is the slice `s[i..j]` with only whitespace before `i` and after `j`, and neither end of it is whitespace, so it is `s` with its leading and trailing whitespace removed; it is empty exactly when the input is all whitespace |
| Text.ParseIntRoundTrip | input_validation.py:110 | `int()` reads back every integer's decimal form |
| Text.ZFillDigits | migrate_json_to_db.py:194 | `zfill` pads a digit string on the left with zeros up to the width |
| InputValidation.ValidateName | input_validation.py:57-95 | a name is accepted exactly when the stripped text is non-empty, at most 100 characters, and uses only letters, whitespace, `.`, `-` and `'`; the value is the stripped text |
| InputValidation.ValidateAge | input_validation.py:97-142 | an age is accepted exactly when the stripped text is an integer from 0 to 120; a minor carries the consent note |
| InputValidation.SelectFromMenu | input_validation.py:156-166 | an exact key is chosen as itself; otherwise the first entry, in menu order, whose label matches |
| InputValidation.ValidateMenu | input_validation.py:144-183 | empty input gets the empty-input refusal; otherwise the answer is a menu key, chosen as the menu search chooses, or a refusal when nothing matches |
| InputValidation.ValidateCountry | input_validation.py:144-183 | an accepted country is a menu key |
| InputValidation.SimilarCities | input_validation.py:227 | the similar cities are exactly the country's major cities with the same first letter |
| InputValidation.SimilarCitiesInOrder | input_validation.py:227-230 | the similar cities are the matching major cities in list order, repeats kept: the subsequence at increasing positions that include every matching one, so the first three printed are the list's first three matches |
| InputValidation.CitySuggestions | input_validation.py:216-230 | no suggestion without a known country code; with one, the "recognized" line exactly when some major city of the country is part of the lower-cased name or the name part of it, and otherwise the line listing the first three major cities with the name's initial, or nothing when there is none |
| InputValidation.ValidateCity | input_validation.py:185-232 | a city is accepted exactly when the stripped text is non-empty, at most 100 characters, of letters, spaces, `.`, `-`, `'` and the listed accented letters; suggestions only for a known country |
| InputValidation.ValidateGender | input_validation.py:234-275 | an accepted gender is a menu key, never its label |
| InputValidation.ValidateEmployment | input_validation.py:277-325 | an accepted status is a menu key, never its label |
| InputValidation.KeywordKeysAreMenuKeys | input_validation.py:348-359 | every keyword of the financial and exercise menus maps to a key of that menu |
| InputValidation.KeywordChoice | input_validation.py:361-366 | a keyword matches exactly when one of them occurs in the input, and the answer is such a keyword's key |
| InputValidation.FirstKeywordWins | input_validation.py:425-431 | the first keyword that occurs decides the key |
| InputValidation.ValidateKeywordMenu | input_validation.py:327-388 | empty input gets the empty-input refusal; an exact key is kept; otherwise the keyword search decides, and the answer is always a menu key |
| InputValidation.ValidateFinancial | input_validation.py:327-388 | an accepted financial status is a menu key |
| InputValidation.ValidateExercise | input_validation.py:390-446 | an accepted exercise level is a menu key |
| InputValidation.LowToModerateIsLow | input_validation.py:348-366 | "low to moderate" maps to key 1 because "low" is tried first |
| InputValidation.ActiveWinsOverLaterKeywords | input_validation.py:412-431 | any text containing "active" (without "very" or "high") maps to key 1 |
| InputValidation.InactiveIsVeryActive | input_validation.py:412-431 | "inactive" maps to key 1, not to key 4 |
| InputValidation.ModeratelyActiveIsVeryActive | input_validation.py:412-431 | "moderately active" maps to key 1, not to key 2 |
| SocialWork.AgeCategory | socialworkcountry.py:274-283 | 18-25 young adult, 26-45 adult, 46-64 middle aged, every other age (minors included) senior |
| SocialWork.AnyContained | socialworkcountry.py:312 | true exactly when one of the keywords occurs in the text |
| SocialWork.CityCategory | socialworkcountry.py:285-315 | major city exactly when the lowered, stripped name contains one of the country's major cities; else rural on a rural keyword; else suburban; never major for an unknown country |
| SocialWork.MajorCityBeatsRuralKeyword | socialworkcountry.py:305-313 | "London County" in the United Kingdom has a rural keyword but is a major city |
| SocialWork.CulturalLinesSpec | socialworkcountry.py:489-502 | the stigma line appears iff the factor is listed and the patient is Fair, Poor or Critical; the family line iff listed; the work-stress line iff listed and the status contains "employed"; nothing else appears |
| SocialWork.CulturalLineSpec | socialworkcountry.py:490-502 | one factor contributes at most one line, under the same conditions |
| SocialWork.CollectCulturalLines | socialworkcountry.py:489-502 | the loop yields the cultural lines of the factors in order |
| SocialWork.PriorityScreenings | socialworkcountry.py:476-479 | one "Screen for" line per issue, for at most the first three |
| SocialWork.PreventiveLines | socialworkcountry.py:519-523 | one title-cased line per preventive focus, in order |
| SocialWork.AssessHealthNeeds | socialworkcountry.py:463-525 | exactly the four keys; at most three screenings; the prevalence line only for Poor or Critical; the cultural lines; one navigation line chosen by the healthcare system |
| SocialWork.AssessSafetyNeeds | socialworkcountry.py:527-567 | exactly the four keys; one "Emergency:" line per crisis resource, in order, only for Poor or Critical; risk and cultural-safety lines by table membership; social support always empty |
| SocialWork.EvidenceRecommendations | socialworkcountry.py:569-628 | exactly the four keys; treatment and financial lines only when the tables list something for the country; navigation by healthcare system; adaptations by cultural factors |
| SocialWork.PhysicalHealth | socialworkcountry.py:726-746 | empty unless Sedentary; for a Sedentary patient: the obesity line first when the country lists obesity, then sun-safe exercise in Australia when it lists skin cancer or indoor exercise in Sweden, and last the three free options for a low-income patient or the two starter options for anyone else, with no other line |
| SocialWork.CrisisSupport | socialworkcountry.py:749-755 | crisis lines appear exactly for a Poor or Critical patient whose country lists crisis resources |
| SocialWork.MentalHealth | socialworkcountry.py:757-767 | a line exactly when the patient is Poor or Critical, the country is Japan, India or South Africa, and it lists the matching consideration (stigma, family-centred care, Ubuntu); the line is that country's approach |
| SocialWork.SocialProfessional | socialworkcountry.py:770-782 | one line exactly when the status contains "unemployed" and the country is one of the five with an employment service, and it names that country's service |
| SocialWork.DailyStructure | socialworkcountry.py:785-790 | at most one line: light therapy exactly for an adult or middle-aged patient in Sweden, the overwork line exactly for Japan with a status containing "employed", family meals exactly for Brazil when it lists family support, and nothing otherwise |
| SocialWork.AddPhysicalAdvice | socialworkcountry.py:726-746 | the steps build the physical-health list as specified |
| SocialWork.AddCrisisAdvice | socialworkcountry.py:749-767 | the steps build the crisis and mental-health lists as specified |
| SocialWork.AddEmploymentAdvice | socialworkcountry.py:770-782 | the steps build the employment list as specified |
| SocialWork.AddDailyAdvice | socialworkcountry.py:785-790 | the steps build the daily-structure list as specified |
| SocialWork.ComprehensiveRecommendations | socialworkcountry.py:711-792 | exactly the five keys, each holding its specified list |
| HealthData.EvidenceLookupsSucceed | socialworkcountry.py:582-591 | every age category has a treatment table, and each of the three income keys has a resource table |
| HealthData.JapanData | socialworkcountry.py:73-80 | Japan's entry lists work stress among its cultural considerations |
| HealthData.WorkAdviceInJapan | socialworkcountry.py:499-502 | in Japan a status containing "employed" gets both the work-stress line and the overwork line |
| HealthData.UnemployedTreatedAsEmployedInJapan | socialworkcountry.py:787-788 | "Unemployed - actively seeking" in Japan also gets the work-stress and overwork advice |
| Migration.TherapistStepKeeps | migrate_json_to_db.py:90-123 | one therapist file keeps the rows appended and every mapped email pointing at its own therapist |
| Migration.TherapistStepsKeep | migrate_json_to_db.py:90-126 | the whole loop keeps that invariant and counts at most one per file |
| Migration.TherapistStepFails | migrate_json_to_db.py:95-125 | a file fails the session exactly when the session still works, its email is new, it has a name, and its licence number (its own or `LEGACY-<count>`) is already a profile's |
| Migration.TherapistStepsFail | migrate_json_to_db.py:90-126 | the loop ends with a failed session exactly when it started with one or some file, reached after the files before it, clashes on its licence |
| Migration.TherapistStepsShape | migrate_json_to_db.py:65-126 | after the default therapist and the loop, the default therapist follows the existing profiles, users are only appended, the other tables are untouched, the count bounds the new profiles, and each mapped email names the user of its profile |
| Migration.TherapistMigrationSpec | migrate_json_to_db.py:60-134 | the migration fails exactly when the directory exists and either the default therapist's email or licence is already taken or a file's licence clashes (the commit then raises); without a directory nothing changes; otherwise the run has the shape above |
| Migration.RegisteredLicenceAborts | migrate_json_to_db.py:112-128 | a first file with a new email, a name and a licence number already registered fails the whole therapist migration |
| Migration.MigrationRunsOnce | migrate_json_to_db.py:65-86 | after a run whose therapist step committed, whatever the client and check-in steps then did, the next run that finds a therapists directory fails on the default therapist |
| Migration.NamelessTherapistLeavesAccount | migrate_json_to_db.py:100-123 | a record without a name leaves its user behind, uncounted and unmapped |
| Migration.MigrateTherapistFile | migrate_json_to_db.py:90-126 | one loop step changes the store, count, map and failed-session flag as the step specifies |
| Migration.MigrateTherapists | migrate_json_to_db.py:60-134 | it reports failure, leaving the store as it was, exactly when the therapist migration fails; otherwise the store, count and map are those of the therapist migration |
| Migration.PatientIdOfFileName | migrate_json_to_db.py:162 | the patient id of `patient_<id>` is `<id>` |
| Migration.LegacyEmailInjective | migrate_json_to_db.py:165 | different patient ids get different legacy emails |
| Migration.LegacySerialOfShortId | migrate_json_to_db.py:194 | an id of at most 8 digits becomes a well-formed serial with the same numeric value |
| Migration.LegacySerialOfLongId | migrate_json_to_db.py:194 | a longer id is kept whole, so its serial is not of the 8-digit form |
| Migration.ClientActive | migrate_json_to_db.py:177 | a migrated client is active exactly when its status is absent or `active`; a `null` status is inactive |
| Migration.DefaultTherapistId | migrate_json_to_db.py:152 | the default therapist is the first one with the system licence, or none |
| Migration.ResolveTherapist | migrate_json_to_db.py:183-189 | `enrolledBy` wins when mapped, then `therapistEmail`, else the default; the result is a mapped therapist or the default |
| Migration.FallbackToDefault | migrate_json_to_db.py:188-189 | with neither email mapped, the default is used |
| Migration.MigrationNote | migrate_json_to_db.py:211-221 | a migration note is written exactly when `notes` is non-empty text, or absent with non-empty text in `additional_notes`, and carries that text after the prefix; a `null` in the key read gives no note |
| Migration.EmptyNotesHideAdditionalNotes | migrate_json_to_db.py:212-213 | an empty or `null` `notes` suppresses `additional_notes` |
| Migration.ClientStepKeeps | migrate_json_to_db.py:156-224 | one patient file keeps the rows appended and every mapped patient pointing at its own client |
| Migration.ClientStepsKeep | migrate_json_to_db.py:156-224 | the whole loop keeps that invariant and counts at most one per file |
| Migration.ClientStepFails | migrate_json_to_db.py:167-199 | a patient file fails the session exactly when the session still works, its account email is new, its enrollment date parses, and its serial is already a client's |
| Migration.ClientStepsFail | migrate_json_to_db.py:156-224 | the loop ends with a failed session exactly when it started with one or some file, reached after the files before it, clashes on its serial |
| Migration.ClientMigrationSpec | migrate_json_to_db.py:136-234 | the migration fails exactly when the directory exists and a file's serial clashes (the commit then raises); without a directory nothing changes; otherwise the invariant holds and the count is bounded by the files |
| Migration.TakenSerialAborts | migrate_json_to_db.py:191-228 | a first patient file with a new email and a parsable date whose serial a client already holds fails the whole client migration |
| Migration.ClientRerunAddsNothing | migrate_json_to_db.py:167-170 | patients already migrated are all skipped |
| Migration.BadEnrollmentDateStrandsAccount | migrate_json_to_db.py:172-197 | with the session working, an enrolment date that is `null` or does not parse leaves its user behind without a client and the session working, and a rerun then skips that patient for good |
| Migration.AddClientRows | migrate_json_to_db.py:191-221 | the client, its plans and notes are appended and nothing else changes |
| Migration.MigrateClientFile | migrate_json_to_db.py:156-224 | one loop step changes the store, count, map and failed-session flag as the step specifies |
| Migration.AddNewClient | migrate_json_to_db.py:191-221 | the rows of a new client are appended as the step specifies |
| Migration.MigrateNextClientFile | migrate_json_to_db.py:156-224 | the loop body extends the fold by one file |
| Migration.MigrateClients | migrate_json_to_db.py:136-234 | it reports failure, leaving the store as it was, exactly when the client migration fails; otherwise the store, count and map are those of the client migration |
| Migration.CheckinDateFromFileName | migrate_json_to_db.py:270-273 | without a `date` field the date comes from the file name `checkin_<date>` |
| Migration.EntryNotes | migrate_json_to_db.py:289-294 | a migrated note is NULL exactly when the entry holds `notes: null`; an absent entry or `notes` gives the empty text, and any other text is the entry's own |
| Migration.FolderStepsKeep | migrate_json_to_db.py:264-297 | the check-ins of one folder only add rows, for mapped clients, keeping existing rows |
| Migration.CheckinStepsKeep | migrate_json_to_db.py:251-297 | the whole loop keeps that invariant |
| Migration.CheckinMigrationSpec | migrate_json_to_db.py:236-303 | only check-ins are added, existing ones are never overwritten, the count is the number added, and new rows belong to mapped clients |
| Migration.CheckinDefaultsToNoon | migrate_json_to_db.py:288 | a check-in without a time key (and with no `null` entry) is stored at 12:00 and counted |
| Migration.NullTimeOrEntrySkipsFile | migrate_json_to_db.py:285-300 | a `null` time or a `null` emotional, medication or activity object skips the file and adds nothing |
| Migration.MigrateCheckinFile | migrate_json_to_db.py:264-297 | one file changes the store and count as the step specifies |
| Migration.MigrateFolder | migrate_json_to_db.py:251-297 | one patient folder changes the store and count as the folder step specifies |
| Migration.MigrateCheckins | migrate_json_to_db.py:236-303 | the loop ends as the check-in migration specifies |
| Migration.MigrateData | migrate_json_to_db.py:12-41 | seeding if empty, then therapists, clients and check-ins in that order, each using the previous map; it completes exactly when neither the therapist nor the client migration fails; a failed step ends the run with only the earlier steps committed, and a completed run reports the three counts |
| InitDb.DemoFlagExamples | init_db.py:61 | the flag is compared case-insensitively with `true`; absent, `1` and `yes` do not ask for the demo |
| InitDb.InitTables | init_db.py:10-91 | the commit fails exactly when the demo is asked for on an empty category table, its email is free and its licence `DEMO-12345` is already a profile's; a non-empty category table leaves everything as it is; otherwise the six categories with defaults 1 to 3, users and profiles only appended, and the demo email registered afterwards exactly when it was or the demo was asked for |
| InitDb.InitIdempotent | init_db.py:18-20 | after a run that committed, a second run changes nothing whatever its flag, so there is at most one demo account |
| InitDb.DemoLicenseClashRepeats | init_db.py:60-89 | a demo licence held by another profile makes every run that asks for the demo fail, with nothing seeded, while a run without the flag seeds the categories |
| InitDb.InitDatabase | init_db.py:10-91 | the script reports failure, leaving every table as it was, exactly when the initialisation fails; otherwise the store is the initialised one |
| InitDb.MaskWithoutAt | init_db.py:112-113 | a URL without `@` is printed unchanged |
| InitDb.MaskAtFirstAt | init_db.py:108-110 | the printed form is the text before the first `//`, the mask, then the piece after the first `@` up to the next |
| InitDb.MaskAtFirstOfTwo | init_db.py:108-110 | with two `@`, only the piece between them is shown after the mask |
| InitDb.MaskHidesCredentials | init_db.py:108-111 | for `scheme://credentials@host` with one `@`, the credentials never appear |
| InitDb.MaskWithoutSlashesShowsCredentials | init_db.py:110 | without `//`, the credentials are printed in front of the mask |
| InitDb.MaskShowsPasswordAfterAt | init_db.py:108-111 | with an `@` in the password, the part after it is printed and the host is lost |
| InitDb.MaskAtLastHidesCredentials | init_db.py:108-111 | masking up to the last `@` hides any credentials and keeps the host |
| InitDb.MaskingsAgreeOnPlainUrls | init_db.py:108-111 | the corrected masking prints what the original prints on URLs with one `@` |

## Left out

- Flask routing, JSON shaping, CORS, cookies, `send_file`, and the endpoints that only read and format (login, dashboards, client lists, progress). Only the decisions of the modelled handlers are kept.
- JWT encoding and decoding, and bcrypt. Token verification is a map from token to claims. Stored passwords are the plain submitted text, standing in for their hash.
- SQLAlchemy semantics, autoflush and cascades. Constraints other than the ones named in the contracts are left out (foreign keys, most NOT NULL columns). A rollback is modelled as "store unchanged".
- The retry loop of `generate_client_serial` draws until it finds a free serial. The model takes the draws as a sequence and requires one of them to be free, so termination of the unbounded loop is not modelled.
- `datetime.now()` and `date.today()` are parameters. Timestamps are integers; `created_at` is a stamp parameter.
- The Excel and e-mail imports: the report returns only its JSON summary.
- The console I/O of the assessment (`collect_patient_info`, `display_global_assessment`, `save_global_assessment`, `run_global_assessment`).
- Floating point. The mental-health prevalence is a whole percentage, so the `:.0f` rounding is not modelled.
- The generic, non-country parts of the treatment and financial tables, which no modelled output reads. The country tables are transcribed.
- File globbing, `json.load`, the temporary map files, environment variables and printing in the migration and init scripts. A directory is an optional sequence of parsed records; a record that fails to parse is not modelled.
- Unicode case mapping and Python's full `int()` syntax. Lower-casing covers ASCII and Latin-1; `int()` takes an optional sign and ASCII digits around whitespace.
- The migration's therapist `created_at` and its legacy password hash.
- A JSON `null` in a therapist file, and in the optional fields of the register, create-client and add-note requests, is read as the key being absent. So a `null` create-client password is the generated one here, where bcrypt refuses it. In a therapist file a `null` `license_number` or `name` reaches a NOT NULL column, so the flush fails the session as a taken licence does. The model follows a failed session only for a licence number or serial already in use, and reads such a `null` as the key being absent.
- InputValidation.ValidateCountry: its own contract states only that an accepted answer is a menu key. Its full behaviour is the contract of InputValidation.ValidateMenu, which it calls with the country menu.
- InputValidation.ValidateGender: its own contract states only that an accepted answer is a menu key. Its full behaviour is the contract of InputValidation.ValidateMenu.
- InputValidation.ValidateEmployment: its own contract states only that an accepted answer is a menu key. Its full behaviour is the contract of InputValidation.ValidateMenu.
- InputValidation.ValidateFinancial: its own contract states only that an accepted answer is a menu key. Its full behaviour is the contract of InputValidation.ValidateKeywordMenu.
- InputValidation.ValidateExercise: its own contract states only that an accepted answer is a menu key. Its full behaviour is the contract of InputValidation.ValidateKeywordMenu.

## Findings

| source | as written | input that shows it | evidently intended | confidence | as-written member | corrected member |
|---|---|---|---|---|---|---|
| init_db.py:108-111 | the URL is split at every `@` and only the piece after the first `@` is printed (InitDb.MaskShowsPasswordAfterAt) | `postgresql://user:p@ss@localhost/db` prints `postgresql://***:***@ss`: part of the password is shown and the host is lost | hide everything up to the last `@` and print the host (InitDb.MaskAtLastHidesCredentials) | not executed | InitDb.MaskDatabaseUrl | InitDb.MaskDatabaseUrlAtLast |
