/** The input validators of the assessment chatbot. Each one strips its input, refuses an empty
    one, and either accepts a value (a menu key, the cleaned text or the age) or refuses with a
    message; menu validators fall back to a first-match search over text. */
module InputValidation {
  import opened Wrappers
  import opened Text
  import opened Countries

  /** The two kinds of value a validator accepts. */
  datatype Value = Str(text: string) | Int(number: int)

  /** `ValidationResult`; the suggestions default to an empty list, never `None`. */
  datatype ValidationResult = ValidationResult(
    isValid: bool, value: Option<Value>, errorMessage: string, suggestions: seq<string>)

  /** A value exactly when valid. */
  predicate WellFormed(r: ValidationResult)
  {
    r.isValid <==> r.value.Some?
  }

  function Accept(v: Value, suggestions: seq<string>): ValidationResult
  {
    ValidationResult(true, Some(v), "", suggestions)
  }

  function Reject(message: string, suggestions: seq<string>): ValidationResult
  {
    ValidationResult(false, None, message, suggestions)
  }

  predicate Accepts(r: ValidationResult, v: Value)
  {
    r.isValid && r.value == Some(v)
  }

  /** The index of the first entry `matches` holds for, in dictionary order (a `for` loop over
      `items()` returning at the first hit). */
  function FirstMatch<V>(entries: seq<(string, V)>, matches: (string, V) -> bool): (r: Option<nat>)
    ensures r.Some? ==> r.value < |entries| && matches(entries[r.value].0, entries[r.value].1)
    ensures r.Some? ==> forall j :: 0 <= j < r.value ==> !matches(entries[j].0, entries[j].1)
    ensures r.None? ==> forall j :: 0 <= j < |entries| ==> !matches(entries[j].0, entries[j].1)
  {
    if entries == [] then None
    else if matches(entries[0].0, entries[0].1) then Some(0)
    else
      var rest := FirstMatch(entries[1..], matches);
      if rest.None? then None else Some(rest.value + 1)
  }

  predicate IsKey<V>(entries: seq<(string, V)>, key: string)
  {
    exists i :: 0 <= i < |entries| && entries[i].0 == key
  }

  /** `d[key]` for a dictionary given as its items. */
  function Lookup<V>(entries: seq<(string, V)>, key: string): V
    requires IsKey(entries, key)
  {
    entries[IndexOf(entries, key).value].1
  }

  // ---------------------------------------------------------------- messages

  const NameEmpty := "Name cannot be empty"
  const NameEmptyHint := "Enter patient's full name or initials for privacy (e.g., 'J.D.' or 'John Doe')"
  const NameTooLong := "Name is too long (maximum 100 characters)"
  const NameTooLongHint := "Use initials or shorter name format"
  const NameForbidden := "Name contains invalid characters"
  const NameForbiddenHint := "Use only letters, spaces, periods, hyphens, and apostrophes"
  const NameBadFormat := "Invalid name format"
  const NameBadFormatHint := "Use letters, spaces, periods (for initials), hyphens, or apostrophes only"
  const AgeEmpty := "Age cannot be empty"
  const AgeEmptyHint := "Enter a number between 0 and 120"
  const AgeNotNumber := "Age must be a valid number"
  const AgeNotNumberHint := "Enter a whole number (e.g., 25, 45, 67)"
  const AgeNegative := "Age cannot be negative"
  const AgeNegativeHint := "Enter a positive number"
  const AgeTooHigh := "Age cannot exceed 120 years"
  const AgeTooHighHint := "Please verify the age is correct"
  const CountryEmpty := "Country selection cannot be empty"
  const CityEmpty := "City cannot be empty"
  const CityEmptyHint := "Enter the city or location name"
  const CityTooLong := "City name is too long (maximum 100 characters)"
  const CityForbidden := "City name contains invalid characters"
  const CityForbiddenHint := "Use only letters, spaces, periods, hyphens, apostrophes, and accented characters"
  const GenderEmpty := "Gender selection cannot be empty"
  const GenderEmptyHint := "Enter 1 for Male, 2 for Female, 3 for Non-binary, 4 for Prefer not to say"
  const GenderOptionsHint := "Valid options: 1=Male, 2=Female, 3=Non-binary, 4=Prefer not to say"
  const EmploymentEmpty := "Employment status cannot be empty"
  const EmploymentEmptyHint := "Enter a number from 1-7 for employment status"
  const EmploymentOptionsHint1 := "1=Full-time employed, 2=Part-time employed, 3=Unemployed (seeking)"
  const EmploymentOptionsHint2 := "4=Unemployed (not seeking), 5=Student, 6=Retired, 7=Unable to work"
  const FinancialEmpty := "Financial status cannot be empty"
  const FinancialEmptyHint := "Enter 1 for Low income, 2 for Moderate income, 3 for Stable income"
  const FinancialOptionsHint1 := "1=Low income (difficulty meeting basic needs)"
  const FinancialOptionsHint2 := "2=Moderate income (meets basic needs with constraints)"
  const FinancialOptionsHint3 := "3=Stable income (comfortable with discretionary spending)"
  const ExerciseEmpty := "Exercise level cannot be empty"
  const ExerciseEmptyHint := "Enter 1-4 for exercise level"
  const ExerciseOptionsHint1 := "1=Very active (5+ times/week), 2=Moderately active (3-4 times/week)"
  const ExerciseOptionsHint2 := "3=Lightly active (1-2 times/week), 4=Sedentary (little/no exercise)"
  const RecognizedCity := "Recognized as major city in "
  const RelativeTo := "Assessment relative to "
  const EconomicStandards := " economic standards"
  const AvailableOptions := "Available options: "
  const NumberRange := "Enter a number from 1-"
  const InvalidCountry := "Invalid country selection: '"
  const SimilarCitiesIn := "Similar cities in "
  const InvalidGender := "Invalid gender selection: '"
  const InvalidEmployment := "Invalid employment status: '"
  const InvalidFinancial := "Invalid financial status: '"
  const InvalidExercise := "Invalid exercise level: '"
  const ValidOptions := "Valid options:"
  const MatchedTo := "Matched to: "
  const Selected := "Selected: "

  // ---------------------------------------------------------------- name

  /** The characters `re.search` refuses in a name: `<>{}[]\|`~!@#$%^&*()+=`. */
  predicate ForbiddenNameChar(c: char)
  {
    c == '<' || c == '>' || c == '{' || c == '}' || c == '[' || c == ']' || c == '\\' || c == '|' || c == '`'
    || c == '~' || c == '!' || c == '@' || c == '#' || c == '$' || c == '%' || c == '^' || c == '&' || c == '*'
    || c == '(' || c == ')' || c == '+' || c == '='
  }

  /** `[A-Za-z\s\.\-\']`. */
  predicate NameChar(c: char)
  {
    IsAsciiLetter(c) || IsSpace(c) || c == '.' || c == '-' || c == '\''
  }

  /** The checks of `validate_name` on the stripped name `t`. */
  function NameVerdict(t: string): (r: ValidationResult)
    ensures WellFormed(r)
    ensures r.isValid <==> t != [] && |t| <= 100 && forall k :: 0 <= k < |t| ==> NameChar(t[k])
    ensures r.isValid ==> r.value == Some(Str(t)) && r.suggestions == []
  {
    if t == [] then
      Reject(NameEmpty, [NameEmptyHint])
    else if |t| > 100 then
      Reject(NameTooLong, [NameTooLongHint])
    else if exists k :: 0 <= k < |t| && ForbiddenNameChar(t[k]) then
      Reject(NameForbidden, [NameForbiddenHint])
    else if forall k :: 0 <= k < |t| ==> NameChar(t[k]) then
      Accept(Str(t), [])
    else
      Reject(NameBadFormat, [NameBadFormatHint])
  }

  /** `validate_name`: accepts exactly the non-empty stripped names of at most 100 letters,
      spaces, periods, hyphens and apostrophes, and answers the stripped name. */
  function ValidateName(name: string): (r: ValidationResult)
    ensures WellFormed(r)
    ensures r.isValid <==>
              var t := Strip(name); t != [] && |t| <= 100 && forall k :: 0 <= k < |t| ==> NameChar(t[k])
    ensures r.isValid ==> r.value == Some(Str(Strip(name))) && r.suggestions == []
  {
    NameVerdict(Strip(name))
  }

  // ---------------------------------------------------------------- age

  const MinorNote := "Note: Patient is a minor - consider guardian consent and specialized protocols"

  /** `validate_age`: accepts exactly the integers 0 to 120; a minor carries the consent note. */
  function ValidateAge(input: string): (r: ValidationResult)
    ensures WellFormed(r)
    ensures r.isValid <==> ParseInt(Strip(input)).Some? && 0 <= ParseInt(Strip(input)).value <= 120
    ensures r.isValid ==> r.value == Some(Int(ParseInt(Strip(input)).value))
    ensures r.isValid ==> r.suggestions == if ParseInt(Strip(input)).value < 18 then [MinorNote] else []
  {
    var t := Strip(input);
    if t == [] then Reject(AgeEmpty, [AgeEmptyHint])
    else
      var age := ParseInt(t);
      if age.None? then Reject(AgeNotNumber, [AgeNotNumberHint])
      else if age.value < 0 then Reject(AgeNegative, [AgeNegativeHint])
      else if age.value > 120 then Reject(AgeTooHigh, [AgeTooHighHint])
      else if age.value < 18 then Accept(Int(age.value), [MinorNote])
      else Accept(Int(age.value), [])
  }

  // ---------------------------------------------------------------- menus

  /** The entry a menu validator selects for the stripped input `t`: the entry keyed `t`, or
      else the first entry `matches` holds for. */
  function SelectFromMenu<V>(entries: seq<(string, V)>, t: string, matches: (string, V) -> bool): (r: Option<nat>)
    ensures r.Some? ==> r.value < |entries|
    ensures IsKey(entries, t) ==> r.Some? && entries[r.value].0 == t
    ensures !IsKey(entries, t) ==>
              (r.Some? <==> exists i :: 0 <= i < |entries| && matches(entries[i].0, entries[i].1))
    ensures !IsKey(entries, t) && r.Some? ==>
              matches(entries[r.value].0, entries[r.value].1)
              && forall j :: 0 <= j < r.value ==> !matches(entries[j].0, entries[j].1)
  {
    if IsKey(entries, t) then IndexOf(entries, t) else FirstMatch(entries, matches)
  }

  /** The index of the entry keyed `key`. */
  function IndexOf<V>(entries: seq<(string, V)>, key: string): (r: Option<nat>)
    ensures r.Some? <==> IsKey(entries, key)
    ensures r.Some? ==> r.value < |entries| && entries[r.value].0 == key
  {
    FirstMatch(entries, (k: string, v: V) => k == key)
  }

  /** The shape of the menu validators: an empty stripped input is refused with `empty`; a
      menu key is selected as it is ("Selected"); other text selects the first entry that
      `matches` holds for, given the lower-cased text ("Matched to"); anything else is refused
      with `refusal` of the text. The answer is always a menu key, never the label. */
  function ValidateMenu<V>(entries: seq<(string, V)>, input: string, matches: (string, string, V) -> bool,
                           describe: V -> string, empty: ValidationResult,
                           refusal: string -> ValidationResult): (r: ValidationResult)
    requires !empty.isValid && empty.value.None?
    requires forall t :: !refusal(t).isValid && refusal(t).value.None?
    ensures WellFormed(r)
    ensures Strip(input) == [] ==> r == empty
    ensures r.isValid ==> exists i :: 0 <= i < |entries| && r.value == Some(Str(entries[i].0))
    ensures var t := Strip(input);
            t != [] && IsKey(entries, t) ==> Accepts(r, Str(t))
    ensures var t := Strip(input);
            t != [] && !IsKey(entries, t) ==>
              (r.isValid <==> exists i :: 0 <= i < |entries| && matches(Lower(t), entries[i].0, entries[i].1))
    ensures var t := Strip(input);
            !IsKey(entries, t) && r.isValid ==>
              exists i :: 0 <= i < |entries| && r.value == Some(Str(entries[i].0))
                && matches(Lower(t), entries[i].0, entries[i].1)
                && forall j :: 0 <= j < i ==> !matches(Lower(t), entries[j].0, entries[j].1)
  {
    var t := Strip(input);
    if t == [] then empty
    else
      var lower := Lower(t);
      var hit := SelectFromMenu(entries, t, (key: string, v: V) => matches(lower, key, v));
      if hit.None? then refusal(t)
      else
        var prefix := if IsKey(entries, t) then Selected else MatchedTo;
        Accept(Str(entries[hit.value].0), [prefix + describe(entries[hit.value].1)])
  }

  // ---------------------------------------------------------------- country

  /** The text search of `validate_country_selection`: the lower-cased input inside the
      lower-cased display name or the country code. */
  predicate CountryMatches(lower: string, code: string, name: string)
  {
    Contains(Lower(name), lower) || Contains(Lower(code), lower)
  }

  function CountryChoices(): string
  {
    Join(seq(|CountryOptions|, i requires 0 <= i < |CountryOptions| =>
                CountryOptions[i].0 + "=" + CountryOptions[i].1.1), ", ")
  }

  /** `validate_country_selection`: a menu key is kept as it is; other text selects the first
      country, in menu order, whose code or display name contains it. */
  function ValidateCountry(input: string): (r: ValidationResult)
    ensures WellFormed(r)
    ensures r.isValid ==> r.value.value.Str? && IsKey(CountryOptions, r.value.value.text)
  {
    var range := NumberRange + NatToString(|CountryOptions|);
    ValidateMenu(CountryOptions, input, (lower: string, key: string, v: (string, string)) => CountryMatches(lower, v.0, v.1),
                 (v: (string, string)) => v.1, Reject(CountryEmpty, [range]),
                 (t: string) => Reject(InvalidCountry + t + "'", [range, AvailableOptions + CountryChoices()]))
  }

  // ---------------------------------------------------------------- city

  /** The lower-case accented letters the city pattern lists: à to ï, ñ to ö, ø to ý, and ÿ. */
  predicate AccentedLetter(c: char)
  {
    ('\U{E0}' <= c <= '\U{EF}') || ('\U{F1}' <= c <= '\U{F6}') || ('\U{F8}' <= c <= '\U{FD}') || c == '\U{FF}'
  }

  predicate CityChar(c: char)
  {
    NameChar(c) || AccentedLetter(c)
  }

  lemma MajorCitiesNonEmpty()
    ensures forall code, i :: code in MajorCities && 0 <= i < |MajorCities[code]| ==> MajorCities[code][i] != []
  {
  }

  /** The major cities of the list that start with the same letter as `lowerCity`. */
  function SimilarCities(majors: seq<string>, first: char): (r: seq<string>)
    requires forall i :: 0 <= i < |majors| ==> majors[i] != []
    ensures forall c :: c in r ==> c in majors && LowerChar(c[0]) == first
    ensures forall c :: c in majors && LowerChar(c[0]) == first ==> c in r
  {
    if majors == [] then []
    else
      var rest := SimilarCities(majors[1..], first);
      assert forall c :: c in majors[1..] ==> c in majors;
      assert forall c :: c in majors ==> c == majors[0] || c in majors[1..];
      if LowerChar(majors[0][0]) == first then [majors[0]] + rest else rest
  }

  /** `r` is the subsequence of `majors` at the strictly increasing positions `idx`, and
      `idx` holds every position whose city starts with `first`. */
  predicate PicksInOrder(r: seq<string>, majors: seq<string>, idx: seq<int>, first: char)
    requires forall i :: 0 <= i < |majors| ==> majors[i] != []
  {
    |idx| == |r|
    && (forall k :: 0 <= k < |idx| ==> 0 <= idx[k] < |majors| && r[k] == majors[idx[k]])
    && (forall k, l :: 0 <= k < l < |idx| ==> idx[k] < idx[l])
    && (forall i :: 0 <= i < |majors| && LowerChar(majors[i][0]) == first ==> i in idx)
  }

  /** Every position moved one to the right. */
  function Shifted(idx: seq<int>): (r: seq<int>)
    ensures |r| == |idx| && forall k :: 0 <= k < |idx| ==> r[k] == idx[k] + 1
  {
    seq(|idx|, k requires 0 <= k < |idx| => idx[k] + 1)
  }

  /** The positions of the matching cities after the first, moved one to the right. */
  lemma ShiftedCovers(majors: seq<string>, idx: seq<int>, first: char)
    requires majors != [] && forall i :: 0 <= i < |majors| ==> majors[i] != []
    requires forall i :: 0 <= i < |majors| - 1 && LowerChar(majors[1..][i][0]) == first ==> i in idx
    ensures forall i :: 1 <= i < |majors| && LowerChar(majors[i][0]) == first ==> i in Shifted(idx)
  {
    var picks := Shifted(idx);
    forall i | 1 <= i < |majors| && LowerChar(majors[i][0]) == first
      ensures i in picks
    {
      assert majors[i] == majors[1..][i - 1];
      var k :| 0 <= k < |idx| && idx[k] == i - 1;
      assert picks[k] == i;
    }
  }

  /** A city that matches is picked at position 0, ahead of the picks from the rest. */
  lemma PicksFirst(rest: seq<string>, majors: seq<string>, idx: seq<int>, first: char)
    requires majors != [] && forall i :: 0 <= i < |majors| ==> majors[i] != []
    requires LowerChar(majors[0][0]) == first
    requires PicksInOrder(rest, majors[1..], idx, first)
    ensures PicksInOrder([majors[0]] + rest, majors, [0] + Shifted(idx), first)
  {
    PrependPositions(rest, majors, idx);
    PrependOrdered(idx);
    ShiftedCovers(majors, idx, first);
    var picks := [0] + Shifted(idx);
    forall i | 0 <= i < |majors| && LowerChar(majors[i][0]) == first
      ensures i in picks
    {
      if i > 0 {
        assert i in Shifted(idx);
      }
    }
  }

  /** The first city followed by the rest's picks, at their shifted positions. */
  lemma PrependPositions(rest: seq<string>, majors: seq<string>, idx: seq<int>)
    requires majors != [] && |idx| == |rest|
    requires forall k :: 0 <= k < |idx| ==> 0 <= idx[k] < |majors| - 1 && rest[k] == majors[1..][idx[k]]
    ensures var r, picks := [majors[0]] + rest, [0] + Shifted(idx);
            forall k :: 0 <= k < |picks| ==> 0 <= picks[k] < |majors| && r[k] == majors[picks[k]]
  {
    var r, picks := [majors[0]] + rest, [0] + Shifted(idx);
    forall k | 0 <= k < |picks|
      ensures 0 <= picks[k] < |majors| && r[k] == majors[picks[k]]
    {
      if k > 0 {
        assert picks[k] == idx[k - 1] + 1 && r[k] == rest[k - 1];
      }
    }
  }

  /** Position 0 ahead of increasing positions shifted right keeps them increasing. */
  lemma PrependOrdered(idx: seq<int>)
    requires forall k :: 0 <= k < |idx| ==> 0 <= idx[k]
    requires forall k, l :: 0 <= k < l < |idx| ==> idx[k] < idx[l]
    ensures var picks := [0] + Shifted(idx);
            forall k, l :: 0 <= k < l < |picks| ==> picks[k] < picks[l]
  {
    var picks := [0] + Shifted(idx);
    forall k, l | 0 <= k < l < |picks|
      ensures picks[k] < picks[l]
    {
      assert picks[l] == idx[l - 1] + 1;
      if k > 0 {
        assert picks[k] == idx[k - 1] + 1;
      }
    }
  }

  /** A city that does not match is skipped: the picks from the rest, one place further on. */
  lemma PicksSkip(rest: seq<string>, majors: seq<string>, idx: seq<int>, first: char)
    requires majors != [] && forall i :: 0 <= i < |majors| ==> majors[i] != []
    requires LowerChar(majors[0][0]) != first
    requires PicksInOrder(rest, majors[1..], idx, first)
    ensures PicksInOrder(rest, majors, Shifted(idx), first)
  {
    ShiftedCovers(majors, idx, first);
  }

  /** The similar cities keep the order and the repeats of the major-city list, so the first
      three printed are the first three matching entries of that list. */
  lemma {:induction false} SimilarCitiesInOrder(majors: seq<string>, first: char)
    requires forall i :: 0 <= i < |majors| ==> majors[i] != []
    ensures exists idx :: PicksInOrder(SimilarCities(majors, first), majors, idx, first)
  {
    if majors == [] {
      assert SimilarCities(majors, first) == [];
      assert PicksInOrder(SimilarCities(majors, first), majors, [], first);
    } else {
      SimilarCitiesInOrder(majors[1..], first);
      var rest := SimilarCities(majors[1..], first);
      var idx :| PicksInOrder(rest, majors[1..], idx, first);
      if LowerChar(majors[0][0]) == first {
        assert SimilarCities(majors, first) == [majors[0]] + rest;
        PicksFirst(rest, majors, idx, first);
        assert PicksInOrder(SimilarCities(majors, first), majors, [0] + Shifted(idx), first);
      } else {
        assert SimilarCities(majors, first) == rest;
        PicksSkip(rest, majors, idx, first);
        assert PicksInOrder(SimilarCities(majors, first), majors, Shifted(idx), first);
      }
    }
  }

  /** Whether some major city is part of the lower-case city name, or the name part of it. */
  predicate OverlapsMajorCity(lower: string, majors: seq<string>)
  {
    exists i :: 0 <= i < |majors| && (Contains(lower, majors[i]) || Contains(majors[i], lower))
  }

  /** The suggestions of a valid city: recognised as a major city of the given country when
      one overlaps it, else up to three major cities with the same initial, or none. */
  function CitySuggestions(city: string, countryCode: Option<string>): (r: seq<string>)
    requires city != []
    ensures (countryCode.None? || countryCode.value !in MajorCities) ==> r == []
    ensures |r| <= 1
    ensures countryCode.Some? && countryCode.value in MajorCities
            && OverlapsMajorCity(Lower(city), MajorCities[countryCode.value]) ==>
              r == [RecognizedCity + Display(countryCode.value)]
    ensures countryCode.Some? && countryCode.value in MajorCities
            && !OverlapsMajorCity(Lower(city), MajorCities[countryCode.value]) ==>
              (MajorCitiesNonEmpty();
               var similar := SimilarCities(MajorCities[countryCode.value], LowerChar(Lower(city)[0]));
              (r != [] <==> similar != [])
              && (r != [] ==> r == [SimilarCitiesIn + Display(countryCode.value) + ": "
                                   + Join(similar[..if |similar| < 3 then |similar| else 3], ", ")]))
  {
    if countryCode.Some? && countryCode.value in MajorCities then
      var code := countryCode.value;
      var lower := Lower(city);
      var majors := MajorCities[code];
      MajorCitiesNonEmpty();
      if OverlapsMajorCity(lower, majors) then
        [RecognizedCity + Display(code)]
      else
        var similar := SimilarCities(majors, LowerChar(lower[0]));
        if similar != [] then
          [SimilarCitiesIn + Display(code) + ": " + Join(similar[..if |similar| < 3 then |similar| else 3], ", ")]
        else []
    else []
  }

  /** `validate_city`: accepts exactly the non-empty stripped names of at most 100 letters
      (with the listed accented ones), spaces, periods, hyphens and apostrophes. */
  function ValidateCity(city: string, countryCode: Option<string>): (r: ValidationResult)
    ensures WellFormed(r)
    ensures r.isValid <==>
              var t := Strip(city); t != [] && |t| <= 100 && forall k :: 0 <= k < |t| ==> CityChar(t[k])
    ensures r.isValid ==> r.value == Some(Str(Strip(city)))
    ensures r.isValid && (countryCode.None? || countryCode.value !in MajorCities) ==> r.suggestions == []
  {
    var t := Strip(city);
    if t == [] then Reject(CityEmpty, [CityEmptyHint])
    else if |t| > 100 then Reject(CityTooLong, [])
    else if !(forall k :: 0 <= k < |t| ==> CityChar(t[k])) then
      Reject(CityForbidden,
             [CityForbiddenHint])
    else Accept(Str(t), CitySuggestions(t, countryCode))
  }

  // ---------------------------------------------------------------- gender and employment

  const GenderOptions: seq<(string, string)> := [
    ("1", "Male"), ("2", "Female"), ("3", "Non-binary"), ("4", "Prefer not to say")
  ]

  const EmploymentOptions: seq<(string, string)> := [
    ("1", "Full-time employed"), ("2", "Part-time employed"), ("3", "Unemployed - actively seeking"),
    ("4", "Unemployed - not seeking"), ("5", "Student"), ("6", "Retired"), ("7", "Unable to work")
  ]

  predicate GenderMatches(lower: string, name: string)
  {
    Contains(Lower(name), lower) || StartsWith(Lower(name), lower)
  }

  /** `validate_gender_selection`: text selects the first label containing it or starting
      with it. */
  function ValidateGender(input: string): (r: ValidationResult)
    ensures WellFormed(r)
    ensures r.isValid ==> r.value.value.Str? && IsKey(GenderOptions, r.value.value.text)
  {
    ValidateMenu(GenderOptions, input, (lower: string, key: string, name: string) => GenderMatches(lower, name),
                 (name: string) => name, Reject(GenderEmpty, [GenderEmptyHint]),
                 (t: string) => Reject(InvalidGender + t + "'", [GenderOptionsHint]))
  }

  predicate EmploymentMatches(lower: string, name: string)
  {
    Contains(Lower(name), lower)
  }

  /** `validate_employment_status`: text selects the first label containing it. */
  function ValidateEmployment(input: string): (r: ValidationResult)
    ensures WellFormed(r)
    ensures r.isValid ==> r.value.value.Str? && IsKey(EmploymentOptions, r.value.value.text)
  {
    ValidateMenu(EmploymentOptions, input, (lower: string, key: string, name: string) => EmploymentMatches(lower, name),
                 (name: string) => name, Reject(EmploymentEmpty, [EmploymentEmptyHint]),
                 (t: string) => Reject(InvalidEmployment + t + "'",
                                       [ValidOptions, EmploymentOptionsHint1, EmploymentOptionsHint2]))
  }

  // ---------------------------------------------------------------- keyword menus

  const FinancialOptions: seq<(string, string)> := [("1", "low_income"), ("2", "moderate_income"), ("3", "stable_income")]

  /** The keywords tried, in this order, against text that is not a menu key. */
  const FinancialKeywords: seq<(string, string)> := [
    ("low", "1"), ("poor", "1"), ("limited", "1"), ("moderate", "2"), ("middle", "2"), ("average", "2"),
    ("stable", "3"), ("good", "3"), ("comfortable", "3"), ("high", "3")
  ]

  const ExerciseOptions: seq<(string, string)> := [
    ("1", "Very active"), ("2", "Moderately active"), ("3", "Lightly active"), ("4", "Sedentary")
  ]

  const ExerciseKeywords: seq<(string, string)> := [
    ("very", "1"), ("high", "1"), ("active", "1"), ("moderate", "2"), ("medium", "2"),
    ("light", "3"), ("little", "3"), ("sedentary", "4"), ("none", "4"), ("inactive", "4")
  ]

  lemma KeywordKeysAreMenuKeys()
    ensures forall i :: 0 <= i < |FinancialKeywords| ==> IsKey(FinancialOptions, FinancialKeywords[i].1)
    ensures forall i :: 0 <= i < |ExerciseKeywords| ==> IsKey(ExerciseOptions, ExerciseKeywords[i].1)
  {
    assert FinancialOptions[0].0 == "1" && FinancialOptions[1].0 == "2" && FinancialOptions[2].0 == "3";
    assert ExerciseOptions[0].0 == "1" && ExerciseOptions[1].0 == "2";
    assert ExerciseOptions[2].0 == "3" && ExerciseOptions[3].0 == "4";
  }

  /** The menu key a keyword search selects: that of the first keyword the text contains. */
  function KeywordChoice(keywords: seq<(string, string)>, lower: string): (r: Option<string>)
    ensures r.Some? <==> exists i :: 0 <= i < |keywords| && Contains(lower, keywords[i].0)
    ensures r.Some? ==> exists i :: 0 <= i < |keywords| && r.value == keywords[i].1 && Contains(lower, keywords[i].0)
                          && forall j :: 0 <= j < i ==> !Contains(lower, keywords[j].0)
  {
    var hit := FirstMatch(keywords, (word: string, key: string) => Contains(lower, word));
    if hit.Some? then Some(keywords[hit.value].1) else None
  }

  /** The shape of the financial and exercise validators: an empty stripped input is refused
      with `empty`; a menu key is selected as it is, its suggestions followed by `keyNote`; other
      text is mapped by the first keyword it contains; anything else is refused with `refusal`
      of the text. Every keyword maps to a menu key, so the answer is always one. */
  function ValidateKeywordMenu(entries: seq<(string, string)>, keywords: seq<(string, string)>, input: string,
                               describe: string -> string, keyNote: seq<string>, empty: ValidationResult,
                               refusal: string -> ValidationResult): (r: ValidationResult)
    requires forall i :: 0 <= i < |keywords| ==> IsKey(entries, keywords[i].1)
    requires !empty.isValid && empty.value.None?
    requires forall t :: !refusal(t).isValid && refusal(t).value.None?
    ensures WellFormed(r)
    ensures Strip(input) == [] ==> r == empty
    ensures r.isValid ==> r.value.value.Str? && IsKey(entries, r.value.value.text)
    ensures var t := Strip(input);
            t != [] && IsKey(entries, t) ==> Accepts(r, Str(t))
    ensures var t := Strip(input);
            t != [] && !IsKey(entries, t) ==>
              r.value == (var k := KeywordChoice(keywords, Lower(t)); if k.Some? then Some(Str(k.value)) else None)
  {
    var t := Strip(input);
    if t == [] then empty
    else if IsKey(entries, t) then Accept(Str(t), [Selected + describe(Lookup(entries, t))] + keyNote)
    else
      var key := KeywordChoice(keywords, Lower(t));
      if key.Some? then Accept(Str(key.value), [MatchedTo + describe(Lookup(entries, key.value))])
      else refusal(t)
  }

  /** `validate_financial_status`: a menu key carries a note about the country's standards when
      a country is given. */
  function ValidateFinancial(input: string, countryCode: Option<string>): (r: ValidationResult)
    ensures WellFormed(r)
    ensures r.isValid ==> r.value.value.Str? && IsKey(FinancialOptions, r.value.value.text)
  {
    KeywordKeysAreMenuKeys();
    var note := if countryCode.Some? && countryCode.value != [] then
                  [RelativeTo + Display(countryCode.value) + EconomicStandards]
                else [];
    ValidateKeywordMenu(FinancialOptions, FinancialKeywords, input, Display, note,
                        Reject(FinancialEmpty, [FinancialEmptyHint]),
                        (t: string) => Reject(InvalidFinancial + t + "'",
                                              [ValidOptions, FinancialOptionsHint1, FinancialOptionsHint2,
                                               FinancialOptionsHint3]))
  }

  /** `validate_exercise_level`, the same way with its own keywords and no note. */
  function ValidateExercise(input: string): (r: ValidationResult)
    ensures WellFormed(r)
    ensures r.isValid ==> r.value.value.Str? && IsKey(ExerciseOptions, r.value.value.text)
  {
    KeywordKeysAreMenuKeys();
    ValidateKeywordMenu(ExerciseOptions, ExerciseKeywords, input, (name: string) => name, [],
                        Reject(ExerciseEmpty, [ExerciseEmptyHint]),
                        (t: string) => Reject(InvalidExercise + t + "'",
                                              [ValidOptions, ExerciseOptionsHint1, ExerciseOptionsHint2]))
  }

  // ---------------------------------------------------------------- keyword order

  /** The keyword search answers the key of the first keyword the text contains. */
  lemma FirstKeywordWins(keywords: seq<(string, string)>, lower: string, i: nat)
    requires i < |keywords| && Contains(lower, keywords[i].0)
    requires forall j :: 0 <= j < i ==> !Contains(lower, keywords[j].0)
    ensures KeywordChoice(keywords, lower) == Some(keywords[i].1)
  {
    var r := KeywordChoice(keywords, lower);
    var k :| 0 <= k < |keywords| && r.value == keywords[k].1 && Contains(lower, keywords[k].0)
               && forall j :: 0 <= j < k ==> !Contains(lower, keywords[j].0);
    assert k == i;
  }

  /** Text naming two income levels gets the one whose keyword is listed first. */
  lemma LowToModerateIsLow()
    ensures KeywordChoice(FinancialKeywords, "low to moderate") == Some("1")
  {
    assert StartsWith("low to moderate", FinancialKeywords[0].0);
    FirstKeywordWins(FinancialKeywords, "low to moderate", 0);
  }

  /** The first three exercise keywords. */
  lemma ExerciseKeywordsStart()
    ensures ExerciseKeywords[0].0 == "very" && ExerciseKeywords[1].0 == "high"
    ensures ExerciseKeywords[2] == ("active", "1")
  {
  }

  /** Text with "active" and neither "very" nor "high" selects "1" (Very active), whatever
      later keyword it also holds. */
  lemma ActiveWinsOverLaterKeywords(lower: string)
    requires Contains(lower, "active") && !Contains(lower, "very") && !Contains(lower, "high")
    ensures KeywordChoice(ExerciseKeywords, lower) == Some("1")
  {
    ExerciseKeywordsStart();
    FirstKeywordWins(ExerciseKeywords, lower, 2);
  }

  /** The words of "inactive": "active" at 2, no "very" and no "high". */
  lemma InactiveWords(lower: string)
    requires lower == "inactive"
    ensures Contains(lower, "active") && !Contains(lower, "very") && !Contains(lower, "high")
  {
    assert lower[2..8] == "active";
    ContainsAt(lower, "active", 2);
    FirstCharTooLate(lower, "very", 6);
    FirstCharTooLate(lower, "high", 5);
  }

  /** "active" is tried before "inactive", so "inactive" selects "1" (Very active). */
  lemma InactiveIsVeryActive(lower: string)
    requires lower == "inactive"
    ensures KeywordChoice(ExerciseKeywords, lower) == Some("1")
  {
    InactiveWords(lower);
    ActiveWinsOverLaterKeywords(lower);
  }

  /** The words of "moderately active": "active" at 11, no "very" and no "high". */
  lemma ModeratelyActiveWords(lower: string)
    requires lower == "moderately active"
    ensures Contains(lower, "active") && !Contains(lower, "very") && !Contains(lower, "high")
  {
    assert lower[11..17] == "active";
    ContainsAt(lower, "active", 11);
    FirstCharTooLate(lower, "very", 14);
    MissingCharNotContained(lower, "high", 'g');
  }

  /** "active" is tried before "moderate", so "moderately active" selects "1" as well. */
  lemma ModeratelyActiveIsVeryActive(lower: string)
    requires lower == "moderately active"
    ensures KeywordChoice(ExerciseKeywords, lower) == Some("1")
  {
    ModeratelyActiveWords(lower);
    ActiveWinsOverLaterKeywords(lower);
  }
}
