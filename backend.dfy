/** The request handlers of the check-in tracker that decide or change something: client
    serial generation, registration, client creation, weekly goals and notes, the daily
    check-in, the weekly report, and the run-once seeding of the categories. A handler behind
    `require_auth` receives the profile of the authenticated user (Auth decides whether it
    runs at all): the id of its therapist or client row, or `None` for an account that has
    none, on which the handler raises and answers 500. The clock and the random source are
    parameters. */
module Backend {
  import opened Wrappers
  import opened Text
  import opened Calendar
  import opened Schema

  /** A request that raised: the handler rolls back and answers 500 with the exception's text,
      which the model replaces with a short description. */
  function ServerError(what: string): HttpError
  {
    HttpError(500, what)
  }

  /** Python truthiness of an optional string: `None` and `''` are false. */
  predicate Truthy(v: Option<string>)
  {
    v.Some? && v.value != []
  }

  // ---------------------------------------------------------------- client serials

  /** What one `random.choices(string.digits, k=8)` yields. */
  predicate IsSerialDraw(d: string)
  {
    |d| == 8 && AllDigits(d)
  }

  /** `C` followed by exactly eight decimal digits. */
  predicate IsClientSerial(s: string)
  {
    |s| == 9 && s[0] == 'C' && AllDigits(s[1..])
  }

  /** The random source eventually yields a serial no client holds; the retry loop of the
      source ends exactly when it does. */
  predicate HasFreeDraw(used: set<string>, draws: seq<string>)
  {
    exists i :: 0 <= i < |draws| && "C" + draws[i] !in used
  }

  /** `generate_client_serial`: draws until a serial is unused, given the successive draws. */
  method GenerateClientSerial(used: set<string>, draws: seq<string>) returns (serial: string)
    requires forall i :: 0 <= i < |draws| ==> IsSerialDraw(draws[i])
    requires HasFreeDraw(used, draws)
    ensures IsClientSerial(serial) && serial !in used
    ensures exists k :: 0 <= k < |draws| && serial == "C" + draws[k]
              && forall j :: 0 <= j < k ==> "C" + draws[j] in used
  {
    var i := 0;
    while "C" + draws[i] in used
      invariant 0 <= i < |draws|
      invariant forall j :: 0 <= j < i ==> "C" + draws[j] in used
      invariant exists k :: i <= k < |draws| && "C" + draws[k] !in used
      decreases |draws| - i
    {
      i := i + 1;
    }
    serial := "C" + draws[i];
    assert serial[1..] == draws[i];
  }

  // ---------------------------------------------------------------- registration

  /** The JSON body of `POST /api/auth/register`; `None` is a key that is absent. */
  datatype RegisterRequest = RegisterRequest(
    email: Option<string>, password: Option<string>, role: Option<string>,
    licenseNumber: Option<string>, name: Option<string>, organization: Option<string>,
    specializations: Option<seq<string>>, therapistId: Option<int>)

  /** The 400 answers of `register`, in the order it checks them. */
  function RegisterRejection(users: seq<User>, req: RegisterRequest): (r: Option<HttpError>)
    ensures r.None? <==>
              Truthy(req.email) && Truthy(req.password) && Truthy(req.role)
              && (req.role.value == TherapistRole || req.role.value == ClientRole)
              && !EmailRegistered(users, req.email.value)
    ensures r.Some? ==> r.value.status == 400
  {
    if !(Truthy(req.email) && Truthy(req.password) && Truthy(req.role)) then
      Some(HttpError(400, "Missing required fields"))
    else if req.role.value != TherapistRole && req.role.value != ClientRole then
      Some(HttpError(400, "Invalid role"))
    else if EmailRegistered(users, req.email.value) then
      Some(HttpError(400, "Email already registered"))
    else None
  }

  /** A missing field is reported before an unknown role or a taken email. */
  lemma MissingFieldsReportedFirst(users: seq<User>, req: RegisterRequest)
    requires !Truthy(req.email) || !Truthy(req.password) || !Truthy(req.role)
    ensures RegisterRejection(users, req) == Some(HttpError(400, "Missing required fields"))
  {
  }

  predicate LicenseTaken(therapists: seq<Therapist>, license: string)
  {
    exists i :: 0 <= i < |therapists| && therapists[i].licenseNumber == license
  }

  /** The row a new client gets: its user, an unused well-formed serial, its therapist, and
      today as the start date. */
  predicate NewClientRow(c: Client, userId: int, therapistId: Option<int>, today: int, used: set<string>)
  {
    c.userId == userId && IsClientSerial(c.serial) && c.serial !in used
    && c.therapistId == therapistId && c.startDate == today && c.isActive
  }

  // ---------------------------------------------------------------- client creation

  /** The JSON body of `POST /api/therapist/create-client`. */
  datatype NewClientRequest = NewClientRequest(
    email: Option<string>, password: Option<string>,
    trackingCategories: Option<seq<int>>, initialGoals: Option<seq<string>>)

  /** The categories a new client tracks: the requested ones, or the default ones when the
      request names none. */
  function ChosenCategories(requested: Option<seq<int>>, categories: seq<TrackingCategory>): (ids: seq<int>)
    ensures requested.Some? && requested.value != [] ==> ids == requested.value
    ensures (requested.None? || requested.value == []) ==>
              forall id :: id in ids <==> 1 <= id <= |categories| && categories[id - 1].isDefault
  {
    DefaultCategoryIdsSpec(categories);
    if requested.None? || requested.value == [] then DefaultCategoryIds(categories) else requested.value
  }

  /** One active goal per text, for the week starting `weekStart`. */
  function GoalsFor(clientId: int, therapistId: int, texts: seq<string>, weekStart: int): (goals: seq<WeeklyGoal>)
    ensures |goals| == |texts|
    ensures forall i :: 0 <= i < |texts| ==> goals[i] == WeeklyGoal(clientId, therapistId, texts[i], weekStart, true)
  {
    seq(|texts|, i requires 0 <= i < |texts| => WeeklyGoal(clientId, therapistId, texts[i], weekStart, true))
  }

  const WelcomeText := "Welcome to therapy! Your journey begins today. Your temporary password is: "

  function WelcomeNote(clientId: int, therapistId: int, password: string): TherapistNote
  {
    TherapistNote(clientId, Some(therapistId), "welcome", WelcomeText + password, false, false)
  }

  // ---------------------------------------------------------------- ownership

  /** The missing therapist or client profile of an account that has none: `therapist.id`
      raises. */
  const NoProfile := ServerError("'NoneType' object has no attribute 'id'")

  const ClientNotFound := HttpError(404, "Client not found")

  predicate Owns(clients: seq<Client>, clientId: int, therapistId: int)
  {
    1 <= clientId <= |clients| && clients[clientId - 1].therapistId == Some(therapistId)
  }

  /** `Client.query.filter_by(id=client_id, therapist_id=therapist.id).first()`, as the
      details, report, add-goal and add-note handlers run it. */
  function FindOwnedClient(clients: seq<Client>, clientId: Option<int>, therapistId: int): (r: Result<Client, HttpError>)
    ensures r.Success? <==> clientId.Some? && Owns(clients, clientId.value, therapistId)
    ensures r.Success? ==> r.value == clients[clientId.value - 1]
    ensures r.Failure? ==> r.error == ClientNotFound
  {
    if clientId.Some? && Owns(clients, clientId.value, therapistId) then Success(clients[clientId.value - 1])
    else Failure(ClientNotFound)
  }

  /** A therapist cannot tell a client of another therapist from a client that does not exist. */
  lemma NotFoundIndistinguishable(clients: seq<Client>, therapistId: int, foreign: int, missing: int)
    requires 1 <= foreign <= |clients| && clients[foreign - 1].therapistId != Some(therapistId)
    requires !(1 <= missing <= |clients|)
    ensures FindOwnedClient(clients, Some(foreign), therapistId) == FindOwnedClient(clients, Some(missing), therapistId)
    ensures FindOwnedClient(clients, Some(foreign), therapistId) == FindOwnedClient(clients, None, therapistId)
  {
  }

  /** The week a new goal belongs to: the given `YYYY-MM-DD` date as it is (not moved to a
      Monday), or the Monday of the current week when none is given. */
  function GoalWeek(weekStart: Option<string>, today: Date): (r: Option<int>)
    requires ValidDate(today)
    ensures !Truthy(weekStart) ==> r == Some(CurrentWeekStart(ToOrdinal(today)))
    ensures Truthy(weekStart) ==> (r.Some? <==> ParseIsoDate(weekStart.value).Some?)
  {
    if Truthy(weekStart) then
      var d := ParseIsoDate(weekStart.value);
      if d.Some? then Some(ToOrdinal(d.value)) else None
    else Some(CurrentWeekStart(ToOrdinal(today)))
  }

  /** Any date, a Wednesday as well as a Monday, is stored as the week start it was given. */
  lemma GoalWeekAsGiven(d: Date, today: Date)
    requires ValidDate(d) && ValidDate(today)
    ensures GoalWeek(Some(FormatIsoDate(d)), today) == Some(ToOrdinal(d))
  {
    IsoDateRoundTrip(d);
  }

  // ---------------------------------------------------------------- daily check-in

  /** The JSON body of `POST /api/client/checkin`. The two dictionaries are given as their
      items in order; an absent dictionary reads as empty, and a `null` one has no `items()`. */
  datatype CheckinRequest = CheckinRequest(
    date: Field<string>,
    emotionalValue: Option<int>, emotionalNotes: Option<string>,
    medicationValue: Option<int>, medicationNotes: Option<string>,
    activityValue: Option<int>, activityNotes: Option<string>,
    categoryResponses: Field<seq<(string, int)>>,
    goalCompletions: Field<seq<(string, bool)>>)

  /** The submitted items with their keys read by `int`: `None` for a `null` dictionary or a
      key that `int` rejects. */
  function ParseItems<V>(items: Field<seq<(string, V)>>): (r: Option<seq<(int, V)>>)
    ensures items.Absent? ==> r == Some([])
    ensures items.Null? ==> r.None?
    ensures items.Given? ==> r == ParseIds(items.value)
  {
    var given := items.Get([]);
    if given.None? then None else ParseIds(given.value)
  }

  /** The check-in date: the given text, or today's ISO date when the key is absent, parsed
      with `%Y-%m-%d`; a `null` date makes `strptime` raise. */
  function CheckinDate(date: Field<string>, today: Date): (r: Option<int>)
    requires ValidDate(today)
    ensures r.Some? ==> 1 <= r.value <= MaxOrdinal
    ensures date.Null? ==> r.None?
    ensures date.Given? ==> (r.Some? <==> ParseIsoDate(date.value).Some?)
    ensures date.Given? && r.Some? ==> r == Some(ToOrdinal(ParseIsoDate(date.value).value))
  {
    var text := date.Get(FormatIsoDate(today));
    if text.None? then None
    else
      var d := ParseIsoDate(text.value);
      if d.Some? then Some(ToOrdinal(d.value)) else None
  }

  /** Without a date the check-in is filed under today. */
  lemma CheckinDefaultsToToday(today: Date)
    requires ValidDate(today)
    ensures CheckinDate(Absent, today) == Some(ToOrdinal(today))
  {
    IsoDateRoundTrip(today);
  }

  /** `int(key)` for every key, in order: the pairs with integer keys, or `None` as soon as
      one key is not an integer. */
  function ParseIds<V>(items: seq<(string, V)>): (r: Option<seq<(int, V)>>)
    ensures r.Some? ==> |r.value| == |items|
  {
    ParseKeys(items, ParseInt)
  }

  /** The same with the key parser as a parameter. */
  function ParseKeys<V>(items: seq<(string, V)>, parse: string -> Option<int>): (r: Option<seq<(int, V)>>)
    ensures r.Some? ==> |r.value| == |items|
  {
    if items == [] then Some([])
    else
      var init := ParseKeys(items[..|items| - 1], parse);
      var key := parse(items[|items| - 1].0);
      if init.None? || key.None? then None
      else Some(init.value + [(key.value, items[|items| - 1].1)])
  }

  /** A successful parse pairs each key's integer with its value, in order; it succeeds
      exactly when every key parses. */
  lemma {:induction false} ParseKeysMeaning<V>(items: seq<(string, V)>, parse: string -> Option<int>)
    ensures ParseKeys(items, parse).Some? <==> forall i :: 0 <= i < |items| ==> parse(items[i].0).Some?
    ensures ParseKeys(items, parse).Some? ==> forall i :: 0 <= i < |items| ==>
              parse(items[i].0) == Some(ParseKeys(items, parse).value[i].0)
              && ParseKeys(items, parse).value[i].1 == items[i].1
  {
    if items != [] {
      var front := items[..|items| - 1];
      ParseKeysMeaning(front, parse);
      assert forall i :: 0 <= i < |front| ==> front[i] == items[i];
    }
  }

  /** One key that is not an integer fails the whole parse. */
  lemma {:induction false} ParseIdsFails<V>(items: seq<(string, V)>, i: nat)
    requires i < |items| && ParseInt(items[i].0).None?
    ensures ParseIds(items).None?
  {
    if i < |items| - 1 {
      ParseIdsFails(items[..|items| - 1], i);
    }
  }

  /** Parsing one more pair extends the parsed prefix by that pair. */
  lemma ParseIdsStep<V>(items: seq<(string, V)>, i: nat, parsed: seq<(int, V)>, key: int)
    requires i < |items| && ParseIds(items[..i]) == Some(parsed) && ParseInt(items[i].0) == Some(key)
    ensures ParseIds(items[..i + 1]) == Some(parsed + [(key, items[i].1)])
  {
    assert items[..i + 1][..i] == items[..i];
  }

  /** The check-in row after the submission: the existing one with its time and six fields
      overwritten, or a new one. Absent fields become null either way. */
  function UpsertCheckin(
    checkins: map<(int, int), DailyCheckin>, key: (int, int), req: CheckinRequest, now: ClockTime, stamp: int)
    : (r: map<(int, int), DailyCheckin>)
    ensures r.Keys == checkins.Keys + {key}
    ensures forall k :: k in checkins && k != key ==> r[k] == checkins[k]
    ensures r[key].time == now
    ensures r[key].emotionalValue == req.emotionalValue && r[key].emotionalNotes == req.emotionalNotes
    ensures r[key].medicationValue == req.medicationValue && r[key].medicationNotes == req.medicationNotes
    ensures r[key].activityValue == req.activityValue && r[key].activityNotes == req.activityNotes
    ensures r[key].createdAt == if key in checkins then checkins[key].createdAt else stamp
  {
    var row :=
      if key in checkins then
        checkins[key].(time := now,
                       emotionalValue := req.emotionalValue, emotionalNotes := req.emotionalNotes,
                       medicationValue := req.medicationValue, medicationNotes := req.medicationNotes,
                       activityValue := req.activityValue, activityNotes := req.activityNotes)
      else
        DailyCheckin(now, req.emotionalValue, req.emotionalNotes, req.medicationValue, req.medicationNotes,
                     req.activityValue, req.activityNotes, stamp);
    checkins[key := row]
  }

  /** The value the last pair with key `k` carries, if any pair has that key. */
  function LastFor<K(==), V>(items: seq<(K, V)>, k: K): (r: Option<V>)
    ensures r.None? <==> forall i :: 0 <= i < |items| ==> items[i].0 != k
  {
    if items == [] then None
    else if items[|items| - 1].0 == k then Some(items[|items| - 1].1)
    else LastFor(items[..|items| - 1], k)
  }

  /** The category responses after saving `items` (category id, value) for one client and
      date, one pair after the other. */
  function ApplyResponses(
    responses: map<(int, int, int), CategoryResponse>, clientId: int, date: int, items: seq<(int, int)>, stamp: int)
    : map<(int, int, int), CategoryResponse>
  {
    if items == [] then responses
    else
      var m := ApplyResponses(responses, clientId, date, items[..|items| - 1], stamp);
      var key := (clientId, items[|items| - 1].0, date);
      var value := items[|items| - 1].1;
      m[key := if key in m then m[key].(value := value) else CategoryResponse(value, None, stamp)]
  }

  lemma ApplyResponsesStep(
    responses: map<(int, int, int), CategoryResponse>, clientId: int, date: int, items: seq<(int, int)>,
    item: (int, int), stamp: int)
    ensures var m := ApplyResponses(responses, clientId, date, items, stamp);
            var key := (clientId, item.0, date);
            ApplyResponses(responses, clientId, date, items + [item], stamp)
              == m[key := if key in m then m[key].(value := item.1) else CategoryResponse(item.1, None, stamp)]
  {
    assert (items + [item])[..|items|] == items;
  }

  /** What saving the responses does to one row: a response of this client and date whose
      category appears in `items` takes the last value given for it, keeping its notes and
      creation time if it existed; every other row is untouched. */
  lemma {:induction false} ApplyResponsesAt(
    responses: map<(int, int, int), CategoryResponse>, clientId: int, date: int, items: seq<(int, int)>, stamp: int,
    key: (int, int, int))
    ensures var r := ApplyResponses(responses, clientId, date, items, stamp);
            var v := if key.0 == clientId && key.2 == date then LastFor(items, key.1) else None;
            (key in r <==> key in responses || v.Some?)
            && (key in r ==>
                  r[key] == if v.None? then responses[key]
                            else if key in responses then responses[key].(value := v.value)
                            else CategoryResponse(v.value, None, stamp))
  {
    if items != [] {
      ApplyResponsesAt(responses, clientId, date, items[..|items| - 1], stamp, key);
    }
  }

  /** The goal completions after saving `items` (goal id, completed) for one date. */
  function ApplyCompletions(
    completions: map<(int, int), GoalCompletion>, date: int, items: seq<(int, bool)>, stamp: int)
    : map<(int, int), GoalCompletion>
  {
    if items == [] then completions
    else
      var m := ApplyCompletions(completions, date, items[..|items| - 1], stamp);
      var key := (items[|items| - 1].0, date);
      var done := items[|items| - 1].1;
      m[key := if key in m then m[key].(completed := done) else GoalCompletion(done, None, stamp)]
  }

  lemma ApplyCompletionsStep(
    completions: map<(int, int), GoalCompletion>, date: int, items: seq<(int, bool)>, item: (int, bool), stamp: int)
    ensures var m := ApplyCompletions(completions, date, items, stamp);
            var key := (item.0, date);
            ApplyCompletions(completions, date, items + [item], stamp)
              == m[key := if key in m then m[key].(completed := item.1) else GoalCompletion(item.1, None, stamp)]
  {
    assert (items + [item])[..|items|] == items;
  }

  /** What saving the completions does to one row: a completion on this date of a goal that
      appears in `items` takes the last flag given for it, keeping its notes and creation
      time if it existed; every other row is untouched. The goal's owner is not consulted. */
  lemma {:induction false} ApplyCompletionsAt(
    completions: map<(int, int), GoalCompletion>, date: int, items: seq<(int, bool)>, stamp: int, key: (int, int))
    ensures var r := ApplyCompletions(completions, date, items, stamp);
            var v := if key.1 == date then LastFor(items, key.0) else None;
            (key in r <==> key in completions || v.Some?)
            && (key in r ==>
                  r[key] == if v.None? then completions[key]
                            else if key in completions then completions[key].(completed := v.value)
                            else GoalCompletion(v.value, None, stamp))
  {
    if items != [] {
      ApplyCompletionsAt(completions, date, items[..|items| - 1], stamp, key);
    }
  }

  /** What `items()` on a `null` dictionary, or `int` on a bad key, raises. */
  function ItemsError<V>(items: Field<seq<(string, V)>>): HttpError
  {
    if items.Null? then ServerError("'NoneType' object has no attribute 'items'")
    else ServerError("invalid literal for int()")
  }

  /** `submit_checkin` on the tables for the client profile `client`: the new tables, or the
      500 of a submission that raised and was rolled back. The date is parsed before the
      profile is used, and the responses are saved before the completions are read. */
  function CheckinSubmission(t: Tables, client: Option<int>, req: CheckinRequest, today: Date, now: ClockTime, stamp: int)
    : (r: Result<Tables, HttpError>)
    requires ValidDate(today)
    ensures r.Failure? <==>
              CheckinDate(req.date, today).None? || client.None?
              || ParseItems(req.categoryResponses).None? || ParseItems(req.goalCompletions).None?
    ensures r.Failure? ==> r.error.status == 500
    ensures r.Success? ==>
              r.value.users == t.users && r.value.clients == t.clients && r.value.goals == t.goals
              && r.value.plans == t.plans && r.value.notes == t.notes && r.value.categories == t.categories
              && r.value.therapists == t.therapists
  {
    var date := CheckinDate(req.date, today);
    if date.None? then Failure(ServerError("time data does not match format '%Y-%m-%d'"))
    else if client.None? then Failure(ServerError("'NoneType' object has no attribute 'checkins'"))
    else
      var categories := ParseItems(req.categoryResponses);
      if categories.None? then Failure(ItemsError(req.categoryResponses))
      else
        var goals := ParseItems(req.goalCompletions);
        if goals.None? then Failure(ItemsError(req.goalCompletions))
        else
          Success(t.(checkins := UpsertCheckin(t.checkins, (client.value, date.value), req, now, stamp),
                     responses := ApplyResponses(t.responses, client.value, date.value, categories.value, stamp),
                     completions := ApplyCompletions(t.completions, date.value, goals.value, stamp)))
  }

  lemma ApplyResponsesIdempotent(
    responses: map<(int, int, int), CategoryResponse>, clientId: int, date: int, items: seq<(int, int)>, stamp: int)
    ensures var once := ApplyResponses(responses, clientId, date, items, stamp);
            ApplyResponses(once, clientId, date, items, stamp) == once
  {
    var once := ApplyResponses(responses, clientId, date, items, stamp);
    var twice := ApplyResponses(once, clientId, date, items, stamp);
    forall key | key in twice || key in once
      ensures key in twice && key in once && twice[key] == once[key]
    {
      ApplyResponsesAt(responses, clientId, date, items, stamp, key);
      ApplyResponsesAt(once, clientId, date, items, stamp, key);
    }
  }

  lemma ApplyCompletionsIdempotent(
    completions: map<(int, int), GoalCompletion>, date: int, items: seq<(int, bool)>, stamp: int)
    ensures var once := ApplyCompletions(completions, date, items, stamp);
            ApplyCompletions(once, date, items, stamp) == once
  {
    var once := ApplyCompletions(completions, date, items, stamp);
    var twice := ApplyCompletions(once, date, items, stamp);
    forall key | key in twice || key in once
      ensures key in twice && key in once && twice[key] == once[key]
    {
      ApplyCompletionsAt(completions, date, items, stamp, key);
      ApplyCompletionsAt(once, date, items, stamp, key);
    }
  }

  /** Submitting the same check-in twice at the same time of day, even with a later timestamp
      `stamp2` for the second submission's new rows, leaves the tables exactly as the first
      submission did. */
  lemma CheckinResubmission(
    t: Tables, client: Option<int>, req: CheckinRequest, today: Date, now: ClockTime, stamp: int, stamp2: int)
    requires ValidDate(today)
    requires CheckinSubmission(t, client, req, today, now, stamp).Success?
    ensures var once := CheckinSubmission(t, client, req, today, now, stamp).value;
            CheckinSubmission(once, client, req, today, now, stamp2) == Success(once)
  {
    var clientId := client.value;
    var date := CheckinDate(req.date, today).value;
    var categories := ParseItems(req.categoryResponses).value;
    var goals := ParseItems(req.goalCompletions).value;
    var once := CheckinSubmission(t, client, req, today, now, stamp).value;
    ApplyResponsesIdempotent(t.responses, clientId, date, categories, stamp);
    ApplyCompletionsIdempotent(t.completions, date, goals, stamp);
    ApplyResponsesCovers(t.responses, clientId, date, categories, stamp);
    ApplyCompletionsCovers(t.completions, date, goals, stamp);
    ApplyResponsesNoNewRows(once.responses, clientId, date, categories, stamp, stamp2);
    ApplyCompletionsNoNewRows(once.completions, date, goals, stamp, stamp2);
    assert UpsertCheckin(once.checkins, (clientId, date), req, now, stamp2) == once.checkins;
  }

  /** After saving, every pair has its row. */
  lemma ApplyResponsesCovers(
    responses: map<(int, int, int), CategoryResponse>, clientId: int, date: int, items: seq<(int, int)>, stamp: int)
    ensures forall i :: 0 <= i < |items| ==>
              (clientId, items[i].0, date) in ApplyResponses(responses, clientId, date, items, stamp)
  {
    forall i | 0 <= i < |items|
      ensures (clientId, items[i].0, date) in ApplyResponses(responses, clientId, date, items, stamp)
    {
      ApplyResponsesAt(responses, clientId, date, items, stamp, (clientId, items[i].0, date));
    }
  }

  lemma ApplyCompletionsCovers(
    completions: map<(int, int), GoalCompletion>, date: int, items: seq<(int, bool)>, stamp: int)
    ensures forall i :: 0 <= i < |items| ==> (items[i].0, date) in ApplyCompletions(completions, date, items, stamp)
  {
    forall i | 0 <= i < |items|
      ensures (items[i].0, date) in ApplyCompletions(completions, date, items, stamp)
    {
      ApplyCompletionsAt(completions, date, items, stamp, (items[i].0, date));
    }
  }

  /** When every row `items` touches exists already, the creation stamp plays no part. */
  lemma {:induction false} ApplyResponsesNoNewRows(
    responses: map<(int, int, int), CategoryResponse>, clientId: int, date: int, items: seq<(int, int)>,
    stamp: int, stamp2: int)
    requires forall i :: 0 <= i < |items| ==> (clientId, items[i].0, date) in responses
    ensures ApplyResponses(responses, clientId, date, items, stamp2)
              == ApplyResponses(responses, clientId, date, items, stamp)
  {
    if items != [] {
      ApplyResponsesNoNewRows(responses, clientId, date, items[..|items| - 1], stamp, stamp2);
      ApplyResponsesAt(responses, clientId, date, items[..|items| - 1], stamp, (clientId, items[|items| - 1].0, date));
    }
  }

  lemma {:induction false} ApplyCompletionsNoNewRows(
    completions: map<(int, int), GoalCompletion>, date: int, items: seq<(int, bool)>, stamp: int, stamp2: int)
    requires forall i :: 0 <= i < |items| ==> (items[i].0, date) in completions
    ensures ApplyCompletions(completions, date, items, stamp2) == ApplyCompletions(completions, date, items, stamp)
  {
    if items != [] {
      ApplyCompletionsNoNewRows(completions, date, items[..|items| - 1], stamp, stamp2);
      ApplyCompletionsAt(completions, date, items[..|items| - 1], stamp, (items[|items| - 1].0, date));
    }
  }

  /** The loop of `submit_checkin` over `category_responses`: updates the value of the
      client's response for that category and date, or adds one. `None` when a key is not an
      integer (the handler then raises). */
  method SaveCategoryResponses(
    responses: map<(int, int, int), CategoryResponse>, clientId: int, date: int, items: seq<(string, int)>, stamp: int)
    returns (r: Option<map<(int, int, int), CategoryResponse>>)
    ensures r.None? <==> ParseIds(items).None?
    ensures r.Some? ==> r.value == ApplyResponses(responses, clientId, date, ParseIds(items).value, stamp)
  {
    var current := responses;
    var parsed: seq<(int, int)> := [];
    var i := 0;
    while i < |items|
      invariant 0 <= i <= |items|
      invariant ParseIds(items[..i]) == Some(parsed)
      invariant current == ApplyResponses(responses, clientId, date, parsed, stamp)
    {
      var categoryId := ParseInt(items[i].0);
      if categoryId.None? {
        ParseIdsFails(items, i);
        return None;
      }
      var key := (clientId, categoryId.value, date);
      if key in current {
        current := current[key := current[key].(value := items[i].1)];
      } else {
        current := current[key := CategoryResponse(items[i].1, None, stamp)];
      }
      ParseIdsStep(items, i, parsed, categoryId.value);
      ApplyResponsesStep(responses, clientId, date, parsed, (categoryId.value, items[i].1), stamp);
      parsed := parsed + [(categoryId.value, items[i].1)];
      i := i + 1;
    }
    assert items[..i] == items;
    r := Some(current);
  }

  /** The loop of `submit_checkin` over `goal_completions`, in the same way. */
  method SaveGoalCompletions(
    completions: map<(int, int), GoalCompletion>, date: int, items: seq<(string, bool)>, stamp: int)
    returns (r: Option<map<(int, int), GoalCompletion>>)
    ensures r.None? <==> ParseIds(items).None?
    ensures r.Some? ==> r.value == ApplyCompletions(completions, date, ParseIds(items).value, stamp)
  {
    var current := completions;
    var parsed: seq<(int, bool)> := [];
    var i := 0;
    while i < |items|
      invariant 0 <= i <= |items|
      invariant ParseIds(items[..i]) == Some(parsed)
      invariant current == ApplyCompletions(completions, date, parsed, stamp)
    {
      var goalId := ParseInt(items[i].0);
      if goalId.None? {
        ParseIdsFails(items, i);
        return None;
      }
      var key := (goalId.value, date);
      if key in current {
        current := current[key := current[key].(completed := items[i].1)];
      } else {
        current := current[key := GoalCompletion(items[i].1, None, stamp)];
      }
      ParseIdsStep(items, i, parsed, goalId.value);
      ApplyCompletionsStep(completions, date, parsed, (goalId.value, items[i].1), stamp);
      parsed := parsed + [(goalId.value, items[i].1)];
      i := i + 1;
    }
    assert items[..i] == items;
    r := Some(current);
  }

  // ---------------------------------------------------------------- weekly report

  datatype DaySummary = DaySummary(emotional: Option<int>, medication: Option<int>, activity: Option<int>)

  /** `week_data` keyed by the day's ordinal, and the client's serial. */
  datatype WeeklyReport = WeeklyReport(weekData: map<int, DaySummary>, clientSerial: string)

  function Summary(c: DailyCheckin): DaySummary
  {
    DaySummary(c.emotionalValue, c.medicationValue, c.activityValue)
  }

  /** `year, week_num = week.split('-W')` followed by `int` of both halves. */
  function ParseWeek(week: string): Option<(int, int)>
  {
    var parts := Split(week, "-W");
    if |parts| != 2 then None
    else
      var year := ParseInt(parts[0]);
      var n := ParseInt(parts[1]);
      if year.None? || n.None? then None else Some((year.value, n.value))
  }

  /** A label `<year>-W<n>` reads back as the year and week it was written from. */
  lemma WeekLabelRoundTrip(year: nat, n: int)
    ensures ParseWeek(NatToString(year) + "-W" + IntToString(n)) == Some((year, n))
  {
    WeekLabelParts(year, n);
    NatToStringParses(year);
    ParseIntRoundTrip(n);
  }

  /** The separator splits a week label into exactly its year and its number. */
  lemma WeekLabelParts(year: nat, n: int)
    ensures Split(NatToString(year) + "-W" + IntToString(n), "-W") == [NatToString(year), IntToString(n)]
  {
    IntToStringLacks(n, 'W');
    MissingCharNotContained(IntToString(n), "-W", 'W');
    SplitAtSeparator(NatToString(year), "-W", IntToString(n));
  }

  /** The first day of the requested week, when the label parses, names a year `datetime`
      accepts, and the week's seven days are all dates; otherwise the handler raises. */
  function ResolveWeek(week: string): (r: Option<int>)
    ensures r.Some? ==> Weekday(r.value) == 0 && 1 <= r.value && r.value + 6 <= MaxOrdinal
  {
    var parsed := ParseWeek(week);
    if parsed.None? || !(1 <= parsed.value.0 <= MaxYear) then None
    else
      var start := ReportWeekStart(parsed.value.0, parsed.value.1);
      ReportWeekStartIsMonday(parsed.value.0, parsed.value.1);
      if 1 <= start && start + 6 <= MaxOrdinal then Some(start) else None
  }

  /** A label `<year>-W<n>` resolves to the Monday `ReportWeekStart` computes for that year and
      week, whenever the year is one `datetime` accepts and the whole week is in range. */
  lemma ResolveWeekOfLabel(year: nat, n: int)
    requires 1 <= year <= MaxYear
    requires 1 <= ReportWeekStart(year, n) && ReportWeekStart(year, n) + 6 <= MaxOrdinal
    ensures ResolveWeek(NatToString(year) + "-W" + IntToString(n)) == Some(ReportWeekStart(year, n))
  {
    WeekLabelRoundTrip(year, n);
  }

  /** The loop over the seven days of the week starting `start`: the summary of each day that
      has a check-in of client `clientId`. */
  method CollectWeek(checkins: map<(int, int), DailyCheckin>, clientId: int, start: int)
    returns (weekData: map<int, DaySummary>)
    ensures forall d :: d in weekData <==> start <= d < start + 7 && (clientId, d) in checkins
    ensures forall d :: d in weekData ==> weekData[d] == Summary(checkins[(clientId, d)])
  {
    weekData := map[];
    var i := 0;
    while i < 7
      invariant 0 <= i <= 7
      invariant forall d :: d in weekData <==> start <= d < start + i && (clientId, d) in checkins
      invariant forall d :: d in weekData ==> weekData[d] == Summary(checkins[(clientId, d)])
    {
      var day := start + i;
      if (clientId, day) in checkins {
        weekData := weekData[day := Summary(checkins[(clientId, day)])];
      }
      i := i + 1;
    }
  }

  /** `generate_report`: the therapist's profile, the ownership check, then the week, then
      one entry per day of the seven that has a check-in. */
  method GenerateReport(
    clients: seq<Client>, checkins: map<(int, int), DailyCheckin>, therapist: Option<int>, clientId: int, week: string)
    returns (r: Result<WeeklyReport, HttpError>)
    ensures therapist.None? ==> r == Failure(NoProfile)
    ensures therapist.Some? && !Owns(clients, clientId, therapist.value) ==> r == Failure(ClientNotFound)
    ensures therapist.Some? && Owns(clients, clientId, therapist.value) && ResolveWeek(week).None? ==>
              r.Failure? && r.error.status == 500
    ensures r.Success? <==> therapist.Some? && Owns(clients, clientId, therapist.value) && ResolveWeek(week).Some?
    ensures r.Success? ==> r.value.clientSerial == clients[clientId - 1].serial
    ensures r.Success? ==>
              forall d :: d in r.value.weekData <==>
                ResolveWeek(week).value <= d < ResolveWeek(week).value + 7 && (clientId, d) in checkins
    ensures r.Success? ==>
              forall d :: d in r.value.weekData ==> r.value.weekData[d] == Summary(checkins[(clientId, d)])
  {
    if therapist.None? {
      return Failure(NoProfile);
    }
    var client := FindOwnedClient(clients, Some(clientId), therapist.value);
    if client.Failure? {
      return Failure(client.error);
    }
    var start := ResolveWeek(week);
    if start.None? {
      return Failure(ServerError("invalid week"));
    }
    var weekData := CollectWeek(checkins, clientId, start.value);
    return Success(WeeklyReport(weekData, clients[clientId - 1].serial));
  }

  // ---------------------------------------------------------------- the server

  /** The tables left after `initialize_database` checks the category count. */
  function SeedIfEmpty(categories: seq<TrackingCategory>): (r: seq<TrackingCategory>)
    ensures |r| > 0
    ensures categories != [] ==> r == categories
    ensures categories == [] ==> DefaultCategoryIds(r) == [1, 2, 3]
  {
    SeededDefaults();
    if categories == [] then DefaultCategorySeed else categories
  }

  /** Seeding is idempotent: a second run finds the categories and adds nothing. */
  lemma SeedIfEmptyIdempotent(categories: seq<TrackingCategory>)
    ensures SeedIfEmpty(SeedIfEmpty(categories)) == SeedIfEmpty(categories)
  {
  }

  /** One active goal per text for the client and week, in the order given. */
  method AddGoals(db: Database, clientId: int, therapistId: int, texts: seq<string>, weekStart: int)
    modifies db
    ensures db.Snapshot() == old(db.Snapshot()).(goals := old(db.goals) + GoalsFor(clientId, therapistId, texts, weekStart))
  {
    var j := 0;
    while j < |texts|
      invariant 0 <= j <= |texts|
      invariant db.Snapshot() == old(db.Snapshot()).(goals := old(db.goals) + GoalsFor(clientId, therapistId, texts[..j], weekStart))
    {
      assert GoalsFor(clientId, therapistId, texts[..j + 1], weekStart)
               == GoalsFor(clientId, therapistId, texts[..j], weekStart)
                  + [WeeklyGoal(clientId, therapistId, texts[j], weekStart, true)];
      db.goals := db.goals + [WeeklyGoal(clientId, therapistId, texts[j], weekStart, true)];
      j := j + 1;
    }
    assert texts[..j] == texts;
  }

  /** The application with its module-level `_initialized` flag and its database. */
  class Server {
    var initialized: bool
    const db: Database

    constructor (db: Database)
      ensures this.db == db && !initialized
    {
      this.db := db;
      initialized := false;
    }

    /** `initialize_database`: at most once per process, and only into an empty category table. */
    method InitializeDatabase()
      modifies this, db
      ensures initialized
      ensures old(initialized) ==> db.Snapshot() == old(db.Snapshot())
      ensures !old(initialized) ==> db.Snapshot() == old(db.Snapshot()).(categories := SeedIfEmpty(old(db.categories)))
    {
      if initialized {
        return;
      }
      initialized := true;
      if |db.categories| == 0 {
        db.SeedDefaultCategories();
      }
    }

    /** `register`: a therapist gets a profile, a client gets a serial, today as start date and
        one plan per default category. Answers the new user's id. */
    method Register(req: RegisterRequest, today: Date, draws: seq<string>) returns (r: Result<int, HttpError>)
      requires ValidDate(today)
      requires forall i :: 0 <= i < |draws| ==> IsSerialDraw(draws[i])
      requires HasFreeDraw(UsedSerials(db.clients), draws)
      modifies db
      ensures RegisterRejection(old(db.users), req).Some? ==>
                r == Failure(RegisterRejection(old(db.users), req).value) && db.Snapshot() == old(db.Snapshot())
      ensures r.Failure? ==> db.Snapshot() == old(db.Snapshot())
      ensures r.Success? <==>
                RegisterRejection(old(db.users), req).None?
                && !(req.role.value == TherapistRole && LicenseTaken(old(db.therapists), req.licenseNumber.GetOr("")))
      ensures r.Success? ==>
                r.value == |old(db.users)| + 1
                && db.users == old(db.users) + [User(req.email.value, req.password.value, req.role.value, true)]
      ensures r.Success? && req.role.value == TherapistRole ==>
                db.Snapshot() == old(db.Snapshot()).(
                  users := db.users,
                  therapists := old(db.therapists) + [Therapist(r.value, req.licenseNumber.GetOr(""),
                                  req.name.GetOr(""), req.organization.GetOr(""), req.specializations.GetOr([]))])
      ensures r.Success? && req.role.value == ClientRole ==>
                |db.clients| == |old(db.clients)| + 1 && db.clients[..|old(db.clients)|] == old(db.clients)
                && NewClientRow(db.clients[|old(db.clients)|], r.value, req.therapistId, ToOrdinal(today),
                                UsedSerials(old(db.clients)))
                && db.Snapshot() == old(db.Snapshot()).(
                     users := db.users, clients := db.clients,
                     plans := old(db.plans) + PlansFor(|db.clients|, DefaultCategoryIds(old(db.categories))))
    {
      var rejection := RegisterRejection(db.users, req);
      if rejection.Some? {
        return Failure(rejection.value);
      }
      var role := req.role.value;
      if role == TherapistRole && LicenseTaken(db.therapists, req.licenseNumber.GetOr("")) {
        return Failure(ServerError("duplicate key value violates unique constraint on license_number"));
      }
      db.users := db.users + [User(req.email.value, req.password.value, role, true)];
      var userId := |db.users|;
      if role == TherapistRole {
        db.therapists := db.therapists + [Therapist(userId, req.licenseNumber.GetOr(""), req.name.GetOr(""),
                                                    req.organization.GetOr(""), req.specializations.GetOr([]))];
      } else {
        var serial := GenerateClientSerial(UsedSerials(db.clients), draws);
        db.clients := db.clients + [Client(userId, serial, req.therapistId, ToOrdinal(today), true)];
        db.AddPlans(|db.clients|, DefaultCategoryIds(db.categories));
      }
      r := Success(userId);
    }

    /** `create_client` for the therapist profile `therapist`: the client user (with the given
        or a generated password), the client with a fresh serial, its plans, its first goals for
        the current week, and the welcome note. Answers the client id, serial and password. */
    method CreateClient(therapist: Option<int>, req: NewClientRequest, generatedPassword: string, today: Date,
                        draws: seq<string>)
      returns (r: Result<(int, string, string), HttpError>)
      requires ValidDate(today)
      requires forall i :: 0 <= i < |draws| ==> IsSerialDraw(draws[i])
      requires HasFreeDraw(UsedSerials(db.clients), draws)
      modifies db
      ensures req.email.Some? && EmailRegistered(old(db.users), req.email.value) ==>
                r == Failure(HttpError(400, "Email already registered"))
      ensures r.Failure? && !(req.email.Some? && EmailRegistered(old(db.users), req.email.value)) ==>
                r.error.status == 500
      ensures r.Success? <==>
                req.email.Some? && !EmailRegistered(old(db.users), req.email.value)
                && req.password.GetOr(generatedPassword) != [] && therapist.Some?
      ensures r.Failure? ==> db.Snapshot() == old(db.Snapshot())
      ensures r.Success? ==>
                var password := req.password.GetOr(generatedPassword);
                var clientId := |old(db.clients)| + 1;
                r.value.0 == clientId && r.value.2 == password
                && IsClientSerial(r.value.1) && r.value.1 !in UsedSerials(old(db.clients))
                && db.Snapshot() == old(db.Snapshot()).(
                     users := old(db.users) + [User(req.email.value, password, ClientRole, true)],
                     clients := old(db.clients)
                                + [Client(|old(db.users)| + 1, r.value.1, therapist, ToOrdinal(today), true)],
                     plans := old(db.plans) + PlansFor(clientId, ChosenCategories(req.trackingCategories, old(db.categories))),
                     goals := old(db.goals) + GoalsFor(clientId, therapist.value, req.initialGoals.GetOr([]),
                                                        CurrentWeekStart(ToOrdinal(today))),
                     notes := old(db.notes) + [WelcomeNote(clientId, therapist.value, password)])
    {
      if req.email.Some? && EmailRegistered(db.users, req.email.value) {
        return Failure(HttpError(400, "Email already registered"));
      }
      var password := req.password.GetOr(generatedPassword);
      if password == [] {
        return Failure(ServerError("Password must be non-empty."));
      }
      if req.email.None? {
        return Failure(ServerError("null value in column email violates not-null constraint"));
      }
      if therapist.None? {
        return Failure(NoProfile);
      }
      var therapistId := therapist.value;
      db.users := db.users + [User(req.email.value, password, ClientRole, true)];
      var serial := GenerateClientSerial(UsedSerials(db.clients), draws);
      db.clients := db.clients + [Client(|db.users|, serial, Some(therapistId), ToOrdinal(today), true)];
      var clientId := |db.clients|;

      var categoryIds := ChosenCategories(req.trackingCategories, db.categories);
      db.AddPlans(clientId, categoryIds);
      AddGoals(db, clientId, therapistId, req.initialGoals.GetOr([]), CurrentWeekStart(ToOrdinal(today)));

      db.notes := db.notes + [WelcomeNote(clientId, therapistId, password)];
      r := Success((clientId, serial, password));
    }

    /** `add_weekly_goal` for the therapist profile `therapist`. Answers the new goal's id. */
    method AddWeeklyGoal(therapist: Option<int>, clientId: Option<int>, goalText: Option<string>,
                         weekStart: Option<string>, today: Date)
      returns (r: Result<int, HttpError>)
      requires ValidDate(today)
      modifies db
      ensures therapist.None? ==> r == Failure(NoProfile)
      ensures therapist.Some? && FindOwnedClient(old(db.clients), clientId, therapist.value).Failure? ==>
                r == Failure(ClientNotFound)
      ensures r.Success? <==>
                therapist.Some? && FindOwnedClient(old(db.clients), clientId, therapist.value).Success?
                && GoalWeek(weekStart, today).Some? && goalText.Some?
      ensures r.Failure? ==> db.Snapshot() == old(db.Snapshot())
      ensures r.Success? ==>
                r.value == |old(db.goals)| + 1
                && db.Snapshot() == old(db.Snapshot()).(
                     goals := old(db.goals)
                              + [WeeklyGoal(clientId.value, therapist.value, goalText.value,
                                            GoalWeek(weekStart, today).value, true)])
    {
      if therapist.None? {
        return Failure(NoProfile);
      }
      var therapistId := therapist.value;
      var client := FindOwnedClient(db.clients, clientId, therapistId);
      if client.Failure? {
        return Failure(client.error);
      }
      var week := GoalWeek(weekStart, today);
      if week.None? {
        return Failure(ServerError("time data does not match format '%Y-%m-%d'"));
      }
      if goalText.None? {
        return Failure(ServerError("null value in column goal_text violates not-null constraint"));
      }
      db.goals := db.goals + [WeeklyGoal(clientId.value, therapistId, goalText.value, week.value, true)];
      r := Success(|db.goals|);
    }

    /** `add_therapist_note` for the therapist profile `therapist`. Answers the new note's id. */
    method AddTherapistNote(therapist: Option<int>, clientId: Option<int>, content: Option<string>,
                            isMission: Option<bool>, noteType: Option<string>)
      returns (r: Result<int, HttpError>)
      modifies db
      ensures therapist.None? ==> r == Failure(NoProfile)
      ensures therapist.Some? && FindOwnedClient(old(db.clients), clientId, therapist.value).Failure? ==>
                r == Failure(ClientNotFound)
      ensures r.Success? <==>
                therapist.Some? && FindOwnedClient(old(db.clients), clientId, therapist.value).Success? && content.Some?
      ensures r.Failure? ==> db.Snapshot() == old(db.Snapshot())
      ensures r.Success? ==>
                r.value == |old(db.notes)| + 1
                && db.Snapshot() == old(db.Snapshot()).(
                     notes := old(db.notes) + [TherapistNote(clientId.value, therapist, noteType.GetOr("general"),
                                                             content.value, isMission.GetOr(false), false)])
    {
      if therapist.None? {
        return Failure(NoProfile);
      }
      var therapistId := therapist.value;
      var client := FindOwnedClient(db.clients, clientId, therapistId);
      if client.Failure? {
        return Failure(client.error);
      }
      if content.None? {
        return Failure(ServerError("null value in column content violates not-null constraint"));
      }
      db.notes := db.notes + [TherapistNote(clientId.value, Some(therapistId), noteType.GetOr("general"),
                                            content.value, isMission.GetOr(false), false)];
      r := Success(|db.notes|);
    }

    /** `submit_checkin` for the client profile `client`: the check-in row, then each category
        response, then each goal completion, all or nothing. */
    method SubmitCheckin(client: Option<int>, req: CheckinRequest, today: Date, now: ClockTime, stamp: int)
      returns (r: Result<(), HttpError>)
      requires ValidDate(today)
      modifies db
      ensures var spec := CheckinSubmission(old(db.Snapshot()), client, req, today, now, stamp);
              (r.Failure? <==> spec.Failure?)
              && (spec.Failure? ==> r.error == spec.error && db.Snapshot() == old(db.Snapshot()))
              && (spec.Success? ==> db.Snapshot() == spec.value)
    {
      ghost var t := db.Snapshot();
      var date := CheckinDate(req.date, today);
      if date.None? {
        return Failure(ServerError("time data does not match format '%Y-%m-%d'"));
      }
      if client.None? {
        return Failure(ServerError("'NoneType' object has no attribute 'checkins'"));
      }
      var clientId := client.value;
      var checkins := UpsertCheckin(db.checkins, (clientId, date.value), req, now, stamp);

      var responseItems := req.categoryResponses.Get([]);
      if responseItems.None? {
        return Failure(ItemsError(req.categoryResponses));
      }
      var responses := SaveCategoryResponses(db.responses, clientId, date.value, responseItems.value, stamp);
      if responses.None? {
        return Failure(ItemsError(req.categoryResponses));
      }
      var completionItems := req.goalCompletions.Get([]);
      if completionItems.None? {
        return Failure(ItemsError(req.goalCompletions));
      }
      var completions := SaveGoalCompletions(db.completions, date.value, completionItems.value, stamp);
      if completions.None? {
        return Failure(ItemsError(req.goalCompletions));
      }
      assert CheckinSubmission(t, client, req, today, now, stamp)
               == Success(t.(checkins := checkins, responses := responses.value, completions := completions.value));
      db.checkins, db.responses, db.completions := checkins, responses.value, completions.value;
      r := Success(());
    }
  }
}
