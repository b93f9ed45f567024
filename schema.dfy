/** The tracker's database: one datatype per table row and the `Database` object holding the
    tables. A table with an integer primary key is a sequence whose position plus one is the
    row id (rows are only ever added, as autoincrement ids are only ever handed out once); a
    table with a natural unique key is a map keyed by it. Dates are ordinals (see Calendar);
    `created_at` timestamps are opaque integers the caller supplies. */
module Schema {
  import opened Wrappers
  import opened Calendar

  const TherapistRole := "therapist"
  const ClientRole := "client"

  /** The password column holds whatever the caller hashed; hashing is not modelled. */
  datatype User = User(email: string, password: string, role: string, isActive: bool)

  datatype Therapist = Therapist(
    userId: int, licenseNumber: string, name: string, organization: string, specializations: seq<string>)

  datatype Client = Client(userId: int, serial: string, therapistId: Option<int>, startDate: int, isActive: bool)

  datatype TrackingCategory = TrackingCategory(
    name: string, description: string, scaleMin: int, scaleMax: int, isDefault: bool)

  datatype TrackingPlan = TrackingPlan(clientId: int, categoryId: int, isActive: bool)

  datatype WeeklyGoal = WeeklyGoal(clientId: int, therapistId: int, goalText: string, weekStart: int, isActive: bool)

  datatype TherapistNote = TherapistNote(
    clientId: int, therapistId: Option<int>, noteType: string, content: string, isMission: bool, missionCompleted: bool)

  /** A row of `daily_checkins`, unique per (client, date): the map key carries both. */
  datatype DailyCheckin = DailyCheckin(
    time: ClockTime,
    emotionalValue: Option<int>, emotionalNotes: Option<string>,
    medicationValue: Option<int>, medicationNotes: Option<string>,
    activityValue: Option<int>, activityNotes: Option<string>,
    createdAt: int)

  /** A row of `category_responses`, looked up by (client, category, date). */
  datatype CategoryResponse = CategoryResponse(value: int, notes: Option<string>, createdAt: int)

  /** A row of `goal_completions`, unique per (goal, date). */
  datatype GoalCompletion = GoalCompletion(completed: bool, notes: Option<string>, createdAt: int)

  /** The status code and `error` text of a refused request. */
  datatype HttpError = HttpError(status: int, message: string)

  function Category(name: string, description: string, isDefault: bool): TrackingCategory
  {
    TrackingCategory(name, description, 1, 5, isDefault)
  }

  /** The six categories every seeding path adds to an empty table, in this order. */
  const DefaultCategorySeed: seq<TrackingCategory> := [
    Category("Emotion Level", "Overall emotional state", true),
    Category("Energy", "Physical and mental energy levels", true),
    Category("Social Activity", "Engagement in social interactions", true),
    Category("Sleep Quality", "Quality of sleep", false),
    Category("Anxiety Level", "Level of anxiety experienced", false),
    Category("Motivation", "Level of motivation and drive", false)
  ]

  /** The ids of the categories marked default, in id order
      (`TrackingCategory.query.filter_by(is_default=True)`). */
  function DefaultCategoryIds(categories: seq<TrackingCategory>): seq<int>
  {
    if categories == [] then []
    else
      DefaultCategoryIds(categories[..|categories| - 1])
        + (if categories[|categories| - 1].isDefault then [|categories|] else [])
  }

  predicate Ascending(s: seq<int>)
  {
    forall i, j :: 0 <= i < j < |s| ==> s[i] < s[j]
  }

  /** The default ids are exactly the ids of the rows marked default, each once, ascending. */
  lemma {:induction false} DefaultCategoryIdsSpec(categories: seq<TrackingCategory>)
    ensures forall id :: id in DefaultCategoryIds(categories) <==>
              1 <= id <= |categories| && categories[id - 1].isDefault
    ensures Ascending(DefaultCategoryIds(categories))
  {
    if categories != [] {
      var init := categories[..|categories| - 1];
      DefaultCategoryIdsSpec(init);
      var earlier := DefaultCategoryIds(init);
      var extra := if categories[|categories| - 1].isDefault then [|categories|] else [];
      assert DefaultCategoryIds(categories) == earlier + extra;
      forall i | 0 <= i < |earlier|
        ensures earlier[i] < |categories|
      {
        assert earlier[i] in earlier;
      }
      var ids := earlier + extra;
      forall i, j | 0 <= i < j < |ids|
        ensures ids[i] < ids[j]
      {
        if j >= |earlier| {
          assert ids[i] == earlier[i] && ids[j] == |categories|;
        }
      }
    }
  }

  /** Seeding an empty table makes exactly the first three categories the default ones. */
  lemma SeededDefaults()
    ensures DefaultCategoryIds(DefaultCategorySeed) == [1, 2, 3]
    ensures forall id :: id in DefaultCategoryIds(DefaultCategorySeed) ==>
              DefaultCategorySeed[id - 1].name in {"Emotion Level", "Energy", "Social Activity"}
  {
    var s := DefaultCategorySeed;
    assert s[..1][..0] == [] && DefaultCategoryIds(s[..1]) == [1];
    assert s[..2][..1] == s[..1] && DefaultCategoryIds(s[..2]) == [1, 2];
    assert s[..3][..2] == s[..2] && DefaultCategoryIds(s[..3]) == [1, 2, 3];
    assert s[..4][..3] == s[..3] && DefaultCategoryIds(s[..4]) == [1, 2, 3];
    assert s[..5][..4] == s[..4] && DefaultCategoryIds(s[..5]) == [1, 2, 3];
    assert s[..5] == s[..|s| - 1];
  }

  /** One active plan per category id, for client `clientId`. */
  function PlansFor(clientId: int, categoryIds: seq<int>): (plans: seq<TrackingPlan>)
    ensures |plans| == |categoryIds|
    ensures forall i :: 0 <= i < |plans| ==> plans[i] == TrackingPlan(clientId, categoryIds[i], true)
  {
    seq(|categoryIds|, i requires 0 <= i < |categoryIds| => TrackingPlan(clientId, categoryIds[i], true))
  }

  predicate EmailRegistered(users: seq<User>, email: string)
  {
    exists i :: 0 <= i < |users| && users[i].email == email
  }

  function UsedSerials(clients: seq<Client>): set<string>
  {
    set i | 0 <= i < |clients| :: clients[i].serial
  }

  /** `User.query.get(id)`. */
  function UserById(users: seq<User>, id: int): (r: Option<User>)
    ensures r.Some? <==> 1 <= id <= |users|
    ensures r.Some? ==> r.value == users[id - 1]
  {
    if 1 <= id <= |users| then Some(users[id - 1]) else None
  }

  /** The contents of every table at one moment. */
  datatype Tables = Tables(
    users: seq<User>, therapists: seq<Therapist>, clients: seq<Client>,
    categories: seq<TrackingCategory>, plans: seq<TrackingPlan>, goals: seq<WeeklyGoal>,
    notes: seq<TherapistNote>, checkins: map<(int, int), DailyCheckin>,
    responses: map<(int, int, int), CategoryResponse>, completions: map<(int, int), GoalCompletion>)

  class Database {
    var users: seq<User>
    var therapists: seq<Therapist>
    var clients: seq<Client>
    var categories: seq<TrackingCategory>
    var plans: seq<TrackingPlan>
    var goals: seq<WeeklyGoal>
    var notes: seq<TherapistNote>
    /** Keyed by (client id, check-in date). */
    var checkins: map<(int, int), DailyCheckin>
    /** Keyed by (client id, category id, response date). */
    var responses: map<(int, int, int), CategoryResponse>
    /** Keyed by (goal id, completion date). */
    var completions: map<(int, int), GoalCompletion>

    function Snapshot(): Tables
      reads this
    {
      Tables(users, therapists, clients, categories, plans, goals, notes, checkins, responses, completions)
    }

    /** `db.create_all()` on an empty database. */
    constructor ()
      ensures users == [] && therapists == [] && clients == [] && categories == []
      ensures plans == [] && goals == [] && notes == []
      ensures checkins == map[] && responses == map[] && completions == map[]
    {
      users, therapists, clients, categories := [], [], [], [];
      plans, goals, notes := [], [], [];
      checkins, responses, completions := map[], map[], map[];
    }

    /** Adds the six default categories, as each seeding path does once it has decided to. */
    method SeedDefaultCategories()
      modifies this
      ensures Snapshot() == old(Snapshot()).(categories := old(categories) + DefaultCategorySeed)
    {
      var i := 0;
      while i < |DefaultCategorySeed|
        invariant 0 <= i <= |DefaultCategorySeed|
        invariant categories == old(categories) + DefaultCategorySeed[..i]
        invariant users == old(users) && therapists == old(therapists) && clients == old(clients)
        invariant plans == old(plans) && goals == old(goals) && notes == old(notes)
        invariant checkins == old(checkins) && responses == old(responses) && completions == old(completions)
      {
        categories := categories + [DefaultCategorySeed[i]];
        i := i + 1;
      }
    }

    /** The end of a run whose commit raised: the transaction is discarded and every table is
        as it was at `t`, the state the run started from. */
    method Restore(t: Tables)
      modifies this
      ensures Snapshot() == t
    {
      users, therapists, clients, categories := t.users, t.therapists, t.clients, t.categories;
      plans, goals, notes := t.plans, t.goals, t.notes;
      checkins, responses, completions := t.checkins, t.responses, t.completions;
    }

    /** Adds one active plan per category id for client `clientId`, in the order given. */
    method AddPlans(clientId: int, categoryIds: seq<int>)
      modifies this
      ensures Snapshot() == old(Snapshot()).(plans := old(plans) + PlansFor(clientId, categoryIds))
    {
      var i := 0;
      while i < |categoryIds|
        invariant 0 <= i <= |categoryIds|
        invariant Snapshot() == old(Snapshot()).(plans := old(plans) + PlansFor(clientId, categoryIds[..i]))
      {
        assert PlansFor(clientId, categoryIds[..i + 1])
                 == PlansFor(clientId, categoryIds[..i]) + [TrackingPlan(clientId, categoryIds[i], true)];
        plans := plans + [TrackingPlan(clientId, categoryIds[i], true)];
        i := i + 1;
      }
      assert categoryIds[..i] == categoryIds;
    }
  }
}
