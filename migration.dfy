/** The one-off migration of the legacy JSON files into the tracker's database: the therapist
    files, then the patient files, then each patient's check-in files. The files are given as
    the records they parse to, in the order the directory listing yields them; a directory that
    does not exist is `None`. A key the code reads the same whether it is absent or `null` is an
    `Option`; one it reads differently (a `.get` with a default, a `'key' in data` test) is a
    `Field`. Each file is handled inside its own `try`: a record whose
    handling raises is skipped, but rows it already flushed stay and are committed. A flush
    that a unique column refuses is different: the session's transaction fails, every later
    query raises (so every later file is skipped), and the commit that ends the loop raises,
    which ends the whole run with nothing of that loop committed. */
module Migration {
  import opened Wrappers
  import opened Text
  import opened Calendar
  import opened Schema
  import Backend

  const DefaultTherapistEmail := "default.therapist@system.local"
  const DefaultLicense := "SYSTEM-DEFAULT"
  const DefaultTherapistName := "System Default Therapist"
  const DefaultOrganization := "Legacy Data Migration"
  const MigrationNoteType := "migration"
  const MigrationNotePrefix := "Migrated from legacy system: "
  /** The plain texts the migration hashes for a password (hashing is not modelled). */
  const TherapistTempPassword := "temp_password"
  const ClientTempPasswordPrefix := "temp_password_"
  const SystemPasswordPrefix := "system_generated_"
  const DefaultCheckinTime := "12:00"

  /** What the migration reads from one JSON file of the `therapists` directory. */
  datatype LegacyTherapist = LegacyTherapist(
    email: Option<string>, passwordHash: Option<string>, active: Option<bool>,
    licenseNumber: Option<string>, name: Option<string>, organization: Option<string>,
    specializations: Option<seq<string>>)

  /** What the migration reads from one `patients/patient_*.json` file, with the file's stem. */
  datatype LegacyPatient = LegacyPatient(
    stem: string, status: Field<string>, enrolledBy: Option<string>, therapistEmail: Option<string>,
    enrollmentDate: Field<string>, notes: Field<string>, additionalNotes: Field<string>)

  /** One of the `emotional`, `medication` and `activity` objects of a check-in file. */
  datatype LegacyEntry = LegacyEntry(value: Option<int>, notes: Field<string>)

  /** What the migration reads from one `checkin_*.json` file, with the file's stem. */
  datatype LegacyCheckin = LegacyCheckin(
    stem: string, date: Option<string>, time: Field<string>,
    emotional: Field<LegacyEntry>, medication: Field<LegacyEntry>, activity: Field<LegacyEntry>)

  /** An entry of the `checkins` directory: its name, whether it is a directory, and the
      `checkin_*.json` files in it. */
  datatype PatientFolder = PatientFolder(name: string, isDir: bool, files: seq<LegacyCheckin>)

  /** The tables, the count of migrated records and the map from legacy key to new id that one
      of the migration loops has built so far, and whether a flush has failed the session's
      transaction. */
  datatype Progress = Progress(tables: Tables, count: nat, ids: map<string, int>, failed: bool)

  /** The tables and the count the check-in loops have reached. */
  datatype Tally = Tally(tables: Tables, count: nat)

  // ---------------------------------------------------------------- therapists

  /** The user and the profile `migrate_therapists` adds before it reads any file. */
  function WithDefaultTherapist(t: Tables, randomHex: string): Tables
  {
    t.(users := t.users + [User(DefaultTherapistEmail, SystemPasswordPrefix + randomHex, TherapistRole, true)],
       therapists := t.therapists + [Therapist(|t.users| + 1, DefaultLicense, DefaultTherapistName, DefaultOrganization, [])])
  }

  /** The licence number a therapist file's profile gets: its own, or `LEGACY-<count>`. */
  function TherapistLicense(p: Progress, rec: LegacyTherapist): string
  {
    rec.licenseNumber.GetOr("LEGACY-" + NatToString(p.count))
  }

  /** Whether this file is the one whose profile flush fails the session: the session still
      works, the file gets as far as its profile, and its licence number is already in the
      table, where it is a unique column. */
  predicate TherapistFileClash(p: Progress, rec: LegacyTherapist)
  {
    !p.failed && rec.email.Some? && !EmailRegistered(p.tables.users, rec.email.value) && rec.name.Some?
    && Backend.LicenseTaken(p.tables.therapists, TherapistLicense(p, rec))
  }

  /** One therapist file. After a failed flush its first query raises and it is skipped.
      Without `email` it raises before adding anything; with a registered email it is
      skipped; without `name` it raises after the user is flushed, which leaves that user
      behind without a profile; a licence number already taken fails the profile's flush. */
  function TherapistStep(p: Progress, rec: LegacyTherapist): Progress
  {
    if p.failed || rec.email.None? || EmailRegistered(p.tables.users, rec.email.value) then p
    else
      var users := p.tables.users + [TherapistUser(rec)];
      if rec.name.None? then p.(tables := p.tables.(users := users))
      else if Backend.LicenseTaken(p.tables.therapists, TherapistLicense(p, rec)) then
        p.(tables := p.tables.(users := users), failed := true)
      else
        var therapists := p.tables.therapists + [TherapistRow(p, rec)];
        Progress(p.tables.(users := users, therapists := therapists), p.count + 1,
                 p.ids[rec.email.value := |therapists|], false)
  }

  /** The therapist loop over `recs`, in order. */
  function TherapistSteps(p: Progress, recs: seq<LegacyTherapist>): Progress
  {
    if recs == [] then p else TherapistStep(TherapistSteps(p, recs[..|recs| - 1]), recs[|recs| - 1])
  }

  /** One file fails the session exactly when it is the clashing one. */
  lemma TherapistStepFails(p: Progress, rec: LegacyTherapist)
    ensures TherapistStep(p, rec).failed <==> p.failed || TherapistFileClash(p, rec)
  {
  }

  /** Some file of `recs`, reached with the session still working after the files before it,
      has a licence number already taken. */
  predicate TherapistClashSome(p: Progress, recs: seq<LegacyTherapist>)
  {
    recs != []
    && (TherapistClashSome(p, recs[..|recs| - 1])
        || TherapistFileClash(TherapistSteps(p, recs[..|recs| - 1]), recs[|recs| - 1]))
  }

  /** A clash among the first `k` files is a clash among all of them. */
  lemma {:induction false} TherapistClashSomeExtends(p: Progress, recs: seq<LegacyTherapist>, k: nat)
    requires k <= |recs| && TherapistClashSome(p, recs[..k])
    ensures TherapistClashSome(p, recs)
  {
    if k == |recs| {
      assert recs[..k] == recs;
    } else {
      assert recs[..|recs| - 1][..k] == recs[..k];
      TherapistClashSomeExtends(p, recs[..|recs| - 1], k);
    }
  }

  /** The therapist loop ends with a failed session exactly when it started with one or some
      file clashes. */
  lemma {:induction false} TherapistStepsFail(p: Progress, recs: seq<LegacyTherapist>)
    ensures TherapistSteps(p, recs).failed <==> p.failed || TherapistClashSome(p, recs)
  {
    if recs != [] {
      TherapistStepsFail(p, recs[..|recs| - 1]);
      TherapistStepFails(TherapistSteps(p, recs[..|recs| - 1]), recs[|recs| - 1]);
    }
  }

  /** Whether flushing the default therapist fails: its email and its licence number are
      unique columns. */
  predicate DefaultTherapistClash(t: Tables)
  {
    EmailRegistered(t.users, DefaultTherapistEmail) || Backend.LicenseTaken(t.therapists, DefaultLicense)
  }

  /** The state the therapist loop starts from: the default therapist added. */
  function TherapistStart(t: Tables, randomHex: string): Progress
  {
    Progress(WithDefaultTherapist(t, randomHex), 0, map[], false)
  }

  /** `migrate_therapists`: nothing at all without the directory; `None` when a flush fails.
      The default therapist's flush is outside any `try` and raises at once; a file's fails
      the session, so the commit after the loop raises. Either way the run ends there with
      nothing of this step committed. */
  function TherapistMigration(t: Tables, dir: Option<seq<LegacyTherapist>>, randomHex: string): Option<Progress>
  {
    if dir.None? then Some(Progress(t, 0, map[], false))
    else if DefaultTherapistClash(t) then None
    else
      var r := TherapistSteps(TherapistStart(t, randomHex), dir.value);
      if r.failed then None else Some(r)
  }

  /** `b` is `a` with rows appended. */
  predicate Extends<T(==)>(a: seq<T>, b: seq<T>)
  {
    |a| <= |b| && b[..|a|] == a
  }

  lemma ExtendsAppend<T>(a: seq<T>, b: seq<T>, more: seq<T>)
    requires Extends(a, b)
    ensures Extends(a, b + more)
  {
    assert (b + more)[..|a|] == b[..|a|];
  }

  /** Every mapped email leads to a profile above `floor` whose user has that email. */
  predicate TherapistIdsSound(users: seq<User>, therapists: seq<Therapist>, ids: map<string, int>, floor: nat)
  {
    forall e :: e in ids ==>
      floor < ids[e] <= |therapists|
      && 1 <= therapists[ids[e] - 1].userId <= |users|
      && users[therapists[ids[e] - 1].userId - 1].email == e
  }

  /** Appending a user and its profile keeps the map sound, with the new email mapped. */
  lemma TherapistIdsSoundAfter(users: seq<User>, therapists: seq<Therapist>, users': seq<User>, therapists': seq<Therapist>, ids: map<string, int>, floor: nat, email: string)
    requires TherapistIdsSound(users, therapists, ids, floor) && floor <= |therapists|
    requires Extends(users, users') && Extends(therapists, therapists')
    requires |therapists'| == |therapists| + 1 && |users'| >= 1
    requires therapists'[|therapists|].userId == |users'| && users'[|users'| - 1].email == email
    ensures TherapistIdsSound(users', therapists', ids[email := |therapists'|], floor)
  {
    var m := ids[email := |therapists'|];
    forall e | e in m
      ensures floor < m[e] <= |therapists'|
              && 1 <= therapists'[m[e] - 1].userId <= |users'|
              && users'[therapists'[m[e] - 1].userId - 1].email == e
    {
      if e != email {
        var i := ids[e] - 1;
        assert therapists'[i] == therapists[i] by {
          assert therapists'[..|therapists|][i] == therapists'[i];
        }
        var k := therapists[i].userId - 1;
        assert users'[k] == users[k] by {
          assert users'[..|users|][k] == users'[k];
        }
      }
    }
  }

  /** What the therapist loop keeps, measured from the tables `base` it started on: rows are
      only appended, the count is the number of profiles added, and every mapped email leads to
      a profile added by the loop whose user has that email. */
  predicate TherapistLoopInv(base: Tables, p: Progress)
  {
    Extends(base.users, p.tables.users) && Extends(base.therapists, p.tables.therapists)
    && |p.tables.therapists| == |base.therapists| + p.count
    && p.tables == base.(users := p.tables.users, therapists := p.tables.therapists)
    && TherapistIdsSound(p.tables.users, p.tables.therapists, p.ids, |base.therapists|)
  }

  lemma TherapistStepKeeps(base: Tables, p: Progress, rec: LegacyTherapist)
    requires TherapistLoopInv(base, p)
    ensures TherapistLoopInv(base, TherapistStep(p, rec))
    ensures TherapistStep(p, rec).count <= p.count + 1
  {
    var r := TherapistStep(p, rec);
    var t := p.tables;
    TherapistStepShape(p, rec);
    if r == p {
    } else if r.tables.therapists == t.therapists {
      TherapistUserAppendKeeps(base, p, TherapistUser(rec), r.failed);
    } else {
      TherapistRowAppendKeeps(base, p, TherapistUser(rec), TherapistRow(p, rec));
    }
  }

  /** The account a therapist file creates. */
  function TherapistUser(rec: LegacyTherapist): User
    requires rec.email.Some?
  {
    User(rec.email.value, rec.passwordHash.GetOr(TherapistTempPassword), TherapistRole, rec.active.GetOr(true))
  }

  /** The profile a therapist file creates, for the user appended after `p`'s users. */
  function TherapistRow(p: Progress, rec: LegacyTherapist): Therapist
    requires rec.name.Some?
  {
    Therapist(|p.tables.users| + 1, TherapistLicense(p, rec), rec.name.value,
              rec.organization.GetOr(""), rec.specializations.GetOr([]))
  }

  /** The three outcomes of a therapist file: nothing, its user alone, or its user and profile. */
  lemma TherapistStepShape(p: Progress, rec: LegacyTherapist)
    ensures var r := TherapistStep(p, rec);
            var t := p.tables;
            r == p
            || (rec.email.Some? && r == p.(tables := t.(users := t.users + [TherapistUser(rec)]), failed := r.failed))
            || (rec.email.Some? && rec.name.Some?
                && r == Progress(t.(users := t.users + [TherapistUser(rec)], therapists := t.therapists + [TherapistRow(p, rec)]),
                                 p.count + 1, p.ids[rec.email.value := |t.therapists| + 1], false))
  {
  }

  /** A file that stops after adding its user keeps the invariant. */
  lemma TherapistUserAppendKeeps(base: Tables, p: Progress, user: User, failed: bool)
    requires TherapistLoopInv(base, p)
    ensures TherapistLoopInv(base, p.(tables := p.tables.(users := p.tables.users + [user]), failed := failed))
  {
    var t := p.tables;
    ExtendsAppend(base.users, t.users, [user]);
    TherapistIdsSoundExtend(t.users, t.therapists, p.ids, |base.therapists|, user);
  }

  /** Appending a user keeps every mapped email sound. */
  lemma TherapistIdsSoundExtend(users: seq<User>, therapists: seq<Therapist>, ids: map<string, int>, floor: nat,
                                user: User)
    requires TherapistIdsSound(users, therapists, ids, floor)
    ensures TherapistIdsSound(users + [user], therapists, ids, floor)
  {
    var users' := users + [user];
    forall e | e in ids
      ensures users'[therapists[ids[e] - 1].userId - 1] == users[therapists[ids[e] - 1].userId - 1]
    {
    }
  }

  /** A migrated file, which adds a user and its profile, keeps the invariant. */
  lemma TherapistRowAppendKeeps(base: Tables, p: Progress, user: User, row: Therapist)
    requires TherapistLoopInv(base, p)
    requires row.userId == |p.tables.users| + 1
    ensures var t := p.tables;
            TherapistLoopInv(base, Progress(t.(users := t.users + [user], therapists := t.therapists + [row]),
                                             p.count + 1, p.ids[user.email := |t.therapists| + 1], false))
  {
    var t := p.tables;
    var users, therapists := t.users + [user], t.therapists + [row];
    ExtendsAppend(base.users, t.users, [user]);
    ExtendsAppend(base.therapists, t.therapists, [row]);
    assert users[..|t.users|] == t.users && therapists[..|t.therapists|] == t.therapists;
    TherapistIdsSoundAfter(t.users, t.therapists, users, therapists, p.ids, |base.therapists|, user.email);
  }

  lemma {:induction false} TherapistStepsKeep(base: Tables, p: Progress, recs: seq<LegacyTherapist>)
    requires TherapistLoopInv(base, p)
    ensures TherapistLoopInv(base, TherapistSteps(p, recs))
    ensures TherapistSteps(p, recs).count <= p.count + |recs|
  {
    if recs != [] {
      TherapistStepsKeep(base, p, recs[..|recs| - 1]);
      TherapistStepKeeps(base, TherapistSteps(p, recs[..|recs| - 1]), recs[|recs| - 1]);
    }
  }

  /** The therapist migration fails exactly when the directory exists and either the default
      therapist's email or licence is already taken, or some file, reached with the session
      still working, has a licence number already taken. Otherwise it appends the default
      therapist and then one profile per counted file; the returned map sends each migrated
      email to the profile of the user with that email, and no row that existed before
      changes. */
  lemma TherapistMigrationSpec(t: Tables, dir: Option<seq<LegacyTherapist>>, randomHex: string)
    ensures TherapistMigration(t, dir, randomHex).None? <==>
              dir.Some? && (DefaultTherapistClash(t) || TherapistClashSome(TherapistStart(t, randomHex), dir.value))
    ensures dir.None? ==> TherapistMigration(t, dir, randomHex) == Some(Progress(t, 0, map[], false))
    ensures var m := TherapistMigration(t, dir, randomHex);
            dir.Some? && m.Some? ==> TherapistRunShape(t, dir.value, m.value)
  {
    if dir.Some? && !DefaultTherapistClash(t) {
      TherapistStepsFail(TherapistStart(t, randomHex), dir.value);
      TherapistStepsShape(t, dir.value, randomHex);
    }
  }

  /** What a therapist run over `files` leaves in `r`: the default therapist appended, then one
      profile per counted file; users only appended; nothing else changed; and each migrated
      email mapped to the profile of the user with that email. */
  predicate TherapistRunShape(t: Tables, files: seq<LegacyTherapist>, r: Progress)
  {
    r.count <= |files|
    && |r.tables.therapists| == |t.therapists| + 1 + r.count
    && r.tables.therapists[..|t.therapists| + 1]
         == t.therapists + [Therapist(|t.users| + 1, DefaultLicense, DefaultTherapistName, DefaultOrganization, [])]
    && |t.users| + 1 <= |r.tables.users| && r.tables.users[..|t.users|] == t.users
    && r.tables == t.(users := r.tables.users, therapists := r.tables.therapists)
    && forall e :: e in r.ids ==>
         |t.therapists| + 1 < r.ids[e] <= |r.tables.therapists|
         && 1 <= r.tables.therapists[r.ids[e] - 1].userId <= |r.tables.users|
         && r.tables.users[r.tables.therapists[r.ids[e] - 1].userId - 1].email == e
  }

  lemma TherapistStepsShape(t: Tables, files: seq<LegacyTherapist>, randomHex: string)
    ensures TherapistRunShape(t, files, TherapistSteps(TherapistStart(t, randomHex), files))
  {
    var start := TherapistStart(t, randomHex);
    var base := start.tables;
    TherapistStepsKeep(base, start, files);
    var r := TherapistSteps(start, files);
    assert r.tables.therapists[..|t.therapists| + 1] == r.tables.therapists[..|base.therapists|];
    assert r.tables.users[..|t.users|] == r.tables.users[..|base.users|][..|t.users|];
  }

  /** A first file with a new email and a name, whose licence number is already registered
      before the run, fails the whole therapist step. */
  lemma RegisteredLicenceAborts(t: Tables, rest: seq<LegacyTherapist>, rec: LegacyTherapist, randomHex: string)
    requires rec.email.Some? && !EmailRegistered(t.users, rec.email.value) && rec.email.value != DefaultTherapistEmail
    requires rec.name.Some? && rec.licenseNumber.Some? && Backend.LicenseTaken(t.therapists, rec.licenseNumber.value)
    ensures TherapistMigration(t, Some([rec] + rest), randomHex).None?
  {
    var dir := [rec] + rest;
    var start := TherapistStart(t, randomHex);
    if !DefaultTherapistClash(t) {
      var users := start.tables.users;
      assert users == t.users + [users[|t.users|]];
      assert !EmailRegistered(users, rec.email.value);
      var j :| 0 <= j < |t.therapists| && t.therapists[j].licenseNumber == rec.licenseNumber.value;
      assert start.tables.therapists[j] == t.therapists[j];
      assert dir[..1][..0] == [] && dir[..1][0] == rec;
      assert TherapistFileClash(TherapistSteps(start, dir[..1][..0]), dir[..1][0]);
      TherapistClashSomeExtends(start, dir, 1);
      TherapistMigrationSpec(t, Some(dir), randomHex);
    }
  }

  /** What a run commits: the seeded tables when the therapist step fails, the therapists'
      tables when the client step fails, and otherwise the tables after the check-ins. */
  function Committed(t: Tables, therapists: Option<seq<LegacyTherapist>>, patients: Option<seq<LegacyPatient>>,
                     checkins: Option<seq<PatientFolder>>, randomHex: string, today: Date, now: int): Tables
    requires ValidDate(today)
  {
    var th := TherapistMigration(t, therapists, randomHex);
    if th.None? then t
    else
      var cl := ClientMigration(th.value.tables, patients, th.value.ids, today);
      if cl.None? then th.value.tables
      else CheckinMigration(cl.value.tables, checkins, cl.value.ids, now).tables
  }

  /** The migration runs once: after a run that got past the therapists, whatever the client
      and check-in steps did and whatever categories the next run seeds, the next run that
      finds a therapists directory fails on the default therapist. */
  lemma MigrationRunsOnce(t: Tables, therapists: Option<seq<LegacyTherapist>>, patients: Option<seq<LegacyPatient>>,
                          checkins: Option<seq<PatientFolder>>, randomHex: string, today: Date, now: int,
                          categories: seq<TrackingCategory>, again: seq<LegacyTherapist>, randomHex2: string)
    requires ValidDate(today)
    requires therapists.Some? && TherapistMigration(t, therapists, randomHex).Some?
    ensures var after := Committed(t, therapists, patients, checkins, randomHex, today, now);
            TherapistMigration(after.(categories := categories), Some(again), randomHex2).None?
  {
    var th := TherapistMigration(t, therapists, randomHex).value;
    var cl := ClientMigration(th.tables, patients, th.ids, today);
    TherapistMigrationTakesDefaultLicense(t, therapists, randomHex);
    var after := Committed(t, therapists, patients, checkins, randomHex, today, now);
    if cl.Some? {
      ClientMigrationKeepsTherapists(th.tables, patients, th.ids, today);
      CheckinMigrationKeepsTherapists(cl.value.tables, checkins, cl.value.ids, now);
    }
    assert after.(categories := categories).therapists == th.tables.therapists;
  }

  /** After a run with a directory, the default licence is taken. */
  lemma TherapistMigrationTakesDefaultLicense(t: Tables, dir: Option<seq<LegacyTherapist>>, randomHex: string)
    requires dir.Some? && TherapistMigration(t, dir, randomHex).Some?
    ensures Backend.LicenseTaken(TherapistMigration(t, dir, randomHex).value.tables.therapists, DefaultLicense)
  {
    TherapistMigrationSpec(t, dir, randomHex);
    var th := TherapistMigration(t, dir, randomHex).value;
    var i := |t.therapists|;
    assert th.tables.therapists[i] == th.tables.therapists[..i + 1][i];
  }

  lemma ClientMigrationKeepsTherapists(t: Tables, dir: Option<seq<LegacyPatient>>, therapistMap: map<string, int>,
                                       today: Date)
    requires ValidDate(today)
    requires ClientMigration(t, dir, therapistMap, today).Some?
    ensures ClientMigration(t, dir, therapistMap, today).value.tables.therapists == t.therapists
  {
    ClientMigrationSpec(t, dir, therapistMap, today);
  }

  lemma CheckinMigrationKeepsTherapists(t: Tables, dir: Option<seq<PatientFolder>>, clientMap: map<string, int>,
                                        now: int)
    ensures CheckinMigration(t, dir, clientMap, now).tables.therapists == t.therapists
  {
    CheckinMigrationSpec(t, dir, clientMap, now);
  }

  /** A file without `name` whose email is new leaves a therapist account without a profile,
      and the file is not counted. */
  lemma NamelessTherapistLeavesAccount(p: Progress, rec: LegacyTherapist)
    requires !p.failed && rec.email.Some? && !EmailRegistered(p.tables.users, rec.email.value) && rec.name.None?
    ensures var r := TherapistStep(p, rec);
            r.count == p.count && r.ids == p.ids && r.tables.therapists == p.tables.therapists && !r.failed
            && EmailRegistered(r.tables.users, rec.email.value)
  {
    var r := TherapistStep(p, rec);
    assert r.tables.users[|p.tables.users|].email == rec.email.value;
  }

  /** The loop body of `migrate_therapists`, on the database and the session's state. */
  method MigrateTherapistFile(db: Database, rec: LegacyTherapist, count: nat, therapistMap: map<string, int>,
                              failed: bool)
    returns (newCount: nat, newMap: map<string, int>, nowFailed: bool)
    modifies db
    ensures Progress(db.Snapshot(), newCount, newMap, nowFailed)
              == TherapistStep(Progress(old(db.Snapshot()), count, therapistMap, failed), rec)
  {
    newCount, newMap, nowFailed := count, therapistMap, failed;
    if failed || rec.email.None? {
      return;
    }
    var email := rec.email.value;
    if EmailRegistered(db.users, email) {
      return;
    }
    db.users := db.users
      + [User(email, rec.passwordHash.GetOr(TherapistTempPassword), TherapistRole, rec.active.GetOr(true))];
    if rec.name.None? {
      return;
    }
    var license := rec.licenseNumber.GetOr("LEGACY-" + NatToString(count));
    if Backend.LicenseTaken(db.therapists, license) {
      nowFailed := true;
      return;
    }
    db.therapists := db.therapists
      + [Therapist(|db.users|, license, rec.name.value, rec.organization.GetOr(""), rec.specializations.GetOr([]))];
    newMap := therapistMap[email := |db.therapists|];
    newCount := count + 1;
  }

  /** `migrate_therapists`: answers the count and the email-to-profile map it saves for the
      client migration, or `ok == false`, with the database as it was, when a flush fails. */
  method MigrateTherapists(db: Database, dir: Option<seq<LegacyTherapist>>, randomHex: string)
    returns (ok: bool, count: nat, therapistMap: map<string, int>)
    modifies db
    ensures ok <==> TherapistMigration(old(db.Snapshot()), dir, randomHex).Some?
    ensures ok ==> Some(Progress(db.Snapshot(), count, therapistMap, false))
                     == TherapistMigration(old(db.Snapshot()), dir, randomHex)
    ensures !ok ==> db.Snapshot() == old(db.Snapshot())
  {
    if dir.None? {
      return true, 0, map[];
    }
    if EmailRegistered(db.users, DefaultTherapistEmail) || Backend.LicenseTaken(db.therapists, DefaultLicense) {
      return false, 0, map[];
    }
    var before := db.Snapshot();
    db.users := db.users + [User(DefaultTherapistEmail, SystemPasswordPrefix + randomHex, TherapistRole, true)];
    db.therapists := db.therapists
      + [Therapist(|db.users|, DefaultLicense, DefaultTherapistName, DefaultOrganization, [])];
    ghost var start := TherapistStart(before, randomHex);
    assert db.Snapshot() == start.tables;
    var files := dir.value;
    var failed := false;
    count, therapistMap := 0, map[];
    var i := 0;
    while i < |files|
      invariant 0 <= i <= |files|
      invariant Progress(db.Snapshot(), count, therapistMap, failed) == TherapistSteps(start, files[..i])
    {
      assert files[..i + 1][..i] == files[..i];
      count, therapistMap, failed := MigrateTherapistFile(db, files[i], count, therapistMap, failed);
      i := i + 1;
    }
    assert files[..i] == files;
    if failed {
      db.Restore(before);
      return false, 0, map[];
    }
    ok := true;
  }

  // ---------------------------------------------------------------- clients

  /** The legacy patient id: the file stem with every `patient_` removed. */
  function PatientId(stem: string): string
  {
    ReplaceAll(stem, "patient_", "")
  }

  /** The stem of `patient_<id>.json` gives back `<id>` when the id itself holds no `patient_`. */
  lemma PatientIdOfFileName(id: string)
    requires !Contains(id, "patient_")
    ensures PatientId("patient_" + id) == id
  {
    RemovePrefix("patient_", id);
  }

  /** The account email made up for a legacy patient. */
  function LegacyEmail(patientId: string): string
  {
    "patient." + patientId + "@legacy.local"
  }

  /** Two patients get the same account email only if they have the same id, so the
      already-migrated check is a check on the id. */
  lemma LegacyEmailInjective(a: string, b: string)
    requires LegacyEmail(a) == LegacyEmail(b)
    ensures a == b
  {
    assert |a| == |b|;
    assert a == LegacyEmail(a)[8..8 + |a|];
    assert b == LegacyEmail(b)[8..8 + |b|];
  }

  /** `f"C{patient_id.zfill(8)}"`. */
  function LegacySerial(patientId: string): string
  {
    "C" + ZFill(patientId, 8)
  }

  /** An id of at most eight digits becomes a serial of the same form as the generated ones,
      `C` and eight digits, with the id's value. */
  lemma LegacySerialOfShortId(patientId: string)
    requires AllDigits(patientId) && |patientId| <= 8
    ensures Backend.IsClientSerial(LegacySerial(patientId))
    ensures DigitsValue(LegacySerial(patientId)[1..]) == DigitsValue(patientId)
  {
    ZFillDigits(patientId, 8);
    LeadingZeros(8 - |patientId|, patientId);
    var serial := LegacySerial(patientId);
    assert serial == "C" + ZFill(patientId, 8);
    assert serial[1..] == ZFill(patientId, 8);
  }

  /** An id longer than eight characters is kept whole, so it does not give a serial of the
      generated form. */
  lemma LegacySerialOfLongId(patientId: string)
    requires |patientId| > 8
    ensures LegacySerial(patientId) == "C" + patientId
    ensures !Backend.IsClientSerial(LegacySerial(patientId))
  {
  }

  /** Whether a migrated patient's account is active: an absent `status` counts as active, a
      `null` one does not. */
  function ClientActive(status: Field<string>): (active: bool)
    ensures active <==> status.Absent? || status == Given("active")
    ensures status.Null? ==> !active
  {
    status.Get("active") == Some("active")
  }

  /** `Therapist.query.filter_by(license_number='SYSTEM-DEFAULT').first()`: the lowest id. */
  function DefaultTherapistId(therapists: seq<Therapist>): (r: Option<int>)
    ensures r.Some? ==> 1 <= r.value <= |therapists| && therapists[r.value - 1].licenseNumber == DefaultLicense
    ensures r.Some? ==> forall j :: 0 <= j < r.value - 1 ==> therapists[j].licenseNumber != DefaultLicense
    ensures r.None? ==> forall j :: 0 <= j < |therapists| ==> therapists[j].licenseNumber != DefaultLicense
  {
    if therapists == [] then None
    else
      var earlier := DefaultTherapistId(therapists[..|therapists| - 1]);
      if earlier.Some? then earlier
      else if therapists[|therapists| - 1].licenseNumber == DefaultLicense then Some(|therapists|)
      else None
  }

  /** The therapist of a migrated client: the one `enrolledBy` names, else the one
      `therapistEmail` names, else the default therapist, if any. */
  function ResolveTherapist(rec: LegacyPatient, therapistMap: map<string, int>, defaultId: Option<int>): (r: Option<int>)
    ensures rec.enrolledBy.Some? && rec.enrolledBy.value in therapistMap ==> r == Some(therapistMap[rec.enrolledBy.value])
    ensures (rec.enrolledBy.None? || rec.enrolledBy.value !in therapistMap)
            && rec.therapistEmail.Some? && rec.therapistEmail.value in therapistMap ==>
              r == Some(therapistMap[rec.therapistEmail.value])
    ensures r.Some? ==> r.value in therapistMap.Values || r == defaultId
  {
    if rec.enrolledBy.Some? && rec.enrolledBy.value in therapistMap then Some(therapistMap[rec.enrolledBy.value])
    else if rec.therapistEmail.Some? && rec.therapistEmail.value in therapistMap then
      Some(therapistMap[rec.therapistEmail.value])
    else defaultId
  }

  /** The client falls back to the default therapist exactly when neither email is a migrated
      therapist's. */
  lemma FallbackToDefault(rec: LegacyPatient, therapistMap: map<string, int>, defaultId: Option<int>)
    ensures ((rec.enrolledBy.None? || rec.enrolledBy.value !in therapistMap)
             && (rec.therapistEmail.None? || rec.therapistEmail.value !in therapistMap))
            ==> ResolveTherapist(rec, therapistMap, defaultId) == defaultId
  {
  }

  /** The text of the enrollment note: `notes` when the key is there, even as `null`, else
      `additional_notes`; no note when that text is `null` or empty. */
  function MigrationNote(rec: LegacyPatient): (r: Option<string>)
    ensures r.Some? <==> (rec.notes.Given? && rec.notes.value != [])
                         || (rec.notes.Absent? && rec.additionalNotes.Given? && rec.additionalNotes.value != [])
    ensures r.Some? ==> exists content :: r.value == MigrationNotePrefix + content
                                           && (rec.notes == Given(content)
                                               || (rec.notes.Absent? && rec.additionalNotes == Given(content)))
  {
    if !rec.notes.Absent? || !rec.additionalNotes.Absent? then
      var content := rec.notes.Get("") ;
      var text := if rec.notes.Absent? then rec.additionalNotes.Get("") else content;
      if text.Some? && text.value != [] then Some(MigrationNotePrefix + text.value) else None
    else None
  }

  /** An empty or `null` `notes` hides a non-empty `additional_notes`. */
  lemma EmptyNotesHideAdditionalNotes(rec: LegacyPatient)
    requires rec.notes == Given("") || rec.notes.Null?
    ensures MigrationNote(rec) == None
  {
  }

  /** The note rows for a new client: the migration note, if any. */
  function NoteRows(clientId: int, therapistId: Option<int>, note: Option<string>): seq<TherapistNote>
  {
    if note.Some? then [TherapistNote(clientId, therapistId, MigrationNoteType, note.value, false, false)] else []
  }

  /** The rows a migrated patient file adds: its user, its client, plans and notes. */
  function AppendClient(p: Progress, user: User, client: Client, plans: seq<TrackingPlan>, notes: seq<TherapistNote>,
                        patientId: string): Progress
  {
    Progress(p.tables.(users := p.tables.users + [user], clients := p.tables.clients + [client],
                       plans := p.tables.plans + plans, notes := p.tables.notes + notes),
             p.count + 1, p.ids[patientId := |p.tables.clients| + 1], false)
  }

  /** A patient file, reached with the session still working, whose account email is new and
      whose enrollment date parses, but whose serial is already a client's: the client flush
      breaks the unique serial. */
  predicate ClientFileClash(p: Progress, rec: LegacyPatient, today: Date)
    requires ValidDate(today)
  {
    !p.failed && !EmailRegistered(p.tables.users, LegacyEmail(PatientId(rec.stem)))
    && Backend.CheckinDate(rec.enrollmentDate, today).Some?
    && LegacySerial(PatientId(rec.stem)) in UsedSerials(p.tables.clients)
  }

  /** One patient file. Once the session has failed every file is skipped. A registered account
      email skips it; an enrollment date that is `null` or does not parse raises after the user
      is flushed, which leaves that user behind without a client; a serial already in use fails
      the session at the client flush. */
  function ClientStep(p: Progress, rec: LegacyPatient, therapistMap: map<string, int>, defaultId: Option<int>,
                      today: Date): Progress
    requires ValidDate(today)
  {
    var patientId := PatientId(rec.stem);
    var email := LegacyEmail(patientId);
    if p.failed || EmailRegistered(p.tables.users, email) then p
    else
      var user := User(email, ClientTempPasswordPrefix + patientId, ClientRole, ClientActive(rec.status));
      var start := Backend.CheckinDate(rec.enrollmentDate, today);
      if start.None? then p.(tables := p.tables.(users := p.tables.users + [user]))
      else if LegacySerial(patientId) in UsedSerials(p.tables.clients) then
        p.(tables := p.tables.(users := p.tables.users + [user]), failed := true)
      else NewClient(p, rec, user, start.value, ResolveTherapist(rec, therapistMap, defaultId))
  }

  lemma ClientStepFails(p: Progress, rec: LegacyPatient, therapistMap: map<string, int>, defaultId: Option<int>,
                        today: Date)
    requires ValidDate(today)
    ensures ClientStep(p, rec, therapistMap, defaultId, today).failed <==> p.failed || ClientFileClash(p, rec, today)
  {
  }

  /** The rows of a patient file whose enrollment date parsed: the user, a client with the
      serial made from the patient id, the default plans and the migration note. */
  function NewClient(p: Progress, rec: LegacyPatient, user: User, start: int, therapistId: Option<int>): Progress
  {
    var patientId := PatientId(rec.stem);
    var clientId := |p.tables.clients| + 1;
    AppendClient(p, user, Client(|p.tables.users| + 1, LegacySerial(patientId), therapistId, start, true),
                 PlansFor(clientId, DefaultCategoryIds(p.tables.categories)),
                 NoteRows(clientId, therapistId, MigrationNote(rec)), patientId)
  }

  function ClientSteps(p: Progress, recs: seq<LegacyPatient>, therapistMap: map<string, int>, defaultId: Option<int>,
                       today: Date): Progress
    requires ValidDate(today)
  {
    if recs == [] then p
    else ClientStep(ClientSteps(p, recs[..|recs| - 1], therapistMap, defaultId, today), recs[|recs| - 1],
                    therapistMap, defaultId, today)
  }

  /** Some file of `recs`, reached with the session still working after the files before it,
      would give its client a serial already in use. */
  predicate ClientClashSome(p: Progress, recs: seq<LegacyPatient>, therapistMap: map<string, int>,
                            defaultId: Option<int>, today: Date)
    requires ValidDate(today)
  {
    recs != []
    && (ClientClashSome(p, recs[..|recs| - 1], therapistMap, defaultId, today)
        || ClientFileClash(ClientSteps(p, recs[..|recs| - 1], therapistMap, defaultId, today), recs[|recs| - 1], today))
  }

  /** A clash among the first `k` files is a clash among all of them. */
  lemma {:induction false} ClientClashSomeExtends(p: Progress, recs: seq<LegacyPatient>, therapistMap: map<string, int>,
                                                  defaultId: Option<int>, today: Date, k: nat)
    requires ValidDate(today) && k <= |recs| && ClientClashSome(p, recs[..k], therapistMap, defaultId, today)
    ensures ClientClashSome(p, recs, therapistMap, defaultId, today)
  {
    if k == |recs| {
      assert recs[..k] == recs;
    } else {
      assert recs[..|recs| - 1][..k] == recs[..k];
      ClientClashSomeExtends(p, recs[..|recs| - 1], therapistMap, defaultId, today, k);
    }
  }

  /** The client loop ends with a failed session exactly when it started with one or some file
      clashes. */
  lemma {:induction false} ClientStepsFail(p: Progress, recs: seq<LegacyPatient>, therapistMap: map<string, int>,
                                           defaultId: Option<int>, today: Date)
    requires ValidDate(today)
    ensures ClientSteps(p, recs, therapistMap, defaultId, today).failed <==>
              p.failed || ClientClashSome(p, recs, therapistMap, defaultId, today)
  {
    if recs != [] {
      ClientStepsFail(p, recs[..|recs| - 1], therapistMap, defaultId, today);
      ClientStepFails(ClientSteps(p, recs[..|recs| - 1], therapistMap, defaultId, today), recs[|recs| - 1],
                      therapistMap, defaultId, today);
    }
  }

  function ClientStart(t: Tables): Progress
  {
    Progress(t, 0, map[], false)
  }

  /** `migrate_clients`, given the map the therapist migration saved; `None` when a flush failed
      the session, so that the commit raises. */
  function ClientMigration(t: Tables, dir: Option<seq<LegacyPatient>>, therapistMap: map<string, int>,
                           today: Date): Option<Progress>
    requires ValidDate(today)
  {
    if dir.None? then Some(ClientStart(t))
    else
      var r := ClientSteps(ClientStart(t), dir.value, therapistMap, DefaultTherapistId(t.therapists), today);
      if r.failed then None else Some(r)
  }

  /** Every mapped patient id leads to a client above `floor` whose serial and account email
      are made from that id. */
  predicate ClientIdsSound(users: seq<User>, clients: seq<Client>, ids: map<string, int>, floor: nat)
  {
    forall id :: id in ids ==>
      floor < ids[id] <= |clients|
      && clients[ids[id] - 1].serial == LegacySerial(id)
      && 1 <= clients[ids[id] - 1].userId <= |users|
      && users[clients[ids[id] - 1].userId - 1].email == LegacyEmail(id)
  }

  /** Appending a user and its client keeps the map sound, with the new id mapped. */
  lemma ClientIdsSoundAfter(users: seq<User>, clients: seq<Client>, ids: map<string, int>, floor: nat,
                            user: User, client: Client, patientId: string)
    requires ClientIdsSound(users, clients, ids, floor) && floor <= |clients|
    requires client.userId == |users| + 1 && client.serial == LegacySerial(patientId)
    requires user.email == LegacyEmail(patientId)
    ensures ClientIdsSound(users + [user], clients + [client], ids[patientId := |clients| + 1], floor)
  {
    ClientIdsSoundExtend(users, clients, ids, floor, user, client);
    var users', clients' := users + [user], clients + [client];
    assert clients'[|clients|] == client && users'[|users|] == user;
  }

  /** Appending rows keeps every mapped id sound. */
  lemma ClientIdsSoundExtend(users: seq<User>, clients: seq<Client>, ids: map<string, int>, floor: nat,
                             user: User, client: Client)
    requires ClientIdsSound(users, clients, ids, floor)
    ensures ClientIdsSound(users + [user], clients + [client], ids, floor)
  {
    var users', clients' := users + [user], clients + [client];
    forall id | id in ids
      ensures floor < ids[id] <= |clients'|
              && clients'[ids[id] - 1].serial == LegacySerial(id)
              && 1 <= clients'[ids[id] - 1].userId <= |users'|
              && users'[clients'[ids[id] - 1].userId - 1].email == LegacyEmail(id)
    {
      var i := ids[id] - 1;
      assert clients'[i] == clients[i];
      var k := clients[i].userId - 1;
      assert users'[k] == users[k];
    }
  }

  /** What the client loop keeps: rows are only appended, the count is the number of clients
      added, and every mapped patient id leads to a client added by the loop whose serial and
      account email are made from that id. */
  predicate ClientLoopInv(base: Tables, p: Progress)
  {
    ClientRowsAppended(base, p.tables)
    && |p.tables.clients| == |base.clients| + p.count
    && ClientIdsSound(p.tables.users, p.tables.clients, p.ids, |base.clients|)
  }

  /** `t` is `base` with users, clients, plans and notes appended and nothing else changed. */
  predicate ClientRowsAppended(base: Tables, t: Tables)
  {
    Extends(base.users, t.users) && Extends(base.clients, t.clients)
    && Extends(base.plans, t.plans) && Extends(base.notes, t.notes)
    && t == base.(users := t.users, clients := t.clients, plans := t.plans, notes := t.notes)
  }

  lemma RowsAppendedAfter(base: Tables, t: Tables, users: seq<User>, clients: seq<Client>,
                          plans: seq<TrackingPlan>, notes: seq<TherapistNote>)
    requires ClientRowsAppended(base, t)
    ensures ClientRowsAppended(base, t.(users := t.users + users, clients := t.clients + clients,
                                        plans := t.plans + plans, notes := t.notes + notes))
  {
    ExtendsAppend(base.users, t.users, users);
    ExtendsAppend(base.clients, t.clients, clients);
    ExtendsAppend(base.plans, t.plans, plans);
    ExtendsAppend(base.notes, t.notes, notes);
  }

  /** A file that stops after adding its user keeps the invariant. */
  lemma UserAppendKeeps(base: Tables, p: Progress, user: User)
    requires ClientLoopInv(base, p)
    ensures ClientLoopInv(base, p.(tables := p.tables.(users := p.tables.users + [user])))
  {
    RowsAppendedAfter(base, p.tables, [user], [], [], []);
    assert p.tables.clients + [] == p.tables.clients;
    assert p.tables.plans + [] == p.tables.plans && p.tables.notes + [] == p.tables.notes;
    var users := p.tables.users + [user];
    forall id | id in p.ids
      ensures users[p.tables.clients[p.ids[id] - 1].userId - 1] == p.tables.users[p.tables.clients[p.ids[id] - 1].userId - 1]
    {
    }
  }

  /** A migrated file, which adds a user, its client, plans and notes, keeps the invariant. */
  lemma ClientAppendKeeps(base: Tables, p: Progress, user: User, client: Client, plans: seq<TrackingPlan>,
                          notes: seq<TherapistNote>, patientId: string)
    requires ClientLoopInv(base, p)
    requires client.userId == |p.tables.users| + 1 && client.serial == LegacySerial(patientId)
    requires user.email == LegacyEmail(patientId)
    ensures ClientLoopInv(base, AppendClient(p, user, client, plans, notes, patientId))
  {
    var t := p.tables;
    RowsAppendedAfter(base, t, [user], [client], plans, notes);
    ClientIdsSoundAfter(t.users, t.clients, p.ids, |base.clients|, user, client, patientId);
    var q := AppendClient(p, user, client, plans, notes, patientId);
    assert q.tables == t.(users := t.users + [user], clients := t.clients + [client], plans := t.plans + plans,
                          notes := t.notes + notes);
    assert ClientRowsAppended(base, q.tables);
    assert |q.tables.clients| == |base.clients| + q.count;
    assert ClientIdsSound(q.tables.users, q.tables.clients, q.ids, |base.clients|) by {
      assert q.tables.users == t.users + [user] && q.tables.clients == t.clients + [client];
      assert q.ids == p.ids[patientId := |t.clients| + 1];
    }
  }

  lemma {:induction false} ClientStepKeeps(base: Tables, p: Progress, rec: LegacyPatient,
                                           therapistMap: map<string, int>, defaultId: Option<int>, today: Date)
    requires ValidDate(today) && ClientLoopInv(base, p)
    ensures ClientLoopInv(base, ClientStep(p, rec, therapistMap, defaultId, today))
    ensures ClientStep(p, rec, therapistMap, defaultId, today).count <= p.count + 1
  {
    var patientId := PatientId(rec.stem);
    var email := LegacyEmail(patientId);
    if !p.failed && !EmailRegistered(p.tables.users, email) {
      var user := User(email, ClientTempPasswordPrefix + patientId, ClientRole, ClientActive(rec.status));
      var start := Backend.CheckinDate(rec.enrollmentDate, today);
      var q := p.(tables := p.tables.(users := p.tables.users + [user]));
      if start.None? {
        UserAppendKeeps(base, p, user);
        assert ClientStep(p, rec, therapistMap, defaultId, today) == q;
      } else if LegacySerial(patientId) in UsedSerials(p.tables.clients) {
        UserAppendKeeps(base, p, user);
        assert ClientStep(p, rec, therapistMap, defaultId, today) == q.(failed := true);
      } else {
        NewClientKeeps(base, p, rec, user, start.value, ResolveTherapist(rec, therapistMap, defaultId));
        assert ClientStep(p, rec, therapistMap, defaultId, today)
               == NewClient(p, rec, user, start.value, ResolveTherapist(rec, therapistMap, defaultId));
      }
    }
  }

  lemma NewClientKeeps(base: Tables, p: Progress, rec: LegacyPatient, user: User, start: int, therapistId: Option<int>)
    requires ClientLoopInv(base, p) && user.email == LegacyEmail(PatientId(rec.stem))
    ensures ClientLoopInv(base, NewClient(p, rec, user, start, therapistId))
  {
    var patientId := PatientId(rec.stem);
    var clientId := |p.tables.clients| + 1;
    var client := Client(|p.tables.users| + 1, LegacySerial(patientId), therapistId, start, true);
    var plans := PlansFor(clientId, DefaultCategoryIds(p.tables.categories));
    var notes := NoteRows(clientId, therapistId, MigrationNote(rec));
    NewClientRows(p, rec, user, start, therapistId);
    ClientAppendKeeps(base, p, user, client, plans, notes, patientId);
  }

  /** `NewClient` spelled out as the rows it appends. */
  lemma NewClientRows(p: Progress, rec: LegacyPatient, user: User, start: int, therapistId: Option<int>)
    ensures var patientId := PatientId(rec.stem);
            var clientId := |p.tables.clients| + 1;
            NewClient(p, rec, user, start, therapistId)
              == AppendClient(p, user, Client(|p.tables.users| + 1, LegacySerial(patientId), therapistId, start, true),
                              PlansFor(clientId, DefaultCategoryIds(p.tables.categories)),
                              NoteRows(clientId, therapistId, MigrationNote(rec)), patientId)
  {
  }

  lemma {:induction false} ClientStepsKeep(base: Tables, p: Progress, recs: seq<LegacyPatient>,
                                           therapistMap: map<string, int>, defaultId: Option<int>, today: Date)
    requires ValidDate(today) && ClientLoopInv(base, p)
    ensures ClientLoopInv(base, ClientSteps(p, recs, therapistMap, defaultId, today))
    ensures ClientSteps(p, recs, therapistMap, defaultId, today).count <= p.count + |recs|
  {
    if recs != [] {
      ClientStepsKeep(base, p, recs[..|recs| - 1], therapistMap, defaultId, today);
      ClientStepKeeps(base, ClientSteps(p, recs[..|recs| - 1], therapistMap, defaultId, today), recs[|recs| - 1],
                      therapistMap, defaultId, today);
    }
  }

  /** The client migration fails exactly when some file, reached with the session still
      working, would give its client a serial already in use. Otherwise it only appends users,
      clients, plans and notes; it counts the clients it adds; and the returned map sends each
      migrated patient id to a new client whose serial and account email are made from that
      id. */
  lemma ClientMigrationSpec(t: Tables, dir: Option<seq<LegacyPatient>>, therapistMap: map<string, int>, today: Date)
    requires ValidDate(today)
    ensures ClientMigration(t, dir, therapistMap, today).None? <==>
              dir.Some? && ClientClashSome(ClientStart(t), dir.value, therapistMap, DefaultTherapistId(t.therapists), today)
    ensures dir.None? ==> ClientMigration(t, dir, therapistMap, today) == Some(Progress(t, 0, map[], false))
    ensures var r := ClientMigration(t, dir, therapistMap, today);
            dir.Some? && r.Some? ==>
              r.value.count <= |dir.value| && ClientLoopInv(t, r.value)
  {
    if dir.Some? {
      ClientStepsFail(ClientStart(t), dir.value, therapistMap, DefaultTherapistId(t.therapists), today);
      ClientStepsKeep(t, ClientStart(t), dir.value, therapistMap, DefaultTherapistId(t.therapists), today);
    }
  }

  /** A first patient file with a new account email and a parsable enrollment date, whose
      serial a client already holds (one created through the API as `C00000001`, say, and a
      legacy `patient_1.json`), fails the whole client step. */
  lemma TakenSerialAborts(t: Tables, rec: LegacyPatient, rest: seq<LegacyPatient>, therapistMap: map<string, int>,
                          today: Date)
    requires ValidDate(today)
    requires !EmailRegistered(t.users, LegacyEmail(PatientId(rec.stem)))
    requires Backend.CheckinDate(rec.enrollmentDate, today).Some?
    requires LegacySerial(PatientId(rec.stem)) in UsedSerials(t.clients)
    ensures ClientMigration(t, Some([rec] + rest), therapistMap, today).None?
  {
    var dir := [rec] + rest;
    var defaultId := DefaultTherapistId(t.therapists);
    assert dir[..1][..0] == [] && dir[..1][0] == rec;
    assert ClientFileClash(ClientStart(t), rec, today);
    assert ClientClashSome(ClientStart(t), dir[..1], therapistMap, defaultId, today);
    ClientClashSomeExtends(ClientStart(t), dir, therapistMap, defaultId, today, 1);
    ClientMigrationSpec(t, Some(dir), therapistMap, today);
  }

  /** A second run over the same files adds nothing: every patient whose account exists,
      migrated or left behind by a failed file, is skipped. */
  lemma {:induction false} ClientRerunAddsNothing(p: Progress, recs: seq<LegacyPatient>, therapistMap: map<string, int>,
                                                  defaultId: Option<int>, today: Date)
    requires ValidDate(today)
    requires forall i :: 0 <= i < |recs| ==> EmailRegistered(p.tables.users, LegacyEmail(PatientId(recs[i].stem)))
    ensures ClientSteps(p, recs, therapistMap, defaultId, today) == p
  {
    if recs != [] {
      ClientRerunAddsNothing(p, recs[..|recs| - 1], therapistMap, defaultId, today);
    }
  }

  /** A patient whose enrollment date does not parse keeps an account but gets no client, and
      every later run skips the patient. */
  lemma BadEnrollmentDateStrandsAccount(p: Progress, rec: LegacyPatient, therapistMap: map<string, int>,
                                        defaultId: Option<int>, today: Date)
    requires ValidDate(today)
    requires !p.failed && !EmailRegistered(p.tables.users, LegacyEmail(PatientId(rec.stem)))
    requires rec.enrollmentDate.Null? || (rec.enrollmentDate.Given? && ParseIsoDate(rec.enrollmentDate.value).None?)
    ensures var r := ClientStep(p, rec, therapistMap, defaultId, today);
            r.count == p.count && r.tables.clients == p.tables.clients && !r.failed
            && EmailRegistered(r.tables.users, LegacyEmail(PatientId(rec.stem)))
            && ClientStep(r, rec, therapistMap, defaultId, today) == r
  {
    var r := ClientStep(p, rec, therapistMap, defaultId, today);
    assert r.tables.users[|p.tables.users|].email == LegacyEmail(PatientId(rec.stem));
  }

  /** The client row of a migrated file, one plan per category id, and its note rows. */
  method AddClientRows(db: Database, client: Client, categoryIds: seq<int>, notes: seq<TherapistNote>)
    modifies db
    ensures db.Snapshot() == old(db.Snapshot()).(clients := old(db.clients) + [client],
                                                 plans := old(db.plans) + PlansFor(|old(db.clients)| + 1, categoryIds),
                                                 notes := old(db.notes) + notes)
  {
    db.clients := db.clients + [client];
    db.AddPlans(|db.clients|, categoryIds);
    db.notes := db.notes + notes;
  }

  /** The loop body of `migrate_clients`, on the database and the session's state. */
  method MigrateClientFile(db: Database, rec: LegacyPatient, therapistMap: map<string, int>, defaultId: Option<int>,
                           today: Date, count: nat, clientMap: map<string, int>, failed: bool)
    returns (newCount: nat, newMap: map<string, int>, nowFailed: bool)
    requires ValidDate(today)
    modifies db
    ensures Progress(db.Snapshot(), newCount, newMap, nowFailed)
              == ClientStep(Progress(old(db.Snapshot()), count, clientMap, failed), rec, therapistMap, defaultId, today)
  {
    newCount, newMap, nowFailed := count, clientMap, failed;
    if failed {
      return;
    }
    var patientId := PatientId(rec.stem);
    var email := LegacyEmail(patientId);
    if EmailRegistered(db.users, email) {
      return;
    }
    var user := User(email, ClientTempPasswordPrefix + patientId, ClientRole, ClientActive(rec.status));
    ghost var t := db.Snapshot();
    db.users := db.users + [user];
    var therapistId := ResolveTherapist(rec, therapistMap, defaultId);
    var start := Backend.CheckinDate(rec.enrollmentDate, today);
    if start.None? {
      return;
    }
    if LegacySerial(patientId) in UsedSerials(db.clients) {
      nowFailed := true;
      return;
    }
    var clientId := |db.clients| + 1;
    ghost var p := Progress(t, count, clientMap, false);
    assert ClientStep(p, rec, therapistMap, defaultId, today) == NewClient(p, rec, user, start.value, therapistId);
    NewClientRows(p, rec, user, start.value, therapistId);
    AddNewClient(db, p, rec, user, start.value, therapistId);
    newMap := clientMap[patientId := clientId];
    newCount := count + 1;
  }

  /** The rows `NewClient` appends after the user, written to the database. */
  method AddNewClient(db: Database, ghost p: Progress, rec: LegacyPatient, user: User, start: int,
                      therapistId: Option<int>)
    requires db.Snapshot() == p.tables.(users := p.tables.users + [user])
    modifies db
    ensures db.Snapshot() == NewClient(p, rec, user, start, therapistId).tables
  {
    var clientId := |db.clients| + 1;
    var client := Client(|db.users|, LegacySerial(PatientId(rec.stem)), therapistId, start, true);
    var notes := NoteRows(clientId, therapistId, MigrationNote(rec));
    var categoryIds := DefaultCategoryIds(db.categories);
    NewClientRows(p, rec, user, start, therapistId);
    AddClientRows(db, client, categoryIds, notes);
  }

  /** The `i`-th file of the client loop, continuing the fold over the files before it. */
  method MigrateNextClientFile(db: Database, files: seq<LegacyPatient>, i: nat, therapistMap: map<string, int>,
                               defaultId: Option<int>, today: Date, count: nat, clientMap: map<string, int>,
                               failed: bool, ghost start: Progress)
    returns (newCount: nat, newMap: map<string, int>, nowFailed: bool)
    requires ValidDate(today) && i < |files|
    requires Progress(db.Snapshot(), count, clientMap, failed)
               == ClientSteps(start, files[..i], therapistMap, defaultId, today)
    modifies db
    ensures Progress(db.Snapshot(), newCount, newMap, nowFailed)
              == ClientSteps(start, files[..i + 1], therapistMap, defaultId, today)
  {
    assert files[..i + 1][..i] == files[..i];
    newCount, newMap, nowFailed := MigrateClientFile(db, files[i], therapistMap, defaultId, today, count, clientMap,
                                                     failed);
  }

  /** `migrate_clients`: answers the count and the patient-id-to-client map it saves for the
      check-in migration, or `ok == false`, with the database as it was, when a flush fails. */
  method MigrateClients(db: Database, dir: Option<seq<LegacyPatient>>, therapistMap: map<string, int>, today: Date)
    returns (ok: bool, count: nat, clientMap: map<string, int>)
    requires ValidDate(today)
    modifies db
    ensures ok <==> ClientMigration(old(db.Snapshot()), dir, therapistMap, today).Some?
    ensures ok ==> Some(Progress(db.Snapshot(), count, clientMap, false))
                     == ClientMigration(old(db.Snapshot()), dir, therapistMap, today)
    ensures !ok ==> db.Snapshot() == old(db.Snapshot())
  {
    if dir.None? {
      return true, 0, map[];
    }
    var defaultId := DefaultTherapistId(db.therapists);
    var before := db.Snapshot();
    ghost var start := ClientStart(before);
    var files := dir.value;
    var failed := false;
    count, clientMap := 0, map[];
    var i := 0;
    while i < |files|
      invariant 0 <= i <= |files|
      invariant Progress(db.Snapshot(), count, clientMap, failed)
                  == ClientSteps(start, files[..i], therapistMap, defaultId, today)
    {
      count, clientMap, failed := MigrateNextClientFile(db, files, i, therapistMap, defaultId, today, count, clientMap,
                                                        failed, start);
      i := i + 1;
    }
    assert files[..i] == files;
    if failed {
      db.Restore(before);
      return false, 0, map[];
    }
    ok := true;
  }

  // ---------------------------------------------------------------- check-ins

  /** The check-in date text: `date` when it is truthy, else the file stem with every
      `checkin_` removed. */
  function LegacyCheckinDate(rec: LegacyCheckin): string
  {
    if Backend.Truthy(rec.date) then rec.date.value else ReplaceAll(rec.stem, "checkin_", "")
  }

  /** A file named `checkin_<ISO date>.json` without a `date` is filed under that date. */
  lemma CheckinDateFromFileName(d: Date, rec: LegacyCheckin)
    requires ValidDate(d) && rec.stem == "checkin_" + FormatIsoDate(d) && !Backend.Truthy(rec.date)
    ensures ParseIsoDate(LegacyCheckinDate(rec)) == Some(d)
  {
    var s := FormatIsoDate(d);
    assert forall k :: 0 <= k < |s| ==> s[k] != 'c' by {
      assert s == Pad4(d.year) + "-" + Pad2(d.month) + "-" + Pad2(d.day);
      forall k | 0 <= k < |s|
        ensures s[k] != 'c'
      {
        if k < 4 { assert s[k] == Pad4(d.year)[k]; }
        else if 5 <= k < 7 { assert s[k] == Pad2(d.month)[k - 5]; }
        else if 8 <= k { assert s[k] == Pad2(d.day)[k - 8]; }
      }
    }
    MissingCharNotContained(s, "checkin_", 'c');
    RemovePrefix("checkin_", s);
    IsoDateRoundTrip(d);
  }

  /** `.get('value')` of an entry, an absent entry being `{}`. */
  function EntryValue(e: Field<LegacyEntry>): Option<int>
  {
    if e.Given? then e.value.value else None
  }

  /** `.get('notes', '')` of an entry, an absent entry being `{}`: the stored note is NULL
      exactly when the entry holds `notes: null`, and the empty text when the entry or its
      `notes` is absent. (A `null` entry raises before this is read; see `CheckinStep`.) */
  function EntryNotes(e: Field<LegacyEntry>): (r: Option<string>)
    ensures r.None? <==> e.Given? && e.value.notes.Null?
    ensures r.Some? && r.value != [] ==> e.Given? && e.value.notes == Given(r.value)
    ensures e.Given? && e.value.notes.Given? ==> r == Some(e.value.notes.value)
  {
    if e.Given? then e.value.notes.Get("") else Some("")
  }

  /** Whether none of the three entries is `null` (`None.get` raises). */
  predicate EntriesReadable(rec: LegacyCheckin)
  {
    !rec.emotional.Null? && !rec.medication.Null? && !rec.activity.Null?
  }

  /** The check-in time: `time`, or noon when the key is absent, parsed with `%H:%M`; a `null`
      time makes `strptime` raise. */
  function LegacyCheckinTime(rec: LegacyCheckin): Option<ClockTime>
  {
    var text := rec.time.Get(DefaultCheckinTime);
    if text.None? then None else ParseClockTime(text.value)
  }

  /** One check-in file of client `clientId`. A date that does not parse, a (client, date) that
      already has a check-in, a time that does not parse and a `null` entry each skip the file. */
  function CheckinStep(t: Tables, count: nat, clientId: int, rec: LegacyCheckin, now: int): Tally
  {
    var date := ParseIsoDate(LegacyCheckinDate(rec));
    if date.None? then Tally(t, count)
    else
      var key := (clientId, ToOrdinal(date.value));
      var time := LegacyCheckinTime(rec);
      if key in t.checkins || time.None? || !EntriesReadable(rec) then Tally(t, count)
      else
        var row := DailyCheckin(time.value, EntryValue(rec.emotional), EntryNotes(rec.emotional),
                                EntryValue(rec.medication), EntryNotes(rec.medication),
                                EntryValue(rec.activity), EntryNotes(rec.activity), now);
        Tally(t.(checkins := t.checkins[key := row]), count + 1)
  }

  /** The files of one patient folder, in order. */
  function FolderSteps(t: Tables, count: nat, clientId: int, files: seq<LegacyCheckin>, now: int): Tally
  {
    if files == [] then Tally(t, count)
    else
      var r := FolderSteps(t, count, clientId, files[..|files| - 1], now);
      CheckinStep(r.tables, r.count, clientId, files[|files| - 1], now)
  }

  /** One entry of the check-ins directory: skipped unless it is a directory of a migrated
      patient. */
  function FolderStep(t: Tables, count: nat, folder: PatientFolder, clientMap: map<string, int>, now: int): Tally
  {
    if !folder.isDir || folder.name !in clientMap then Tally(t, count)
    else FolderSteps(t, count, clientMap[folder.name], folder.files, now)
  }

  function CheckinSteps(t: Tables, count: nat, folders: seq<PatientFolder>, clientMap: map<string, int>, now: int): Tally
  {
    if folders == [] then Tally(t, count)
    else
      var r := CheckinSteps(t, count, folders[..|folders| - 1], clientMap, now);
      FolderStep(r.tables, r.count, folders[|folders| - 1], clientMap, now)
  }

  /** `migrate_checkins`, given the map the client migration saved. */
  function CheckinMigration(t: Tables, dir: Option<seq<PatientFolder>>, clientMap: map<string, int>, now: int): Tally
  {
    if dir.None? then Tally(t, 0) else CheckinSteps(t, 0, dir.value, clientMap, now)
  }

  /** What the check-in loops keep: only check-ins change, no existing check-in is replaced,
      the count grows with the number of (client, date) keys, and every new key belongs to one
      of `clientIds`. */
  predicate CheckinLoopInv(base: Tables, count: nat, clientIds: set<int>, r: Tally)
  {
    r.tables == base.(checkins := r.tables.checkins)
    && (forall k :: k in base.checkins ==> k in r.tables.checkins && r.tables.checkins[k] == base.checkins[k])
    && |r.tables.checkins| == |base.checkins| + (r.count - count)
    && count <= r.count
    && (forall k :: k in r.tables.checkins && k !in base.checkins ==> k.0 in clientIds)
  }

  lemma {:induction false} FolderStepsKeep(base: Tables, count: nat, clientIds: set<int>, clientId: int,
                                           files: seq<LegacyCheckin>, now: int, t: Tables, c: nat)
    requires clientId in clientIds && CheckinLoopInv(base, count, clientIds, Tally(t, c))
    ensures CheckinLoopInv(base, count, clientIds, FolderSteps(t, c, clientId, files, now))
  {
    if files != [] {
      FolderStepsKeep(base, count, clientIds, clientId, files[..|files| - 1], now, t, c);
    }
  }

  lemma {:induction false} CheckinStepsKeep(base: Tables, count: nat, folders: seq<PatientFolder>,
                                            clientMap: map<string, int>, now: int)
    ensures CheckinLoopInv(base, count, clientMap.Values, CheckinSteps(base, count, folders, clientMap, now))
  {
    if folders != [] {
      CheckinStepsKeep(base, count, folders[..|folders| - 1], clientMap, now);
      var r := CheckinSteps(base, count, folders[..|folders| - 1], clientMap, now);
      var folder := folders[|folders| - 1];
      if folder.isDir && folder.name in clientMap {
        FolderStepsKeep(base, count, clientMap.Values, clientMap[folder.name], folder.files, now, r.tables, r.count);
      }
    }
  }

  /** The check-in migration never replaces a check-in, adds one per counted file, adds them
      only for migrated patients, and leaves every other table as it was. */
  lemma CheckinMigrationSpec(t: Tables, dir: Option<seq<PatientFolder>>, clientMap: map<string, int>, now: int)
    ensures var r := CheckinMigration(t, dir, clientMap, now);
            r.tables == t.(checkins := r.tables.checkins)
            && (forall k :: k in t.checkins ==> k in r.tables.checkins && r.tables.checkins[k] == t.checkins[k])
            && |r.tables.checkins| == |t.checkins| + r.count
            && (forall k :: k in r.tables.checkins && k !in t.checkins ==> k.0 in clientMap.Values)
  {
    if dir.Some? {
      CheckinStepsKeep(t, 0, dir.value, clientMap, now);
    }
  }

  /** A file without `time` is filed at noon. */
  lemma CheckinDefaultsToNoon(t: Tables, count: nat, clientId: int, rec: LegacyCheckin, now: int)
    requires rec.time.Absent? && EntriesReadable(rec)
    requires ParseIsoDate(LegacyCheckinDate(rec)).Some?
    requires (clientId, ToOrdinal(ParseIsoDate(LegacyCheckinDate(rec)).value)) !in t.checkins
    ensures var r := CheckinStep(t, count, clientId, rec, now);
            r.count == count + 1
            && r.tables.checkins[(clientId, ToOrdinal(ParseIsoDate(LegacyCheckinDate(rec)).value))].time == ClockTime(12, 0, 0)
  {
    ClockTimeRoundTrip(12, 0);
    assert Pad2(12) + ":" + Pad2(0) == DefaultCheckinTime;
  }

  /** A `null` time or a `null` entry raises while the row is built: the file is skipped. */
  lemma NullTimeOrEntrySkipsFile(t: Tables, count: nat, clientId: int, rec: LegacyCheckin, now: int)
    requires rec.time.Null? || !EntriesReadable(rec)
    ensures CheckinStep(t, count, clientId, rec, now) == Tally(t, count)
  {
  }

  /** The loop body over one check-in file, on the database. */
  method MigrateCheckinFile(db: Database, clientId: int, rec: LegacyCheckin, now: int, count: nat)
    returns (newCount: nat)
    modifies db
    ensures Tally(db.Snapshot(), newCount) == CheckinStep(old(db.Snapshot()), count, clientId, rec, now)
  {
    newCount := count;
    var date := ParseIsoDate(LegacyCheckinDate(rec));
    if date.None? {
      return;
    }
    var key := (clientId, ToOrdinal(date.value));
    if key in db.checkins {
      return;
    }
    var time := LegacyCheckinTime(rec);
    if time.None? || !EntriesReadable(rec) {
      return;
    }
    db.checkins := db.checkins[key := DailyCheckin(time.value, EntryValue(rec.emotional), EntryNotes(rec.emotional),
                                                   EntryValue(rec.medication), EntryNotes(rec.medication),
                                                   EntryValue(rec.activity), EntryNotes(rec.activity), now)];
    newCount := count + 1;
  }

  /** One entry of the check-ins directory: the files of a migrated patient's folder, in order. */
  method MigrateFolder(db: Database, folder: PatientFolder, clientMap: map<string, int>, now: int, count: nat)
    returns (newCount: nat)
    modifies db
    ensures Tally(db.Snapshot(), newCount) == FolderStep(old(db.Snapshot()), count, folder, clientMap, now)
  {
    newCount := count;
    if !folder.isDir || folder.name !in clientMap {
      return;
    }
    var clientId := clientMap[folder.name];
    var j := 0;
    while j < |folder.files|
      invariant 0 <= j <= |folder.files|
      invariant Tally(db.Snapshot(), newCount) == FolderSteps(old(db.Snapshot()), count, clientId, folder.files[..j], now)
    {
      assert folder.files[..j + 1][..j] == folder.files[..j];
      newCount := MigrateCheckinFile(db, clientId, folder.files[j], now, newCount);
      j := j + 1;
    }
    assert folder.files[..j] == folder.files;
  }

  /** `migrate_checkins`: answers the count. */
  method MigrateCheckins(db: Database, dir: Option<seq<PatientFolder>>, clientMap: map<string, int>, now: int)
    returns (count: nat)
    modifies db
    ensures Tally(db.Snapshot(), count) == CheckinMigration(old(db.Snapshot()), dir, clientMap, now)
  {
    if dir.None? {
      return 0;
    }
    var folders := dir.value;
    count := 0;
    var i := 0;
    while i < |folders|
      invariant 0 <= i <= |folders|
      invariant Tally(db.Snapshot(), count) == CheckinSteps(old(db.Snapshot()), 0, folders[..i], clientMap, now)
    {
      assert folders[..i + 1][..i] == folders[..i];
      count := MigrateFolder(db, folders[i], clientMap, now, count);
      i := i + 1;
    }
    assert folders[..i] == folders;
  }

  // ---------------------------------------------------------------- the whole migration

  /** `migrate_data`: seeds the categories of an empty table, then migrates therapists, clients
      and check-ins, each from the map the previous step saved, each committing its own work.
      Answers the three counts, or `completed == false` when the therapist or the client
      migration raises: what was committed before that step stays, nothing after it runs. */
  method MigrateData(db: Database, therapists: Option<seq<LegacyTherapist>>, patients: Option<seq<LegacyPatient>>,
                     checkins: Option<seq<PatientFolder>>, randomHex: string, today: Date, now: int)
    returns (completed: bool, therapistCount: nat, clientCount: nat, checkinCount: nat)
    requires ValidDate(today)
    modifies db
    ensures var seeded := old(db.Snapshot()).(categories := Backend.SeedIfEmpty(old(db.categories)));
            db.Snapshot() == Committed(seeded, therapists, patients, checkins, randomHex, today, now)
    ensures var seeded := old(db.Snapshot()).(categories := Backend.SeedIfEmpty(old(db.categories)));
            var m := TherapistMigration(seeded, therapists, randomHex);
            completed <==> m.Some? && ClientMigration(m.value.tables, patients, m.value.ids, today).Some?
    ensures var seeded := old(db.Snapshot()).(categories := Backend.SeedIfEmpty(old(db.categories)));
            var m := TherapistMigration(seeded, therapists, randomHex);
            completed && m.Some? ==>
              var th := m.value;
              var cl := ClientMigration(th.tables, patients, th.ids, today);
              cl.Some? ==>
                var ck := CheckinMigration(cl.value.tables, checkins, cl.value.ids, now);
                therapistCount == th.count && clientCount == cl.value.count && checkinCount == ck.count
  {
    ghost var seeded := db.Snapshot().(categories := Backend.SeedIfEmpty(db.categories));
    if |db.categories| == 0 {
      db.SeedDefaultCategories();
      assert db.categories == DefaultCategorySeed;
    }
    assert db.Snapshot() == seeded;
    var therapistMap: map<string, int>, clientMap: map<string, int>;
    completed, therapistCount, therapistMap := MigrateTherapists(db, therapists, randomHex);
    if !completed {
      return completed, 0, 0, 0;
    }
    completed, clientCount, clientMap := MigrateClients(db, patients, therapistMap, today);
    if !completed {
      return completed, 0, 0, 0;
    }
    checkinCount := MigrateCheckins(db, checkins, clientMap, now);
  }
}
