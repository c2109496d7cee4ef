/**
 * Start-up seeding (`backend/app/startup.py`): the admin account, the test account and a few rows
 * of demonstration data, each inserted only when it is missing.
 *
 * Each routine runs in its own session. When any statement of that session raises, the routine
 * rolls the session back, so none of its changes survive. The model passes that failure in as a
 * flag (`fault`). The bcrypt hashes of the two fixed passwords and the clock are parameters too.
 */
module Startup {
  import opened Wrappers
  import opened Models
  import opened AuthRoutes

  const ADMIN_EMAIL: string := "tallantuxh@gmail.com"
  const TEST_EMAIL: string := "testuser@example.com"
  const SEED_QUARANTINE_CONTENT: string :=
    "Suspicious email content here. This is a test quarantined email."
  const SEED_QUARANTINE_REASON: string := "phishing"

  // ---------------------------------------------------------------------------------------------
  // What each routine does to the tables when it does not fail

  /** Create-if-absent for one account (startup.py:23-40, 57-74): when some user already has
      `email` nothing changes, otherwise an approved row with `role` is appended. */
  function EnsureUser(t: Tables, email: string, hash: string, role: string): (t': Tables)
    ensures Registered(t'.users, email) && t.users <= t'.users
    ensures Registered(t.users, email) ==> t' == t
    ensures !Registered(t.users, email) ==>
      t' == t.(users := t.users + [User(t.nextUserId, email, hash, role, true, None)],
               nextUserId := t.nextUserId + 1)
    ensures TablesValid(t) ==> TablesValid(t')
  {
    if FindUserByEmail(t.users, email).Some? then t
    else
      var u := User(t.nextUserId, email, hash, role, true, None);
      assert (t.users + [u])[|t.users|] == u;
      t.(users := t.users + [u], nextUserId := t.nextUserId + 1)
  }

  /** The three feedback rows of startup.py:89-93, numbered from `firstId`. */
  function SeedFeedback(firstId: nat, now: int): (rows: seq<Feedback>)
    ensures |rows| == 3
    ensures forall i :: 0 <= i < 3 ==> rows[i].id == firstId + i && rows[i].timestamp == now
    ensures rows[0].isPhishing && !rows[1].isPhishing && rows[2].isPhishing
  {
    [Feedback(firstId, "http://phishingsite.com", true, now),
     Feedback(firstId + 1, "http://safe-site.com", false, now),
     Feedback(firstId + 2, "http://malicious-link.net", true, now)]
  }

  /** The three prediction logs of startup.py:99-103, numbered from `firstId`. */
  function SeedLogs(firstId: nat, now: int): (rows: seq<PredictionLog>)
    ensures |rows| == 3
    ensures forall i :: 0 <= i < 3 ==>
      rows[i].id == firstId + i && rows[i].timestamp == now
      && rows[i].url == SeedFeedback(firstId, now)[i].url
      && rows[i].prediction == SeedFeedback(firstId, now)[i].isPhishing
      && 0.0 <= rows[i].confidence <= 1.0
  {
    [PredictionLog(firstId, "http://phishingsite.com", true, 0.98, now),
     PredictionLog(firstId + 1, "http://safe-site.com", false, 0.95, now),
     PredictionLog(firstId + 2, "http://malicious-link.net", true, 0.87, now)]
  }

  /** The feedback part of `seed_test_data` (startup.py:88-95). */
  function WithSeedFeedback(t: Tables, now: int): (t': Tables)
    ensures TablesValid(t) ==> TablesValid(t')
  {
    if |t.feedback| == 0
    then t.(feedback := SeedFeedback(t.nextFeedbackId, now), nextFeedbackId := t.nextFeedbackId + 3)
    else t
  }

  /** The prediction-log part of `seed_test_data` (startup.py:98-105). */
  function WithSeedLogs(t: Tables, now: int): (t': Tables)
    ensures TablesValid(t) ==> TablesValid(t')
  {
    if |t.logs| == 0
    then t.(logs := SeedLogs(t.nextLogId, now), nextLogId := t.nextLogId + 3)
    else t
  }

  /** The quarantine part of `seed_test_data` (startup.py:108-119). */
  function WithSeedQuarantine(t: Tables, now: int): (t': Tables)
    ensures TablesValid(t) ==> TablesValid(t')
  {
    if |t.quarantine| == 0 then
      match FindUserByEmail(t.users, ADMIN_EMAIL)
      case None => t
      case Some(k) =>
        t.(quarantine := [NewQuarantinedEmail(t.nextQuarantineId, t.users[k].id,
                                              SEED_QUARANTINE_CONTENT, SEED_QUARANTINE_REASON, now)],
           nextQuarantineId := t.nextQuarantineId + 1)
    else t
  }

  /** `seed_test_data` without failure (startup.py:88-121): each table is seeded only when it is
      empty, and the quarantined email only when the admin account exists, owned by that admin. */
  function Seeded(t: Tables, now: int): (t': Tables)
    ensures t'.users == t.users && t'.nextUserId == t.nextUserId
    ensures t'.external == t.external && t'.nextExternalId == t.nextExternalId
    ensures t'.tips == t.tips && t'.nextTipId == t.nextTipId
    ensures |t.feedback| == 0 ==>
      t'.feedback == SeedFeedback(t.nextFeedbackId, now) && t'.nextFeedbackId == t.nextFeedbackId + 3
    ensures |t.feedback| != 0 ==> t'.feedback == t.feedback && t'.nextFeedbackId == t.nextFeedbackId
    ensures |t.logs| == 0 ==>
      t'.logs == SeedLogs(t.nextLogId, now) && t'.nextLogId == t.nextLogId + 3
    ensures |t.logs| != 0 ==> t'.logs == t.logs && t'.nextLogId == t.nextLogId
    ensures |t.quarantine| == 0 && Registered(t.users, ADMIN_EMAIL) ==>
      (exists k :: 0 <= k < |t.users| && t.users[k].email == ADMIN_EMAIL
         && t'.quarantine == [NewQuarantinedEmail(t.nextQuarantineId, t.users[k].id,
                                                  SEED_QUARANTINE_CONTENT, SEED_QUARANTINE_REASON, now)])
      && t'.nextQuarantineId == t.nextQuarantineId + 1
    ensures !(|t.quarantine| == 0 && Registered(t.users, ADMIN_EMAIL)) ==>
      t'.quarantine == t.quarantine && t'.nextQuarantineId == t.nextQuarantineId
    ensures TablesValid(t) ==> TablesValid(t')
  {
    WithSeedQuarantine(WithSeedLogs(WithSeedFeedback(t, now), now), now)
  }

  /** Which of the three routines of `initialize_database` failed and rolled back. */
  datatype Faults = Faults(admin: bool, testUser: bool, seed: bool)

  const NO_FAULTS: Faults := Faults(false, false, false)

  /** `initialize_database` (startup.py:129-142): the three routines in order, each skipped as a
      whole when it fails. */
  function Initialized(t: Tables, adminHash: string, testHash: string, now: int, f: Faults): (t': Tables)
    ensures TablesValid(t) ==> TablesValid(t')
    ensures !f.admin ==> Registered(t'.users, ADMIN_EMAIL)
    ensures !f.testUser ==> Registered(t'.users, TEST_EMAIL)
  {
    var t1 := if f.admin then t else EnsureUser(t, ADMIN_EMAIL, adminHash, ROLE_ADMIN);
    var t2 := if f.testUser then t1 else EnsureUser(t1, TEST_EMAIL, testHash, ROLE_USER);
    if f.seed then t2 else Seeded(t2, now)
  }

  // ---------------------------------------------------------------------------------------------
  // Properties

  /** Seeding twice is seeding once, whatever the clock says the second time. */
  lemma SeedIdempotent(t: Tables, now: int, now': int)
    ensures Seeded(Seeded(t, now), now') == Seeded(t, now)
  {
  }

  /** A second `initialize_database` after a successful one changes nothing, whatever hashes it
      computes, whatever time it is and whichever of its routines fail: the double call of
      main.py:60 and main.py:72 is harmless. */
  lemma InitializeTwice(t: Tables, adminHash: string, testHash: string, now: int,
                        adminHash': string, testHash': string, now': int, f: Faults)
    ensures Initialized(Initialized(t, adminHash, testHash, now, NO_FAULTS), adminHash', testHash', now', f)
         == Initialized(t, adminHash, testHash, now, NO_FAULTS)
  {
    var t1 := EnsureUser(t, ADMIN_EMAIL, adminHash, ROLE_ADMIN);
    var t2 := EnsureUser(t1, TEST_EMAIL, testHash, ROLE_USER);
    var once := Seeded(t2, now);
    assert once == Initialized(t, adminHash, testHash, now, NO_FAULTS);
    assert Registered(once.users, ADMIN_EMAIL) && Registered(once.users, TEST_EMAIL);
    var s1 := if f.admin then once else EnsureUser(once, ADMIN_EMAIL, adminHash', ROLE_ADMIN);
    assert s1 == once;
    var s2 := if f.testUser then s1 else EnsureUser(s1, TEST_EMAIL, testHash', ROLE_USER);
    assert s2 == once;
    SeedIdempotent(t2, now, now');
  }

  /** On empty seed tables, with the admin account present, seeding fills all three. */
  lemma SeedEmptyTables(t: Tables, now: int, k: nat)
    requires t.feedback == [] && t.logs == [] && t.quarantine == []
    requires FindUserByEmail(t.users, ADMIN_EMAIL) == Some(k)
    ensures Seeded(t, now) == t.(
      feedback := SeedFeedback(t.nextFeedbackId, now), nextFeedbackId := t.nextFeedbackId + 3,
      logs := SeedLogs(t.nextLogId, now), nextLogId := t.nextLogId + 3,
      quarantine := [NewQuarantinedEmail(t.nextQuarantineId, t.users[k].id, SEED_QUARANTINE_CONTENT,
                                         SEED_QUARANTINE_REASON, now)],
      nextQuarantineId := t.nextQuarantineId + 1)
  {
    var t4 := WithSeedLogs(WithSeedFeedback(t, now), now);
    assert t4.users == t.users && t4.quarantine == [];
  }

  /** The two fixed accounts have different e-mail addresses. */
  lemma AccountsDistinct()
    ensures ADMIN_EMAIL != TEST_EMAIL
  {
    assert ADMIN_EMAIL[1] != TEST_EMAIL[1];
  }

  /** With no users yet, creating two accounts with different addresses numbers them in order. */
  lemma TwoAccounts(t: Tables, email1: string, hash1: string, role1: string,
                    email2: string, hash2: string, role2: string)
    requires t.users == [] && email1 != email2
    ensures EnsureUser(EnsureUser(t, email1, hash1, role1), email2, hash2, role2)
         == t.(users := [User(t.nextUserId, email1, hash1, role1, true, None),
                         User(t.nextUserId + 1, email2, hash2, role2, true, None)],
               nextUserId := t.nextUserId + 2)
  {
    var t1 := EnsureUser(t, email1, hash1, role1);
    assert !Registered(t.users, email1);
    assert t1.users == [User(t.nextUserId, email1, hash1, role1, true, None)];
    assert !Registered(t1.users, email2);
  }

  /** Initializing a freshly created schema gives exactly: admin #1, test user #2, the three
      feedback rows and logs, and one pending quarantined email owned by the admin. */
  lemma InitializeFresh(adminHash: string, testHash: string, now: int)
    ensures Initialized(Tables([], [], [], [], [], [], 1, 1, 1, 1, 1, 1), adminHash, testHash, now, NO_FAULTS)
         == Tables([User(1, ADMIN_EMAIL, adminHash, ROLE_ADMIN, true, None),
                    User(2, TEST_EMAIL, testHash, ROLE_USER, true, None)],
                   SeedFeedback(1, now), SeedLogs(1, now), [],
                   [QuarantinedEmail(1, 1, SEED_QUARANTINE_CONTENT, SEED_QUARANTINE_REASON,
                                     STATUS_PENDING, now)],
                   [], 3, 4, 4, 1, 2, 1)
  {
    var empty := Tables([], [], [], [], [], [], 1, 1, 1, 1, 1, 1);
    AccountsDistinct();
    TwoAccounts(empty, ADMIN_EMAIL, adminHash, ROLE_ADMIN, TEST_EMAIL, testHash, ROLE_USER);
    var t2 := Tables([User(1, ADMIN_EMAIL, adminHash, ROLE_ADMIN, true, None),
                      User(2, TEST_EMAIL, testHash, ROLE_USER, true, None)],
                     [], [], [], [], [], 3, 1, 1, 1, 1, 1);
    assert FindUserByEmail(t2.users, ADMIN_EMAIL) == Some(0);
    SeedEmptyTables(t2, now, 0);
  }

  /** Once initialization has run, the admin account can log in with the password whose hash
      it stored, and receives the admin role, unless an admin row was already there. */
  lemma SeededAdminCanLogIn(t: Tables, adminHash: string, testHash: string, now: int,
                            password: string, verify: (string, string) -> bool)
    requires TablesValid(t) && !Registered(t.users, ADMIN_EMAIL)
    requires verify(password, adminHash)
    ensures Login(Initialized(t, adminHash, testHash, now, NO_FAULTS).users, ADMIN_EMAIL, password, verify)
         == LoggedIn(Claims(ADMIN_EMAIL, ROLE_ADMIN))
  {
    var t1 := EnsureUser(t, ADMIN_EMAIL, adminHash, ROLE_ADMIN);
    var k := |t.users|;
    assert t1.users[k] == User(t.nextUserId, ADMIN_EMAIL, adminHash, ROLE_ADMIN, true, None);
    var t2 := EnsureUser(t1, TEST_EMAIL, testHash, ROLE_USER);
    assert t2.users[..|t1.users|] == t1.users;
    AccountsDistinct();
    var users := Initialized(t, adminHash, testHash, now, NO_FAULTS).users;
    assert users == t2.users;
    assert users[k] == t1.users[k];
    UniqueEmailLookup(users, t2.nextUserId, ADMIN_EMAIL);
    assert FindUserByEmail(users, ADMIN_EMAIL) == Some(k);
  }

  // ---------------------------------------------------------------------------------------------
  // The routines, changing the database in place

  /** `create_admin_user` (startup.py:15-47): the admin row, found or newly created; `None` and
      a rolled-back session when the session fails. */
  method CreateAdminUser(db: Database, hash: string, fault: bool) returns (admin: Option<User>)
    requires db.Valid()
    modifies db
    ensures db.Valid()
    ensures fault ==> admin.None? && db.Snap() == old(db.Snap())
    ensures !fault ==> db.Snap() == EnsureUser(old(db.Snap()), ADMIN_EMAIL, hash, ROLE_ADMIN)
    ensures !fault ==> admin.Some? && admin.value in db.users && admin.value.email == ADMIN_EMAIL
    ensures !fault && !Registered(old(db.users), ADMIN_EMAIL) ==>
      admin.value.role == ROLE_ADMIN && admin.value.isApproved
  {
    admin := CreateUser(db, ADMIN_EMAIL, hash, ROLE_ADMIN, fault);
  }

  /** `create_test_user` (startup.py:49-81): the same for the test account, with role "user". */
  method CreateTestUser(db: Database, hash: string, fault: bool) returns (testUser: Option<User>)
    requires db.Valid()
    modifies db
    ensures db.Valid()
    ensures fault ==> testUser.None? && db.Snap() == old(db.Snap())
    ensures !fault ==> db.Snap() == EnsureUser(old(db.Snap()), TEST_EMAIL, hash, ROLE_USER)
    ensures !fault ==> testUser.Some? && testUser.value in db.users && testUser.value.email == TEST_EMAIL
    ensures !fault && !Registered(old(db.users), TEST_EMAIL) ==>
      testUser.value.role == ROLE_USER && testUser.value.isApproved
  {
    testUser := CreateUser(db, TEST_EMAIL, hash, ROLE_USER, fault);
  }

  /** The body the two account creators share. */
  method CreateUser(db: Database, email: string, hash: string, role: string, fault: bool)
    returns (u: Option<User>)
    requires db.Valid()
    modifies db
    ensures db.Valid()
    ensures fault ==> u.None? && db.Snap() == old(db.Snap())
    ensures !fault ==> db.Snap() == EnsureUser(old(db.Snap()), email, hash, role)
    ensures !fault ==> u.Some? && u.value in db.users && u.value.email == email
    ensures !fault && !Registered(old(db.users), email) ==> u.value.role == role && u.value.isApproved
  {
    if fault {
      return None;
    }
    match FindUserByEmail(db.users, email)
    case Some(k) =>
      u := Some(db.users[k]);
    case None =>
      var row := User(db.nextUserId, email, hash, role, true, None);
      db.users := db.users + [row];
      db.nextUserId := db.nextUserId + 1;
      assert db.users[|db.users| - 1] == row;
      u := Some(row);
  }

  /** `seed_test_data` (startup.py:83-127): all three inserts are committed together, or rolled
      back together when the session fails. */
  method SeedTestData(db: Database, now: int, fault: bool)
    requires db.Valid()
    modifies db
    ensures db.Valid()
    ensures fault ==> db.Snap() == old(db.Snap())
    ensures !fault ==> db.Snap() == Seeded(old(db.Snap()), now)
  {
    if fault {
      return;
    }
    SeedFeedbackTable(db, now);
    SeedLogTable(db, now);
    SeedQuarantineTable(db, now);
  }

  /** The feedback block of `seed_test_data` (startup.py:88-95). */
  method SeedFeedbackTable(db: Database, now: int)
    requires db.Valid()
    modifies db
    ensures db.Valid()
    ensures db.Snap() == WithSeedFeedback(old(db.Snap()), now)
  {
    if |db.feedback| == 0 {
      db.feedback := SeedFeedback(db.nextFeedbackId, now);
      db.nextFeedbackId := db.nextFeedbackId + 3;
    }
  }

  /** The prediction-log block of `seed_test_data` (startup.py:98-105). */
  method SeedLogTable(db: Database, now: int)
    requires db.Valid()
    modifies db
    ensures db.Valid()
    ensures db.Snap() == WithSeedLogs(old(db.Snap()), now)
  {
    if |db.logs| == 0 {
      db.logs := SeedLogs(db.nextLogId, now);
      db.nextLogId := db.nextLogId + 3;
    }
  }

  /** The quarantine block of `seed_test_data` (startup.py:108-119). */
  method SeedQuarantineTable(db: Database, now: int)
    requires db.Valid()
    modifies db
    ensures db.Valid()
    ensures db.Snap() == WithSeedQuarantine(old(db.Snap()), now)
  {
    if |db.quarantine| == 0 {
      var admin := FindUserByEmail(db.users, ADMIN_EMAIL);
      if admin.Some? {
        db.quarantine := [NewQuarantinedEmail(db.nextQuarantineId, db.users[admin.value].id,
                                              SEED_QUARANTINE_CONTENT, SEED_QUARANTINE_REASON, now)];
        db.nextQuarantineId := db.nextQuarantineId + 1;
      }
    }
  }

  /** The two flags `initialize_database` reports; the fixed credentials it also returns are
      constants of the source and are not modelled. */
  datatype InitReport = InitReport(adminCreated: bool, testUserCreated: bool)

  /** `initialize_database` (startup.py:129-155). */
  method InitializeDatabase(db: Database, adminHash: string, testHash: string, now: int, f: Faults)
    returns (report: InitReport)
    requires db.Valid()
    modifies db
    ensures db.Valid()
    ensures report == InitReport(!f.admin, !f.testUser)
    ensures db.Snap() == Initialized(old(db.Snap()), adminHash, testHash, now, f)
  {
    var admin := CreateAdminUser(db, adminHash, f.admin);
    var testUser := CreateTestUser(db, testHash, f.testUser);
    SeedTestData(db, now, f.seed);
    report := InitReport(admin.Some?, testUser.Some?);
  }
}
