/**
 * The schema of `backend/app/models.py`: one datatype per table row, with the column defaults as
 * constructor functions and the uniqueness constraints (`User.email`, `ExternalPhishingEntry.url`,
 * every table's auto-incrementing primary key) as the invariant `Database.Valid()`.
 *
 * Required (`nullable=False`) columns are plain fields; the one nullable column that the code
 * reads as possibly absent, `User.password_reset_token`, is an `Option`. Timestamps are integers
 * supplied by the caller, standing for `datetime.utcnow()`.
 */
module Models {
  import opened Wrappers

  const ROLE_USER: string := "user"
  const ROLE_ADMIN: string := "admin"
  const STATUS_PENDING: string := "pending"

  datatype User = User(id: nat, email: string, hashedPassword: string, role: string,
                       isApproved: bool, resetToken: Option<string>)
  datatype Feedback = Feedback(id: nat, url: string, isPhishing: bool, timestamp: int)
  datatype PredictionLog = PredictionLog(id: nat, url: string, prediction: bool, confidence: real,
                                         timestamp: int)
  datatype ExternalPhishingEntry = ExternalPhishingEntry(id: nat, url: string, source: string,
                                                         timestamp: int)
  datatype QuarantinedEmail = QuarantinedEmail(id: nat, userId: nat, emailContent: string,
                                               reason: string, status: string, timestamp: int)
  datatype EducativeTip = EducativeTip(id: nat, content: string, timestamp: int)

  /** `str(user.role) == "admin"`, the check every admin-only route makes. */
  predicate IsAdmin(u: User) {
    u.role == ROLE_ADMIN
  }

  /** A `User(...)` built from the required columns only: the defaults of models.py:41-42 apply. */
  function NewUser(id: nat, email: string, hashedPassword: string): (u: User)
    ensures u.id == id && u.email == email && u.hashedPassword == hashedPassword
    ensures u.role == ROLE_USER && !u.isApproved && u.resetToken.None?
  {
    User(id, email, hashedPassword, ROLE_USER, false, None)
  }

  /** A `QuarantinedEmail(...)` without a status: the default of models.py:132 applies. */
  function NewQuarantinedEmail(id: nat, userId: nat, content: string, reason: string, now: int)
    : (q: QuarantinedEmail)
    ensures q.status == STATUS_PENDING
    ensures q.id == id && q.userId == userId && q.emailContent == content && q.reason == reason
  {
    QuarantinedEmail(id, userId, content, reason, STATUS_PENDING, now)
  }

  // ---------------------------------------------------------------------------------------------
  // Table invariants: primary keys below the next key to be handed out and pairwise distinct,
  // plus the two UNIQUE columns.

  predicate UsersValid(users: seq<User>, nextId: nat) {
    && (forall i :: 0 <= i < |users| ==> users[i].id < nextId)
    && (forall i, j :: 0 <= i < j < |users| ==> users[i].id != users[j].id)
    && (forall i, j :: 0 <= i < j < |users| ==> users[i].email != users[j].email)
  }

  predicate FeedbackValid(rows: seq<Feedback>, nextId: nat) {
    && (forall i :: 0 <= i < |rows| ==> rows[i].id < nextId)
    && (forall i, j :: 0 <= i < j < |rows| ==> rows[i].id != rows[j].id)
  }

  predicate LogsValid(rows: seq<PredictionLog>, nextId: nat) {
    && (forall i :: 0 <= i < |rows| ==> rows[i].id < nextId)
    && (forall i, j :: 0 <= i < j < |rows| ==> rows[i].id != rows[j].id)
  }

  predicate ExternalValid(rows: seq<ExternalPhishingEntry>, nextId: nat) {
    && (forall i :: 0 <= i < |rows| ==> rows[i].id < nextId)
    && (forall i, j :: 0 <= i < j < |rows| ==> rows[i].id != rows[j].id)
    && (forall i, j :: 0 <= i < j < |rows| ==> rows[i].url != rows[j].url)
  }

  predicate QuarantineValid(rows: seq<QuarantinedEmail>, nextId: nat) {
    && (forall i :: 0 <= i < |rows| ==> rows[i].id < nextId)
    && (forall i, j :: 0 <= i < j < |rows| ==> rows[i].id != rows[j].id)
  }

  predicate TipsValid(rows: seq<EducativeTip>, nextId: nat) {
    && (forall i :: 0 <= i < |rows| ==> rows[i].id < nextId)
    && (forall i, j :: 0 <= i < j < |rows| ==> rows[i].id != rows[j].id)
  }

  /** The content of every table, with the next value of each table's id sequence. */
  datatype Tables = Tables(
    users: seq<User>, feedback: seq<Feedback>, logs: seq<PredictionLog>,
    external: seq<ExternalPhishingEntry>, quarantine: seq<QuarantinedEmail>,
    tips: seq<EducativeTip>,
    nextUserId: nat, nextFeedbackId: nat, nextLogId: nat, nextExternalId: nat,
    nextQuarantineId: nat, nextTipId: nat)

  predicate TablesValid(t: Tables) {
    && UsersValid(t.users, t.nextUserId)
    && FeedbackValid(t.feedback, t.nextFeedbackId)
    && LogsValid(t.logs, t.nextLogId)
    && ExternalValid(t.external, t.nextExternalId)
    && QuarantineValid(t.quarantine, t.nextQuarantineId)
    && TipsValid(t.tips, t.nextTipId)
  }

  /** The database behind every `SessionLocal()`: one field per table, changed in place. */
  class Database {
    var users: seq<User>
    var feedback: seq<Feedback>
    var logs: seq<PredictionLog>
    var external: seq<ExternalPhishingEntry>
    var quarantine: seq<QuarantinedEmail>
    var tips: seq<EducativeTip>
    var nextUserId: nat
    var nextFeedbackId: nat
    var nextLogId: nat
    var nextExternalId: nat
    var nextQuarantineId: nat
    var nextTipId: nat

    /** The whole database as a value. */
    function Snap(): Tables
      reads this
    {
      Tables(users, feedback, logs, external, quarantine, tips,
             nextUserId, nextFeedbackId, nextLogId, nextExternalId, nextQuarantineId, nextTipId)
    }

    /** The schema's constraints hold. */
    predicate Valid()
      reads this
    {
      TablesValid(Snap())
    }

    /** A freshly created schema (`Base.metadata.create_all`): every table empty. */
    constructor ()
      ensures Valid()
      ensures Snap() == Tables([], [], [], [], [], [], 1, 1, 1, 1, 1, 1)
    {
      users, feedback, logs, external, quarantine, tips := [], [], [], [], [], [];
      nextUserId, nextFeedbackId, nextLogId, nextExternalId := 1, 1, 1, 1;
      nextQuarantineId, nextTipId := 1, 1;
    }
  }

  // ---------------------------------------------------------------------------------------------
  // Queries

  /** `db.query(User).filter(User.email == email).first()`, as an index into the table. */
  function FindUserByEmail(users: seq<User>, email: string): (r: Option<nat>)
    ensures r.Some? ==> r.value < |users| && users[r.value].email == email
    ensures r.Some? ==> forall j :: 0 <= j < r.value ==> users[j].email != email
    ensures r.None? <==> forall j :: 0 <= j < |users| ==> users[j].email != email
  {
    Find(users, (u: User) => u.email == email)
  }

  /** `db.query(User).filter(User.id == id).first()`, as an index into the table. */
  function FindUserById(users: seq<User>, id: int): (r: Option<nat>)
    ensures r.Some? ==> r.value < |users| && users[r.value].id == id
    ensures r.Some? ==> forall j :: 0 <= j < r.value ==> users[j].id != id
    ensures r.None? <==> forall j :: 0 <= j < |users| ==> users[j].id != id
  {
    Find(users, (u: User) => u.id == id)
  }

  /** The number of rows with role "admin" (`filter(User.role == "admin").count()`). */
  function AdminCount(users: seq<User>): (n: nat)
    ensures n <= |users|
  {
    if |users| == 0 then 0
    else AdminCount(users[..|users| - 1]) + (if IsAdmin(users[|users| - 1]) then 1 else 0)
  }

  /** Because `User.email` is unique, a lookup by email finds the only row with that email. */
  lemma UniqueEmailLookup(users: seq<User>, nextId: nat, email: string)
    requires UsersValid(users, nextId)
    ensures FindUserByEmail(users, email).None? <==> forall j :: 0 <= j < |users| ==> users[j].email != email
    ensures FindUserByEmail(users, email).Some? ==>
      forall j :: 0 <= j < |users| && users[j].email == email ==> j == FindUserByEmail(users, email).value
  {
  }

  /** Deleting one row lowers the admin count by one if that row was an admin, else keeps it. */
  lemma {:induction false} AdminCountRemove(users: seq<User>, k: nat)
    requires k < |users|
    ensures AdminCount(RemoveAt(users, k)) == AdminCount(users) - (if IsAdmin(users[k]) then 1 else 0)
    decreases |users|
  {
    var n := |users|;
    var r := RemoveAt(users, k);
    if k == n - 1 {
      assert r == users[..n - 1];
    } else {
      var shorter := users[..n - 1];
      AdminCountRemove(shorter, k);
      assert r[..n - 2] == RemoveAt(shorter, k);
      assert r[n - 2] == users[n - 1];
    }
  }

  /** Replacing a row by one with the same role keeps the admin count. */
  lemma {:induction false} AdminCountUpdate(users: seq<User>, k: nat, u: User)
    requires k < |users| && u.role == users[k].role
    ensures AdminCount(users[k := u]) == AdminCount(users)
    decreases |users|
  {
    var n := |users|;
    if k < n - 1 {
      AdminCountUpdate(users[..n - 1], k, u);
      assert users[k := u][..n - 1] == users[..n - 1][k := u];
    } else {
      assert users[k := u][..n - 1] == users[..n - 1];
    }
  }

  /** Appending a row adds one to the admin count exactly when that row is an admin. */
  lemma AdminCountAppend(users: seq<User>, u: User)
    ensures AdminCount(users + [u]) == AdminCount(users) + (if IsAdmin(u) then 1 else 0)
  {
    assert (users + [u])[..|users|] == users;
  }
}
