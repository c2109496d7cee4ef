/**
 * The administrator endpoints of `backend/app/routes.py` -- `/admin/approve-user`,
 * `/admin/reject-user`, `/retrain` and the educative-tip CRUD -- and the keyword chatbot.
 *
 * `caller` is the row `get_current_user` returned for the request (see `AuthRoutes.CurrentUser`);
 * a request without a valid token never reaches these handlers.
 */
module AdminRoutes {
  import opened Wrappers
  import opened Utils
  import opened Http
  import opened Models
  import opened Sorting
  import Phishing
  import AuthRoutes

  /** `/admin/approve-user` (routes.py:567-595). The already-approved check comes before the
      self-approval check, so an approved caller approving themself gets the early 200. */
  method ApproveUser(db: Database, caller: User, userId: int) returns (status: int)
    requires db.Valid()
    modifies db
    ensures db.Valid()
    ensures status == FORBIDDEN <==> !IsAdmin(caller)
    ensures IsAdmin(caller) ==> (status == NOT_FOUND <==> FindUserById(old(db.users), userId).None?)
    ensures status in {OK, BAD_REQUEST, FORBIDDEN, NOT_FOUND}
    ensures status != OK ==> db.Snap() == old(db.Snap())
    ensures status == BAD_REQUEST ==> var k := FindUserById(old(db.users), userId).value;
      !old(db.users)[k].isApproved && old(db.users)[k].id == caller.id
    ensures status == OK ==> IsAdmin(caller) && FindUserById(old(db.users), userId).Some?
    ensures status == OK ==> var k := FindUserById(old(db.users), userId).value;
      db.Snap() == old(db.Snap()).(users := old(db.users)[k := old(db.users)[k].(isApproved := true)])
    ensures status == OK ==> var k := FindUserById(old(db.users), userId).value;
      old(db.users)[k].isApproved || old(db.users)[k].id != caller.id
    ensures AdminCount(db.users) == AdminCount(old(db.users))
  {
    if !IsAdmin(caller) {
      return FORBIDDEN;
    }
    var found := FindUserById(db.users, userId);
    if found.None? {
      return NOT_FOUND;
    }
    var k := found.value;
    if db.users[k].isApproved {
      return OK;
    }
    if db.users[k].id == caller.id {
      return BAD_REQUEST;
    }
    AdminCountUpdate(db.users, k, db.users[k].(isApproved := true));
    db.users := db.users[k := db.users[k].(isApproved := true)];
    status := OK;
  }

  /** Once approved, a user whose password verifies gets a token instead of the 403. */
  lemma ApprovedUserCanLogIn(users: seq<User>, nextId: nat, k: nat, password: string,
                             verify: (string, string) -> bool)
    requires UsersValid(users, nextId) && k < |users|
    requires verify(password, users[k].hashedPassword)
    ensures AuthRoutes.Login(users[k := users[k].(isApproved := true)], users[k].email, password, verify)
      == AuthRoutes.LoggedIn(AuthRoutes.Claims(users[k].email, users[k].role))
  {
    var after := users[k := users[k].(isApproved := true)];
    assert UsersValid(after, nextId);
    UniqueEmailLookup(after, nextId, users[k].email);
    assert after[k].email == users[k].email;
    assert FindUserByEmail(after, users[k].email) == Some(k);
  }

  /** The guard of routes.py:615-631: the target is not the caller, and is not the only admin. */
  predicate MayDelete(users: seq<User>, k: nat, caller: User)
    requires k < |users|
  {
    users[k].id != caller.id && !(IsAdmin(users[k]) && AdminCount(users) <= 1)
  }

  /** Any deletion the guard lets through leaves at least one admin if there was one. */
  lemma RejectKeepsAnAdmin(users: seq<User>, k: nat, caller: User)
    requires k < |users| && MayDelete(users, k, caller)
    requires AdminCount(users) >= 1
    ensures AdminCount(RemoveAt(users, k)) >= 1
  {
    AdminCountRemove(users, k);
  }

  /** Deleting a row keeps ids and emails distinct. */
  lemma RemoveKeepsUsersValid(users: seq<User>, nextId: nat, k: nat)
    requires UsersValid(users, nextId) && k < |users|
    ensures UsersValid(RemoveAt(users, k), nextId)
  {
    var r := RemoveAt(users, k);
    forall i, j | 0 <= i < j < |r|
      ensures r[i].id != r[j].id && r[i].email != r[j].email
    {
      var i' := if i < k then i else i + 1;
      var j' := if j < k then j else j + 1;
      assert r[i] == users[i'] && r[j] == users[j'] && i' < j';
    }
  }

  /** Deleting a row with a different id keeps every row with that id. */
  lemma RemoveKeepsOthers(users: seq<User>, k: nat, id: int)
    requires k < |users| && users[k].id != id
    ensures forall j :: 0 <= j < |users| && users[j].id == id ==> users[j] in RemoveAt(users, k)
  {
    var r := RemoveAt(users, k);
    forall j | 0 <= j < |users| && users[j].id == id
      ensures users[j] in r
    {
      if j < k { assert r[j] == users[j]; } else { assert r[j - 1] == users[j]; }
    }
  }

  /** `/admin/reject-user` (routes.py:615-633): 403, 404, 400 for deleting oneself, 400 for the
      last admin, otherwise the row is deleted. */
  method RejectUser(db: Database, caller: User, userId: int) returns (status: int)
    requires db.Valid()
    modifies db
    ensures db.Valid()
    ensures status == FORBIDDEN <==> !IsAdmin(caller)
    ensures IsAdmin(caller) ==> (status == NOT_FOUND <==> FindUserById(old(db.users), userId).None?)
    ensures status in {OK, BAD_REQUEST, FORBIDDEN, NOT_FOUND}
    ensures status != OK ==> db.Snap() == old(db.Snap())
    ensures status == BAD_REQUEST ==>
      (IsAdmin(caller) && FindUserById(old(db.users), userId).Some?
       && !MayDelete(old(db.users), FindUserById(old(db.users), userId).value, caller))
    ensures status == OK ==>
      (IsAdmin(caller) && FindUserById(old(db.users), userId).Some?
       && MayDelete(old(db.users), FindUserById(old(db.users), userId).value, caller))
    ensures status == OK ==>
      db.Snap() == old(db.Snap()).(users := RemoveAt(old(db.users), FindUserById(old(db.users), userId).value))
    ensures AdminCount(old(db.users)) >= 1 ==> AdminCount(db.users) >= 1
    ensures forall j :: 0 <= j < |old(db.users)| && old(db.users)[j].id == caller.id ==> old(db.users)[j] in db.users
  {
    if !IsAdmin(caller) {
      return FORBIDDEN;
    }
    var found := FindUserById(db.users, userId);
    if found.None? {
      return NOT_FOUND;
    }
    var k := found.value;
    if !MayDelete(db.users, k, caller) {
      return BAD_REQUEST;
    }
    ghost var before := db.users;
    if AdminCount(before) >= 1 {
      RejectKeepsAnAdmin(before, k, caller);
    }
    RemoveKeepsUsersValid(before, db.nextUserId, k);
    RemoveKeepsOthers(before, k, caller.id);
    db.users := RemoveAt(db.users, k);
    status := OK;
  }

  /** `/retrain` (routes.py:376-381): admins only; it calls `train_model`, not `retrain`. */
  method RetrainRoute(store: Phishing.ModelStore, caller: User, csv: Phishing.CsvRead)
    returns (status: int)
    modifies store
    ensures status == FORBIDDEN <==> !IsAdmin(caller)
    ensures status == OK <==> IsAdmin(caller)
    ensures !IsAdmin(caller) ==> unchanged(store)
    ensures IsAdmin(caller) ==>
      (store.model == Some(Phishing.FALLBACK_MODEL)
       && store.vectorizer == Some(Phishing.FALLBACK_VECTORIZER)
       && store.modelFile == store.model && store.vectorizerFile == store.vectorizer
       && store.writes == old(store.writes) + [Phishing.ModelPathWritten, Phishing.VectorizerPathWritten])
  {
    if !IsAdmin(caller) {
      return FORBIDDEN;
    }
    store.TrainModel(csv);
    status := OK;
  }

  // ---------------------------------------------------------------------------------------------
  // Educative tips (routes.py:897-960)

  /** `db.query(EducativeTip).filter(EducativeTip.id == tip_id).first()`. */
  function FindTip(tips: seq<EducativeTip>, tipId: int): Option<nat> {
    Find(tips, (t: EducativeTip) => t.id == tipId)
  }

  /** `POST /educative-tips` (routes.py:917-922). */
  method AddTip(db: Database, caller: User, content: string, now: int) returns (status: int)
    requires db.Valid()
    modifies db
    ensures db.Valid()
    ensures status == FORBIDDEN <==> !IsAdmin(caller)
    ensures status == OK <==> IsAdmin(caller)
    ensures status == FORBIDDEN ==> db.Snap() == old(db.Snap())
    ensures status == OK ==> db.Snap() == old(db.Snap()).(
      tips := old(db.tips) + [EducativeTip(old(db.nextTipId), content, now)],
      nextTipId := old(db.nextTipId) + 1)
  {
    if !IsAdmin(caller) {
      return FORBIDDEN;
    }
    db.tips := db.tips + [EducativeTip(db.nextTipId, content, now)];
    db.nextTipId := db.nextTipId + 1;
    status := OK;
  }

  /** `PUT /educative-tips/{tip_id}` (routes.py:934-941): only the content changes. */
  method UpdateTip(db: Database, caller: User, tipId: int, content: string) returns (status: int)
    requires db.Valid()
    modifies db
    ensures db.Valid()
    ensures status == FORBIDDEN <==> !IsAdmin(caller)
    ensures IsAdmin(caller) ==> (status == NOT_FOUND <==> FindTip(old(db.tips), tipId).None?)
    ensures status in {OK, FORBIDDEN, NOT_FOUND}
    ensures status != OK ==> db.Snap() == old(db.Snap())
    ensures status == OK ==> var k := FindTip(old(db.tips), tipId).value;
      db.Snap() == old(db.Snap()).(tips := old(db.tips)[k := old(db.tips)[k].(content := content)])
  {
    if !IsAdmin(caller) {
      return FORBIDDEN;
    }
    var found := FindTip(db.tips, tipId);
    if found.None? {
      return NOT_FOUND;
    }
    db.tips := db.tips[found.value := db.tips[found.value].(content := content)];
    status := OK;
  }

  /** `DELETE /educative-tips/{tip_id}` (routes.py:952-959). */
  method DeleteTip(db: Database, caller: User, tipId: int) returns (status: int)
    requires db.Valid()
    modifies db
    ensures db.Valid()
    ensures status == FORBIDDEN <==> !IsAdmin(caller)
    ensures IsAdmin(caller) ==> (status == NOT_FOUND <==> FindTip(old(db.tips), tipId).None?)
    ensures status in {OK, FORBIDDEN, NOT_FOUND}
    ensures status != OK ==> db.Snap() == old(db.Snap())
    ensures status == OK ==>
      db.Snap() == old(db.Snap()).(tips := RemoveAt(old(db.tips), FindTip(old(db.tips), tipId).value))
    ensures status == OK ==> forall j :: 0 <= j < |db.tips| ==> db.tips[j].id != tipId
  {
    if !IsAdmin(caller) {
      return FORBIDDEN;
    }
    var found := FindTip(db.tips, tipId);
    if found.None? {
      return NOT_FOUND;
    }
    var k := found.value;
    ghost var before := db.tips;
    db.tips := RemoveAt(db.tips, k);
    forall j | 0 <= j < |db.tips|
      ensures db.tips[j].id != tipId
    {
      if j < k { assert db.tips[j] == before[j]; }
      else { assert db.tips[j] == before[j + 1] && before[k].id != before[j + 1].id; }
    }
    status := OK;
  }

  /** Tips oldest first. */
  predicate OldestFirst(o: seq<EducativeTip>) {
    forall i, j :: 0 <= i < j < |o| ==> o[i].timestamp <= o[j].timestamp
  }

  /** The reply of `GET /educative-tips`: two parallel lists. */
  datatype TipsPage = TipsPage(tips: seq<string>, ids: seq<nat>)

  /** `GET /educative-tips` (routes.py:897-903): the contents and the ids of every tip, listed in
      some order by ascending timestamp. */
  function GetTips(rows: seq<EducativeTip>): (page: TipsPage)
    ensures |page.tips| == |page.ids| == |rows|
    ensures exists o: seq<EducativeTip> ::
      (OldestFirst(o) && multiset(o) == multiset(rows) && |o| == |rows|
       && (forall i :: 0 <= i < |o| ==> page.tips[i] == o[i].content && page.ids[i] == o[i].id))
  {
    var o := SortBy(rows, (t: EducativeTip) => t.timestamp);
    assert OldestFirst(o);
    TipsPage(seq(|o|, i requires 0 <= i < |o| => o[i].content),
             seq(|o|, i requires 0 <= i < |o| => o[i].id))
  }

  /** A tip just added is listed, with its content, whatever its timestamp. */
  lemma AddedTipIsListed(rows: seq<EducativeTip>, tip: EducativeTip)
    ensures exists i ::
      (0 <= i < |rows| + 1 && GetTips(rows + [tip]).ids[i] == tip.id
       && GetTips(rows + [tip]).tips[i] == tip.content)
  {
    var page := GetTips(rows + [tip]);
    var o: seq<EducativeTip> :| OldestFirst(o) && multiset(o) == multiset(rows + [tip]) && |o| == |rows + [tip]|
      && (forall i :: 0 <= i < |o| ==> page.tips[i] == o[i].content && page.ids[i] == o[i].id);
    assert tip in multiset(rows + [tip]);
    assert tip in o;
    var i :| 0 <= i < |o| && o[i] == tip;
    assert page.ids[i] == tip.id && page.tips[i] == tip.content;
  }

  // ---------------------------------------------------------------------------------------------
  // Chatbot (routes.py:881-895)

  const PHISHING_REPLY: string := "Phishing is a scam where attackers impersonate trusted entities to steal information."
  const REPORT_REPLY: string := "Report suspicious emails to your IT/security team or use the report button in your email client."
  const SPOT_REPLY: string := "Look for suspicious links, urgent language, unknown senders, and requests for personal info. When in doubt, don’t click!"
  const FALLBACK_REPLY: string := "I'm here to help with any questions about phishing or using this system! (AI-powered answers coming soon)"

  /** `chatbot_response`: the first keyword found in the lower-cased message decides the reply. */
  function Chatbot(message: string): (reply: string)
    ensures reply == PHISHING_REPLY <==> Contains(Lower(message), "phishing")
    ensures reply == REPORT_REPLY <==> !Contains(Lower(message), "phishing") && Contains(Lower(message), "report")
    ensures reply == SPOT_REPLY <==>
      (!Contains(Lower(message), "phishing") && !Contains(Lower(message), "report")
       && (Contains(Lower(message), "spot") || Contains(Lower(message), "identify")))
    ensures reply == FALLBACK_REPLY <==>
      (!Contains(Lower(message), "phishing") && !Contains(Lower(message), "report")
       && !Contains(Lower(message), "spot") && !Contains(Lower(message), "identify"))
  {
    var msg := Lower(message);
    if Contains(msg, "phishing") then PHISHING_REPLY
    else if Contains(msg, "report") then REPORT_REPLY
    else if Contains(msg, "spot") || Contains(msg, "identify") then SPOT_REPLY
    else FALLBACK_REPLY
  }

  /** The reply ignores ASCII case. */
  lemma ChatbotIgnoresCase(message: string)
    ensures Chatbot(Lower(message)) == Chatbot(message)
  {
    LowerIdempotent(message);
  }
}
