/**
 * The stateful part of the application: the remote store the script talks
 * to, the per-tab session state, and the controller steps that change them.
 */
module App {
  import opened Wrappers
  import opened Firestore
  import opened Progress
  import opened Auth

  /** The documents the application reads and writes. Keeping the per-user
      progress collections apart from the public `users` and `stats`
      collections rests on `Paths.ProgressApartFromPublic` and
      `Paths.StatsApartFromAccounts` (the two trees never share a path), and
      keying progress by user id on `Paths.UserPathInjective`. */
  class Database {
    /** Each user's `progress` collection, by user id. */
    var progress: map<string, Collection>
    /** The public `users` collection of account documents. */
    var users: Collection
    /** The public `stats` collection, holding the `global` counter document. */
    var stats: Collection

    constructor ()
      ensures progress == map[] && users == map[] && stats == map[]
    {
      progress, users, stats := map[], map[], map[];
    }

    /** A user's progress collection; one never written to is empty. */
    function ProgressOf(userId: string): Collection
      reads this
    {
      if userId in progress then progress[userId] else map[]
    }

    /** Every progress record sits at the digest of its own key. */
    ghost predicate Valid(md5: string -> string)
      reads this
    {
      forall u :: u in progress ==> WellFormed(progress[u], md5)
    }
  }

  /** Which page the script renders. */
  datatype Phase = AuthPage | LinkPage | MainArea

  /** The tab's session state. A missing `mastered_points` entry is `None`. */
  class Session {
    var loggedIn: bool
    var started: bool
    var userContact: Option<string>
    var mastered: Option<set<string>>
    var difficult: Option<set<string>>

    ghost predicate Valid()
      reads this
    {
      && (loggedIn ==> userContact.Some?)
      && (started ==> loggedIn)
      && (mastered.Some? <==> difficult.Some?)
      && (mastered.Some? ==> started)
    }

    /** The page the controller renders for this session: the auth page
        until login, then the link page until it is acknowledged, then the
        main area. */
    function CurrentPhase(): (p: Phase)
      reads this
      ensures p == AuthPage <==> !loggedIn
      ensures p == LinkPage <==> loggedIn && !started
      ensures p == MainArea <==> loggedIn && started
    {
      if !loggedIn then AuthPage else if !started then LinkPage else MainArea
    }

    /** The defaults the script sets on a fresh session. */
    constructor ()
      ensures Valid() && CurrentPhase() == AuthPage
      ensures !loggedIn && !started && userContact == None && mastered == None && difficult == None
    {
      loggedIn, started := false, false;
      userContact, mastered, difficult := None, None, None;
    }

    /** INITIALIZE LINK: leave the link page for the main area. */
    method StartLink()
      requires Valid() && CurrentPhase() == LinkPage
      modifies this
      ensures Valid() && CurrentPhase() == MainArea
      ensures started && loggedIn == old(loggedIn) && userContact == old(userContact)
      ensures mastered == old(mastered) && difficult == old(difficult)
    {
      started := true;
    }

    /** LOGOUT: the whole session state is cleared and the script's defaults
        set again, so the next login starts from the auth page with no
        progress sets. */
    method Logout()
      requires Valid() && CurrentPhase() == MainArea
      modifies this
      ensures Valid() && CurrentPhase() == AuthPage
      ensures !loggedIn && !started && userContact == None && mastered == None && difficult == None
    {
      loggedIn, started := false, false;
      userContact, mastered, difficult := None, None, None;
    }
  }

  /** The session's two sets are the ones a pull of its user's collection
      would build now. */
  ghost predicate InSync(db: Database, s: Session)
    reads db, s
  {
    && s.userContact.Some? && s.mastered.Some? && s.difficult.Some?
    && Readable(db.ProgressOf(s.userContact.value))
    && s.mastered.value == FlaggedKeys(db.ProgressOf(s.userContact.value), MasteredField)
    && s.difficult.value == FlaggedKeys(db.ProgressOf(s.userContact.value), DifficultField)
  }

  /** The payload of `update_cloud_node`, built field by field: the three
      fixed fields, then each flag the caller supplied, coerced to 0 or 1. */
  method BuildUpdateData(sid: string, title: string, today: string, m: Option<bool>, d: Option<bool>)
    returns (updateData: Payload)
    ensures updateData == UpdatePayload(sid, title, today, m, d)
  {
    updateData := map[SubjectField := Put(Str(sid)), TitleField := Put(Str(title)), UpdatedField := Put(Str(today))];
    if m.Some? {
      updateData := updateData[MasteredField := Put(Int(if m.value then 1 else 0))];
    }
    if d.Some? {
      updateData := updateData[DifficultField := Put(Int(if d.value then 1 else 0))];
    }
  }

  /** `update_cloud_node`: merge-write the point's fields into the user's
      progress collection. Nothing outside that collection changes. */
  method UpdateCloudNode(db: Database, md5: string -> string, userId: string, sid: string, title: string,
                         today: string, m: Option<bool>, d: Option<bool>)
    modifies db
    ensures db.progress == old(db.progress)[userId := WriteProgress(old(db.ProgressOf(userId)), md5, sid, title, today, m, d)]
    ensures db.users == old(db.users) && db.stats == old(db.stats)
    ensures old(db.Valid(md5)) ==> db.Valid(md5)
  {
    var docId := md5(PointKey(sid, title));
    var updateData := BuildUpdateData(sid, title, today, m, d);
    var before := db.ProgressOf(userId);
    if db.Valid(md5) {
      WriteWellFormed(before, md5, sid, title, today, m, d);
    }
    var written := SetDoc(before, docId, updateData, true);
    assert written == WriteProgress(before, md5, sid, title, today, m, d);
    db.progress := db.progress[userId := written];
  }

  /** `sync_user_data`: rebuild both session sets from the user's stored
      records. The sets are replaced, never merged with what the session
      held; a record missing its subject or title aborts the pull and leaves
      the session as it was. */
  method SyncUserData(db: Database, s: Session, userId: string) returns (ok: bool)
    requires s.Valid() && s.CurrentPhase() == MainArea && s.userContact == Some(userId)
    modifies s
    ensures s.Valid()
    ensures ok <==> Readable(db.ProgressOf(userId))
    ensures ok ==> InSync(db, s)
    ensures !ok ==> s.mastered == old(s.mastered) && s.difficult == old(s.difficult)
    ensures s.loggedIn == old(s.loggedIn) && s.started == old(s.started) && s.userContact == old(s.userContact)
  {
    var mastered, difficult;
    ok, mastered, difficult := CollectFlags(db.ProgressOf(userId));
    if ok {
      s.mastered := Some(mastered);
      s.difficult := Some(difficult);
    }
  }

  /** Entering the main area pulls once: only when the session has no
      progress sets yet. */
  method EnterMainArea(db: Database, s: Session) returns (ok: bool)
    requires s.Valid() && s.CurrentPhase() == MainArea
    modifies s
    ensures s.Valid() && s.CurrentPhase() == MainArea
    ensures old(s.mastered).Some? ==> ok && s.mastered == old(s.mastered) && s.difficult == old(s.difficult)
    ensures old(s.mastered).None? ==>
      && (ok <==> Readable(db.ProgressOf(s.userContact.value)))
      && (ok ==> InSync(db, s))
      && (!ok ==> s.mastered == None)
    ensures s.userContact == old(s.userContact)
  {
    if s.mastered.None? {
      ok := SyncUserData(db, s, s.userContact.value);
    } else {
      ok := true;
    }
  }

  /** LOGIN: succeeds exactly when the stored password is the hash of the
      key; only then do the flags change. A failed attempt pulls nothing and
      leaves the session as it was. */
  method Login(db: Database, s: Session, hashPwd: string -> string, id: string, pwd: string) returns (ok: bool)
    requires s.Valid() && s.CurrentPhase() == AuthPage
    modifies s
    ensures s.Valid()
    ensures ok == PasswordMatches(db.users, hashPwd, id, pwd)
    ensures ok ==> s.loggedIn && s.userContact == Some(id) && s.CurrentPhase() == LinkPage
    ensures ok ==> s.started == old(s.started) && s.mastered == old(s.mastered) && s.difficult == old(s.difficult)
    ensures !ok ==> unchanged(s)
  {
    var stored := if id in db.users then Get(db.users[id], PasswordField) else None;
    ok := id in db.users && stored == Some(Str(hashPwd(pwd)));
    if ok {
      s.loggedIn := true;
      s.userContact := Some(id);
    }
  }

  /** REGISTER: refuses an existing id, then a short key; otherwise writes the
      account document and increments the shared user count. A refusal
      writes nothing. */
  method RegisterUser(db: Database, hashPwd: string -> string, id: string, pwd: string, today: string)
    returns (err: Option<RegisterError>)
    modifies db
    ensures var r := Register(old(db.users), old(db.stats), hashPwd, id, pwd, today);
      && (err.Some? <==> r.Failure?)
      && (r.Failure? ==> err == Some(r.error) && db.users == old(db.users) && db.stats == old(db.stats))
      && (r.Success? ==> db.users == r.value.0 && db.stats == r.value.1)
    ensures db.progress == old(db.progress)
  {
    if id in db.users {
      err := Some(IdTaken);
    } else if |pwd| < MinKeyLength {
      err := Some(KeyTooShort);
    } else {
      db.users := SetDoc(db.users, id, AccountPayload(hashPwd, pwd, today), false);
      db.stats := SetDoc(db.stats, GlobalStatsId, map[UserCountField := Increment(1)], true);
      err := None;
    }
  }

  /** The difficult button of a point: write the flipped flag, then flip the
      key's membership in the session's difficult set. The mastered set and
      every other key stay as they were, and a session in step with the store
      stays in step. */
  method ToggleDifficult(db: Database, s: Session, md5: string -> string, sid: string, title: string, today: string)
    requires s.Valid() && s.CurrentPhase() == MainArea && s.difficult.Some?
    modifies db, s
    ensures s.Valid() && s.CurrentPhase() == MainArea
    ensures var u := s.userContact.value; var key := PointKey(sid, title);
      db.progress == old(db.progress)[u := WriteProgress(old(db.ProgressOf(u)), md5, sid, title, today,
                                                         None, Some(key !in old(s.difficult.value)))]
    ensures db.users == old(db.users) && db.stats == old(db.stats)
    ensures var key := PointKey(sid, title);
      s.difficult == Some(if key in old(s.difficult.value) then old(s.difficult.value) - {key}
                          else old(s.difficult.value) + {key})
    ensures s.mastered == old(s.mastered) && s.userContact == old(s.userContact)
    ensures old(db.Valid(md5)) ==> db.Valid(md5)
    ensures old(InSync(db, s) && db.Valid(md5) && NoCollision(db.ProgressOf(s.userContact.value), md5, PointKey(sid, title)))
      ==> InSync(db, s)
  {
    var u := s.userContact.value;
    var key := PointKey(sid, title);
    var isD := key in s.difficult.value;
    ghost var before := db.ProgressOf(u);
    ghost var wasValid := db.Valid(md5);
    UpdateCloudNode(db, md5, u, sid, title, today, None, Some(!isD));
    if !isD {
      s.difficult := Some(s.difficult.value + {key});
    } else {
      s.difficult := Some(s.difficult.value - {key});
    }
    if wasValid {
      WriteThenPull(before, md5, sid, title, today, None, Some(!isD));
    }
  }

  /** The mastered checkbox of a point: checking an unmastered point writes
      mastered and adds its key; unchecking a mastered one writes unmastered
      and removes it; otherwise nothing happens. */
  method MasteredCheckbox(db: Database, s: Session, md5: string -> string, sid: string, title: string,
                          today: string, checked: bool)
    requires s.Valid() && s.CurrentPhase() == MainArea && s.mastered.Some?
    modifies db, s
    ensures s.Valid() && s.CurrentPhase() == MainArea
    ensures var u := s.userContact.value; var key := PointKey(sid, title);
      db.progress == if checked == (key in old(s.mastered.value)) then old(db.progress)
                     else old(db.progress)[u := WriteProgress(old(db.ProgressOf(u)), md5, sid, title, today,
                                                               Some(checked), None)]
    ensures db.users == old(db.users) && db.stats == old(db.stats)
    ensures var key := PointKey(sid, title);
      s.mastered == Some(if checked then old(s.mastered.value) + {key} else old(s.mastered.value) - {key})
    ensures s.difficult == old(s.difficult) && s.userContact == old(s.userContact)
    ensures old(db.Valid(md5)) ==> db.Valid(md5)
    ensures old(InSync(db, s) && db.Valid(md5) && NoCollision(db.ProgressOf(s.userContact.value), md5, PointKey(sid, title)))
      ==> InSync(db, s)
  {
    var u := s.userContact.value;
    var key := PointKey(sid, title);
    var isM := key in s.mastered.value;
    ghost var before := db.ProgressOf(u);
    ghost var wasValid := db.Valid(md5);
    if checked {
      if !isM {
        UpdateCloudNode(db, md5, u, sid, title, today, Some(true), None);
        s.mastered := Some(s.mastered.value + {key});
        if wasValid {
          WriteThenPull(before, md5, sid, title, today, Some(true), None);
        }
      } else {
        assert s.mastered.value + {key} == s.mastered.value;
      }
    } else if isM {
      UpdateCloudNode(db, md5, u, sid, title, today, Some(false), None);
      s.mastered := Some(s.mastered.value - {key});
      if wasValid {
        WriteThenPull(before, md5, sid, title, today, Some(false), None);
      }
    } else {
      assert s.mastered.value - {key} == s.mastered.value;
    }
  }
}
