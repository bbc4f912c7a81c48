/**
 * The per-user data facade: a handle bound to one user id whose every write lands under
 * that user's key prefix ["users", userId].
 */
module UserData {
  import opened Common
  import opened Keys
  import opened Store
  import opened Schema

  /** The argument of `createUserDatabase`: a user record without its databases. */
  datatype NewUser = NewUser(id: string, email: string, name: string, createdAt: Time)

  datatype UserError = UserAlreadyExists | UserNotFound

  /** The record `createUserDatabase` stores: the given profile plus one empty database named "default". */
  function InitialUser(user: NewUser, databaseId: string, now: Time): UserSchema {
    UserSchema(user.id, user.email, user.name, user.createdAt,
               [UserDatabase(databaseId, "default", now, DatabaseSchema([], [], [], [], []))])
  }

  /** The stored user keeps the given profile and owns exactly one database, "default", all of whose lists are empty. */
  lemma InitialUserShape(user: NewUser, databaseId: string, now: Time)
    ensures var u := InitialUser(user, databaseId, now);
      && u.id == user.id && u.email == user.email && u.name == user.name && u.createdAt == user.createdAt
      && |u.databases| == 1 && u.databases[0].name == "default" && u.databases[0].id == databaseId
      && var s := u.databases[0].schema;
         s.timeEntries == [] && s.projects == [] && s.clients == [] && s.invoices == [] && s.apiKeys == []
  {
  }

  /** A stored key strictly under a user's time-entry prefix is that user's time-entry key for the entry it holds. */
  lemma TimeEntryKeyShape(d: Db, userId: string, k: Key)
    requires WellFormed(d) && k in d && StrictPrefix(TimeEntriesPrefix(userId), k)
    ensures d[k].value.TimeEntryRecord? && k == TimeEntryKey(userId, d[k].value.entry.id)
  {
    assert k[..3] == TimeEntriesPrefix(userId);
    assert k[0] == "users" && k[1] == userId && k[2] == "timeEntries";
    assert Holds(k, d[k].value);
    assert k == [k[0], k[1], k[2], k[3]];
  }

  /** Two time-entry keys of one user are ordered as their ids are. */
  lemma TimeEntryKeyOrder(userId: string, a: string, b: string)
    requires KeyLess(TimeEntryKey(userId, a), TimeEntryKey(userId, b))
    ensures StrLess(a, b)
  {
    assert TimeEntryKey(userId, a) == TimeEntriesPrefix(userId) + [a];
    assert TimeEntryKey(userId, b) == TimeEntriesPrefix(userId) + [b];
    KeyLessSamePrefix(TimeEntriesPrefix(userId), a, b);
  }

  /** Under the store invariant, every value listed under a user's time-entry prefix is a time entry kept under its own id. */
  lemma TimeEntryListing(d: Db, userId: string)
    requires WellFormed(d)
    ensures var l := Listing(d, TimeEntriesPrefix(userId));
      && (forall i :: 0 <= i < |l| ==>
            && l[i].0 in d
            && d[l[i].0].value == l[i].1
            && l[i].1.TimeEntryRecord?
            && l[i].0 == TimeEntryKey(userId, l[i].1.entry.id))
      && (forall id :: TimeEntryKey(userId, id) in d ==> exists i :: 0 <= i < |l| && l[i].0 == TimeEntryKey(userId, id))
      && (forall i, j :: 0 <= i < j < |l| ==> StrLess(l[i].1.entry.id, l[j].1.entry.id))
  {
    var p := TimeEntriesPrefix(userId);
    var l := Listing(d, p);
    ListingShape(d, p);
    forall i | 0 <= i < |l|
      ensures l[i].1.TimeEntryRecord? && l[i].0 == TimeEntryKey(userId, l[i].1.entry.id)
    {
      TimeEntryKeyShape(d, userId, l[i].0);
    }
    forall id | TimeEntryKey(userId, id) in d
      ensures exists i :: 0 <= i < |l| && l[i].0 == TimeEntryKey(userId, id)
    {
      assert StrictPrefix(p, TimeEntryKey(userId, id));
    }
    forall i, j | 0 <= i < j < |l| ensures StrLess(l[i].1.entry.id, l[j].1.entry.id) {
      TimeEntryKeyOrder(userId, l[i].1.entry.id, l[j].1.entry.id);
    }
  }

  /** Entries read off the listing in order are stored under their own ids, cover every stored id and ascend. */
  lemma TimeEntriesRead(d: Db, userId: string, r: seq<TimeEntry>)
    requires WellFormed(d)
    requires var l := Listing(d, TimeEntriesPrefix(userId));
      |r| == |l| && forall i :: 0 <= i < |r| ==> l[i].1 == TimeEntryRecord(r[i])
    ensures forall i :: 0 <= i < |r| ==>
      TimeEntryKey(userId, r[i].id) in d && d[TimeEntryKey(userId, r[i].id)].value == TimeEntryRecord(r[i])
    ensures forall id :: TimeEntryKey(userId, id) in d ==> exists i :: 0 <= i < |r| && r[i].id == id
    ensures forall i, j :: 0 <= i < j < |r| ==> StrLess(r[i].id, r[j].id)
  {
    var l := Listing(d, TimeEntriesPrefix(userId));
    TimeEntryListing(d, userId);
    assert forall j :: 0 <= j < |r| ==> l[j].0 == TimeEntryKey(userId, r[j].id);
    forall id | TimeEntryKey(userId, id) in d ensures exists i :: 0 <= i < |r| && r[i].id == id {
      var j :| 0 <= j < |l| && l[j].0 == TimeEntryKey(userId, id);
      assert r[j].id == id;
    }
  }

  class UserKV {
    const kv: Kv<Value>
    const userId: string

    constructor (kv: Kv<Value>, userId: string)
      ensures this.kv == kv && this.userId == userId
    {
      this.kv := kv;
      this.userId := userId;
    }

    /**
     * Creates the user record exactly once: an atomic batch that checks ["users", id] is absent
     * and sets it.  Fails with UserAlreadyExists, changing nothing, when the key is present.
     */
    static method CreateUserDatabase(kv: Kv<Value>, user: NewUser, databaseId: string, now: Time)
      returns (r: Result<UserKV, UserError>)
      requires WellFormed(kv.data)
      modifies kv
      ensures WellFormed(kv.data)
      ensures r.Ok? <==> UserKey(user.id) !in old(kv.data)
      ensures r.Err? ==> r.error == UserAlreadyExists && kv.data == old(kv.data)
      ensures r.Ok? ==>
        && fresh(r.value) && r.value.kv == kv && r.value.userId == user.id
        && kv.data == old(kv.data)[UserKey(user.id) := Entry(UserRecord(InitialUser(user, databaseId, now)), None)]
      ensures UnchangedOutside(old(kv.data), kv.data, UserKey(user.id))
    {
      var key := UserKey(user.id);
      var newUser := InitialUser(user, databaseId, now);
      ApplyAllOne(kv.data, Put(key, UserRecord(newUser), None));
      var ok := kv.Commit(AtomicOp([key], [Put(key, UserRecord(newUser), None)]));
      assert ok <==> key !in old(kv.data) by {
        assert [key][0] == key;
      }
      if !ok {
        return Err(UserAlreadyExists);
      }
      var handle := new UserKV(kv, user.id);
      r := Ok(handle);
    }

    /** Stores `entry` under a fresh id at ["users", userId, "timeEntries", id] and returns the stored record. */
    method AddTimeEntry(entry: TimeEntry, id: string) returns (r: TimeEntry)
      requires WellFormed(kv.data)
      modifies kv
      ensures r.id == id && r.(id := entry.id) == entry
      ensures kv.data == old(kv.data)[TimeEntryKey(userId, id) := Entry(TimeEntryRecord(r), None)]
      ensures UnchangedOutside(old(kv.data), kv.data, UserKey(userId))
      ensures WellFormed(kv.data)
    {
      r := entry.(id := id);
      PutWellFormed(kv.data, TimeEntryKey(userId, id), TimeEntryRecord(r), None);
      PutConfined(kv.data, TimeEntryKey(userId, id), Entry(TimeEntryRecord(r), None), UserKey(userId));
      kv.Set(TimeEntryKey(userId, id), TimeEntryRecord(r), None);
    }

    /**
     * Every time entry stored under ["users", userId, "timeEntries"], in the store's key order
     * (ascending id); the store is only read.
     */
    method GetTimeEntries() returns (r: seq<TimeEntry>)
      requires WellFormed(kv.data)
      ensures var l := Listing(kv.data, TimeEntriesPrefix(userId));
        |r| == |l| && forall i :: 0 <= i < |r| ==> l[i].1 == TimeEntryRecord(r[i])
      ensures forall i :: 0 <= i < |r| ==>
        TimeEntryKey(userId, r[i].id) in kv.data && kv.data[TimeEntryKey(userId, r[i].id)].value == TimeEntryRecord(r[i])
      ensures forall id :: TimeEntryKey(userId, id) in kv.data ==> exists i :: 0 <= i < |r| && r[i].id == id
      ensures forall i, j :: 0 <= i < j < |r| ==> StrLess(r[i].id, r[j].id)
    {
      var entries := kv.List(TimeEntriesPrefix(userId));
      TimeEntryListing(kv.data, userId);
      r := [];
      var i := 0;
      while i < |entries|
        invariant 0 <= i <= |entries|
        invariant |r| == i
        invariant forall j :: 0 <= j < i ==> entries[j].1 == TimeEntryRecord(r[j])
      {
        r := r + [entries[i].1.entry];
        i := i + 1;
      }
      TimeEntriesRead(kv.data, userId, r);
    }

    /** Stores `project` under a fresh id at ["users", userId, "projects", id]. */
    method AddProject(project: Project, id: string) returns (r: Project)
      requires WellFormed(kv.data)
      modifies kv
      ensures r.id == id && r.(id := project.id) == project
      ensures kv.data == old(kv.data)[ProjectKey(userId, id) := Entry(ProjectRecord(r), None)]
      ensures UnchangedOutside(old(kv.data), kv.data, UserKey(userId))
      ensures WellFormed(kv.data)
    {
      r := project.(id := id);
      PutWellFormed(kv.data, ProjectKey(userId, id), ProjectRecord(r), None);
      PutConfined(kv.data, ProjectKey(userId, id), Entry(ProjectRecord(r), None), UserKey(userId));
      kv.Set(ProjectKey(userId, id), ProjectRecord(r), None);
    }

    /** Stores `client` under a fresh id at ["users", userId, "clients", id]. */
    method AddClient(client: Client, id: string) returns (r: Client)
      requires WellFormed(kv.data)
      modifies kv
      ensures r.id == id && r.(id := client.id) == client
      ensures kv.data == old(kv.data)[ClientKey(userId, id) := Entry(ClientRecord(r), None)]
      ensures UnchangedOutside(old(kv.data), kv.data, UserKey(userId))
      ensures WellFormed(kv.data)
    {
      r := client.(id := id);
      PutWellFormed(kv.data, ClientKey(userId, id), ClientRecord(r), None);
      PutConfined(kv.data, ClientKey(userId, id), Entry(ClientRecord(r), None), UserKey(userId));
      kv.Set(ClientKey(userId, id), ClientRecord(r), None);
    }

    /**
     * Stores a new API key with the given name and permissions, a fresh id and a fresh secret
     * `key`, created and last used `now`, at ["users", userId, "apiKeys", id].
     */
    method CreateApiKey(name: string, permissions: seq<string>, id: string, key: string, now: Time)
      returns (r: ApiKey)
      requires WellFormed(kv.data)
      modifies kv
      ensures r.id == id && r.name == name && r.key == key && r.permissions == permissions
      ensures r.createdAt == now && r.lastUsed == now
      ensures kv.data == old(kv.data)[ApiKeyKey(userId, id) := Entry(ApiKeyRecord(r), None)]
      ensures UnchangedOutside(old(kv.data), kv.data, UserKey(userId))
      ensures WellFormed(kv.data)
    {
      r := ApiKey(id, name, key, now, now, permissions);
      PutWellFormed(kv.data, ApiKeyKey(userId, r.id), ApiKeyRecord(r), None);
      PutConfined(kv.data, ApiKeyKey(userId, r.id), Entry(ApiKeyRecord(r), None), UserKey(userId));
      kv.Set(ApiKeyKey(userId, r.id), ApiKeyRecord(r), None);
    }

    /** The user record at ["users", userId]; fails with UserNotFound when there is none.  Only reads. */
    method GetUser() returns (r: Result<UserSchema, UserError>)
      requires WellFormed(kv.data)
      ensures r.Ok? <==> UserKey(userId) in kv.data
      ensures r.Ok? ==> kv.data[UserKey(userId)].value == UserRecord(r.value) && r.value.id == userId
      ensures r.Err? ==> r.error == UserNotFound
    {
      var v := kv.Get(UserKey(userId));
      if v.None? {
        return Err(UserNotFound);
      }
      r := Ok(v.value.user);
    }
  }
}
