/**
 * The records the application keeps in its one shared store, the keys it keeps them under,
 * and the invariant every operation of the model keeps: each kind of key holds the kind of
 * record its shape names.
 */
module Schema {
  import opened Common
  import opened Keys
  import opened Store

  /** A `Date`, as milliseconds since the epoch. */
  type Time = int

  // ---------------------------------------------------------------- per-user data (kv/mod.ts)

  datatype UserSchema = UserSchema(id: string, email: string, name: string, createdAt: Time,
                                   databases: seq<UserDatabase>)

  datatype UserDatabase = UserDatabase(id: string, name: string, createdAt: Time, schema: DatabaseSchema)

  datatype DatabaseSchema = DatabaseSchema(timeEntries: seq<TimeEntry>, projects: seq<Project>,
                                           clients: seq<Client>, invoices: seq<Invoice>,
                                           apiKeys: seq<ApiKey>)

  /**
   * A time entry.  `projectId` is absent from the entries the timer creates, and `endTime` is
   * null while the entry runs; `rate` is a JavaScript number, kept as an exact real.
   */
  datatype TimeEntry = TimeEntry(id: string, userId: string, projectId: Option<string>,
                                 startTime: Time, endTime: Option<Time>, description: string,
                                 tags: seq<string>, rate: real)

  datatype ProjectStatus = Active | Archived

  datatype Project = Project(id: string, name: string, clientId: string, rate: real, status: ProjectStatus)

  datatype BillingInfo = BillingInfo(address: string, paymentTerms: string, currency: string)

  datatype Client = Client(id: string, name: string, email: string, billingInfo: BillingInfo)

  datatype InvoiceStatus = Draft | Sent | Paid

  datatype Invoice = Invoice(id: string, clientId: string, timeEntries: seq<string>, amount: real,
                             status: InvoiceStatus, createdAt: Time)

  datatype ApiKey = ApiKey(id: string, name: string, key: string, createdAt: Time, lastUsed: Time,
                           permissions: seq<string>)

  // ---------------------------------------------------------------- authentication (auth/)

  datatype Session = Session(id: string, userId: string, provider: string, createdAt: Time, expiresAt: Time)

  /** The record tying an OAuth callback to the request that started it. */
  datatype OAuthState = OAuthState(provider: string, codeVerifier: string, redirectUrl: string, createdAt: Time)

  /** What the callback learns about the user; `email`/`name` are `None` where the provider sent none. */
  datatype OAuthSession = OAuthSession(userId: string, provider: string, accessToken: string,
                                       refreshToken: Option<string>, expiresAt: Time,
                                       email: Option<string>, name: Option<string>)

  /** Every kind of value the application stores. */
  datatype Value =
    | UserRecord(user: UserSchema)
    | TimeEntryRecord(entry: TimeEntry)
    | ProjectRecord(project: Project)
    | ClientRecord(client: Client)
    | ApiKeyRecord(apiKey: ApiKey)
    | SessionRecord(session: Session)
    | OAuthStateRecord(state: OAuthState)
    | OAuthSessionRecord(oauthSession: OAuthSession)

  type Db = Data<Value>

  /** Seven days in milliseconds: the lifetime of sessions and of the callback's session record. */
  const SevenDaysMs: nat := 7 * 24 * 60 * 60 * 1000

  /** Ten minutes in milliseconds: the lifetime of a stored OAuth state. */
  const StateTtlMs: nat := 600000

  // ---------------------------------------------------------------- keys

  function UserKey(userId: string): Key { ["users", userId] }
  function ActiveEntryKey(userId: string): Key { ["users", userId, "activeTimeEntry"] }
  function TimeEntriesPrefix(userId: string): Key { ["users", userId, "timeEntries"] }
  function TimeEntryKey(userId: string, id: string): Key { ["users", userId, "timeEntries", id] }
  function ProjectKey(userId: string, id: string): Key { ["users", userId, "projects", id] }
  function ClientKey(userId: string, id: string): Key { ["users", userId, "clients", id] }
  function ApiKeyKey(userId: string, id: string): Key { ["users", userId, "apiKeys", id] }
  function SessionKey(id: string): Key { ["sessions", id] }
  function OAuthStateKey(state: string): Key { ["oauth-states", state] }

  /** What a key of each shape may hold; a key of no known shape holds nothing. */
  predicate Holds(k: Key, v: Value) {
    if |k| == 2 && k[0] == "users" then v.UserRecord? && v.user.id == k[1]
    else if |k| == 3 && k[0] == "users" && k[2] == "activeTimeEntry" then v.TimeEntryRecord?
    else if |k| == 4 && k[0] == "users" && k[2] == "timeEntries" then v.TimeEntryRecord? && v.entry.id == k[3]
    else if |k| == 4 && k[0] == "users" && k[2] == "projects" then v.ProjectRecord? && v.project.id == k[3]
    else if |k| == 4 && k[0] == "users" && k[2] == "clients" then v.ClientRecord? && v.client.id == k[3]
    else if |k| == 4 && k[0] == "users" && k[2] == "apiKeys" then v.ApiKeyRecord? && v.apiKey.id == k[3]
    else if |k| == 2 && k[0] == "sessions" then
      || (v.SessionRecord? && v.session.id == k[1])
      || (v.OAuthSessionRecord? && v.oauthSession.userId == k[1])
    else if |k| == 2 && k[0] == "oauth-states" then v.OAuthStateRecord?
    else false
  }

  /** The store invariant: every stored key holds a record of the kind its shape names. */
  predicate WellFormed(d: Db) {
    forall k :: k in d ==> Holds(k, d[k].value)
  }

  lemma PutWellFormed(d: Db, k: Key, v: Value, ttl: Option<nat>)
    requires WellFormed(d) && Holds(k, v)
    ensures WellFormed(d[k := Entry(v, ttl)])
  {
  }

  lemma RemoveWellFormed(d: Db, k: Key)
    requires WellFormed(d)
    ensures WellFormed(d - {k})
  {
  }

  /** Every key outside `p` holds in `after` exactly what it held in `before`. */
  ghost predicate UnchangedOutside(before: Db, after: Db, p: Key) {
    forall k :: !HasPrefix(p, k) ==> (k in before <==> k in after) && (k in before ==> before[k] == after[k])
  }

  /** Writing a key under `p` leaves everything outside `p` as it was. */
  lemma PutConfined(d: Db, k: Key, e: Entry<Value>, p: Key)
    requires HasPrefix(p, k)
    ensures UnchangedOutside(d, d[k := e], p)
  {
  }

  /** The keys of the name spaces the application uses never coincide across name spaces. */
  lemma KeySpacesDisjoint(u: string, v: string, id: string, s: string)
    ensures ActiveEntryKey(u) != TimeEntryKey(v, id)
    ensures UserKey(u) != SessionKey(id) && UserKey(u) != OAuthStateKey(s)
    ensures SessionKey(id) != OAuthStateKey(s)
    ensures HasPrefix(UserKey(u), ActiveEntryKey(u)) && HasPrefix(UserKey(u), TimeEntryKey(u, id))
    ensures HasPrefix(UserKey(u), ProjectKey(u, id)) && HasPrefix(UserKey(u), ClientKey(u, id))
    ensures HasPrefix(UserKey(u), ApiKeyKey(u, id)) && StrictPrefix(TimeEntriesPrefix(u), TimeEntryKey(u, id))
  {
  }
}
