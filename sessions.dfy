/**
 * Login sessions: a session record under ["sessions", id], kept for seven days.  The same
 * name space also receives the provider-token record the OAuth callback writes under
 * ["sessions", userId], so a read may return either kind.
 */
module Sessions {
  import opened Common
  import opened Keys
  import opened Store
  import opened Schema

  /** A session record for `userId` via `provider`, created at `now` and expiring seven days later. */
  function NewSession(userId: string, provider: string, id: string, now: Time): Session {
    Session(id, userId, provider, now, now + SevenDaysMs)
  }

  /** Under the store invariant a value read from the session name space is one of the two record kinds stored there. */
  lemma SessionReadKinds(d: Db, id: string)
    requires WellFormed(d)
    ensures Lookup(d, SessionKey(id)).Some? ==>
      var v := Lookup(d, SessionKey(id)).value;
      || (v.SessionRecord? && v.session.id == id)
      || (v.OAuthSessionRecord? && v.oauthSession.userId == id)
  {
    if SessionKey(id) in d {
      assert Holds(SessionKey(id), d[SessionKey(id)].value);
    }
  }

  /**
   * A created session reads back as itself until it is deleted; deletion makes the read answer
   * nothing; neither touches any other key.
   */
  lemma SessionLifecycle(d: Db, s: Session, other: Key)
    requires other != SessionKey(s.id)
    ensures var d1 := d[SessionKey(s.id) := Entry(SessionRecord(s), Some(SevenDaysMs))];
      && Lookup(d1, SessionKey(s.id)) == Some(SessionRecord(s))
      && Lookup(d1 - {SessionKey(s.id)}, SessionKey(s.id)) == None
      && Lookup(d1, other) == Lookup(d, other)
      && Lookup(d1 - {SessionKey(s.id)}, other) == Lookup(d, other)
  {
  }

  class SessionManager {
    const kv: Kv<Value>

    constructor (kv: Kv<Value>)
      ensures this.kv == kv
    {
      this.kv := kv;
    }

    /**
     * Stores a new session with a fresh id under ["sessions", id], expiring after seven days,
     * and returns it.
     */
    method CreateSession(userId: string, provider: string, id: string, now: Time) returns (s: Session)
      requires WellFormed(kv.data)
      modifies kv
      ensures s.id == id && s.userId == userId && s.provider == provider
      ensures s.createdAt == now && s.expiresAt == now + SevenDaysMs
      ensures kv.data == old(kv.data)[SessionKey(id) := Entry(SessionRecord(s), Some(SevenDaysMs))]
      ensures Lookup(kv.data, SessionKey(id)) == Some(SessionRecord(s))
      ensures forall k :: k != SessionKey(id) ==> Lookup(kv.data, k) == Lookup(old(kv.data), k)
      ensures WellFormed(kv.data)
    {
      s := NewSession(userId, provider, id, now);
      PutWellFormed(kv.data, SessionKey(s.id), SessionRecord(s), Some(SevenDaysMs));
      ghost var before := kv.data;
      kv.Set(SessionKey(s.id), SessionRecord(s), Some(SevenDaysMs));
      forall k | k != SessionKey(id)
        ensures Lookup(kv.data, k) == Lookup(before, k)
      {
        SessionLifecycle(before, s, k);
      }
    }

    /** The value under ["sessions", sessionId], or nothing; only reads. */
    method GetSession(sessionId: string) returns (r: Option<Value>)
      requires WellFormed(kv.data)
      ensures r.Some? <==> SessionKey(sessionId) in kv.data
      ensures r.Some? ==> kv.data[SessionKey(sessionId)].value == r.value
      ensures r.Some? ==>
        || (r.value.SessionRecord? && r.value.session.id == sessionId)
        || (r.value.OAuthSessionRecord? && r.value.oauthSession.userId == sessionId)
    {
      SessionReadKinds(kv.data, sessionId);
      r := kv.Get(SessionKey(sessionId));
    }

    /** Removes ["sessions", sessionId]; deleting an absent session is not an error. */
    method DeleteSession(sessionId: string)
      requires WellFormed(kv.data)
      modifies kv
      ensures kv.data == old(kv.data) - {SessionKey(sessionId)}
      ensures Lookup(kv.data, SessionKey(sessionId)) == None
      ensures WellFormed(kv.data)
    {
      RemoveWellFormed(kv.data, SessionKey(sessionId));
      kv.Delete(SessionKey(sessionId));
    }
  }
}
