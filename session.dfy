/** The session table of src/bridge/session.ts: one `UserSession` per
    conversation key, created on demand, merged on update and swept when
    idle for longer than the timeout. The clock is the `now` parameter. */
module Session {
  import opened Wrappers
  import opened Types
  import opened Text

  /** Thirty minutes, in milliseconds. */
  const DefaultSessionTimeout: int := 30 * 60 * 1000

  /** The conversation key: `platform:groupId:userId` inside a group,
      `platform:userId` in a private chat (an empty group id counts as absent). */
  function SessionKey(platform: Platform, userId: string, groupId: Option<string>): string {
    if Truthy(groupId) then PlatformName(platform) + ":" + groupId.value + ":" + userId
    else PlatformName(platform) + ":" + userId
  }

  /** A key splits at its colons back into its parts when the parts hold none. */
  lemma {:induction false} SessionKeyParts(platform: Platform, userId: string, groupId: Option<string>)
    requires ':' !in userId
    requires groupId.Some? ==> ':' !in groupId.value
    ensures Truthy(groupId) ==>
      Split(SessionKey(platform, userId, groupId), ':') == [PlatformName(platform), groupId.value, userId]
    ensures !Truthy(groupId) ==>
      Split(SessionKey(platform, userId, groupId), ':') == [PlatformName(platform), userId]
  {
    var name := PlatformName(platform);
    if Truthy(groupId) {
      var g := groupId.value;
      assert SessionKey(platform, userId, groupId) == name + [':'] + (g + [':'] + userId);
      SplitAtFirst(name, g + [':'] + userId, ':');
      SplitAtFirst(g, userId, ':');
    } else {
      assert SessionKey(platform, userId, groupId) == name + [':'] + userId;
      SplitAtFirst(name, userId, ':');
    }
  }

  /** With colon-free ids, the key determines platform, user and group scope:
      in particular a user's group key and private key never coincide, and two
      groups never share a key. */
  lemma SessionKeyInjective(p1: Platform, u1: string, g1: Option<string>,
                            p2: Platform, u2: string, g2: Option<string>)
    requires ':' !in u1 && ':' !in u2
    requires g1.Some? ==> ':' !in g1.value
    requires g2.Some? ==> ':' !in g2.value
    requires SessionKey(p1, u1, g1) == SessionKey(p2, u2, g2)
    ensures p1 == p2 && u1 == u2 && Truthy(g1) == Truthy(g2)
    ensures Truthy(g1) ==> g1.value == g2.value
  {
    SessionKeyParts(p1, u1, g1);
    SessionKeyParts(p2, u2, g2);
    assert PlatformName(p1) == PlatformName(p2);
  }

  /** Strict expiry: idle for more than the timeout. */
  predicate Expired(s: UserSession, now: int, timeout: int) {
    now - s.lastActive > timeout
  }

  /** The boundary of expiry: exactly `timeout` idle is still live, one
      millisecond more is expired. */
  lemma ExpiryBoundary(s: UserSession, timeout: int)
    ensures !Expired(s, s.lastActive + timeout, timeout)
    ensures Expired(s, s.lastActive + timeout + 1, timeout)
  {
  }

  /** The session `getOrCreate` makes for a new or expired key. */
  function FreshSession(platform: Platform, userId: string, now: int): UserSession {
    UserSession(userId, platform, None, now, Idle)
  }

  /** A `Partial<UserSession>`: each field is either given or left alone.
      `opencodeSessionId: Some(None)` is the explicit `undefined` that unsets it. */
  datatype SessionPatch = SessionPatch(
    userId: Option<string>,
    platform: Option<Platform>,
    opencodeSessionId: Option<Option<string>>,
    lastActive: Option<int>,
    status: Option<SessionStatus>)

  function StatusPatch(status: SessionStatus): SessionPatch {
    SessionPatch(None, None, None, None, Some(status))
  }

  /** `Object.assign(session, patch, { lastActive: now })`. */
  function Merge(s: UserSession, p: SessionPatch, now: int): UserSession {
    UserSession(
      p.userId.GetOr(s.userId),
      p.platform.GetOr(s.platform),
      p.opencodeSessionId.GetOr(s.opencodeSessionId),
      now,
      p.status.GetOr(s.status))
  }

  /** Merging refreshes `lastActive` whatever the patch says, takes every given
      field from the patch and keeps every other field. */
  lemma MergeFields(s: UserSession, p: SessionPatch, now: int)
    ensures Merge(s, p, now).lastActive == now
    ensures p.status.Some? ==> Merge(s, p, now).status == p.status.value
    ensures p.status.None? ==> Merge(s, p, now).status == s.status
    ensures p.opencodeSessionId.Some? ==> Merge(s, p, now).opencodeSessionId == p.opencodeSessionId.value
    ensures p.opencodeSessionId.None? ==> Merge(s, p, now).opencodeSessionId == s.opencodeSessionId
    ensures p.userId.None? && p.platform.None? ==>
      Merge(s, p, now).userId == s.userId && Merge(s, p, now).platform == s.platform
  {
  }

  /** The keys a sweep at `now` removes. */
  function ExpiredKeys(m: map<string, UserSession>, now: int, timeout: int): set<string> {
    set k | k in m && Expired(m[k], now, timeout)
  }

  /** The table a sweep at `now` leaves. */
  function LiveSessions(m: map<string, UserSession>, now: int, timeout: int): map<string, UserSession> {
    map k | k in m && !Expired(m[k], now, timeout) :: m[k]
  }

  /** A sweep removes exactly the expired keys, so the table shrinks by their number. */
  lemma SweepCount(m: map<string, UserSession>, now: int, timeout: int)
    ensures LiveSessions(m, now, timeout).Keys == m.Keys - ExpiredKeys(m, now, timeout)
    ensures |LiveSessions(m, now, timeout)| == |m| - |ExpiredKeys(m, now, timeout)|
  {
    var live := LiveSessions(m, now, timeout);
    var dead := ExpiredKeys(m, now, timeout);
    assert live.Keys == m.Keys - dead;
    assert m.Keys == live.Keys + dead;
    assert live.Keys !! dead;
    assert |m.Keys| == |live.Keys| + |dead|;
  }

  /** A sweep that has looked at every key and dropped exactly the expired
      ones has produced the live table. */
  lemma SweepFinished(start: map<string, UserSession>, table: map<string, UserSession>, now: int, timeout: int)
    requires table.Keys <= start.Keys
    requires forall k :: k in table ==> table[k] == start[k]
    requires forall k :: k in start ==> (k in table <==> !Expired(start[k], now, timeout))
    ensures table == LiveSessions(start, now, timeout)
  {
  }

  /** After a sweep no remaining session is expired, and a second sweep at the
      same instant removes nothing. */
  lemma SweepIdempotent(m: map<string, UserSession>, now: int, timeout: int)
    ensures ExpiredKeys(LiveSessions(m, now, timeout), now, timeout) == {}
    ensures LiveSessions(LiveSessions(m, now, timeout), now, timeout) == LiveSessions(m, now, timeout)
  {
  }

  class SessionManager {
    /** The table, by conversation key. */
    var sessions: map<string, UserSession>
    /** Milliseconds of inactivity after which a session is expired. */
    const sessionTimeout: int

    constructor(timeout: int)
      ensures sessions == map[] && sessionTimeout == timeout
    {
      sessions := map[];
      sessionTimeout := timeout;
    }

    /** The constructor with its default argument: thirty minutes. */
    constructor Default()
      ensures sessions == map[] && sessionTimeout == DefaultSessionTimeout
    {
      sessions := map[];
      sessionTimeout := DefaultSessionTimeout;
    }

    predicate IsExpired(s: UserSession, now: int) {
      Expired(s, now, sessionTimeout)
    }

    /** The session of a live key unchanged (its `lastActive` is not refreshed);
        otherwise a fresh idle session stored under the key, replacing an expired one. */
    method GetOrCreate(platform: Platform, userId: string, groupId: Option<string>, now: int)
      returns (session: UserSession)
      modifies this
      ensures var key := SessionKey(platform, userId, groupId);
        if key in old(sessions) && !Expired(old(sessions)[key], now, sessionTimeout)
        then session == old(sessions)[key] && sessions == old(sessions)
        else session == FreshSession(platform, userId, now) && sessions == old(sessions)[key := session]
      ensures SessionKey(platform, userId, groupId) in sessions
      ensures sessions[SessionKey(platform, userId, groupId)] == session
      ensures !IsExpired(session, now) || session.lastActive == now
    {
      var key := SessionKey(platform, userId, groupId);
      if key !in sessions || IsExpired(sessions[key], now) {
        session := FreshSession(platform, userId, now);
        sessions := sessions[key := session];
      } else {
        session := sessions[key];
      }
    }

    /** Merge `patch` into the session under the key, refreshing `lastActive`;
        `None`, with nothing changed, when the key is absent. */
    method Update(platform: Platform, userId: string, patch: SessionPatch, groupId: Option<string>, now: int)
      returns (r: Option<UserSession>)
      modifies this
      ensures var key := SessionKey(platform, userId, groupId);
        if key in old(sessions)
        then r == Some(Merge(old(sessions)[key], patch, now)) && sessions == old(sessions)[key := r.value]
        else r == None && sessions == old(sessions)
      ensures sessions.Keys == old(sessions).Keys
      ensures forall k :: k in sessions && k != SessionKey(platform, userId, groupId) ==> sessions[k] == old(sessions)[k]
    {
      var key := SessionKey(platform, userId, groupId);
      if key !in sessions {
        return None;
      }
      var merged := Merge(sessions[key], patch, now);
      sessions := sessions[key := merged];
      r := Some(merged);
    }

    /** Record the backend session id and mark the conversation busy. */
    method SetOpenCodeSession(platform: Platform, userId: string, id: string, groupId: Option<string>, now: int)
      modifies this
      ensures var key := SessionKey(platform, userId, groupId);
        if key in old(sessions)
        then sessions == old(sessions)[key := old(sessions)[key].(opencodeSessionId := Some(id), status := Busy, lastActive := now)]
        else sessions == old(sessions)
    {
      var _ := Update(platform, userId, SessionPatch(None, None, Some(Some(id)), None, Some(Busy)), groupId, now);
    }

    /** Forget the backend session id and mark the conversation idle. */
    method ClearOpenCodeSession(platform: Platform, userId: string, groupId: Option<string>, now: int)
      modifies this
      ensures var key := SessionKey(platform, userId, groupId);
        if key in old(sessions)
        then sessions == old(sessions)[key := old(sessions)[key].(opencodeSessionId := None, status := Idle, lastActive := now)]
        else sessions == old(sessions)
    {
      var _ := Update(platform, userId, SessionPatch(None, None, Some(None), None, Some(Idle)), groupId, now);
    }

    /** Remove every expired session and report how many went. */
    method Cleanup(now: int) returns (cleaned: nat)
      modifies this
      ensures sessions == LiveSessions(old(sessions), now, sessionTimeout)
      ensures cleaned == |ExpiredKeys(old(sessions), now, sessionTimeout)|
      ensures |sessions| == |old(sessions)| - cleaned
    {
      var table := sessions;
      var remaining := table.Keys;
      cleaned := 0;
      while remaining != {}
        invariant remaining <= table.Keys <= sessions.Keys
        invariant forall k :: k in table ==> table[k] == sessions[k]
        invariant forall k :: k in sessions && k !in remaining ==> (k in table <==> !Expired(sessions[k], now, sessionTimeout))
        invariant cleaned == |sessions| - |table|
        decreases remaining
      {
        var key :| key in remaining;
        if IsExpired(table[key], now) {
          table := table - {key};
          cleaned := cleaned + 1;
        }
        remaining := remaining - {key};
      }
      SweepFinished(sessions, table, now, sessionTimeout);
      SweepCount(sessions, now, sessionTimeout);
      sessions := table;
    }

    /** The number of sessions in the table. */
    function Count(): nat
      reads this
    {
      |sessions|
    }
  }
}
