/** The mutable session store of session/store.go. The clock and the fresh session id are passed in. */
module SessionStores {
  import opened Basics
  import S = Sessions

  class SessionStore {
    const lower: string -> string
    var sessions: map<string, S.Session>
    var nicknameOwners: map<string, string>
    var playerNicknames: map<string, string>

    ghost var Value: S.Registry

    ghost predicate Represents(value: S.Registry)
      reads this
    {
      sessions == value.sessions && nicknameOwners == value.nicknameOwners && playerNicknames == value.playerNicknames
    }

    ghost predicate InOrder(value: S.Registry)
      reads this
    {
      Represents(value) && S.IndexValid(value)
    }

    ghost predicate Valid()
      reads this
    {
      InOrder(Value)
    }

    constructor (lower: string -> string)
      ensures Valid() && Value == S.EMPTY_REGISTRY
      ensures this.lower == lower
    {
      this.lower := lower;
      sessions, nicknameOwners, playerNicknames := map[], map[], map[];
      Value := S.EMPTY_REGISTRY;
    }

    method IsNicknameTaken(nickname: string) returns (taken: bool)
      requires Valid()
      ensures taken == S.IsNicknameTaken(Value, lower, nickname)
    {
      var canonical := lower(TrimSpace(nickname));
      if canonical == "" {
        return false;
      }
      return canonical in nicknameOwners;
    }

    method Create(sessionId: string, playerId: string, nickname: string, profile: S.Profile, now: int, ttl: int)
      returns (r: Result<S.Session, S.SessionError>)
      requires Valid() && sessionId !in sessions
      modifies this
      ensures Valid() && (Value, r) == S.Create(old(Value), lower, sessionId, playerId, nickname, profile, now + ttl)
    {
      r := Register(sessionId, playerId, nickname, profile, now + ttl, Value);
      CreateKeepsOrder(Value, sessionId, playerId, nickname, profile, now + ttl);
      Adopt(S.Create(Value, lower, sessionId, playerId, nickname, profile, now + ttl).0);
    }

    // The value is brought up to date.
    ghost method Adopt(value: S.Registry)
      requires InOrder(value)
      modifies this`Value
      ensures Valid() && Value == value
    {
      Value := value;
    }

    lemma CreateKeepsOrder(value: S.Registry, sessionId: string, playerId: string, nickname: string,
                           profile: S.Profile, expiresAt: int)
      requires S.IndexValid(value) && sessionId !in value.sessions
      requires Represents(S.Create(value, lower, sessionId, playerId, nickname, profile, expiresAt).0)
      ensures InOrder(S.Create(value, lower, sessionId, playerId, nickname, profile, expiresAt).0)
    {
      S.CreateKeepsIndex(value, lower, sessionId, playerId, nickname, profile, expiresAt);
    }

    // The body of Create, which does not depend on the index being in order.
    method Register(sessionId: string, playerId: string, nickname: string, profile: S.Profile, expiresAt: int,
                    ghost value: S.Registry)
      returns (r: Result<S.Session, S.SessionError>)
      requires Represents(value)
      modifies this`sessions, this`nicknameOwners, this`playerNicknames
      ensures var (after, result) := S.Create(value, lower, sessionId, playerId, nickname, profile, expiresAt);
              Represents(after) && r == result
    {
      var session := S.NewSession(sessionId, playerId, nickname, profile, expiresAt);
      var canonical := lower(TrimSpace(session.nickname));
      if canonical in nicknameOwners && nicknameOwners[canonical] != playerId {
        return Err(S.NicknameTaken);
      }
      if playerId in playerNicknames && playerNicknames[playerId] != canonical {
        nicknameOwners := nicknameOwners - {playerNicknames[playerId]};
      }
      nicknameOwners := nicknameOwners[canonical := playerId];
      playerNicknames := playerNicknames[playerId := canonical];
      sessions := sessions[sessionId := session];
      return Ok(session);
    }

    method Delete(sessionId: string)
      requires Valid()
      modifies this
      ensures Valid() && Value == S.Delete(old(Value), sessionId)
    {
      S.DeleteKeepsIndex(Value, sessionId);
      if sessionId !in sessions {
        return;
      }
      var session := sessions[sessionId];
      sessions := sessions - {sessionId};
      ReleaseNicknameIfUnused(session.playerId, Value.(sessions := sessions));
      Value := S.Delete(Value, sessionId);
    }

    method FindValid(sessionId: string, now: int) returns (found: Option<S.Session>)
      requires Valid()
      modifies this
      ensures Valid() && (Value, found) == S.FindValid(old(Value), sessionId, now)
      ensures found.Some? <==> sessionId in old(sessions) && now < old(sessions)[sessionId].expiresAt
    {
      if sessionId !in sessions {
        return None;
      }
      if sessions[sessionId].expiresAt <= now {
        Delete(sessionId);
        return None;
      }
      return Some(sessions[sessionId]);
    }

    // The name goes with the player's last session, found by looking through the remaining ones.
    method ReleaseNicknameIfUnused(playerId: string, ghost value: S.Registry)
      requires Represents(value)
      modifies this`nicknameOwners, this`playerNicknames
      ensures Represents(S.ReleaseIfUnused(value, playerId))
    {
      var rest := sessions.Keys;
      while rest != {}
        invariant rest <= sessions.Keys
        invariant forall sid | sid in sessions && sid !in rest :: sessions[sid].playerId != playerId
        decreases |rest|
      {
        var sid :| sid in rest;
        if sessions[sid].playerId == playerId {
          return;
        }
        rest := rest - {sid};
      }
      if playerId !in playerNicknames {
        return;
      }
      var canonical := playerNicknames[playerId];
      if canonical in nicknameOwners && nicknameOwners[canonical] == playerId {
        nicknameOwners := nicknameOwners - {canonical};
      }
      playerNicknames := playerNicknames - {playerId};
    }
  }
}
