/** The session registry of session/store.go as a value: stored sessions and the two-way
    nickname index. `lower` stands for Unicode lower-casing; strings are sequences of runes. */
module Sessions {
  import opened Basics

  const MAX_NICKNAME_RUNES := 20

  datatype Session = Session(sessionId: string, playerId: string, nickname: string, userType: string,
                             email: string, emailVerified: bool, expiresAt: int)

  datatype Registry = Registry(sessions: map<string, Session>, nicknameOwners: map<string, string>,
                               playerNicknames: map<string, string>)

  const EMPTY_REGISTRY := Registry(map[], map[], map[])

  datatype SessionError = NicknameTaken

  datatype Profile = Profile(userType: string, email: string, emailVerified: bool)

  // The bytes a rune takes in UTF-8.
  function Width(c: char): nat {
    if c < '\U{80}' then 1 else if c < '\U{800}' then 2 else if c < '\U{10000}' then 3 else 4
  }

  // The last n bytes of a string, read as runes again: of a rune that is cut, each byte left is one
  // replacement character.
  function LastBytes(s: string, n: nat): (r: string)
    ensures |r| <= n && (forall c | c in r :: c in s || c == '\U{FFFD}')
  {
    if s == [] then []
    else
      var c := s[|s| - 1];
      if Width(c) <= n then LastBytes(s[..|s| - 1], n - Width(c)) + [c] else seq(n, _ => '\U{FFFD}')
  }

  lemma {:induction false} ShortStringsKept(s: string, n: nat)
    requires |s| <= n && forall c | c in s :: Width(c) == 1
    ensures LastBytes(s, n) == s
  {
    if s != [] {
      ShortStringsKept(s[..|s| - 1], n - 1);
    }
  }

  /** Of an ASCII id the last bytes are the last runes. */
  lemma {:induction false} AsciiSuffix(s: string, n: nat)
    requires forall c | c in s :: Width(c) == 1
    ensures LastBytes(s, n) == if |s| > n then s[|s| - n..] else s
  {
    if |s| <= n {
      ShortStringsKept(s, n);
    } else {
      var before, c := s[..|s| - 1], s[|s| - 1];
      assert c in s && Width(c) == 1;
      if n == 0 {
        assert LastBytes(s, 0) == seq(0, _ => '\U{FFFD}') == [];
        assert s[|s|..] == [];
      } else {
        AsciiSuffix(before, n - 1);
        assert LastBytes(s, n) == LastBytes(before, n - 1) + [c];
        assert before[|before| - (n - 1)..] + [c] == s[|s| - n..];
      }
    }
  }

  function Normalize(nickname: string, playerId: string): string {
    var trimmed := TrimSpace(nickname);
    if trimmed != "" then (if |trimmed| > MAX_NICKNAME_RUNES then trimmed[..MAX_NICKNAME_RUNES] else trimmed)
    else "Guest-" + LastBytes(playerId, 6)
  }

  function Canonical(lower: string -> string, nickname: string): string {
    lower(TrimSpace(nickname))
  }

  predicate IsNicknameTaken(r: Registry, lower: string -> string, nickname: string) {
    var canonical := Canonical(lower, nickname);
    canonical != "" && canonical in r.nicknameOwners
  }

  function NewSession(sid: string, p: string, nickname: string, profile: Profile, expiresAt: int): Session {
    var kind := TrimSpace(profile.userType);
    Session(sid, p, Normalize(nickname, p), if kind == "" then "guest" else kind,
            TrimSpace(profile.email), profile.emailVerified, expiresAt)
  }

  function Create(r: Registry, lower: string -> string, sid: string, p: string, nickname: string,
                  profile: Profile, expiresAt: int): (Registry, Result<Session, SessionError>)
  {
    var session := NewSession(sid, p, nickname, profile, expiresAt);
    var canonical := Canonical(lower, session.nickname);
    if canonical in r.nicknameOwners && r.nicknameOwners[canonical] != p then (r, Err(NicknameTaken))
    else
      var owners := if p in r.playerNicknames && r.playerNicknames[p] != canonical
                    then r.nicknameOwners - {r.playerNicknames[p]} else r.nicknameOwners;
      (Registry(r.sessions[sid := session], owners[canonical := p], r.playerNicknames[p := canonical]), Ok(session))
  }

  predicate HasSession(sessions: map<string, Session>, p: string) {
    exists sid :: sid in sessions && sessions[sid].playerId == p
  }

  function ReleaseIfUnused(r: Registry, p: string): Registry {
    if HasSession(r.sessions, p) || p !in r.playerNicknames then r
    else
      var canonical := r.playerNicknames[p];
      var owners := if canonical in r.nicknameOwners && r.nicknameOwners[canonical] == p
                    then r.nicknameOwners - {canonical} else r.nicknameOwners;
      Registry(r.sessions, owners, r.playerNicknames - {p})
  }

  function Delete(r: Registry, sid: string): Registry {
    if sid !in r.sessions then r
    else ReleaseIfUnused(r.(sessions := r.sessions - {sid}), r.sessions[sid].playerId)
  }

  // An expired session is deleted by the lookup that finds it.
  function FindValid(r: Registry, sid: string, now: int): (Registry, Option<Session>) {
    if sid !in r.sessions then (r, None)
    else if r.sessions[sid].expiresAt <= now then (Delete(r, sid), None)
    else (r, Some(r.sessions[sid]))
  }

  // ---------- The index ----------

  /** The two maps are inverse to each other, and exactly the players with a stored session have a name. */
  ghost predicate IndexValid(r: Registry) {
    && (forall n | n in r.nicknameOwners ::
          r.nicknameOwners[n] in r.playerNicknames && r.playerNicknames[r.nicknameOwners[n]] == n)
    && (forall p | p in r.playerNicknames ::
          r.playerNicknames[p] in r.nicknameOwners && r.nicknameOwners[r.playerNicknames[p]] == p)
    && (forall p :: p in r.playerNicknames <==> HasSession(r.sessions, p))
  }

  lemma CreateKeepsIndex(r: Registry, lower: string -> string, sid: string, p: string, nickname: string,
                         profile: Profile, expiresAt: int)
    requires IndexValid(r) && sid !in r.sessions
    ensures IndexValid(Create(r, lower, sid, p, nickname, profile, expiresAt).0)
  {
    var (after, result) := Create(r, lower, sid, p, nickname, profile, expiresAt);
    if result.Ok? {
      SessionAdded(r.sessions, sid, result.value);
    }
  }

  lemma SessionAdded(sessions: map<string, Session>, sid: string, s: Session)
    requires sid !in sessions
    ensures forall p :: HasSession(sessions[sid := s], p) <==> HasSession(sessions, p) || p == s.playerId
  {
    forall p
      ensures HasSession(sessions[sid := s], p) <==> HasSession(sessions, p) || p == s.playerId
    {
      if HasSession(sessions, p) {
        var k :| k in sessions && sessions[k].playerId == p;
        assert k in sessions[sid := s] && sessions[sid := s][k].playerId == p;
      }
      if p == s.playerId {
        assert sid in sessions[sid := s];
      }
    }
  }

  lemma SessionRemoved(sessions: map<string, Session>, sid: string)
    requires sid in sessions
    ensures forall p | p != sessions[sid].playerId :: HasSession(sessions - {sid}, p) <==> HasSession(sessions, p)
  {
    forall p | p != sessions[sid].playerId
      ensures HasSession(sessions - {sid}, p) <==> HasSession(sessions, p)
    {
      if HasSession(sessions, p) {
        var k :| k in sessions && sessions[k].playerId == p;
        assert k in sessions - {sid} && (sessions - {sid})[k].playerId == p;
      }
    }
  }

  lemma DeleteKeepsIndex(r: Registry, sid: string)
    requires IndexValid(r)
    ensures IndexValid(Delete(r, sid))
  {
    if sid in r.sessions {
      SessionRemoved(r.sessions, sid);
      assert HasSession(r.sessions, r.sessions[sid].playerId);
    }
  }

  datatype SessionOp =
    | OpCreate(sid: string, playerId: string, nickname: string, profile: Profile, expiresAt: int)
    | OpDelete(sid: string)
    | OpFind(sid: string, now: int)

  function Apply(r: Registry, lower: string -> string, op: SessionOp): Registry {
    match op
    case OpCreate(sid, p, nickname, profile, expiresAt) => Create(r, lower, sid, p, nickname, profile, expiresAt).0
    case OpDelete(sid) => Delete(r, sid)
    case OpFind(sid, now) => FindValid(r, sid, now).0
  }

  ghost function Run(r: Registry, lower: string -> string, ops: seq<SessionOp>): Registry {
    if ops == [] then r else Apply(Run(r, lower, ops[..|ops| - 1]), lower, ops[|ops| - 1])
  }

  // Session ids are drawn fresh.
  ghost predicate FreshIds(r: Registry, lower: string -> string, ops: seq<SessionOp>) {
    forall n | 0 <= n < |ops| && ops[n].OpCreate? :: ops[n].sid !in Run(r, lower, ops[..n]).sessions
  }

  /** Every run of creating, deleting and looking up sessions keeps the nickname index exact. */
  lemma {:induction false} RunKeepsIndex(r: Registry, lower: string -> string, ops: seq<SessionOp>)
    requires IndexValid(r) && FreshIds(r, lower, ops)
    ensures IndexValid(Run(r, lower, ops))
  {
    if ops != [] {
      var n := |ops| - 1;
      assert forall k | 0 <= k < n :: ops[..n][..k] == ops[..k] && ops[..n][k] == ops[k];
      RunKeepsIndex(r, lower, ops[..n]);
      var before := Run(r, lower, ops[..n]);
      match ops[n]
      case OpCreate(sid, p, nickname, profile, expiresAt) => CreateKeepsIndex(before, lower, sid, p, nickname,
          profile, expiresAt);
      case OpDelete(sid) => DeleteKeepsIndex(before, sid);
      case OpFind(sid, now) => DeleteKeepsIndex(before, sid);
    }
  }

  /** Deleting a session just created undoes the creation exactly when the player had no session
      before, or had one under the same canonical nickname. */
  lemma DeleteUndoesCreate(r: Registry, lower: string -> string, sid: string, p: string, nickname: string,
                           profile: Profile, expiresAt: int)
    requires IndexValid(r) && sid !in r.sessions
    requires Create(r, lower, sid, p, nickname, profile, expiresAt).1.Ok?
    ensures Delete(Create(r, lower, sid, p, nickname, profile, expiresAt).0, sid) == r
            <==> !HasSession(r.sessions, p) || r.playerNicknames[p] == Canonical(lower, Normalize(nickname, p))
  {
    var (c, created) := Create(r, lower, sid, p, nickname, profile, expiresAt);
    var canonical := Canonical(lower, Normalize(nickname, p));
    assert c.sessions - {sid} == r.sessions;
    assert Delete(c, sid) == ReleaseIfUnused(c.(sessions := r.sessions), p);
    if HasSession(r.sessions, p) {
      NameStays(r, p, canonical);
    } else {
      assert p !in r.playerNicknames && canonical !in r.nicknameOwners;
      assert r.nicknameOwners[canonical := p] - {canonical} == r.nicknameOwners;
      assert r.playerNicknames[p := canonical] - {p} == r.playerNicknames;
    }
  }

  // Writing a name over one's previous name changes nothing exactly if it is the same name.
  lemma NameStays(r: Registry, p: string, canonical: string)
    requires IndexValid(r) && HasSession(r.sessions, p)
    ensures var owners := if r.playerNicknames[p] != canonical then r.nicknameOwners - {r.playerNicknames[p]}
        else r.nicknameOwners;
            Registry(r.sessions, owners[canonical := p], r.playerNicknames[p := canonical]) == r
            <==> r.playerNicknames[p] == canonical
  {
    assert p in r.playerNicknames;
    assert r.playerNicknames[p := canonical][p] == canonical;
    if r.playerNicknames[p] == canonical {
      assert r.nicknameOwners[canonical := p] == r.nicknameOwners;
      assert r.playerNicknames[p := canonical] == r.playerNicknames;
    }
  }

  /** Signing in a second time under another name and signing out again leaves the first session
      in the store with its name free for anyone. */
  lemma DeleteMayNotRestore(lower: string -> string, p: string, first: string, second: string,
                            profile: Profile, expiresAt: int)
    requires Canonical(lower, Normalize(first, p)) != Canonical(lower, Normalize(second, p))
    ensures var alone := Create(EMPTY_REGISTRY, lower, "s", p, first, profile, expiresAt).0;
            var (both, created) := Create(alone, lower, "t", p, second, profile, expiresAt);
            var after := Delete(both, "t");
            && created.Ok? && after != alone && after.sessions == alone.sessions
            && "s" in after.sessions && after.sessions["s"].playerId == p
            && !IsNicknameTaken(after, lower, Normalize(first, p))
  {
    var alone := Create(EMPTY_REGISTRY, lower, "s", p, first, profile, expiresAt).0;
    var (both, created) := Create(alone, lower, "t", p, second, profile, expiresAt);
    var canonical := Canonical(lower, Normalize(second, p));
    assert alone.playerNicknames[p] == Canonical(lower, Normalize(first, p)) != canonical;
    assert alone.nicknameOwners - {alone.playerNicknames[p]} == map[];
    assert both.nicknameOwners == map[canonical := p];
    assert both.sessions - {"t"} == alone.sessions;
    assert "s" in alone.sessions && alone.sessions["s"].playerId == p;
  }

  // ---------- Looking sessions up ----------

  /** A look-up finds exactly the sessions that are stored and not over; otherwise the id is not in
      the store afterwards. Every other session stays either way. */
  lemma FindExactly(r: Registry, sid: string, now: int)
    ensures var (after, found) := FindValid(r, sid, now);
            && (found.Some? <==> sid in r.sessions && now < r.sessions[sid].expiresAt)
            && (found.Some? ==> found.value == r.sessions[sid] && after == r)
            && (found.None? ==> sid !in after.sessions)
            && (forall other | other != sid ::
                  && (other in after.sessions <==> other in r.sessions)
                  && (other in r.sessions ==> after.sessions[other] == r.sessions[other]))
  {
  }

  // What a created session looks like, said without reference to how names are normalised: at most
  // twenty runes of the trimmed nickname, or a guest name.
  ghost predicate MadeFor(s: Session, sid: string, p: string, nickname: string, profile: Profile, expiresAt: int) {
    var trimmed := TrimSpace(nickname);
    && s.sessionId == sid && s.playerId == p && s.expiresAt == expiresAt
    && s.userType == (if TrimSpace(profile.userType) == "" then "guest" else TrimSpace(profile.userType))
    && s.email == TrimSpace(profile.email) && s.emailVerified == profile.emailVerified
    && (1 <= |trimmed| <= 20 ==> s.nickname == trimmed)
    && (|trimmed| > 20 ==> |s.nickname| == 20 && s.nickname <= trimmed)
    && (trimmed == "" && (forall c | c in p :: Width(c) == 1) ==>
          s.nickname == "Guest-" + if |p| > 6 then p[|p| - 6..] else p)
  }

  lemma CreatedAsAsked(r: Registry, lower: string -> string, sid: string, p: string, nickname: string,
                       profile: Profile, expiresAt: int)
    requires Create(r, lower, sid, p, nickname, profile, expiresAt).1.Ok?
    ensures var (after, created) := Create(r, lower, sid, p, nickname, profile, expiresAt);
            && MadeFor(created.value, sid, p, nickname, profile, expiresAt)
            && after.sessions == r.sessions[sid := created.value]
  {
    if forall c | c in p :: Width(c) == 1 {
      AsciiSuffix(p, 6);
    }
  }

  /** A creation is refused exactly if another player with a stored session goes by the name, and then
      changes nothing. */
  lemma CreateRefusedExactly(r: Registry, lower: string -> string, sid: string, p: string, nickname: string,
                             profile: Profile, expiresAt: int)
    requires IndexValid(r)
    ensures var (after, created) := Create(r, lower, sid, p, nickname, profile, expiresAt);
            var canonical := Canonical(lower, Normalize(nickname, p));
            && (created.Err? <==> exists q :: GoesBy(r, q, canonical) && q != p)
            && (created.Err? ==> after == r)
            && (created.Ok? ==> GoesBy(after, p, canonical))
  {
    var (after, created) := Create(r, lower, sid, p, nickname, profile, expiresAt);
    var canonical := Canonical(lower, Normalize(nickname, p));
    if created.Err? {
      assert GoesBy(r, r.nicknameOwners[canonical], canonical);
    } else {
      assert sid in after.sessions && after.sessions[sid].playerId == p;
    }
  }

  ghost predicate GoesBy(r: Registry, p: string, canonical: string) {
    HasSession(r.sessions, p) && p in r.playerNicknames && r.playerNicknames[p] == canonical
  }

  // The operation leaves the session alone until its time, as the clock stands at `at` later on.
  predicate Spares(op: SessionOp, sid: string, at: int) {
    match op
    case OpCreate(other, _, _, _, _) => other != sid
    case OpDelete(other) => other != sid
    case OpFind(_, now) => now <= at
  }

  lemma SparedStep(r: Registry, lower: string -> string, op: SessionOp, sid: string, s: Session, at: int)
    requires Spares(op, sid, at) && (at < s.expiresAt ==> sid in r.sessions && r.sessions[sid] == s)
    requires sid in r.sessions ==> r.sessions[sid] == s
    ensures var after := Apply(r, lower, op);
            && (at < s.expiresAt ==> sid in after.sessions && after.sessions[sid] == s)
            && (sid in after.sessions ==> after.sessions[sid] == s)
  {
    match op
    case OpCreate(_, _, _, _, _) =>
    case OpDelete(_) =>
    case OpFind(other, now) => FindExactly(r, other, now);
  }

  lemma {:induction false} SparedRun(r: Registry, lower: string -> string, ops: seq<SessionOp>, sid: string,
                                     s: Session, at: int)
    requires sid in r.sessions && r.sessions[sid] == s && forall op | op in ops :: Spares(op, sid, at)
    ensures var after := Run(r, lower, ops);
            && (at < s.expiresAt ==> sid in after.sessions && after.sessions[sid] == s)
            && (sid in after.sessions ==> after.sessions[sid] == s)
  {
    if ops != [] {
      var n := |ops| - 1;
      SparedRun(r, lower, ops[..n], sid, s, at);
      SparedStep(Run(r, lower, ops[..n]), lower, ops[n], sid, s, at);
    }
  }

  /** A session that is created and not deleted, whatever else happens to the store, is found exactly
      until its time is up, and is what was asked for. */
  lemma {:induction false} FoundUntilExpiry(r: Registry, lower: string -> string, sid: string, p: string,
                                            nickname: string, profile: Profile, now: int, ttl: int,
                                            ops: seq<SessionOp>, at: int)
    requires Create(r, lower, sid, p, nickname, profile, now + ttl).1.Ok?
    requires forall op | op in ops :: Spares(op, sid, at)
    ensures var created := Create(r, lower, sid, p, nickname, profile, now + ttl).0;
            var found := FindValid(Run(created, lower, ops), sid, at).1;
            && (found.Some? <==> at < now + ttl)
            && (found.Some? ==> MadeFor(found.value, sid, p, nickname, profile, now + ttl))
  {
    var (after, created) := Create(r, lower, sid, p, nickname, profile, now + ttl);
    CreatedAsAsked(r, lower, sid, p, nickname, profile, now + ttl);
    SparedRun(after, lower, ops, sid, created.value, at);
    FindExactly(Run(after, lower, ops), sid, at);
  }

  // ---------- The availability check ----------

  // The one law of lower-casing that matters: it does not erase text.
  ghost predicate KeepsText(lower: string -> string) {
    forall s :: lower(s) == "" ==> s == ""
  }

  // Some run from an empty store leads here.
  ghost predicate Reachable(r: Registry, lower: string -> string) {
    exists ops :: FreshIds(EMPTY_REGISTRY, lower, ops) && Run(EMPTY_REGISTRY, lower, ops) == r
  }

  // In whatever state the store can be, "not taken" can be trusted by a creation with a fresh id.
  ghost predicate CheckTrustworthy(lower: string -> string, sid: string, p: string, nickname: string,
                                   profile: Profile, expiresAt: int)
  {
    forall r | Reachable(r, lower) && sid !in r.sessions && !IsNicknameTaken(r, lower, nickname) ::
      Create(r, lower, sid, p, nickname, profile, expiresAt).1.Ok?
  }

  /** A negative availability check guarantees that an immediate creation succeeds exactly when the
      name is checked under the canonical form it will be stored under. */
  lemma NegativeCheckExact(lower: string -> string, sid: string, p: string, nickname: string,
                           profile: Profile, expiresAt: int)
    requires KeepsText(lower)
    ensures CheckTrustworthy(lower, sid, p, nickname, profile, expiresAt)
            <==> Canonical(lower, nickname) == Canonical(lower, Normalize(nickname, p))
  {
    var asked, stored := Canonical(lower, nickname), Canonical(lower, Normalize(nickname, p));
    if asked == stored {
      NormalizedHasText(nickname, p);
      assert stored != "";
    } else {
      var other, first := p + "'", sid + "'";
      NormalizeTwice(nickname, p, other);
      OneSession(lower, first, other, Normalize(nickname, p), profile, expiresAt);
      var r := Create(EMPTY_REGISTRY, lower, first, other, Normalize(nickname, p), profile, expiresAt).0;
      assert !IsNicknameTaken(r, lower, nickname);
      assert Create(r, lower, sid, p, nickname, profile, expiresAt).1.Err?;
    }
  }

  // A store in which one session has been created.
  lemma OneSession(lower: string -> string, sid: string, p: string, nickname: string, profile: Profile, expiresAt: int)
    ensures var (r, created) := Create(EMPTY_REGISTRY, lower, sid, p, nickname, profile, expiresAt);
            var canonical := Canonical(lower, Normalize(nickname, p));
            && Reachable(r, lower) && created.Ok? && r.sessions == map[sid := created.value]
            && r.nicknameOwners == map[canonical := p] && r.playerNicknames == map[p := canonical]
  {
    var r := Create(EMPTY_REGISTRY, lower, sid, p, nickname, profile, expiresAt).0;
    var ops := [OpCreate(sid, p, nickname, profile, expiresAt)];
    assert ops[..0] == [] && Run(EMPTY_REGISTRY, lower, []) == EMPTY_REGISTRY;
    assert FreshIds(EMPTY_REGISTRY, lower, ops);
    assert Run(EMPTY_REGISTRY, lower, ops) == Apply(Run(EMPTY_REGISTRY, lower, ops[..0]), lower, ops[0]) == r;
  }

  // A stored name is stored again under the same canonical form, whoever asks for it.
  lemma NormalizeTwice(nickname: string, p: string, other: string)
    ensures TrimSpace(Normalize(Normalize(nickname, p), other)) == TrimSpace(Normalize(nickname, p))
  {
    var normal := Normalize(nickname, p);
    NormalizedHasText(nickname, p);
    TrimLeftShortens(normal);
    TrimRightPrefix(TrimLeft(normal));
    TrimSpaceTrims(normal);
  }

  lemma NormalizedHasText(nickname: string, p: string)
    ensures TrimSpace(Normalize(nickname, p)) != ""
  {
    var trimmed := TrimSpace(nickname);
    TrimSpaceTrims(nickname);
    var normal := Normalize(nickname, p);
    assert normal[0] == if trimmed != "" then trimmed[0] else 'G';
    TrimRightPrefix(normal);
    TrimRightKeeps(normal);
  }

  lemma {:induction false} TrimRightKeeps(s: string)
    requires s != [] && !IsSpace(s[0])
    ensures TrimRight(s) != [] && TrimLeft(s) == s
    decreases |s|
  {
    if |s| > 1 {
      TrimRightKeeps(s[..|s| - 1]);
    }
  }

  /** A blank name is never reported as taken. */
  lemma BlankNeverTaken(r: Registry, lower: string -> string, nickname: string)
    requires TrimSpace(nickname) == "" && lower("") == ""
    ensures !IsNicknameTaken(r, lower, nickname)
  {
  }

  /** Names of one to twenty runes are such names; nothing but text and length matters. */
  lemma ShortNamesCheckable(lower: string -> string, p: string, nickname: string)
    requires 1 <= |TrimSpace(nickname)| <= MAX_NICKNAME_RUNES
    ensures Canonical(lower, nickname) == Canonical(lower, Normalize(nickname, p))
  {
    TrimSpaceTrims(nickname);
  }

  // Lower-casing goes rune by rune.
  ghost predicate KeepsLength(lower: string -> string) {
    forall s :: |lower(s)| == |s|
  }

  /** A longer name is stored cut to twenty runes, so checking it proves nothing. */
  lemma LongNamesNotCheckable(lower: string -> string, sid: string, p: string, nickname: string,
                              profile: Profile, expiresAt: int)
    requires KeepsLength(lower) && |TrimSpace(nickname)| > MAX_NICKNAME_RUNES
    ensures !CheckTrustworthy(lower, sid, p, nickname, profile, expiresAt)
  {
    var cut := Normalize(nickname, p);
    TrimLeftShortens(cut);
    TrimRightPrefix(TrimLeft(cut));
    assert |Canonical(lower, cut)| <= MAX_NICKNAME_RUNES < |Canonical(lower, nickname)|;
    assert forall s :: lower(s) == "" ==> |lower(s)| == 0;
    NegativeCheckExact(lower, sid, p, nickname, profile, expiresAt);
  }

  lemma {:induction false} TrimLeftShortens(s: string)
    ensures |TrimLeft(s)| <= |s|
    decreases |s|
  {
    if s != [] && IsSpace(s[0]) {
      TrimLeftShortens(s[1..]);
    }
  }
}
