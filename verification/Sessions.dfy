/** Device sessions: creation under a per-user limit, refresh-token rotation, reuse detection, revocation. */
module Sessions {
  import opened Common

  type UserId = nat
  type DeviceId = nat
  type TokenHash = nat

  /** A device_sessions row; its id is its position in the table, so ids follow created_at. */
  datatype Row = Row(user: UserId, device: DeviceId, token: TokenHash, revoked: bool, expiresAt: int)

  /**
   `parent` is history: the row each row was rotated from. A lineage is a chain of parents from a
   login.
   */
  datatype Store = Store(rows: seq<Row>, parent: seq<Option<nat>>)

  predicate IsActive(r: Row, user: UserId) {
    r.user == user && !r.revoked
  }

  /** How many unrevoked sessions a user has. */
  function ActiveCount(rows: seq<Row>, user: UserId): nat {
    if rows == [] then 0
    else
      var earlier := ActiveCount(rows[..|rows| - 1], user);
      if IsActive(rows[|rows| - 1], user) then earlier + 1 else earlier
  }

  /** The user's oldest unrevoked session. */
  function Oldest(rows: seq<Row>, user: UserId): (r: Option<nat>)
    ensures r.Some? <==> ActiveCount(rows, user) > 0
    ensures r.Some? ==> r.value < |rows| && IsActive(rows[r.value], user)
    ensures r.Some? ==> forall i :: 0 <= i < r.value ==> !IsActive(rows[i], user)
    ensures r.None? ==> forall i :: 0 <= i < |rows| ==> !IsActive(rows[i], user)
  {
    if rows == [] then None
    else
      var earlier := Oldest(rows[..|rows| - 1], user);
      if earlier.Some? then earlier
      else if IsActive(rows[|rows| - 1], user) then Some(|rows| - 1)
      else None
  }

  /** updateMany: revokes the rows a condition picks. */
  function RevokeWhere(rows: seq<Row>, pick: Pick): seq<Row> {
    seq(|rows|, i requires 0 <= i < |rows| => if Picks(pick, i, rows[i]) then rows[i].(revoked := true) else rows[i])
  }

  /** The where clauses of the revoking updates. */
  datatype Pick =
    | OneRow(id: nat)
    | OfDevice(user: UserId, device: DeviceId)
    | ByToken(token: TokenHash)
    | OfUser(user: UserId)
    | OfUserExcept(user: UserId, keep: nat)

  predicate Picks(p: Pick, id: nat, r: Row) {
    match p
    case OneRow(i) => id == i
    case OfDevice(user, device) => r.user == user && r.device == device
    case ByToken(token) => r.token == token
    case OfUser(user) => r.user == user && !r.revoked
    case OfUserExcept(user, keep) => r.user == user && !r.revoked && id != keep
  }

  /** How many rows an update touches. */
  function Picked(rows: seq<Row>, p: Pick): nat {
    if rows == [] then 0
    else
      var n := |rows| - 1;
      var earlier := Picked(rows[..n], p);
      if Picks(p, n, rows[n]) then earlier + 1 else earlier
  }

  function FindByToken(rows: seq<Row>, token: TokenHash): (r: Option<nat>)
    ensures r.Some? ==> r.value < |rows| && rows[r.value].token == token
    ensures r.None? ==> forall i :: 0 <= i < |rows| ==> rows[i].token != token
  {
    if rows == [] then None
    else if rows[|rows| - 1].token == token then Some(|rows| - 1)
    else FindByToken(rows[..|rows| - 1], token)
  }

  datatype Op =
    | Create(user: UserId, device: DeviceId, token: TokenHash, expiresAt: int)
    | Rotate(token: TokenHash, device: DeviceId, newToken: TokenHash, now: int, expiresAt: int)
    | Unlock(token: TokenHash, device: DeviceId, newToken: TokenHash, now: int, expiresAt: int, check: PasscodeCheck)
    | Revoke(token: TokenHash)
    | RevokeAll(user: UserId)
    | RevokeOthers(user: UserId, current: nat)
    | RevokeById(id: nat, user: UserId, current: nat)

  /**
   What came of the passcode at an unlock: not compared, wrong, wrong and now hard-locked, or right. The
   account's and the lockout's own checks belong to the first.
   */
  datatype PasscodeCheck = NotCompared | WrongPasscode | HardLocked | RightPasscode

  datatype Reply =
    | Issued(id: nat) | NotFound | Reused | SessionRevoked | Expired | Denied | Forbidden | Failed | Revoked(n: nat)

  predicate IsFresh(rows: seq<Row>, token: TokenHash) {
    forall i :: 0 <= i < |rows| ==> rows[i].token != token
  }

  /** The rows after createSession has made room: at the limit the user's oldest session goes. */
  function WithRoom(rows: seq<Row>, user: UserId, maxSessions: nat): seq<Row> {
    var oldest := Oldest(rows, user);
    if ActiveCount(rows, user) >= maxSessions && oldest.Some? then RevokeWhere(rows, OneRow(oldest.value)) else rows
  }

  function CreateSession(s: Store, op: Op, maxSessions: nat): (Store, Reply)
    requires op.Create?
  {
    var room := WithRoom(s.rows, op.user, maxSessions);
    if maxSessions == 0 && Oldest(s.rows, op.user).None? then (s, Failed)
    else if !IsFresh(s.rows, op.token) then (s.(rows := room), Failed)
    else
      (Store(room + [Row(op.user, op.device, op.token, false, op.expiresAt)], s.parent + [None]), Issued(|s.rows|))
  }

  /** rotateRefreshToken: a revoked token revokes its device's sessions; a live one is replaced. */
  function RotateToken(s: Store, op: Op): (Store, Reply)
    requires op.Rotate?
  {
    var found := FindByToken(s.rows, op.token);
    if found.None? then (s, NotFound)
    else
      var session := s.rows[found.value];
      if session.revoked then (s.(rows := RevokeWhere(s.rows, OfDevice(session.user, session.device))), Reused)
      else if session.expiresAt < op.now then (s, Expired)
      else if !IsFresh(s.rows, op.newToken) then (s.(rows := RevokeWhere(s.rows, OneRow(found.value))), Failed)
      else
        (Store(RevokeWhere(s.rows, OneRow(found.value))
                 + [Row(session.user, op.device, op.newToken, false, op.expiresAt)],
               s.parent + [found]),
         Issued(|s.rows|))
  }

  /** unlockWithPasscode: a revoked token is only refused; the right passcode goes on to the rotation. */
  function UnlockSession(s: Store, op: Op): (Store, Reply)
    requires op.Unlock?
  {
    var found := FindByToken(s.rows, op.token);
    if found.None? then (s, NotFound)
    else if s.rows[found.value].revoked then (s, SessionRevoked)
    else if s.rows[found.value].expiresAt < op.now then (s, Expired)
    else
      match op.check
      case NotCompared => (s, Denied)
      case WrongPasscode => (s, Denied)
      case HardLocked => (s.(rows := RevokeWhere(s.rows, ByToken(op.token))), Denied)
      case RightPasscode => RotateToken(s, Rotate(op.token, op.device, op.newToken, op.now, op.expiresAt))
  }

  function Apply(s: Store, op: Op, maxSessions: nat): (Store, Reply) {
    match op
    case Create(_, _, _, _) => CreateSession(s, op, maxSessions)
    case Rotate(_, _, _, _, _) => RotateToken(s, op)
    case Unlock(_, _, _, _, _, _) => UnlockSession(s, op)
    case Revoke(token) => (s.(rows := RevokeWhere(s.rows, ByToken(token))), Revoked(Picked(s.rows, ByToken(token))))
    case RevokeAll(user) => (s.(rows := RevokeWhere(s.rows, OfUser(user))), Revoked(Picked(s.rows, OfUser(user))))
    case RevokeOthers(user, current) =>
      (s.(rows := RevokeWhere(s.rows, OfUserExcept(user, current))), Revoked(Picked(s.rows, OfUserExcept(user, current))))
    case RevokeById(id, user, current) =>
      if id == current then (s, Forbidden)
      else if id >= |s.rows| || s.rows[id].user != user then (s, NotFound)
      else (s.(rows := RevokeWhere(s.rows, OneRow(id))), Revoked(1))
  }

  function Run(s: Store, ops: seq<Op>, maxSessions: nat): Store {
    if ops == [] then s
    else Apply(Run(s, ops[..|ops| - 1], maxSessions), ops[|ops| - 1], maxSessions).0
  }

  const EMPTY: Store := Store([], [])

  // ----- the session limit

  lemma ActiveAppend(rows: seq<Row>, r: Row, user: UserId)
    ensures ActiveCount(rows + [r], user) == ActiveCount(rows, user) + if IsActive(r, user) then 1 else 0
  {
    assert (rows + [r])[..|rows|] == rows;
  }

  lemma {:induction false} RevokingLowers(rows: seq<Row>, rows': seq<Row>, user: UserId)
    requires |rows| == |rows'|
    requires forall i :: 0 <= i < |rows| ==> rows'[i].user == rows[i].user && (rows[i].revoked ==> rows'[i].revoked)
    ensures ActiveCount(rows', user) <= ActiveCount(rows, user)
    ensures (exists i :: 0 <= i < |rows| && IsActive(rows[i], user) && rows'[i].revoked)
            ==> ActiveCount(rows', user) < ActiveCount(rows, user)
  {
    if rows != [] {
      var n := |rows| - 1;
      RevokingLowers(rows[..n], rows'[..n], user);
      if i :| 0 <= i < |rows| && IsActive(rows[i], user) && rows'[i].revoked {
        if i < n {
          assert IsActive(rows[..n][i], user) && rows'[..n][i].revoked;
        }
      }
    }
  }

  lemma PicksOnlyRevoke(rows: seq<Row>, p: Pick, user: UserId)
    ensures ActiveCount(RevokeWhere(rows, p), user) <= ActiveCount(rows, user)
    ensures (exists i :: 0 <= i < |rows| && IsActive(rows[i], user) && Picks(p, i, rows[i]))
            ==> ActiveCount(RevokeWhere(rows, p), user) < ActiveCount(rows, user)
  {
    var rows' := RevokeWhere(rows, p);
    RevokingLowers(rows, rows', user);
    if i :| 0 <= i < |rows| && IsActive(rows[i], user) && Picks(p, i, rows[i]) {
      assert rows'[i].revoked;
    }
  }

  ghost predicate WithinLimit(s: Store, maxSessions: nat) {
    forall user: UserId :: ActiveCount(s.rows, user) <= maxSessions
  }

  lemma CreateKeepsLimit(s: Store, op: Op, maxSessions: nat, user: UserId)
    requires op.Create? && maxSessions >= 1
    requires ActiveCount(s.rows, user) <= maxSessions && ActiveCount(s.rows, op.user) <= maxSessions
    ensures ActiveCount(CreateSession(s, op, maxSessions).0.rows, user) <= maxSessions
  {
    var row := Row(op.user, op.device, op.token, false, op.expiresAt);
    var oldest := Oldest(s.rows, op.user);
    if oldest.Some? {
      PicksOnlyRevoke(s.rows, OneRow(oldest.value), user);
    }
    ActiveAppend(WithRoom(s.rows, op.user, maxSessions), row, user);
  }

  lemma RotateKeepsLimit(s: Store, op: Op, user: UserId)
    requires op.Rotate?
    ensures ActiveCount(RotateToken(s, op).0.rows, user) <= ActiveCount(s.rows, user)
  {
    var found := FindByToken(s.rows, op.token);
    if found.Some? {
      var session := s.rows[found.value];
      PicksOnlyRevoke(s.rows, OneRow(found.value), user);
      PicksOnlyRevoke(s.rows, OfDevice(session.user, session.device), user);
      ActiveAppend(RevokeWhere(s.rows, OneRow(found.value)), Row(session.user, op.device, op.newToken, false, op.expiresAt), user);
    }
  }

  lemma OpKeepsLimit(s: Store, op: Op, maxSessions: nat)
    requires maxSessions >= 1 && WithinLimit(s, maxSessions)
    ensures WithinLimit(Apply(s, op, maxSessions).0, maxSessions)
  {
    forall user: UserId ensures ActiveCount(Apply(s, op, maxSessions).0.rows, user) <= maxSessions {
      assert ActiveCount(s.rows, user) <= maxSessions;
      match op
      case Create(owner, _, _, _) =>
        assert ActiveCount(s.rows, owner) <= maxSessions;
        CreateKeepsLimit(s, op, maxSessions, user);
      case Rotate(_, _, _, _, _) => RotateKeepsLimit(s, op, user);
      case Unlock(token, device, newToken, now, expiresAt, _) =>
        RotateKeepsLimit(s, Rotate(token, device, newToken, now, expiresAt), user);
        PicksOnlyRevoke(s.rows, ByToken(token), user);
      case Revoke(token) => PicksOnlyRevoke(s.rows, ByToken(token), user);
      case RevokeAll(owner) => PicksOnlyRevoke(s.rows, OfUser(owner), user);
      case RevokeOthers(owner, current) => PicksOnlyRevoke(s.rows, OfUserExcept(owner, current), user);
      case RevokeById(id, owner, current) => PicksOnlyRevoke(s.rows, OneRow(id), user);
    }
  }

  /** In every run no user ever has more than maxSessionsPerUser unrevoked sessions. */
  lemma {:induction false} SessionLimitHolds(ops: seq<Op>, maxSessions: nat)
    requires maxSessions >= 1
    ensures WithinLimit(Run(EMPTY, ops, maxSessions), maxSessions)
  {
    if ops != [] {
      SessionLimitHolds(ops[..|ops| - 1], maxSessions);
      OpKeepsLimit(Run(EMPTY, ops[..|ops| - 1], maxSessions), ops[|ops| - 1], maxSessions);
    }
  }

  // ----- lineages

  /** Parents come earlier, belong to the same user, are revoked, and have one child each. */
  ghost predicate Lineages(s: Store) {
    && |s.parent| == |s.rows|
    && (forall i :: 0 <= i < |s.rows| && s.parent[i].Some? ==>
          && s.parent[i].value < i
          && s.rows[s.parent[i].value].revoked
          && s.rows[s.parent[i].value].user == s.rows[i].user)
    && (forall i, j :: 0 <= i < j < |s.rows| && s.parent[i].Some? ==> s.parent[i] != s.parent[j])
    && (forall i, j :: 0 <= i < j < |s.rows| ==> s.rows[i].token != s.rows[j].token)
  }

  lemma RevokeKeepsLineages(s: Store, p: Pick)
    requires Lineages(s)
    ensures Lineages(s.(rows := RevokeWhere(s.rows, p)))
  {
  }

  lemma AppendKeepsLineages(s: Store, r: Row, parent: Option<nat>)
    requires Lineages(s) && IsFresh(s.rows, r.token)
    requires parent.Some? ==> parent.value < |s.rows| && s.rows[parent.value].revoked && s.rows[parent.value].user == r.user
    requires parent.Some? ==> forall i :: 0 <= i < |s.rows| ==> s.parent[i] != parent
    ensures Lineages(Store(s.rows + [r], s.parent + [parent]))
  {
  }

  lemma RotateKeepsLineages(s: Store, op: Op)
    requires Lineages(s) && op.Rotate?
    ensures Lineages(RotateToken(s, op).0)
  {
    var found := FindByToken(s.rows, op.token);
    if found.Some? {
      var session := s.rows[found.value];
      RevokeKeepsLineages(s, OneRow(found.value));
      RevokeKeepsLineages(s, OfDevice(session.user, session.device));
      if !session.revoked && IsFresh(s.rows, op.newToken) {
        AppendKeepsLineages(s.(rows := RevokeWhere(s.rows, OneRow(found.value))),
          Row(session.user, op.device, op.newToken, false, op.expiresAt), found);
      }
    }
  }

  lemma OpKeepsLineages(s: Store, op: Op, maxSessions: nat)
    requires Lineages(s)
    ensures Lineages(Apply(s, op, maxSessions).0)
  {
    match op
    case Create(user, device, token, expiresAt) =>
      var row := Row(user, device, token, false, expiresAt);
      var oldest := Oldest(s.rows, user);
      if oldest.Some? {
        RevokeKeepsLineages(s, OneRow(oldest.value));
      }
      if IsFresh(s.rows, token) {
        AppendKeepsLineages(s.(rows := WithRoom(s.rows, user, maxSessions)), row, None);
      }
    case Rotate(_, _, _, _, _) => RotateKeepsLineages(s, op);
    case Unlock(token, device, newToken, now, expiresAt, _) =>
      RotateKeepsLineages(s, Rotate(token, device, newToken, now, expiresAt));
      RevokeKeepsLineages(s, ByToken(token));
    case Revoke(token) => RevokeKeepsLineages(s, ByToken(token));
    case RevokeAll(user) => RevokeKeepsLineages(s, OfUser(user));
    case RevokeOthers(user, current) => RevokeKeepsLineages(s, OfUserExcept(user, current));
    case RevokeById(id, user, current) => RevokeKeepsLineages(s, OneRow(id));
  }

  lemma {:induction false} RunKeepsLineages(s: Store, ops: seq<Op>, maxSessions: nat)
    requires Lineages(s)
    ensures Lineages(Run(s, ops, maxSessions))
  {
    if ops != [] {
      RunKeepsLineages(s, ops[..|ops| - 1], maxSessions);
      OpKeepsLineages(Run(s, ops[..|ops| - 1], maxSessions), ops[|ops| - 1], maxSessions);
    }
  }

  /** The login a session descends from. */
  function Root(s: Store, id: nat): (root: nat)
    requires |s.parent| == |s.rows| && id < |s.rows|
    ensures root <= id
    decreases id
  {
    if s.parent[id].Some? && s.parent[id].value < id then Root(s, s.parent[id].value) else id
  }

  predicate HasChild(s: Store, id: nat) {
    exists j :: 0 <= j < |s.parent| && s.parent[j] == Some(id)
  }

  /** From an older to a newer member of one lineage there is a path of children. */
  lemma {:induction false} OlderHasChild(s: Store, p: nat, i: nat)
    requires Lineages(s) && p < i < |s.rows| && Root(s, p) == Root(s, i)
    ensures exists k :: p < k <= i && s.parent[k] == Some(p)
    decreases i
  {
    if s.parent[i].Some? {
      var q := s.parent[i].value;
      if p < q {
        OlderHasChild(s, p, q);
      } else if q < p {
        OlderHasChild(s, q, p);
      }
    }
  }

  /** Each refresh-token lineage has at most one active session: its newest. */
  lemma OneActivePerLineage(ops: seq<Op>, maxSessions: nat, i: nat, j: nat)
    requires i < j < |Run(EMPTY, ops, maxSessions).rows|
    requires |Run(EMPTY, ops, maxSessions).parent| == |Run(EMPTY, ops, maxSessions).rows|
    requires Root(Run(EMPTY, ops, maxSessions), i) == Root(Run(EMPTY, ops, maxSessions), j)
    ensures Run(EMPTY, ops, maxSessions).rows[i].revoked
  {
    RunKeepsLineages(EMPTY, ops, maxSessions);
    var s := Run(EMPTY, ops, maxSessions);
    OlderHasChild(s, i, j);
  }

  // ----- the counts the revoking calls report

  lemma {:induction false} PickedIsDrop(rows: seq<Row>, p: Pick, user: UserId)
    requires p == OfUser(user) || (p.OfUserExcept? && p.user == user)
    ensures Picked(rows, p) == ActiveCount(rows, user) - ActiveCount(RevokeWhere(rows, p), user)
  {
    if rows != [] {
      var n := |rows| - 1;
      PickedIsDrop(rows[..n], p, user);
      assert RevokeWhere(rows, p)[..n] == RevokeWhere(rows[..n], p);
    }
  }

  lemma {:induction false} NoneActive(rows: seq<Row>, user: UserId, keep: nat)
    requires forall i :: 0 <= i < |rows| && i != keep ==> !IsActive(rows[i], user)
    ensures ActiveCount(rows, user) <= if keep < |rows| then 1 else 0
  {
    if rows != [] {
      NoneActive(rows[..|rows| - 1], user, keep);
    }
  }

  /** The calls that revoke a user's sessions report how many they ended, and leave none, or the current one alone. */
  lemma RevokingReports(s: Store, user: UserId, current: nat, maxSessions: nat)
    ensures var all := Apply(s, RevokeAll(user), maxSessions);
            && all.1 == Revoked(ActiveCount(s.rows, user)) && ActiveCount(all.0.rows, user) == 0
    ensures var others := Apply(s, RevokeOthers(user, current), maxSessions);
            && ActiveCount(others.0.rows, user) <= 1
            && others.1.Revoked? && others.1.n == ActiveCount(s.rows, user) - ActiveCount(others.0.rows, user)
            && (current < |s.rows| && IsActive(s.rows[current], user) ==> others.0.rows[current] == s.rows[current])
  {
    PickedIsDrop(s.rows, OfUser(user), user);
    PickedIsDrop(s.rows, OfUserExcept(user, current), user);
    NoneActive(RevokeWhere(s.rows, OfUser(user)), user, |s.rows|);
    NoneActive(RevokeWhere(s.rows, OfUserExcept(user, current)), user, current);
  }

  // ----- replaying a token

  /** Revoked stays revoked, and rows are only ever added. */
  ghost predicate OnlyRevoked(before: Store, after: Store) {
    && |before.rows| <= |after.rows|
    && forall i :: 0 <= i < |before.rows| ==>
         && after.rows[i].(revoked := before.rows[i].revoked) == before.rows[i]
         && (before.rows[i].revoked ==> after.rows[i].revoked)
  }

  lemma OpOnlyRevokes(s: Store, op: Op, maxSessions: nat)
    ensures OnlyRevoked(s, Apply(s, op, maxSessions).0)
  {
  }

  lemma {:induction false} RunOnlyRevokes(s: Store, ops: seq<Op>, maxSessions: nat)
    ensures OnlyRevoked(s, Run(s, ops, maxSessions))
  {
    if ops != [] {
      RunOnlyRevokes(s, ops[..|ops| - 1], maxSessions);
      OpOnlyRevokes(Run(s, ops[..|ops| - 1], maxSessions), ops[|ops| - 1], maxSessions);
    }
  }

  /** The two calls a client can make with a refresh token. */
  predicate Presents(op: Op, token: TokenHash) {
    (op.Rotate? || op.Unlock?) && op.token == token
  }

  /** A revoked token, presented again: a rotation revokes its device's sessions, an unlock changes nothing. */
  lemma RevokedIsRefused(s: Store, op: Op, maxSessions: nat, id: nat)
    requires Lineages(s) && id < |s.rows| && s.rows[id].revoked && Presents(op, s.rows[id].token)
    ensures Apply(s, op, maxSessions)
            == if op.Unlock? then (s, SessionRevoked)
               else (s.(rows := RevokeWhere(s.rows, OfDevice(s.rows[id].user, s.rows[id].device))), Reused)
  {
    assert FindByToken(s.rows, op.token) == Some(id);
  }

  /** A token rotates at most once: after it has been rotated, or revoked in any way, no later call issues anything for it. */
  lemma RevokedTokenNeverIssues(s: Store, ops: seq<Op>, maxSessions: nat, id: nat, op: Op)
    requires Lineages(s) && id < |s.rows| && s.rows[id].revoked && Presents(op, s.rows[id].token)
    ensures Apply(Run(s, ops, maxSessions), op, maxSessions).1 == if op.Unlock? then SessionRevoked else Reused
  {
    RunKeepsLineages(s, ops, maxSessions);
    RunOnlyRevokes(s, ops, maxSessions);
    var later := Run(s, ops, maxSessions);
    assert later.rows[id].(revoked := s.rows[id].revoked) == s.rows[id];
    RevokedIsRefused(later, op, maxSessions, id);
  }

  /** The newest session of a lineage. */
  predicate IsTip(s: Store, id: nat) {
    id < |s.rows| && !HasChild(s, id)
  }

  /**
   Replaying a revoked token leaves no active session for that user and device if and only if the replay
   reaches rotateRefreshToken, or there was none. The lineage's tip survives exactly when it was active
   and the replay was an unlock, or the tip had been rotated onto another device.
   */
  lemma ReplayRevokesFamily(s: Store, op: Op, maxSessions: nat, id: nat, tip: nat)
    requires Lineages(s) && id < |s.rows| && s.rows[id].revoked && Presents(op, s.rows[id].token)
    requires IsTip(s, tip) && Root(s, tip) == Root(s, id)
    ensures var after := Apply(s, op, maxSessions).0;
            && (NoneActiveOn(after.rows, s.rows[id].user, s.rows[id].device)
                <==> op.Rotate? || NoneActiveOn(s.rows, s.rows[id].user, s.rows[id].device))
            && (!after.rows[tip].revoked
                <==> !s.rows[tip].revoked && (op.Unlock? || s.rows[tip].device != s.rows[id].device))
  {
    RevokedIsRefused(s, op, maxSessions, id);
    SameUser(s, id);
    SameUser(s, tip);
  }

  predicate NoneActiveOn(rows: seq<Row>, user: UserId, device: DeviceId) {
    forall i :: 0 <= i < |rows| && rows[i].user == user && rows[i].device == device ==> rows[i].revoked
  }

  lemma {:induction false} SameUser(s: Store, id: nat)
    requires Lineages(s) && id < |s.rows|
    ensures s.rows[Root(s, id)].user == s.rows[id].user
    decreases id
  {
    if s.parent[id].Some? {
      SameUser(s, s.parent[id].value);
    }
  }

  /** Every session of the lineage is on one device. */
  ghost predicate OneDevice(s: Store, id: nat)
    requires |s.parent| == |s.rows| && id < |s.rows|
  {
    forall k :: 0 <= k < |s.rows| && Root(s, k) == Root(s, id) ==> s.rows[k].device == s.rows[id].device
  }

  /**
   In a family that stayed on one device, the replay of a revoked token ends a member's session if and
   only if it reaches rotateRefreshToken.
   */
  lemma {:induction false} OneDeviceFamilyDies(s: Store, op: Op, maxSessions: nat, id: nat, i: nat)
    requires Lineages(s) && id < |s.rows| && s.rows[id].revoked && Presents(op, s.rows[id].token)
    requires OneDevice(s, id) && i < |s.rows| && Root(s, i) == Root(s, id)
    ensures Apply(s, op, maxSessions).0.rows[i].revoked <==> s.rows[i].revoked || op.Rotate?
  {
    RevokedIsRefused(s, op, maxSessions, id);
    SameUser(s, id);
    SameUser(s, i);
  }

  /** A login rotated once on its own device: replaying the first token at the unlock leaves the second active. */
  lemma UnlockReplayMissesTip()
    ensures var login := Apply(EMPTY, Create(0, 1, 10, 100), 5).0;
            var rotated := Apply(login, Rotate(10, 1, 11, 0, 100), 5).0;
            var replayed := Apply(rotated, Unlock(10, 1, 12, 0, 100, RightPasscode), 5);
            replayed.1 == SessionRevoked && |replayed.0.rows| == 2 && !replayed.0.rows[1].revoked
  {
    var login := Apply(EMPTY, Create(0, 1, 10, 100), 5).0;
    assert login.rows == [Row(0, 1, 10, false, 100)];
    assert FindByToken(login.rows, 10) == Some(0);
    var rotated := Apply(login, Rotate(10, 1, 11, 0, 100), 5).0;
    assert rotated.rows == [Row(0, 1, 10, true, 100), Row(0, 1, 11, false, 100)];
    assert FindByToken(rotated.rows, 10) == Some(0);
  }

  /** A login on device 1, rotated onto device 2: replaying the first token leaves the second active. */
  lemma ReplayMissesOtherDevice()
    ensures var login := Apply(EMPTY, Create(0, 1, 10, 100), 5).0;
            var rotated := Apply(login, Rotate(10, 2, 11, 0, 100), 5).0;
            var replayed := Apply(rotated, Rotate(10, 1, 12, 0, 100), 5);
            replayed.1 == Reused && |replayed.0.rows| == 2 && !replayed.0.rows[1].revoked
  {
    var login := Apply(EMPTY, Create(0, 1, 10, 100), 5).0;
    assert login.rows == [Row(0, 1, 10, false, 100)];
    assert FindByToken(login.rows, 10) == Some(0);
    var rotated := Apply(login, Rotate(10, 2, 11, 0, 100), 5).0;
    assert rotated.rows == [Row(0, 1, 10, true, 100), Row(0, 2, 11, false, 100)];
    assert FindByToken(rotated.rows, 10) == Some(0);
  }

  // ----- when a token is exchanged for a new session

  /** These rows, but with the ones picked out revoked, whatever they were before. */
  ghost predicate RevokedExactly(rows: seq<Row>, after: seq<Row>, ended: iset<nat>) {
    && |after| == |rows|
    && forall i :: 0 <= i < |rows| ==>
         after[i] == Row(rows[i].user, rows[i].device, rows[i].token, rows[i].revoked || i in ended, rows[i].expiresAt)
  }

  /** The stored session a token can still be exchanged for: not revoked, and not past its end. */
  predicate IsLive(rows: seq<Row>, id: nat, token: TokenHash, now: int) {
    id < |rows| && rows[id].token == token && !rows[id].revoked && now <= rows[id].expiresAt
  }

  predicate PasscodeAllows(op: Op) {
    op.Unlock? ==> op.check == RightPasscode
  }

  lemma TokenNamesRow(s: Store, id: nat)
    requires Lineages(s) && id < |s.rows|
    ensures FindByToken(s.rows, s.rows[id].token) == Some(id)
  {
  }

  /** Exactly the old session has ended, and its user has the new one: the client's device, the new token and its end. */
  ghost predicate IsExchanged(s: Store, after: Store, op: Op, id: nat)
    requires (op.Rotate? || op.Unlock?) && id < |s.rows|
  {
    && |after.rows| == |s.rows| + 1
    && RevokedExactly(s.rows, after.rows[..|s.rows|], iset{id})
    && after.rows[|s.rows|] == Row(s.rows[id].user, op.device, op.newToken, false, op.expiresAt)
    && after.parent == s.parent + [Some(id)]
  }

  lemma LiveIsExchanged(s: Store, op: Op, maxSessions: nat, id: nat)
    requires Lineages(s) && (op.Rotate? || op.Unlock?) && IsLive(s.rows, id, op.token, op.now)
    requires IsFresh(s.rows, op.newToken) && PasscodeAllows(op)
    ensures var (after, reply) := Apply(s, op, maxSessions);
            reply == Issued(|s.rows|) && IsExchanged(s, after, op, id)
  {
    TokenNamesRow(s, id);
    assert Apply(s, op, maxSessions).0.rows[..|s.rows|] == RevokeWhere(s.rows, OneRow(id));
  }

  lemma IssuedWasLive(s: Store, op: Op, maxSessions: nat)
    requires (op.Rotate? || op.Unlock?) && Apply(s, op, maxSessions).1.Issued?
    ensures IsFresh(s.rows, op.newToken) && PasscodeAllows(op)
    ensures FindByToken(s.rows, op.token).Some? && IsLive(s.rows, FindByToken(s.rows, op.token).value, op.token, op.now)
  {
  }

  /**
   After any run, a rotation or an unlock issues a session if and only if its token is stored, neither revoked
   nor past its end, the new token is fresh, and at an unlock the passcode is right. The new row is the same
   user's, on the device the client names, and exactly the exchanged session ends.
   */
  lemma IssuesIff(ops: seq<Op>, maxSessions: nat, op: Op)
    requires op.Rotate? || op.Unlock?
    ensures var s := Run(EMPTY, ops, maxSessions);
            var (after, reply) := Apply(s, op, maxSessions);
            && (reply.Issued? <==>
                  && IsFresh(s.rows, op.newToken) && PasscodeAllows(op)
                  && exists id: nat :: IsLive(s.rows, id, op.token, op.now))
            && (forall id: nat :: reply.Issued? && IsLive(s.rows, id, op.token, op.now) ==>
                  reply.id == |s.rows| && IsExchanged(s, after, op, id))
  {
    RunKeepsLineages(EMPTY, ops, maxSessions);
    var s := Run(EMPTY, ops, maxSessions);
    forall id: nat | IsLive(s.rows, id, op.token, op.now) && IsFresh(s.rows, op.newToken) && PasscodeAllows(op)
      ensures Apply(s, op, maxSessions).1 == Issued(|s.rows|) && IsExchanged(s, Apply(s, op, maxSessions).0, op, id)
    {
      LiveIsExchanged(s, op, maxSessions, id);
    }
    if Apply(s, op, maxSessions).1.Issued? {
      IssuedWasLive(s, op, maxSessions);
    }
  }

  /**
   A rotation that issues nothing: reuse ends the sessions of the row's user on the row's device, a token past
   its end changes nothing, and a new token that is taken costs the old session.
   */
  lemma RefusedRotationIsExact(s: Store, op: Op, id: nat)
    requires Lineages(s) && op.Rotate? && id < |s.rows| && s.rows[id].token == op.token
    ensures var row, (after, reply) := s.rows[id], RotateToken(s, op);
            && (row.revoked ==>
                  && reply == Reused && after.parent == s.parent
                  && RevokedExactly(s.rows, after.rows,
                       iset i: nat | i < |s.rows| && s.rows[i].user == row.user && s.rows[i].device == row.device))
            && (!row.revoked && row.expiresAt < op.now ==> reply == Expired && after == s)
            && (IsLive(s.rows, id, op.token, op.now) && !IsFresh(s.rows, op.newToken) ==>
                  reply == Failed && after.parent == s.parent && RevokedExactly(s.rows, after.rows, iset{id}))
  {
    TokenNamesRow(s, id);
  }

  /**
   An unlock that issues nothing: a revoked token or one past its end changes nothing, whatever the passcode; a
   new token that is taken costs the old session; a passcode that is not right does so only when it hard-locks.
   */
  lemma RefusedUnlockIsExact(s: Store, op: Op, id: nat)
    requires Lineages(s) && op.Unlock? && id < |s.rows| && s.rows[id].token == op.token
    ensures var row, (after, reply) := s.rows[id], UnlockSession(s, op);
            && (row.revoked ==> reply == SessionRevoked && after == s)
            && (!row.revoked && row.expiresAt < op.now ==> reply == Expired && after == s)
            && (IsLive(s.rows, id, op.token, op.now) && op.check == RightPasscode && !IsFresh(s.rows, op.newToken) ==>
                  reply == Failed && after.parent == s.parent && RevokedExactly(s.rows, after.rows, iset{id}))
            && (IsLive(s.rows, id, op.token, op.now) && op.check != RightPasscode ==>
                  && reply == Denied && after.parent == s.parent
                  && RevokedExactly(s.rows, after.rows, if op.check == HardLocked then iset{id} else iset{}))
  {
    TokenNamesRow(s, id);
  }

  /** A token that no row has is unknown, and changes nothing. */
  lemma UnknownTokenIsRefused(s: Store, op: Op, maxSessions: nat)
    requires (op.Rotate? || op.Unlock?) && IsFresh(s.rows, op.token)
    ensures Apply(s, op, maxSessions) == (s, NotFound)
  {
  }

  /** The user's first unrevoked session. */
  ghost predicate IsOldest(rows: seq<Row>, user: UserId, id: nat) {
    id < |rows| && IsActive(rows[id], user) && forall i :: 0 <= i < id ==> rows[i].user == user ==> rows[i].revoked
  }

  /**
   After any run, a login goes through exactly when its token is fresh. A user at the limit loses the oldest
   unrevoked session, even to a login that fails; nobody else loses any.
   */
  lemma LoginEvictsOldest(ops: seq<Op>, maxSessions: nat, op: Op)
    requires maxSessions >= 1 && op.Create?
    ensures var s := Run(EMPTY, ops, maxSessions);
            var (after, reply) := Apply(s, op, maxSessions);
            && (IsFresh(s.rows, op.token) ==>
                  && reply == Issued(|s.rows|) && |after.rows| == |s.rows| + 1
                  && after.rows[|s.rows|] == Row(op.user, op.device, op.token, false, op.expiresAt)
                  && after.parent == s.parent + [None])
            && (!IsFresh(s.rows, op.token) ==> reply == Failed && |after.rows| == |s.rows| && after.parent == s.parent)
            && (ActiveCount(s.rows, op.user) < maxSessions ==> after.rows[..|s.rows|] == s.rows)
            && (ActiveCount(s.rows, op.user) == maxSessions ==>
                  exists id: nat :: IsOldest(s.rows, op.user, id) && RevokedExactly(s.rows, after.rows[..|s.rows|], iset{id}))
  {
    SessionLimitHolds(ops, maxSessions);
    var s := Run(EMPTY, ops, maxSessions);
    var (after, reply) := Apply(s, op, maxSessions);
    var oldest := Oldest(s.rows, op.user);
    assert after.rows[..|s.rows|] == WithRoom(s.rows, op.user, maxSessions);
    if oldest.Some? {
      assert IsOldest(s.rows, op.user, oldest.value);
    }
  }

  /** With a limit of no sessions every login fails, whatever has been called before. */
  lemma {:induction false} ZeroLimitAdmitsNobody(ops: seq<Op>, op: Op)
    requires op.Create?
    ensures Run(EMPTY, ops, 0) == EMPTY && Apply(EMPTY, op, 0) == (EMPTY, Failed)
  {
    if ops != [] {
      ZeroLimitAdmitsNobody(ops[..|ops| - 1], op);
      assert Oldest([], op.user) == None;
      if ops[|ops| - 1].Create? {
        assert Oldest([], ops[|ops| - 1].user) == None;
      }
    }
  }

  /** The sessions each revoking call is meant to end. */
  ghost function Meant(rows: seq<Row>, op: Op): iset<nat> {
    match op
    case Revoke(token) => iset i: nat | i < |rows| && rows[i].token == token
    case RevokeAll(user) => iset i: nat | i < |rows| && rows[i].user == user
    case RevokeOthers(user, current) => iset i: nat | i < |rows| && rows[i].user == user && i != current
    case RevokeById(id, user, current) => iset i: nat | i < |rows| && rows[i].user == user && i == id && i != current
    case _ => iset{}
  }

  /** A revoking call ends the sessions it is meant to, adds none and leaves every other. */
  lemma RevokingEndsExactly(s: Store, op: Op, maxSessions: nat)
    requires op.Revoke? || op.RevokeAll? || op.RevokeOthers? || op.RevokeById?
    ensures var (after, reply) := Apply(s, op, maxSessions);
            && after.parent == s.parent && RevokedExactly(s.rows, after.rows, Meant(s.rows, op))
            && (op.RevokeById? ==>
                  reply == if op.id == op.current then Forbidden
                           else if op.id < |s.rows| && s.rows[op.id].user == op.user then Revoked(1)
                           else NotFound)
  {
  }

  lemma RevokingKeepsTokens(rows: seq<Row>, p: Pick, token: TokenHash)
    ensures IsFresh(RevokeWhere(rows, p), token) <==> IsFresh(rows, token)
  {
    forall i | 0 <= i < |rows| ensures RevokeWhere(rows, p)[i].token == rows[i].token {
    }
  }

  /** The session service over the mutable table. */
  class SessionService {
    var rows: seq<Row>
    ghost var parent: seq<Option<nat>>
    const maxSessionsPerUser: nat

    ghost function State(): Store
      reads this
    {
      Store(rows, parent)
    }

    constructor (maxSessions: nat)
      ensures State() == EMPTY && maxSessionsPerUser == maxSessions
    {
      rows, parent, maxSessionsPerUser := [], [], maxSessions;
    }

    /** deviceSession.updateMany(... is_revoked: true) */
    method UpdateMany(p: Pick) returns (count: nat)
      modifies this`rows
      ensures rows == RevokeWhere(old(rows), p) && count == Picked(old(rows), p)
    {
      count := Picked(rows, p);
      rows := RevokeWhere(rows, p);
    }

    method CreateDeviceSession(user: UserId, device: DeviceId, token: TokenHash, expiresAt: int) returns (r: Reply)
      modifies this
      ensures (State(), r) == Apply(old(State()), Create(user, device, token, expiresAt), maxSessionsPerUser)
    {
      var oldest := Oldest(rows, user);
      if ActiveCount(rows, user) >= maxSessionsPerUser {
        if oldest.None? {
          return Failed;
        }
        RevokingKeepsTokens(rows, OneRow(oldest.value), token);
        var _ := UpdateMany(OneRow(oldest.value));
      }
      if !IsFresh(rows, token) {
        return Failed;
      }
      r := Issued(|rows|);
      rows := rows + [Row(user, device, token, false, expiresAt)];
      parent := parent + [None];
    }

    method RotateRefreshToken(token: TokenHash, device: DeviceId, newToken: TokenHash, now: int, expiresAt: int)
      returns (r: Reply)
      modifies this
      ensures (State(), r) == Apply(old(State()), Rotate(token, device, newToken, now, expiresAt), maxSessionsPerUser)
    {
      var found := FindByToken(rows, token);
      if found.None? {
        return NotFound;
      }
      var session := rows[found.value];
      if session.revoked {
        var _ := UpdateMany(OfDevice(session.user, session.device));
        return Reused;
      }
      if session.expiresAt < now {
        return Expired;
      }
      RevokingKeepsTokens(rows, OneRow(found.value), newToken);
      var _ := UpdateMany(OneRow(found.value));
      if !IsFresh(rows, newToken) {
        return Failed;
      }
      r := Issued(|rows|);
      rows := rows + [Row(session.user, device, newToken, false, expiresAt)];
      parent := parent + [found];
    }

    /** The account's checks, the lockout and the passcode's comparison come in as `check`. */
    method UnlockWithPasscode(
        token: TokenHash, device: DeviceId, newToken: TokenHash, now: int, expiresAt: int, check: PasscodeCheck)
      returns (r: Reply)
      modifies this
      ensures (State(), r)
              == Apply(old(State()), Unlock(token, device, newToken, now, expiresAt, check), maxSessionsPerUser)
    {
      var found := FindByToken(rows, token);
      if found.None? {
        return NotFound;
      }
      if rows[found.value].revoked {
        return SessionRevoked;
      }
      if rows[found.value].expiresAt < now {
        return Expired;
      }
      match check {
        case NotCompared => r := Denied;
        case WrongPasscode => r := Denied;
        case HardLocked =>
          RevokeSession(token);
          r := Denied;
        case RightPasscode => r := RotateRefreshToken(token, device, newToken, now, expiresAt);
      }
    }

    method RevokeSession(token: TokenHash)
      modifies this`rows
      ensures State() == Apply(old(State()), Revoke(token), maxSessionsPerUser).0
    {
      var _ := UpdateMany(ByToken(token));
    }

    method RevokeAllSessions(user: UserId) returns (count: nat)
      modifies this`rows
      ensures (State(), Revoked(count)) == Apply(old(State()), RevokeAll(user), maxSessionsPerUser)
    {
      count := UpdateMany(OfUser(user));
    }

    method RevokeOtherSessions(user: UserId, current: nat) returns (count: nat)
      modifies this`rows
      ensures (State(), Revoked(count)) == Apply(old(State()), RevokeOthers(user, current), maxSessionsPerUser)
    {
      count := UpdateMany(OfUserExcept(user, current));
    }

    method RevokeSessionById(id: nat, user: UserId, current: nat) returns (r: Reply)
      modifies this`rows
      ensures (State(), r) == Apply(old(State()), RevokeById(id, user, current), maxSessionsPerUser)
    {
      if id == current {
        return Forbidden;
      }
      if id >= |rows| || rows[id].user != user {
        return NotFound;
      }
      var _ := UpdateMany(OneRow(id));
      return Revoked(1);
    }
  }
}
