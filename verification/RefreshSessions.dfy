/** Refresh-token sessions: login opens a family, each rotation revokes the presented session and
    adds its replacement, and presenting a revoked token revokes the whole family. Tokens are opaque
    distinct values; each operation is one atomic step. */
module RefreshSessions {
  import opened Prelude

  datatype Session = Session(
    user: nat, token: nat, family: nat, createdAt: int, expiresAt: int, revokedAt: Option<int>, replacedBy: Option<nat>,
    lastUsedAt: Option<int>)

  datatype AuthError = TokenRequired | InvalidToken | ReuseDetected | TokenExpired | NotAuthenticated

  // Session ids are positions; rows are never deleted.
  function Revoke(s: Session, now: int): Session { s.(revokedAt := Some(now)) }

  function RevokeOpen(s: Session, now: int): Session { if s.revokedAt.None? then Revoke(s, now) else s }

  function RevokeWhere(rows: seq<Session>, hit: Session -> bool, now: int): seq<Session> {
    seq(|rows|, i requires 0 <= i < |rows| => if hit(rows[i]) then RevokeOpen(rows[i], now) else rows[i])
  }

  function FindToken(rows: seq<Session>, token: nat): Option<nat> {
    if rows == [] then None
    else
      var before := FindToken(rows[..|rows| - 1], token);
      if before.Some? then before else if rows[|rows| - 1].token == token then Some(|rows| - 1) else None
  }

  function Opened(user: nat, token: nat, family: nat, now: int, lifetime: int): Session {
    Session(user, token, family, now, now + lifetime, None, None, None)
  }

  // What the request and its surroundings contribute: the fresh token, the clock, whether the user
  // still exists, is active and belongs to the same merchant.
  datatype Rotation = Rotation(newToken: nat, now: int, lifetime: int, userOk: bool)

  function RotationError(rows: seq<Session>, token: Option<nat>, x: Rotation): Option<AuthError> {
    if token.None? then Some(TokenRequired)
    else
      var id := FindToken(rows, token.value);
      if id.None? then Some(InvalidToken)
      else if id.value >= |rows| || rows[id.value].revokedAt.Some? then Some(ReuseDetected)
      else if rows[id.value].expiresAt <= x.now then Some(TokenExpired)
      else if !x.userOk then Some(NotAuthenticated)
      else None
  }

  function InFamily(family: nat): Session -> bool { (s: Session) => s.family == family }

  function OfUser(user: nat): Session -> bool { (s: Session) => s.user == user }

  function AfterRotation(rows: seq<Session>, token: Option<nat>, x: Rotation): seq<Session> {
    if token.None? || FindToken(rows, token.value).None? || FindToken(rows, token.value).value >= |rows| then rows
    else
      var id := FindToken(rows, token.value).value;
      var row := rows[id];
      match RotationError(rows, token, x)
      case Some(ReuseDetected) => RevokeWhere(rows, InFamily(row.family), x.now)
      case Some(_) => rows[id := Revoke(row, x.now)]
      case None =>
        rows[id := Revoke(row, x.now).(replacedBy := Some(|rows|), lastUsedAt := Some(x.now))]
        + [Opened(row.user, x.newToken, row.family, x.now, x.lifetime)]
  }

  function AfterLogout(rows: seq<Session>, token: Option<nat>, now: int): seq<Session> {
    if token.None? || FindToken(rows, token.value).None? || FindToken(rows, token.value).value >= |rows| then rows
    else
      var id := FindToken(rows, token.value).value;
      rows[id := RevokeOpen(rows[id], now)]
  }

  class SessionStore {
    var rows: seq<Session>

    constructor ()
      ensures rows == []
    {
      rows := [];
    }

    method Lookup(token: nat) returns (id: Option<nat>)
      ensures id == FindToken(rows, token)
      ensures id.Some? ==> id.value < |rows| && rows[id.value].token == token
    {
      id := None;
      for k := 0 to |rows|
        invariant id == FindToken(rows[..k], token)
        invariant id.Some? ==> id.value < k && rows[id.value].token == token
      {
        assert rows[..k + 1][..k] == rows[..k];
        if id.None? && rows[k].token == token { id := Some(k); }
      }
      assert rows[..|rows|] == rows;
    }

    // create_session_tokens for a login: a family of its own.
    method Login(user: nat, token: nat, family: nat, now: int, lifetime: int) returns (id: nat)
      modifies this
      ensures rows == old(rows) + [Opened(user, token, family, now, lifetime)] && id == |old(rows)|
    {
      id := |rows|;
      var session := Session(user, token, family, now, now + lifetime, None, None, None);
      rows := rows + [session];
    }

    // UPDATE ... SET revoked_at WHERE <hit> AND revoked_at IS NULL
    method RevokeAll(hit: Session -> bool, now: int)
      modifies this
      ensures rows == RevokeWhere(old(rows), hit, now)
    {
      for k := 0 to |rows|
        invariant |rows| == |old(rows)|
        invariant forall j :: 0 <= j < k ==> rows[j] == RevokeWhere(old(rows), hit, now)[j]
        invariant forall j :: k <= j < |rows| ==> rows[j] == old(rows)[j]
      {
        if hit(rows[k]) && rows[k].revokedAt.None? { rows := rows[k := rows[k].(revokedAt := Some(now))]; }
      }
    }

    method Rotate(token: Option<nat>, x: Rotation) returns (error: Option<AuthError>)
      modifies this
      ensures error == RotationError(old(rows), token, x)
      ensures rows == AfterRotation(old(rows), token, x)
    {
      if token.None? { return Some(TokenRequired); }
      var id := Lookup(token.value);
      if id.None? { return Some(InvalidToken); }
      var row := rows[id.value];
      if row.revokedAt.Some? {
        RevokeAll(InFamily(row.family), x.now);
        return Some(ReuseDetected);
      }
      if row.expiresAt <= x.now {
        rows := rows[id.value := row.(revokedAt := Some(x.now))];
        return Some(TokenExpired);
      }
      if !x.userOk {
        rows := rows[id.value := row.(revokedAt := Some(x.now))];
        return Some(NotAuthenticated);
      }
      var replacement := Login(row.user, x.newToken, row.family, x.now, x.lifetime);
      row := row.(revokedAt := Some(x.now));
      row := row.(replacedBy := Some(replacement));
      row := row.(lastUsedAt := Some(x.now));
      rows := rows[id.value := row];
      return None;
    }

    method RevokeByRefresh(token: Option<nat>, now: int) returns (known: bool)
      modifies this
      ensures known <==> token.Some? && FindToken(old(rows), token.value).Some?
      ensures rows == AfterLogout(old(rows), token, now)
    {
      if token.None? { return false; }
      var id := Lookup(token.value);
      if id.None? { return false; }
      if rows[id.value].revokedAt.None? { rows := rows[id.value := rows[id.value].(revokedAt := Some(now))]; }
      return true;
    }
  }

  // ---------- runs ----------

  datatype Step =
    | LoginStep(user: nat, token: nat, family: nat, now: int, lifetime: int)
    | RotateStep(token: nat, x: Rotation)
    | LogoutStep(id: nat, now: int)      // by refresh token, access token or session id
    | RevokeUser(user: nat, now: int)    // password reset, MFA change

  ghost predicate Fresh(rows: seq<Session>, token: nat) { forall i :: 0 <= i < |rows| ==> rows[i].token != token }

  ghost predicate NewFamily(rows: seq<Session>, family: nat) {
    forall i :: 0 <= i < |rows| ==> rows[i].family != family
  }

  ghost predicate Allowed(rows: seq<Session>, step: Step) {
    match step
    case LoginStep(_, token, family, _, _) => Fresh(rows, token) && NewFamily(rows, family)
    case RotateStep(_, x) => Fresh(rows, x.newToken)
    case LogoutStep(id, _) => id < |rows|
    case RevokeUser(_, _) => true
  }

  function Next(rows: seq<Session>, step: Step): seq<Session> {
    match step
    case LoginStep(user, token, family, now, lifetime) => rows + [Opened(user, token, family, now, lifetime)]
    case RotateStep(token, x) => AfterRotation(rows, Some(token), x)
    case LogoutStep(id, now) => if id < |rows| then rows[id := RevokeOpen(rows[id], now)] else rows
    case RevokeUser(user, now) => RevokeWhere(rows, OfUser(user), now)
  }

  function After(steps: seq<Step>): seq<Session> {
    if steps == [] then [] else Next(After(steps[..|steps| - 1]), steps[|steps| - 1])
  }

  ghost predicate Legal(steps: seq<Step>) {
    steps != [] ==>
      var before := steps[..|steps| - 1];
      Legal(before) && Allowed(After(before), steps[|steps| - 1])
  }

  // ---------- invariants ----------

  ghost predicate OneOpenPerFamily(rows: seq<Session>) {
    forall i, j :: 0 <= i < j < |rows| && rows[i].family == rows[j].family ==>
        rows[i].revokedAt.Some? || rows[j].revokedAt.Some?
  }

  ghost predicate DistinctTokens(rows: seq<Session>) {
    forall i, j :: 0 <= i < j < |rows| ==> rows[i].token != rows[j].token
  }

  ghost predicate Dead(rows: seq<Session>, family: nat) {
    forall i :: 0 <= i < |rows| && rows[i].family == family ==> rows[i].revokedAt.Some?
  }

  // Replacements stay in the family and come later; whoever is replaced is revoked.
  ghost predicate Link(rows: seq<Session>, i: nat)
    requires i < |rows|
  {
    var r := rows[i].replacedBy;
    r.Some? ==> i < r.value < |rows| && rows[i].revokedAt.Some? && rows[r.value].family == rows[i].family
  }

  ghost predicate Chained(rows: seq<Session>) { forall i :: 0 <= i < |rows| ==> Link(rows, i) }

  ghost predicate Inv(rows: seq<Session>) { OneOpenPerFamily(rows) && DistinctTokens(rows) && Chained(rows) }

  lemma {:induction false} FindTokenIs(rows: seq<Session>, token: nat)
    ensures var id := FindToken(rows, token);
      && (id.Some? ==> id.value < |rows| && rows[id.value].token == token)
      && (id.None? ==> Fresh(rows, token))
  {
    if rows != [] { FindTokenIs(rows[..|rows| - 1], token); }
  }

  lemma OneOpenStep(rows: seq<Session>, step: Step)
    requires OneOpenPerFamily(rows) && Allowed(rows, step)
    ensures OneOpenPerFamily(Next(rows, step)) && |rows| <= |Next(rows, step)|
  {
    if step.RotateStep? { FindTokenIs(rows, step.token); }
  }

  lemma TokensStep(rows: seq<Session>, step: Step)
    requires DistinctTokens(rows) && Allowed(rows, step)
    ensures DistinctTokens(Next(rows, step))
  {
    if step.RotateStep? { FindTokenIs(rows, step.token); }
  }

  // Rows keep their family and their successor; only the rotated row gains one.
  lemma LinkKept(rows: seq<Session>, after: seq<Session>, i: nat)
    requires i < |rows| <= |after| && Link(rows, i)
    requires forall j :: 0 <= j < |rows| ==> after[j].family == rows[j].family
    requires after[i].replacedBy == rows[i].replacedBy && (rows[i].revokedAt.Some? ==> after[i].revokedAt.Some?)
    ensures Link(after, i)
  {
  }

  lemma ChainStep(rows: seq<Session>, step: Step)
    requires Chained(rows) && Allowed(rows, step)
    ensures Chained(Next(rows, step))
  {
    if step.RotateStep? { FindTokenIs(rows, step.token); }
    var after := Next(rows, step);
    assert forall j :: 0 <= j < |rows| ==> after[j].family == rows[j].family;
    forall i | 0 <= i < |after| ensures Link(after, i) {
      if i < |rows| && after[i].replacedBy == rows[i].replacedBy {
        assert Link(rows, i);
        LinkKept(rows, after, i);
      }
    }
  }

  lemma InvStep(rows: seq<Session>, step: Step)
    requires Inv(rows) && Allowed(rows, step)
    ensures Inv(Next(rows, step)) && |rows| <= |Next(rows, step)|
  {
    OneOpenStep(rows, step);
    TokensStep(rows, step);
    ChainStep(rows, step);
  }

  // A family without an open session stays without one, and no revocation is ever undone.
  lemma DeadStep(rows: seq<Session>, step: Step, family: nat)
    requires Inv(rows) && Allowed(rows, step) && Dead(rows, family) && !NewFamily(rows, family)
    ensures Dead(Next(rows, step), family) && !NewFamily(Next(rows, step), family)
  {
    if step.RotateStep? { FindTokenIs(rows, step.token); }
    var i :| 0 <= i < |rows| && rows[i].family == family;
    assert Next(rows, step)[i].family == family;
  }

  lemma {:induction false} AtMostOneOpen(steps: seq<Step>)
    requires Legal(steps)
    ensures Inv(After(steps))
  {
    if steps != [] {
      AtMostOneOpen(steps[..|steps| - 1]);
      InvStep(After(steps[..|steps| - 1]), steps[|steps| - 1]);
    }
  }

  lemma {:induction false} DeadForever(steps: seq<Step>, k: nat, family: nat)
    requires Legal(steps) && k <= |steps| && Dead(After(steps[..k]), family) && !NewFamily(After(steps[..k]), family)
    ensures Dead(After(steps), family) && !NewFamily(After(steps), family)
    decreases |steps|
  {
    if k == |steps| {
      assert steps[..k] == steps;
    } else {
      var before := steps[..|steps| - 1];
      assert before[..k] == steps[..k];
      DeadForever(before, k, family);
      AtMostOneOpen(before);
      DeadStep(After(before), steps[|steps| - 1], family);
    }
  }

  // Step k presents the token of session i.
  ghost predicate Presents(steps: seq<Step>, k: nat, i: nat) {
    && k < |steps| && steps[k].RotateStep?
    && i < |After(steps[..k])| && After(steps[..k])[i].token == steps[k].token
  }

  lemma {:induction false} LegalPrefix(steps: seq<Step>, k: nat)
    requires Legal(steps) && k <= |steps|
    ensures Legal(steps[..k])
    decreases |steps|
  {
    if k == |steps| {
      assert steps[..k] == steps;
    } else {
      assert steps[..|steps| - 1][..k] == steps[..k];
      LegalPrefix(steps[..|steps| - 1], k);
    }
  }

  lemma AfterOne(steps: seq<Step>, k: nat)
    requires k < |steps|
    ensures After(steps[..k + 1]) == Next(After(steps[..k]), steps[k])
  {
    assert steps[..k + 1][..k] == steps[..k];
  }

  // Once a revoked token is replayed, its family has no open session in any continuation.
  lemma ReplayKillsFamily(steps: seq<Step>, k: nat, i: nat)
    requires Legal(steps) && Presents(steps, k, i) && After(steps[..k])[i].revokedAt.Some?
    ensures Dead(After(steps), After(steps[..k])[i].family)
  {
    LegalPrefix(steps, k);
    AtMostOneOpen(steps[..k]);
    AfterOne(steps, k);
    var rows := After(steps[..k]);
    FindTokenIs(rows, steps[k].token);
    var family := rows[i].family;
    assert FindToken(rows, steps[k].token) == Some(i);
    assert Next(rows, steps[k]) == RevokeWhere(rows, InFamily(family), steps[k].x.now);
    assert Next(rows, steps[k])[i].family == family;
    DeadForever(steps, k + 1, family);
  }

  lemma StaysRevoked(rows: seq<Session>, step: Step, i: nat)
    requires Allowed(rows, step) && i < |rows|
    ensures i < |Next(rows, step)|
    ensures Next(rows, step)[i].token == rows[i].token && Next(rows, step)[i].family == rows[i].family
    ensures rows[i].revokedAt.Some? ==> Next(rows, step)[i].revokedAt.Some?
  {
    if step.RotateStep? { FindTokenIs(rows, step.token); }
  }

  lemma {:induction false} RevokedStays(steps: seq<Step>, k: nat, i: nat)
    requires Legal(steps) && k <= |steps| && i < |After(steps[..k])|
    ensures i < |After(steps)|
    ensures After(steps)[i].token == After(steps[..k])[i].token && After(steps)[i].family == After(steps[..k])[i].family
    ensures After(steps[..k])[i].revokedAt.Some? ==> After(steps)[i].revokedAt.Some?
    decreases |steps|
  {
    if k == |steps| {
      assert steps[..k] == steps;
    } else {
      var before := steps[..|steps| - 1];
      assert before[..k] == steps[..k];
      RevokedStays(before, k, i);
      StaysRevoked(After(before), steps[|steps| - 1], i);
    }
  }

  // Whatever presenting a token leads to, its session is revoked afterwards.
  lemma PresentedIsRevoked(rows: seq<Session>, token: nat, x: Rotation, i: nat)
    requires DistinctTokens(rows) && i < |rows| && rows[i].token == token
    ensures i < |AfterRotation(rows, Some(token), x)| && AfterRotation(rows, Some(token), x)[i].revokedAt.Some?
  {
    FindTokenIs(rows, token);
    assert FindToken(rows, token) == Some(i);
  }

  lemma RevokedNext(steps: seq<Step>, k: nat, i: nat)
    requires Legal(steps) && Presents(steps, k, i)
    ensures var rows, after := After(steps[..k]), After(steps[..k + 1]);
      i < |after| && after[i].token == rows[i].token && after[i].family == rows[i].family && after[i].revokedAt.Some?
  {
    LegalPrefix(steps, k);
    AtMostOneOpen(steps[..k]);
    AfterOne(steps, k);
    PresentedIsRevoked(After(steps[..k]), steps[k].token, steps[k].x, i);
    LegalPrefix(steps, k + 1);
    assert steps[..k + 1][..k] == steps[..k];
    RevokedStays(steps[..k + 1], k, i);
  }

  lemma StaysSince(early: seq<Step>, late: seq<Step>, i: nat)
    requires Legal(late) && early <= late && i < |After(early)|
    ensures i < |After(late)|
    ensures After(late)[i].token == After(early)[i].token && After(late)[i].family == After(early)[i].family
    ensures After(early)[i].revokedAt.Some? ==> After(late)[i].revokedAt.Some?
  {
    assert late[..|early|] == early;
    RevokedStays(late, |early|, i);
  }

  lemma PrefixesGrow(steps: seq<Step>, k: nat, l: nat)
    requires k <= l <= |steps|
    ensures steps[..k] <= steps[..l]
  {
  }

  lemma RevokedLater(steps: seq<Step>, k: nat, l: nat, i: nat)
    requires Legal(steps) && k < l <= |steps| && Presents(steps, k, i)
    ensures var rows, after := After(steps[..k]), After(steps[..l]);
      i < |after| && after[i].token == rows[i].token && after[i].family == rows[i].family && after[i].revokedAt.Some?
  {
    RevokedNext(steps, k, i);
    LegalPrefix(steps, l);
    PrefixesGrow(steps, k + 1, l);
    StaysSince(steps[..k + 1], steps[..l], i);
  }

  // Presenting the same token twice, whatever the first time led to, is answered as reuse and
  // leaves its family dead for good.
  lemma TokenWorksOnce(steps: seq<Step>, k: nat, l: nat, i: nat)
    requires Legal(steps) && k < l < |steps| && Presents(steps, k, i) && steps[l].RotateStep?
    requires steps[l].token == steps[k].token
    ensures RotationError(After(steps[..l]), Some(steps[l].token), steps[l].x) == Some(ReuseDetected)
    ensures Dead(After(steps), After(steps[..k])[i].family)
  {
    RevokedLater(steps, k, l, i);
    SecondTime(steps, l, i);
  }

  lemma SecondTime(steps: seq<Step>, l: nat, i: nat)
    requires Legal(steps) && Presents(steps, l, i) && After(steps[..l])[i].revokedAt.Some?
    ensures RotationError(After(steps[..l]), Some(steps[l].token), steps[l].x) == Some(ReuseDetected)
    ensures Dead(After(steps), After(steps[..l])[i].family)
  {
    LegalPrefix(steps, l);
    AtMostOneOpen(steps[..l]);
    FindTokenIs(After(steps[..l]), steps[l].token);
    ReplayKillsFamily(steps, l, i);
  }

  // ---------- what one presentation does, read off the rows ----------

  ghost predicate OpenAt(rows: seq<Session>, i: nat, token: nat) {
    i < |rows| && rows[i].token == token && rows[i].revokedAt.None?
  }

  // The presented token's session is open, has not expired, and its user is in order.
  ghost predicate Admissible(rows: seq<Session>, token: nat, x: Rotation) {
    exists i: nat :: OpenAt(rows, i, token) && x.now < rows[i].expiresAt && x.userOk
  }

  lemma Presented(rows: seq<Session>, token: nat, i: nat)
    requires DistinctTokens(rows) && i < |rows| && rows[i].token == token
    ensures FindToken(rows, token) == Some(i)
  {
    FindTokenIs(rows, token);
  }

  // A session is added if and only if the presentation is admissible; the token is then accepted.
  lemma RotatesExactly(rows: seq<Session>, token: nat, x: Rotation)
    requires DistinctTokens(rows)
    ensures |Next(rows, RotateStep(token, x))| == |rows| + (if Admissible(rows, token, x) then 1 else 0)
    ensures RotationError(rows, Some(token), x).None? <==> Admissible(rows, token, x)
  {
    FindTokenIs(rows, token);
    if Admissible(rows, token, x) {
      var i: nat :| OpenAt(rows, i, token) && x.now < rows[i].expiresAt && x.userOk;
      Presented(rows, token, i);
    }
    if RotationError(rows, Some(token), x).None? { assert OpenAt(rows, FindToken(rows, token).value, token); }
  }

  // Which refusal, and what it leaves behind: an open session that is refused is revoked now, a
  // revoked one revokes whatever is open in its family, an unknown token changes nothing.
  lemma RefusedExactly(rows: seq<Session>, token: nat, x: Rotation, i: nat)
    requires DistinctTokens(rows) && i < |rows| && rows[i].token == token && !Admissible(rows, token, x)
    ensures var after, error := Next(rows, RotateStep(token, x)), RotationError(rows, Some(token), x);
      && |after| == |rows|
      && (rows[i].revokedAt.Some? ==>
            error == Some(ReuseDetected) &&
            forall k :: 0 <= k < |rows| ==>
              after[k] == if rows[k].family == rows[i].family && rows[k].revokedAt.None?
                          then rows[k].(revokedAt := Some(x.now)) else rows[k])
      && (rows[i].revokedAt.None? ==>
            error == Some(if rows[i].expiresAt <= x.now then TokenExpired else NotAuthenticated) &&
            after == rows[i := rows[i].(revokedAt := Some(x.now))])
  {
    Presented(rows, token, i);
    if rows[i].revokedAt.None? { assert OpenAt(rows, i, token); }
  }

  lemma UnknownToken(rows: seq<Session>, token: nat, x: Rotation)
    requires Fresh(rows, token)
    ensures Next(rows, RotateStep(token, x)) == rows && RotationError(rows, Some(token), x) == Some(InvalidToken)
  {
    FindTokenIs(rows, token);
  }

  // The accepted token's session is revoked now and names its replacement; nothing else changes.
  lemma AcceptedExactly(rows: seq<Session>, token: nat, x: Rotation, i: nat)
    requires DistinctTokens(rows) && OpenAt(rows, i, token) && x.now < rows[i].expiresAt && x.userOk
    ensures var after := Next(rows, RotateStep(token, x));
      && |after| == |rows| + 1 && (forall k :: 0 <= k < |rows| && k != i ==> after[k] == rows[k])
      && after[i] == rows[i].(revokedAt := Some(x.now), replacedBy := Some(|rows|), lastUsedAt := Some(x.now))
      && var added := after[|rows|];
         added.token == x.newToken && added.user == rows[i].user && added.family == rows[i].family
         && added.createdAt == x.now && added.expiresAt == x.now + x.lifetime
         && added.revokedAt.None? && added.replacedBy.None?
  {
    Presented(rows, token, i);
  }

  // A logout or a revocation of a user ends exactly the open sessions it is about.
  lemma EndsExactly(rows: seq<Session>, step: Step, k: nat)
    requires (step.LogoutStep? || step.RevokeUser?) && k < |rows|
    ensures |Next(rows, step)| == |rows|
    ensures var about := if step.LogoutStep? then k == step.id else rows[k].user == step.user;
      Next(rows, step)[k] == if about && rows[k].revokedAt.None? then rows[k].(revokedAt := Some(step.now)) else rows[k]
  {
  }

  // ---------- where sessions come from, over runs ----------

  // i was replaced by j: same user and family, while i was still good, and revoked by it.
  ghost predicate Succession(rows: seq<Session>, i: nat, j: nat)
    requires i < |rows|
  {
    && j < |rows| && rows[j].user == rows[i].user && rows[j].family == rows[i].family
    && rows[j].createdAt < rows[i].expiresAt && rows[i].revokedAt == Some(rows[j].createdAt)
  }

  ghost predicate Successions(rows: seq<Session>) {
    forall i :: 0 <= i < |rows| && rows[i].replacedBy.Some? ==> Succession(rows, i, rows[i].replacedBy.value)
  }

  // Every session but the first of its family replaced an earlier one.
  ghost predicate Descends(rows: seq<Session>, j: nat)
    requires j < |rows|
  {
    (forall i :: 0 <= i < j ==> rows[i].family != rows[j].family)
    || exists i :: 0 <= i < j && rows[i].replacedBy == Some(j)
  }

  ghost predicate AllDescend(rows: seq<Session>) { forall j :: 0 <= j < |rows| ==> Descends(rows, j) }

  ghost predicate OneUserPerFamily(rows: seq<Session>) {
    forall i, j :: 0 <= i < |rows| && 0 <= j < |rows| && rows[i].family == rows[j].family ==>
        rows[i].user == rows[j].user
  }

  // A successor found before a step is still the successor after it.
  lemma SuccessionKept(rows: seq<Session>, step: Step, i: nat)
    requires Inv(rows) && Allowed(rows, step) && i < |rows| && rows[i].replacedBy.Some?
    requires Succession(rows, i, rows[i].replacedBy.value)
    ensures i < |Next(rows, step)| && Next(rows, step)[i].replacedBy == rows[i].replacedBy
    ensures Succession(Next(rows, step), i, rows[i].replacedBy.value)
  {
    if step.RotateStep? { FindTokenIs(rows, step.token); }
    assert Link(rows, i);
  }

  // The only row a step gives a successor to is an open, unexpired one that it rotates.
  lemma NewSuccessor(rows: seq<Session>, step: Step, i: nat)
    requires Inv(rows) && Allowed(rows, step) && i < |Next(rows, step)| && Next(rows, step)[i].replacedBy.Some?
    requires i < |rows| ==> rows[i].replacedBy.None?
    ensures Succession(Next(rows, step), i, Next(rows, step)[i].replacedBy.value)
  {
    if step.RotateStep? { FindTokenIs(rows, step.token); }
  }

  lemma SuccessionStep(rows: seq<Session>, step: Step)
    requires Inv(rows) && Allowed(rows, step) && Successions(rows)
    ensures Successions(Next(rows, step))
  {
    var after := Next(rows, step);
    forall i | 0 <= i < |after| && after[i].replacedBy.Some? ensures Succession(after, i, after[i].replacedBy.value) {
      if i < |rows| && rows[i].replacedBy.Some? { SuccessionKept(rows, step, i); } else { NewSuccessor(rows, step, i); }
    }
  }

  lemma DescentStep(rows: seq<Session>, step: Step)
    requires Inv(rows) && Allowed(rows, step) && AllDescend(rows)
    ensures AllDescend(Next(rows, step))
  {
    if step.RotateStep? { FindTokenIs(rows, step.token); }
    var after := Next(rows, step);
    forall j | 0 <= j < |after| ensures Descends(after, j) {
      if j < |rows| {
        assert Descends(rows, j);
        if i :| 0 <= i < j && rows[i].replacedBy == Some(j) { KeepsSuccessor(rows, step, i); }
      } else if step.RotateStep? {
        var id := FindToken(rows, step.token).value;
        assert after[id].replacedBy == Some(j);
      }
    }
  }

  lemma KeepsSuccessor(rows: seq<Session>, step: Step, i: nat)
    requires Inv(rows) && Allowed(rows, step) && i < |rows| && rows[i].replacedBy.Some?
    ensures i < |Next(rows, step)| && Next(rows, step)[i].replacedBy == rows[i].replacedBy
  {
    if step.RotateStep? { FindTokenIs(rows, step.token); }
    assert Link(rows, i);
  }

  lemma KeepsIdentity(rows: seq<Session>, step: Step, i: nat)
    requires Allowed(rows, step) && i < |rows|
    ensures i < |Next(rows, step)|
    ensures Next(rows, step)[i].user == rows[i].user && Next(rows, step)[i].family == rows[i].family
  {
    if step.RotateStep? { FindTokenIs(rows, step.token); }
  }

  // What is added starts a family or belongs to an existing session's family and user.
  lemma AddsRightly(rows: seq<Session>, step: Step)
    requires Allowed(rows, step)
    ensures var after := Next(rows, step);
      |rows| <= |after| <= |rows| + 1 &&
      (|after| > |rows| ==>
         NewFamily(rows, after[|rows|].family)
         || exists i :: 0 <= i < |rows| && rows[i].family == after[|rows|].family && rows[i].user == after[|rows|].user)
  {
    if step.RotateStep? { FindTokenIs(rows, step.token); }
  }

  lemma UserStep(rows: seq<Session>, step: Step)
    requires Allowed(rows, step) && OneUserPerFamily(rows)
    ensures OneUserPerFamily(Next(rows, step))
  {
    AddsRightly(rows, step);
    forall i | 0 <= i < |rows| { KeepsIdentity(rows, step, i); }
  }

  // In every run a replacement has its predecessor's user and family, was opened before the
  // predecessor expired, at the moment that revoked it; every session but a family's first is a
  // replacement; and a family belongs to one user.
  lemma {:induction false} RightfulSuccession(steps: seq<Step>)
    requires Legal(steps)
    ensures Successions(After(steps)) && AllDescend(After(steps)) && OneUserPerFamily(After(steps))
  {
    if steps != [] {
      var before, last := steps[..|steps| - 1], steps[|steps| - 1];
      RightfulSuccession(before);
      AtMostOneOpen(before);
      SuccessionStep(After(before), last);
      DescentStep(After(before), last);
      UserStep(After(before), last);
    }
  }

  // ---------- lifetimes ----------

  predicate Grants(step: Step, lifetime: int) {
    match step
    case LoginStep(_, _, _, _, l) => l == lifetime
    case RotateStep(_, x) => x.lifetime == lifetime
    case _ => true
  }

  // With one configured lifetime, every session ever opened expires one lifetime after it was opened.
  lemma {:induction false} LifetimeKept(steps: seq<Step>, lifetime: int)
    requires Legal(steps) && forall k :: 0 <= k < |steps| ==> Grants(steps[k], lifetime)
    ensures forall i :: 0 <= i < |After(steps)| ==> After(steps)[i].expiresAt == After(steps)[i].createdAt + lifetime
  {
    if steps != [] {
      var before, last := steps[..|steps| - 1], steps[|steps| - 1];
      forall k | 0 <= k < |before| ensures Grants(before[k], lifetime) { assert before[k] == steps[k]; }
      LifetimeKept(before, lifetime);
      assert Grants(last, lifetime);
      if last.RotateStep? { FindTokenIs(After(before), last.token); }
    }
  }
}
