/**
 Refresh-token rotation: the table of refresh tokens under registration, login, refresh and logout.

 Each operation is one committed or rolled-back transaction. The unique constraints of the table are
 part of the model: a colliding id or token hash rolls the transaction back, so no freshness of the
 generated values is assumed. Rows are kept in insertion order.
 */
module RefreshTokens {
  import opened Sequences

  type UserId = nat
  type TokenId = nat
  type Time = int

  datatype User = User(
    id: UserId, email: string, passwordHash: string, active: bool, deleted: bool, lastLoginAt: Option<Time>)

  datatype Token = Token(
    id: TokenId, user: UserId, hash: string, expiresAt: Time,
    revokedAt: Option<Time>, replacedBy: Option<TokenId>)

  /** The hash functions and the configured lifetime are parameters. */
  datatype Config = Config(
    hashToken: string -> string,
    hashPassword: string -> string,
    verifyPassword: (string, string) -> bool,
    lifetime: int)

  datatype State = State(users: seq<User>, tokens: seq<Token>)

  /** The values an operation generates: the ids of the rows it adds and the raw token it issues. */
  datatype Issue = Issue(id: TokenId, raw: string)

  datatype Op =
    | Register(email: string, password: string, userId: UserId, issue: Issue, now: Time)
    | Login(email: string, password: string, issue: Issue, now: Time)
    | Refresh(raw: string, issue: Issue, checkedAt: Time, now: Time)
    | Logout(raw: string, now: Time)
    | SetStatus(user: UserId, active: bool, deleted: bool)   // an administrator's change

  datatype Reply = Session(raw: string) | Done | Failed(code: int)

  // ---------------------------------------------------------------- lookups

  function FindByEmail(users: seq<User>, email: string): (r: Option<nat>)
    ensures r.Some? ==> r.value < |users| && users[r.value].email == email
  {
    if users == [] then None
    else if users[|users| - 1].email == email then Some(|users| - 1)
    else FindByEmail(users[..|users| - 1], email)
  }

  function FindById(users: seq<User>, id: UserId): (r: Option<nat>)
    ensures r.Some? ==> r.value < |users| && users[r.value].id == id
  {
    if users == [] then None
    else if users[|users| - 1].id == id then Some(|users| - 1)
    else FindById(users[..|users| - 1], id)
  }

  function FindByHash(tokens: seq<Token>, hash: string): (r: Option<nat>)
    ensures r.Some? ==> r.value < |tokens| && tokens[r.value].hash == hash
    ensures r.None? ==> forall i :: 0 <= i < |tokens| ==> tokens[i].hash != hash
  {
    if tokens == [] then None
    else if tokens[|tokens| - 1].hash == hash then Some(|tokens| - 1)
    else FindByHash(tokens[..|tokens| - 1], hash)
  }

  /** The unique constraints on id and token hash. */
  predicate Collides(tokens: seq<Token>, t: Token) {
    exists i :: 0 <= i < |tokens| && (tokens[i].id == t.id || tokens[i].hash == t.hash)
  }

  /** `_ensure_user_is_active`: 0 when the user may go on, else the error code. */
  function StatusError(u: User): int {
    if u.deleted then 4031 else if !u.active then 4032 else 0
  }

  function NewToken(c: Config, user: UserId, issue: Issue, issuedAt: Time): Token {
    Token(issue.id, user, c.hashToken(issue.raw), issuedAt + c.lifetime, None, None)
  }

  // ---------------------------------------------------------------- one operation

  function Step(c: Config, s: State, op: Op): (State, Reply) {
    match op
    case Register(email, password, userId, issue, now) =>
      var token := NewToken(c, userId, issue, now);
      if FindByEmail(s.users, email).Some? then (s, Failed(4091))
      else if FindById(s.users, userId).Some? || Collides(s.tokens, token) then (s, Failed(5001))
      else
        var user := User(userId, email, c.hashPassword(password), true, false, Some(now));
        (State(s.users + [user], s.tokens + [token]), Session(issue.raw))
    case Login(email, password, issue, now) =>
      var found := FindByEmail(s.users, email);
      if found.None? || !c.verifyPassword(password, s.users[found.value].passwordHash) then (s, Failed(4011))
      else
        var user := s.users[found.value];
        var token := NewToken(c, user.id, issue, now);
        if StatusError(user) != 0 then (s, Failed(StatusError(user)))
        else if Collides(s.tokens, token) then (s, Failed(5002))
        else (State(s.users[found.value := user.(lastLoginAt := Some(now))], s.tokens + [token]), Session(issue.raw))
    case Refresh(raw, issue, checkedAt, now) =>
      if raw == "" then (s, Failed(4012)) else
      var found := FindByHash(s.tokens, c.hashToken(raw));
      if found.None? || s.tokens[found.value].revokedAt.Some? || s.tokens[found.value].expiresAt <= checkedAt
      then (s, Failed(4013))
      else
        var current := s.tokens[found.value];
        var owner := FindById(s.users, current.user);
        if owner.None? then (s, Failed(4041))
        else if StatusError(s.users[owner.value]) != 0 then (s, Failed(StatusError(s.users[owner.value])))
        else
          var replacement := NewToken(c, s.users[owner.value].id, issue, now);
          if Collides(s.tokens, replacement) then (s, Failed(5003))
          else
            var revoked := current.(revokedAt := Some(now), replacedBy := Some(replacement.id));
            (s.(tokens := s.tokens[found.value := revoked] + [replacement]), Session(issue.raw))
    case Logout(raw, now) =>
      if raw == "" then (s, Done) else
      var found := FindByHash(s.tokens, c.hashToken(raw));
      if found.None? || s.tokens[found.value].revokedAt.Some? then (s, Done)
      else (s.(tokens := s.tokens[found.value := s.tokens[found.value].(revokedAt := Some(now))]), Done)
    case SetStatus(user, active, deleted) =>
      var found := FindById(s.users, user);
      if found.None? then (s, Done)
      else (s.(users := s.users[found.value := s.users[found.value].(active := active, deleted := deleted)]), Done)
  }

  function Run(c: Config, s: State, ops: seq<Op>): State {
    if ops == [] then s else Step(c, Run(c, s, ops[..|ops| - 1]), ops[|ops| - 1]).0
  }

  /** The reply to operation `i` of a run. */
  function ReplyTo(c: Config, s: State, ops: seq<Op>, i: nat): Reply
    requires i < |ops|
  {
    Step(c, Run(c, s, ops[..i]), ops[i]).1
  }

  // ---------------------------------------------------------------- the invariant

  ghost predicate UniqueRows(tokens: seq<Token>) {
    forall i, j :: 0 <= i < j < |tokens| ==> tokens[i].id != tokens[j].id && tokens[i].hash != tokens[j].hash
  }

  /** Row `i` was replaced by row `j`. */
  ghost predicate Links(tokens: seq<Token>, i: int, j: int) {
    0 <= i < |tokens| && 0 <= j < |tokens| && tokens[i].replacedBy == Some(tokens[j].id)
  }

  /** Every link leaves a revoked row for a later row of the same user. */
  ghost predicate LinksForward(tokens: seq<Token>) {
    forall i :: 0 <= i < |tokens| && tokens[i].replacedBy.Some? ==>
      tokens[i].revokedAt.Some? &&
      exists j :: i < j < |tokens| && Links(tokens, i, j) && tokens[j].user == tokens[i].user
  }

  /** No two rows were replaced by the same row. */
  ghost predicate LinksInjective(tokens: seq<Token>) {
    forall i, j :: 0 <= i < j < |tokens| && tokens[i].replacedBy.Some? ==> tokens[i].replacedBy != tokens[j].replacedBy
  }

  ghost predicate Inv(tokens: seq<Token>) {
    UniqueRows(tokens) && LinksForward(tokens) && LinksInjective(tokens)
  }

  lemma AddingKeepsInv(tokens: seq<Token>, t: Token)
    requires Inv(tokens) && !Collides(tokens, t) && t.replacedBy == None
    ensures Inv(tokens + [t])
  {
    var after := tokens + [t];
    assert forall i :: 0 <= i < |tokens| ==> after[i] == tokens[i];
    forall i | 0 <= i < |after| && after[i].replacedBy.Some?
      ensures exists j :: i < j < |after| && Links(after, i, j) && after[j].user == after[i].user
    {
      var j :| i < j < |tokens| && Links(tokens, i, j) && tokens[j].user == tokens[i].user;
      assert Links(after, i, j);
    }
  }

  lemma RevokingKeepsInv(tokens: seq<Token>, k: nat, now: Time)
    requires Inv(tokens) && k < |tokens|
    ensures Inv(tokens[k := tokens[k].(revokedAt := Some(now))])
  {
    var after := tokens[k := tokens[k].(revokedAt := Some(now))];
    forall i | 0 <= i < |after| && after[i].replacedBy.Some?
      ensures exists j :: i < j < |after| && Links(after, i, j) && after[j].user == after[i].user
    {
      var j :| i < j < |tokens| && Links(tokens, i, j) && tokens[j].user == tokens[i].user;
      assert Links(after, i, j);
    }
  }

  lemma LinkingKeepsInv(tokens: seq<Token>, k: nat, t: Token, now: Time)
    requires Inv(tokens) && k < |tokens| && tokens[k].replacedBy == None && tokens[k].revokedAt == None
    requires !Collides(tokens, t) && t.replacedBy == None && t.user == tokens[k].user
    ensures Inv(tokens[k := tokens[k].(revokedAt := Some(now), replacedBy := Some(t.id))] + [t])
  {
    AddingKeepsInv(tokens, t);
    var before := tokens + [t];
    var after := tokens[k := tokens[k].(revokedAt := Some(now), replacedBy := Some(t.id))] + [t];
    assert forall i :: 0 <= i < |after| && i != k ==> after[i] == before[i];
    assert Links(after, k, |tokens|);
    forall i | 0 <= i < |after| && i != k && after[i].replacedBy.Some?
      ensures exists j :: i < j < |after| && Links(after, i, j) && after[j].user == after[i].user
      ensures after[i].replacedBy != Some(t.id)
    {
      var j :| i < j < |tokens| && Links(tokens, i, j) && tokens[j].user == tokens[i].user;
      assert Links(after, i, j);
      assert tokens[j].id != t.id;
    }
  }

  lemma StepKeepsInv(c: Config, s: State, op: Op)
    requires Inv(s.tokens)
    ensures Inv(Step(c, s, op).0.tokens)
  {
    var t := Step(c, s, op).0;
    match op
    case Register(_, _, userId, issue, now) =>
      if t != s { AddingKeepsInv(s.tokens, NewToken(c, userId, issue, now)); }
    case Login(email, _, issue, now) =>
      if t != s { AddingKeepsInv(s.tokens, NewToken(c, s.users[FindByEmail(s.users, email).value].id, issue, now)); }
    case Refresh(raw, issue, _, now) =>
      if t != s {
        var k := FindByHash(s.tokens, c.hashToken(raw)).value;
        LinkingKeepsInv(s.tokens, k, NewToken(c, s.tokens[k].user, issue, now), now);
      }
    case Logout(raw, now) =>
      if t != s { RevokingKeepsInv(s.tokens, FindByHash(s.tokens, c.hashToken(raw)).value, now); }
    case SetStatus(_, _, _) =>
  }

  /** In every state of every run that starts with an empty token table, links leave revoked rows for
      later rows of the same user and no two links meet; so they form disjoint chains. */
  lemma {:induction false} RunKeepsInv(c: Config, users: seq<User>, ops: seq<Op>)
    ensures Inv(Run(c, State(users, []), ops).tokens)
  {
    if ops != [] {
      RunKeepsInv(c, users, ops[..|ops| - 1]);
      StepKeepsInv(c, Run(c, State(users, []), ops[..|ops| - 1]), ops[|ops| - 1]);
    }
  }

  // ---------------------------------------------------------------- revocation is final

  /** A row keeps its identity, and once revoked or replaced stays exactly so. */
  ghost predicate Extends(before: seq<Token>, after: seq<Token>) {
    |before| <= |after| && forall i :: 0 <= i < |before| ==> RowExtends(before[i], after[i])
  }

  ghost predicate RowExtends(a: Token, b: Token) {
    && b.id == a.id && b.user == a.user && b.hash == a.hash && b.expiresAt == a.expiresAt
    && (a.revokedAt.Some? ==> b.revokedAt == a.revokedAt && b.replacedBy == a.replacedBy)
    && (a.replacedBy.Some? ==> b.replacedBy == a.replacedBy)
  }

  lemma StepExtends(c: Config, s: State, op: Op)
    requires LinksForward(s.tokens)
    ensures Extends(s.tokens, Step(c, s, op).0.tokens)
  {
  }

  /** Revocation is never undone, nor re-dated, nor re-linked, and no row is ever removed. */
  lemma {:induction false} RevocationIsFinal(c: Config, users: seq<User>, ops: seq<Op>, i: nat)
    requires i <= |ops|
    ensures Extends(Run(c, State(users, []), ops[..i]).tokens, Run(c, State(users, []), ops).tokens)
    decreases |ops| - i
  {
    var s := State(users, []);
    if i == |ops| {
      assert ops[..i] == ops;
    } else {
      assert ops[..i + 1][..i] == ops[..i];
      RunKeepsInv(c, users, ops[..i]);
      StepExtends(c, Run(c, s, ops[..i]), ops[i]);
      RevocationIsFinal(c, users, ops, i + 1);
    }
  }

  lemma FindByHashIsUnique(tokens: seq<Token>, i: nat)
    requires UniqueRows(tokens) && i < |tokens|
    ensures FindByHash(tokens, tokens[i].hash) == Some(i)
  {
    var r := FindByHash(tokens, tokens[i].hash);
  }

  /** Over any run, whatever the hash function, refresh accepts each raw token at most once. */
  lemma TokenIsAcceptedAtMostOnce(c: Config, users: seq<User>, ops: seq<Op>, p: nat, q: nat)
    requires p < q < |ops| && ops[p].Refresh? && ops[q].Refresh?
    requires ReplyTo(c, State(users, []), ops, p).Session? && ReplyTo(c, State(users, []), ops, q).Session?
    ensures c.hashToken(ops[p].raw) != c.hashToken(ops[q].raw) && ops[p].raw != ops[q].raw
  {
    RevokedStaysRejected(c, users, ops, p, q);
  }

  /** Nor does it accept a token that was logged out before. */
  lemma LoggedOutIsNeverAccepted(c: Config, users: seq<User>, ops: seq<Op>, p: nat, q: nat)
    requires p < q < |ops| && ops[p].Logout? && ops[p].raw != "" && ops[q].Refresh?
    requires FindByHash(Run(c, State(users, []), ops[..p]).tokens, c.hashToken(ops[p].raw)).Some?
    requires ReplyTo(c, State(users, []), ops, q).Session?
    ensures ops[p].raw != ops[q].raw
  {
    RevokedStaysRejected(c, users, ops, p, q);
  }

  /** After a refresh or a logout that found its row, the row is revoked for good. */
  lemma RevokedStaysRejected(c: Config, users: seq<User>, ops: seq<Op>, p: nat, q: nat)
    requires p < q < |ops| && ops[q].Refresh? && ReplyTo(c, State(users, []), ops, q).Session?
    requires (ops[p].Refresh? && ReplyTo(c, State(users, []), ops, p).Session?) || (ops[p].Logout? && ops[p].raw != "")
    requires FindByHash(Run(c, State(users, []), ops[..p]).tokens, c.hashToken(ops[p].raw)).Some?
    ensures c.hashToken(ops[p].raw) != c.hashToken(ops[q].raw)
  {
    var s := State(users, []);
    var before := Run(c, s, ops[..p]);
    var k := FindByHash(before.tokens, c.hashToken(ops[p].raw)).value;
    assert ops[..p + 1][..p] == ops[..p];
    assert Run(c, s, ops[..p + 1]).tokens[k].revokedAt.Some?;
    assert ops[..q][..p + 1] == ops[..p + 1];
    RevocationIsFinal(c, users, ops[..q], p + 1);
    var later := Run(c, s, ops[..q]);
    RunKeepsInv(c, users, ops[..p]);
    StepExtends(c, before, ops[p]);
    assert later.tokens[k].revokedAt.Some?;
    RunKeepsInv(c, users, ops[..q]);
    FindByHashIsUnique(later.tokens, k);
  }

  // ---------------------------------------------------------------- chains

  /** The row a chain starts with: the one a login or a registration added. */
  ghost function Root(tokens: seq<Token>, j: nat): nat
    requires j < |tokens|
  {
    if exists i :: 0 <= i < j && Links(tokens, i, j) then
      var i :| 0 <= i < j && Links(tokens, i, j);
      Root(tokens, i)
    else j
  }

  lemma LinkTargetIsUnique(tokens: seq<Token>, i: int, j: int)
    requires UniqueRows(tokens) && Links(tokens, i, j)
    ensures forall k :: Links(tokens, i, k) ==> k == j
  {
  }

  lemma Predecessor(tokens: seq<Token>, j: nat) returns (p: nat)
    requires j < |tokens| && Root(tokens, j) != j
    ensures p < j && Links(tokens, p, j) && Root(tokens, p) == Root(tokens, j)
  {
    p :| 0 <= p < j && Links(tokens, p, j) && Root(tokens, p) == Root(tokens, j);
  }

  /** Of two rows of one chain, the earlier one was replaced, by a row not after the later one. */
  lemma {:induction false} EarlierOfChainIsReplaced(tokens: seq<Token>, i: nat, j: nat)
    requires UniqueRows(tokens) && i < j < |tokens| && Root(tokens, i) == Root(tokens, j)
    ensures exists k :: i < k <= j && Links(tokens, i, k)
    decreases j + i
  {
    RootIsEarlier(tokens, i);
    var p := Predecessor(tokens, j);
    LinkTargetIsUnique(tokens, p, j);
    if p > i {
      EarlierOfChainIsReplaced(tokens, i, p);
    } else if p < i {
      EarlierOfChainIsReplaced(tokens, p, i);
    }
  }

  lemma {:induction false} RootIsEarlier(tokens: seq<Token>, j: nat)
    requires j < |tokens|
    ensures Root(tokens, j) <= j
  {
    if exists i :: 0 <= i < j && Links(tokens, i, j) {
      var i :| 0 <= i < j && Links(tokens, i, j) && Root(tokens, j) == Root(tokens, i);
      RootIsEarlier(tokens, i);
    }
  }

  /** In every reachable state each chain has at most one unrevoked token. */
  lemma OneLiveTokenPerChain(c: Config, users: seq<User>, ops: seq<Op>, i: nat, j: nat)
    requires i < j < |Run(c, State(users, []), ops).tokens|
    ensures var tokens := Run(c, State(users, []), ops).tokens;
      tokens[i].revokedAt == None && tokens[j].revokedAt == None ==> Root(tokens, i) != Root(tokens, j)
  {
    RunKeepsInv(c, users, ops);
    var tokens := Run(c, State(users, []), ops).tokens;
    if Root(tokens, i) == Root(tokens, j) {
      EarlierOfChainIsReplaced(tokens, i, j);
    }
  }

  // ---------------------------------------------------------------- counting sessions

  function Live(tokens: seq<Token>): nat {
    if tokens == [] then 0 else
      Live(tokens[..|tokens| - 1]) + if tokens[|tokens| - 1].revokedAt.None? then 1 else 0
  }

  lemma LiveSnoc(tokens: seq<Token>, t: Token)
    ensures Live(tokens + [t]) == Live(tokens) + if t.revokedAt.None? then 1 else 0
  {
    assert (tokens + [t])[..|tokens|] == tokens;
  }

  lemma {:induction false} LiveUpdate(tokens: seq<Token>, k: nat, t: Token)
    requires k < |tokens| && tokens[k].revokedAt.None? && t.revokedAt.Some?
    ensures Live(tokens[k := t]) == Live(tokens) - 1
  {
    var n := |tokens| - 1;
    if k == n {
      assert tokens[k := t][..n] == tokens[..n];
    } else {
      assert tokens[k := t][..n] == tokens[..n][k := t];
      LiveUpdate(tokens[..n], k, t);
    }
  }

  /** What one operation adds to the number of live sessions: a refresh exchanges one for one. */
  function SessionChange(c: Config, s: State, op: Op): int {
    if (op.Register? || op.Login?) && Step(c, s, op).1.Session? then 1
    else if op.Logout? && Step(c, s, op).0 != s then -1
    else 0
  }

  function SessionBalance(c: Config, s: State, ops: seq<Op>): int {
    if ops == [] then 0 else
      SessionBalance(c, s, ops[..|ops| - 1]) + SessionChange(c, Run(c, s, ops[..|ops| - 1]), ops[|ops| - 1])
  }

  lemma OpeningChangesLive(c: Config, s: State, op: Op)
    requires op.Register? || op.Login?
    ensures Live(Step(c, s, op).0.tokens) == Live(s.tokens) + SessionChange(c, s, op)
  {
    if op.Register? {
      LiveSnoc(s.tokens, NewToken(c, op.userId, op.issue, op.now));
    } else if Step(c, s, op).0 != s {
      LiveSnoc(s.tokens, NewToken(c, s.users[FindByEmail(s.users, op.email).value].id, op.issue, op.now));
    }
  }

  /** Revoking a live row and adding its replacement leaves their number. */
  lemma ReplacingKeepsLive(tokens: seq<Token>, k: nat, revoked: Token, replacement: Token)
    requires k < |tokens| && tokens[k].revokedAt.None? && revoked.revokedAt.Some? && replacement.revokedAt.None?
    ensures Live(tokens[k := revoked] + [replacement]) == Live(tokens)
  {
    LiveUpdate(tokens, k, revoked);
    LiveSnoc(tokens[k := revoked], replacement);
  }

  lemma RefreshKeepsLive(c: Config, s: State, op: Op)
    requires op.Refresh?
    ensures Live(Step(c, s, op).0.tokens) == Live(s.tokens)
  {
    var t := Step(c, s, op).0;
    if t != s {
      var k := FindByHash(s.tokens, c.hashToken(op.raw)).value;
      ReplacingKeepsLive(s.tokens, k, t.tokens[k], t.tokens[|s.tokens|]);
    }
  }

  lemma LogoutChangesLive(c: Config, s: State, op: Op)
    requires op.Logout?
    ensures Live(Step(c, s, op).0.tokens) == Live(s.tokens) + SessionChange(c, s, op)
  {
    if Step(c, s, op).0 != s {
      var k := FindByHash(s.tokens, c.hashToken(op.raw)).value;
      LiveUpdate(s.tokens, k, s.tokens[k].(revokedAt := Some(op.now)));
    }
  }

  lemma StepChangesLive(c: Config, s: State, op: Op)
    ensures Live(Step(c, s, op).0.tokens) == Live(s.tokens) + SessionChange(c, s, op)
  {
    if op.Register? || op.Login? {
      OpeningChangesLive(c, s, op);
    } else if op.Refresh? {
      RefreshKeepsLive(c, s, op);
    } else if op.Logout? {
      LogoutChangesLive(c, s, op);
    }
  }

  /** The unrevoked tokens are the sessions opened minus the sessions logged out; refreshing, however
      often, neither multiplies nor loses sessions. */
  lemma {:induction false} LiveSessionsBalance(c: Config, users: seq<User>, ops: seq<Op>)
    ensures Live(Run(c, State(users, []), ops).tokens) == SessionBalance(c, State(users, []), ops)
  {
    if ops != [] {
      LiveSessionsBalance(c, users, ops[..|ops| - 1]);
      StepChangesLive(c, Run(c, State(users, []), ops[..|ops| - 1]), ops[|ops| - 1]);
    }
  }

  // ---------------------------------------------------------------- an issued token works

  /** The user exists, is active and not deleted. */
  predicate MayGoOn(users: seq<User>, id: UserId) {
    FindById(users, id).Some? && StatusError(users[FindById(users, id).value]) == 0
  }

  /** Presenting next the token a session was opened or continued with is accepted exactly when it has not
      expired, its user may go on and the values generated for its replacement do not collide. */
  lemma IssuedTokenIsAcceptedIff(c: Config, users: seq<User>, ops: seq<Op>, op: Op, next: Op)
    requires (op.Register? || op.Login? || op.Refresh?) && op.issue.raw != ""
    requires next.Refresh? && next.raw == op.issue.raw
    ensures var (t, reply) := Step(c, Run(c, State(users, []), ops), op);
      reply.Session? ==>
        && t.tokens != []
        && var owner := t.tokens[|t.tokens| - 1].user;
           (Step(c, t, next).1 == Session(next.issue.raw) <==>
              && next.checkedAt < op.now + c.lifetime
              && MayGoOn(t.users, owner)
              && !Collides(t.tokens, NewToken(c, owner, next.issue, next.now)))
  {
    var s := Run(c, State(users, []), ops);
    if Step(c, s, op).1.Session? {
      RunKeepsInv(c, users, ops);
      StepKeepsInv(c, s, op);
      SessionIsLastRow(c, s, op);
      LastRowIsAcceptedIff(c, Step(c, s, op).0, next);
    }
  }

  lemma SessionIsLastRow(c: Config, s: State, op: Op)
    requires (op.Register? || op.Login? || op.Refresh?) && Step(c, s, op).1.Session?
    ensures var tokens := Step(c, s, op).0.tokens;
      tokens != [] && tokens[|tokens| - 1] == NewToken(c, tokens[|tokens| - 1].user, op.issue, op.now)
  {
  }

  lemma LastRowIsAcceptedIff(c: Config, t: State, next: Op)
    requires UniqueRows(t.tokens) && t.tokens != [] && next.Refresh? && next.raw != ""
    requires var row := t.tokens[|t.tokens| - 1]; row.hash == c.hashToken(next.raw) && row.revokedAt == None
    ensures var row := t.tokens[|t.tokens| - 1];
      Step(c, t, next).1 == Session(next.issue.raw) <==>
        && next.checkedAt < row.expiresAt && MayGoOn(t.users, row.user)
        && !Collides(t.tokens, NewToken(c, row.user, next.issue, next.now))
  {
    var found := FindByHash(t.tokens, c.hashToken(next.raw));
    assert found.Some? && found.value == |t.tokens| - 1;
    if MayGoOn(t.users, t.tokens[found.value].user) {
      assert t.users[FindById(t.users, t.tokens[found.value].user).value].id == t.tokens[found.value].user;
    }
  }

  // ---------------------------------------------------------------- who gets a session

  /** No e-mail and no user id occurs twice. */
  ghost predicate UniqueUsers(users: seq<User>) {
    forall i, j :: 0 <= i < j < |users| ==> users[i].email != users[j].email && users[i].id != users[j].id
  }

  /** User `i` registered with this e-mail and has this password. */
  ghost predicate Knows(c: Config, users: seq<User>, i: int, email: string, password: string) {
    0 <= i < |users| && users[i].email == email && c.verifyPassword(password, users[i].passwordHash)
  }

  /** A stored token has the id or the hash that the operation generated. */
  ghost predicate Taken(c: Config, tokens: seq<Token>, issue: Issue) {
    exists i :: 0 <= i < |tokens| && (tokens[i].id == issue.id || tokens[i].hash == c.hashToken(issue.raw))
  }

  /** A new unrevoked token of this user has been added, and no other row has changed. */
  ghost predicate Opened(c: Config, before: seq<Token>, after: seq<Token>, user: UserId, issue: Issue, now: Time) {
    && |after| == |before| + 1 && after[..|before|] == before
    && after[|before|].id == issue.id && after[|before|].user == user && after[|before|].hash == c.hashToken(issue.raw)
    && after[|before|].expiresAt == now + c.lifetime
    && after[|before|].revokedAt == after[|before|].replacedBy == None
  }

  lemma {:induction false} FoundByEmail(users: seq<User>, email: string)
    ensures FindByEmail(users, email).None? ==> forall i :: 0 <= i < |users| ==> users[i].email != email
  {
    if users != [] && users[|users| - 1].email != email {
      FoundByEmail(users[..|users| - 1], email);
    }
  }

  lemma {:induction false} FoundById(users: seq<User>, id: UserId)
    ensures FindById(users, id).None? ==> forall i :: 0 <= i < |users| ==> users[i].id != id
  {
    if users != [] && users[|users| - 1].id != id {
      FoundById(users[..|users| - 1], id);
    }
  }

  /** A login of somebody who knows the password of an account opens a session for that account exactly when
      the account is active and not deleted and the generated values are new, and otherwise fails with the
      error of the first of these; a login of anybody else fails. A failed login changes nothing. */
  lemma LoginOutcome(c: Config, s: State, email: string, password: string, issue: Issue, now: Time, i: int)
    requires UniqueUsers(s.users)
    ensures var (t, reply) := Step(c, s, Login(email, password, issue, now));
      && (reply == Failed(4011) <==> forall j :: !Knows(c, s.users, j, email, password))
      && (!reply.Session? ==> reply.Failed? && t == s)
      && (reply.Session? ==> exists j :: Knows(c, s.users, j, email, password))
      && (Knows(c, s.users, i, email, password) ==>
            && (reply.Session? <==> s.users[i].active && !s.users[i].deleted && !Taken(c, s.tokens, issue))
            && (reply == Failed(4031) <==> s.users[i].deleted)
            && (reply == Failed(4032) <==> !s.users[i].deleted && !s.users[i].active)
            && (reply == Failed(5002) <==> !s.users[i].deleted && s.users[i].active && Taken(c, s.tokens, issue))
            && (reply.Session? ==>
                  && reply.raw == issue.raw
                  && Opened(c, s.tokens, t.tokens, s.users[i].id, issue, now)
                  && |t.users| == |s.users|
                  && (forall j :: 0 <= j < |s.users| && j != i ==> t.users[j] == s.users[j])
                  && t.users[i] == s.users[i].(lastLoginAt := Some(now))))
  {
    FoundByEmail(s.users, email);
    var found := FindByEmail(s.users, email);
    if found.Some? {
      assert forall j :: Knows(c, s.users, j, email, password) ==> j == found.value;
      TakenIsCollision(c, s.tokens, s.users[found.value].id, issue, now);
      if c.verifyPassword(password, s.users[found.value].passwordHash) {
        assert Knows(c, s.users, found.value, email, password);
      }
    }
  }

  lemma TakenIsCollision(c: Config, tokens: seq<Token>, user: UserId, issue: Issue, now: Time)
    ensures Collides(tokens, NewToken(c, user, issue, now)) <==> Taken(c, tokens, issue)
  {
  }

  /** A registration opens a session for a new active account exactly when neither its e-mail nor any
      generated value is in use; an e-mail in use is told apart. A failed registration changes nothing. */
  lemma RegistrationOutcome(c: Config, s: State, email: string, password: string, userId: UserId, issue: Issue, now: Time)
    ensures var (t, reply) := Step(c, s, Register(email, password, userId, issue, now));
      && (reply == Failed(4091) <==> exists i :: 0 <= i < |s.users| && s.users[i].email == email)
      && (reply.Session? <==>
            && (forall i :: 0 <= i < |s.users| ==> s.users[i].email != email && s.users[i].id != userId)
            && !Taken(c, s.tokens, issue))
      && (!reply.Session? ==> t == s && (reply == Failed(4091) || reply == Failed(5001)))
      && (reply.Session? ==>
            && reply.raw == issue.raw
            && Opened(c, s.tokens, t.tokens, userId, issue, now)
            && |t.users| == |s.users| + 1 && t.users[..|s.users|] == s.users
            && t.users[|s.users|] == User(userId, email, c.hashPassword(password), true, false, Some(now)))
  {
    FoundByEmail(s.users, email);
    FoundById(s.users, userId);
    TakenIsCollision(c, s.tokens, userId, issue, now);
  }

  /** Row `k` holds this raw token, not revoked and not expired when it was checked. */
  ghost predicate Presents(c: Config, tokens: seq<Token>, k: int, raw: string, checkedAt: Time) {
    && raw != "" && 0 <= k < |tokens| && tokens[k].hash == c.hashToken(raw)
    && tokens[k].revokedAt.None? && checkedAt < tokens[k].expiresAt
  }

  /** User `i` is the user of row `k`. */
  ghost predicate Owns(s: State, k: int, i: int) {
    0 <= k < |s.tokens| && 0 <= i < |s.users| && s.users[i].id == s.tokens[k].user
  }

  /** A refresh with a valid token of an account is accepted exactly when the account is active and not deleted
      and the generated values are new; then that row is revoked and linked to a new one of the same account,
      and no other changes. Every failure changes nothing. */
  lemma RefreshOutcome(c: Config, s: State, raw: string, issue: Issue, checkedAt: Time, now: Time, k: int, i: int)
    requires UniqueUsers(s.users) && UniqueRows(s.tokens)
    ensures var (t, reply) := Step(c, s, Refresh(raw, issue, checkedAt, now));
      && (reply == Failed(4012) <==> raw == "")
      && (reply == Failed(4013) <==> raw != "" && forall j :: !Presents(c, s.tokens, j, raw, checkedAt))
      && (!reply.Session? ==> reply.Failed? && t == s)
      && (Presents(c, s.tokens, k, raw, checkedAt) ==> (reply == Failed(4041) <==> forall j :: !Owns(s, k, j)))
      && (Presents(c, s.tokens, k, raw, checkedAt) && Owns(s, k, i) ==>
            && (reply.Session? <==> s.users[i].active && !s.users[i].deleted && !Taken(c, s.tokens, issue))
            && (reply == Failed(4031) <==> s.users[i].deleted)
            && (reply == Failed(4032) <==> !s.users[i].deleted && !s.users[i].active)
            && (reply == Failed(5003) <==> !s.users[i].deleted && s.users[i].active && Taken(c, s.tokens, issue))
            && (reply.Session? ==>
                  && reply.raw == issue.raw && t.users == s.users
                  && Opened(c, s.tokens[k := Replaced(s.tokens[k], now, issue)], t.tokens, s.tokens[k].user, issue, now)))
  {
    var found := FindByHash(s.tokens, c.hashToken(raw));
    if raw != "" && found.Some? {
      assert forall j :: Presents(c, s.tokens, j, raw, checkedAt) ==> j == found.value;
      if Presents(c, s.tokens, found.value, raw, checkedAt) {
        OwnerFound(s, found.value);
        TakenIsCollision(c, s.tokens, s.tokens[found.value].user, issue, now);
      }
    }
  }

  function Replaced(row: Token, now: Time, issue: Issue): Token {
    Token(row.id, row.user, row.hash, row.expiresAt, Some(now), Some(issue.id))
  }

  lemma OwnerFound(s: State, k: nat)
    requires UniqueUsers(s.users) && k < |s.tokens|
    ensures var owner := FindById(s.users, s.tokens[k].user);
      && (owner.Some? ==> Owns(s, k, owner.value) && forall i :: Owns(s, k, i) ==> i == owner.value)
      && (owner.None? ==> forall i :: !Owns(s, k, i))
  {
    FoundById(s.users, s.tokens[k].user);
  }

  /** A logout never fails. It revokes the unrevoked row of its token, if there is one, and changes nothing
      else; expiry does not matter. */
  lemma LogoutOutcome(c: Config, s: State, raw: string, now: Time)
    requires UniqueRows(s.tokens)
    ensures var (t, reply) := Step(c, s, Logout(raw, now));
      && reply == Done && t.users == s.users && |t.tokens| == |s.tokens|
      && forall k :: 0 <= k < |s.tokens| ==>
           t.tokens[k] == if raw != "" && s.tokens[k].hash == c.hashToken(raw) && s.tokens[k].revokedAt.None?
                          then s.tokens[k].(revokedAt := Some(now)) else s.tokens[k]
  {
  }

  /** A change of status is one of the account with that id and of nothing else. */
  lemma StatusOutcome(c: Config, s: State, user: UserId, active: bool, deleted: bool)
    requires UniqueUsers(s.users)
    ensures var t := Step(c, s, SetStatus(user, active, deleted)).0;
      && t.tokens == s.tokens && |t.users| == |s.users|
      && forall i :: 0 <= i < |s.users| ==>
           t.users[i] == if s.users[i].id == user then s.users[i].(active := active, deleted := deleted) else s.users[i]
  {
    FoundById(s.users, user);
  }

  // ---------------------------------------------------------------- accounts over whole runs

  /** A user keeps id, e-mail and password hash. */
  ghost predicate SameAccounts(before: seq<User>, after: seq<User>) {
    && |before| <= |after|
    && forall i :: 0 <= i < |before| ==>
         after[i].id == before[i].id && after[i].email == before[i].email && after[i].passwordHash == before[i].passwordHash
  }

  lemma StepKeepsAccounts(c: Config, s: State, op: Op)
    requires UniqueUsers(s.users)
    ensures UniqueUsers(Step(c, s, op).0.users) && SameAccounts(s.users, Step(c, s, op).0.users)
  {
    if op.Register? {
      RegistrationOutcome(c, s, op.email, op.password, op.userId, op.issue, op.now);
    }
  }

  lemma {:induction false} RunKeepsAccounts(c: Config, ops: seq<Op>)
    ensures UniqueUsers(Run(c, State([], []), ops).users)
  {
    if ops != [] {
      RunKeepsAccounts(c, ops[..|ops| - 1]);
      StepKeepsAccounts(c, Run(c, State([], []), ops[..|ops| - 1]), ops[|ops| - 1]);
    }
  }

  lemma {:induction false} AccountsStay(c: Config, ops: seq<Op>, p: nat)
    requires p <= |ops|
    ensures SameAccounts(Run(c, State([], []), ops[..p]).users, Run(c, State([], []), ops).users)
    decreases |ops| - p
  {
    if p == |ops| {
      assert ops[..p] == ops;
    } else {
      assert ops[..p + 1][..p] == ops[..p];
      RunKeepsAccounts(c, ops[..p]);
      StepKeepsAccounts(c, Run(c, State([], []), ops[..p]), ops[p]);
      AccountsStay(c, ops, p + 1);
    }
  }

  /** User `i` has this e-mail, id and password hash. */
  ghost predicate IsAccount(users: seq<User>, i: nat, email: string, id: UserId, hash: string) {
    i < |users| && users[i].email == email && users[i].id == id && users[i].passwordHash == hash
  }

  lemma RegisteredAccount(c: Config, ops: seq<Op>, p: nat) returns (i: nat)
    requires p < |ops| && ops[p].Register? && ReplyTo(c, State([], []), ops, p).Session?
    ensures IsAccount(Run(c, State([], []), ops).users, i, ops[p].email, ops[p].userId, c.hashPassword(ops[p].password))
  {
    var s := Run(c, State([], []), ops[..p]);
    i := |s.users|;
    RegistrationOutcome(c, s, ops[p].email, ops[p].password, ops[p].userId, ops[p].issue, ops[p].now);
    assert ops[..p + 1][..p] == ops[..p];
    AccountsStay(c, ops, p + 1);
  }

  /** A login of an account that is given a session. */
  lemma SessionOfAccount(c: Config, s: State, op: Op, i: nat, id: UserId, hash: string)
    requires UniqueUsers(s.users) && op.Login? && IsAccount(s.users, i, op.email, id, hash)
    requires Step(c, s, op).1.Session?
    ensures c.verifyPassword(op.password, hash)
    ensures Opened(c, s.tokens, Step(c, s, op).0.tokens, id, op.issue, op.now)
  {
    LoginOutcome(c, s, op.email, op.password, op.issue, op.now, i);
    var j :| Knows(c, s.users, j, op.email, op.password);
    assert j == i;
  }

  /** Over any run from no users: once an e-mail has been registered, every later login with it that is given
      a session knows the registered password, and its token is one of the registered account. */
  lemma LoginNeedsTheRegisteredPassword(c: Config, ops: seq<Op>, p: nat, q: nat)
    requires p < q < |ops| && ops[p].Register? && ops[q].Login? && ops[p].email == ops[q].email
    requires ReplyTo(c, State([], []), ops, p).Session? && ReplyTo(c, State([], []), ops, q).Session?
    ensures c.verifyPassword(ops[q].password, c.hashPassword(ops[p].password))
    ensures var before := Run(c, State([], []), ops[..q]);
      Opened(c, before.tokens, Step(c, before, ops[q]).0.tokens, ops[p].userId, ops[q].issue, ops[q].now)
  {
    assert ops[..q][..p] == ops[..p] && ops[..q][p] == ops[p];
    var i := RegisteredAccount(c, ops[..q], p);
    RunKeepsAccounts(c, ops[..q]);
    SessionOfAccount(c, Run(c, State([], []), ops[..q]), ops[q], i, ops[p].userId, c.hashPassword(ops[p].password));
  }

  // ---------------------------------------------------------------- the service object

  /** `AuthService` over its two tables; each method is one transaction. */
  class AuthService {
    const config: Config
    var users: seq<User>
    var tokens: seq<Token>

    ghost function View(): State
      reads this
    {
      State(users, tokens)
    }

    constructor (config: Config)
      ensures this.config == config && View() == State([], [])
    {
      this.config := config;
      users, tokens := [], [];
    }

    method RegisterUser(email: string, password: string, userId: UserId, issue: Issue, now: Time) returns (reply: Reply)
      modifies this
      ensures (View(), reply) == Step(config, old(View()), Register(email, password, userId, issue, now))
    {
      if FindByEmail(users, email).Some? {
        return Failed(4091);
      }
      var token := NewToken(config, userId, issue, now);
      if FindById(users, userId).Some? || Collides(tokens, token) {
        return Failed(5001);
      }
      users := users + [User(userId, email, config.hashPassword(password), true, false, Some(now))];
      tokens := tokens + [token];
      return Session(issue.raw);
    }

    method LogIn(email: string, password: string, issue: Issue, now: Time) returns (reply: Reply)
      modifies this
      ensures (View(), reply) == Step(config, old(View()), Login(email, password, issue, now))
    {
      var found := FindByEmail(users, email);
      if found.None? || !config.verifyPassword(password, users[found.value].passwordHash) {
        return Failed(4011);
      }
      var user := users[found.value];
      if StatusError(user) != 0 {
        return Failed(StatusError(user));
      }
      var token := NewToken(config, user.id, issue, now);
      if Collides(tokens, token) {
        return Failed(5002);
      }
      users := users[found.value := user.(lastLoginAt := Some(now))];
      tokens := tokens + [token];
      return Session(issue.raw);
    }

    method RefreshSession(raw: string, issue: Issue, checkedAt: Time, now: Time) returns (reply: Reply)
      modifies this
      ensures (View(), reply) == Step(config, old(View()), Refresh(raw, issue, checkedAt, now))
    {
      if raw == "" {
        return Failed(4012);
      }
      var found := FindByHash(tokens, config.hashToken(raw));
      if found.None? || tokens[found.value].revokedAt.Some? || tokens[found.value].expiresAt <= checkedAt {
        return Failed(4013);
      }
      var current := tokens[found.value];
      var owner := FindById(users, current.user);
      if owner.None? {
        return Failed(4041);
      }
      if StatusError(users[owner.value]) != 0 {
        return Failed(StatusError(users[owner.value]));
      }
      var replacement := NewToken(config, users[owner.value].id, issue, now);
      if Collides(tokens, replacement) {
        return Failed(5003);
      }
      tokens := tokens + [replacement];
      tokens := tokens[found.value := current.(revokedAt := Some(now), replacedBy := Some(replacement.id))];
      assert tokens
          == old(tokens)[found.value := current.(revokedAt := Some(now), replacedBy := Some(replacement.id))] + [replacement];
      return Session(issue.raw);
    }

    method LogOut(raw: string, now: Time) returns (reply: Reply)
      modifies this
      ensures (View(), reply) == Step(config, old(View()), Logout(raw, now))
    {
      if raw == "" {
        return Done;
      }
      var found := FindByHash(tokens, config.hashToken(raw));
      if found.None? || tokens[found.value].revokedAt.Some? {
        return Done;
      }
      tokens := tokens[found.value := tokens[found.value].(revokedAt := Some(now))];
      return Done;
    }
  }
}
