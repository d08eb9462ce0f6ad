/** Refresh tokens: minting, rotation and reuse detection (backend/services/refresh_tokens.py).
    A token is known by its hash; the raw token is never stored. */
module RefreshTokens {
  import opened Wrappers

  type Hash = string

  datatype Reason = Expired | Rotated | ReuseDetected | LoggedOut

  datatype Token = Token(
    id: nat, user: int, createdAt: int, expiresAt: int, lastUsedAt: Option<int>,
    revokedAt: Option<int>, reason: Option<Reason>, replacedBy: Option<Hash>)

  datatype State = State(rows: map<Hash, Token>, count: nat)

  const EMPTY: State := State(map[], 0)

  datatype Error = RefreshInvalid | RefreshExpired | RefreshRevoked

  function Added(s: State, h: Hash, user: int, ttl: int, now: int): State {
    State(s.rows[h := Token(s.count, user, now, now + ttl, None, None, None, None)], s.count + 1)
  }

  function RevokedAll(s: State, user: int, reason: Reason, now: int): State {
    s.(rows := map h | h in s.rows ::
    if s.rows[h].user == user && s.rows[h].revokedAt.None? then
      s.rows[h].(revokedAt := Some(now), reason := Some(reason))
    else s.rows[h])
  }

  function Rotate(s: State, h: Hash, minted: Hash, ttl: int, now: int): (State, Result<int, Error>) {
    if h !in s.rows then (s, Err(RefreshInvalid))
    else
      var row := s.rows[h];
      if row.expiresAt <= now then
        var closed := row.(revokedAt := Some(now), reason := Some(Expired));
        (if row.revokedAt.None? then s.(rows := s.rows[h := closed]) else s, Err(RefreshExpired))
      else if row.revokedAt.Some? then
        (if row.replacedBy.Some? then RevokedAll(s, row.user, ReuseDetected, now) else s, Err(RefreshRevoked))
      else
        var spent := row.(
        revokedAt := Some(now), reason := Some(Rotated), replacedBy := Some(minted), lastUsedAt := Some(now));
        (Added(s.(rows := s.rows[h := spent]), minted, row.user, ttl, now), Ok(row.user))
  }

  // --- The store --------------------------------------------------------------------------------

  class TokenStore {
    const ttl: int
    var rows: map<Hash, Token>
    var count: nat

    constructor (ttl: int)
      ensures View() == EMPTY && this.ttl == ttl
    {
      this.ttl := ttl;
      rows, count := map[], 0;
    }

    function View(): State
      reads this
    {
      State(rows, count)
    }

    method MintRefreshToken(user: int, minted: Hash, now: int)
      modifies this
      ensures View() == Added(old(View()), minted, user, ttl, now)
    {
      rows := rows[minted := Token(count, user, now, now + ttl, None, None, None, None)];
      count := count + 1;
    }

    method RevokeAllRefreshTokens(user: int, reason: Reason, now: int)
      modifies this
      ensures View() == RevokedAll(old(View()), user, reason, now)
      ensures forall h :: h in old(rows) && (old(rows)[h].user != user || old(rows)[h].revokedAt.Some?) ==>
                h in rows && rows[h] == old(rows)[h]
    {
      rows := map h | h in rows ::
        if rows[h].user == user && rows[h].revokedAt.None? then rows[h].(revokedAt := Some(now), reason := Some(reason))
        else rows[h];
    }

    method RotateRefreshToken(presented: Hash, minted: Hash, now: int) returns (r: Result<int, Error>)
      modifies this
      ensures (View(), r) == Rotate(old(View()), presented, minted, ttl, now)
    {
      if presented !in rows {
        return Err(RefreshInvalid);
      }
      var row := rows[presented];
      if row.expiresAt <= now {
        if row.revokedAt.None? {
          row := row.(revokedAt := Some(now));
          row := row.(reason := Some(Expired));
          rows := rows[presented := row];
        }
        return Err(RefreshExpired);
      }
      if row.revokedAt.Some? {
        if row.replacedBy.Some? {
          RevokeAllRefreshTokens(row.user, ReuseDetected, now);
        }
        return Err(RefreshRevoked);
      }
      row := row.(revokedAt := Some(now), reason := Some(Rotated));
      row := row.(replacedBy := Some(minted));
      row := row.(lastUsedAt := Some(now));
      rows := rows[presented := row];
      MintRefreshToken(row.user, minted, now);
      return Ok(row.user);
    }
  }

  // --- Runs -------------------------------------------------------------------------------------

  datatype Event =
    | MintEvent(user: int, minted: Hash, now: int)
    | RotateEvent(presented: Hash, minted: Hash, now: int)
    | RevokeEvent(user: int, now: int)

  function Apply(s: State, e: Event, ttl: int): State {
    match e
    case MintEvent(user, minted, now) => Added(s, minted, user, ttl, now)
    case RotateEvent(presented, minted, now) => Rotate(s, presented, minted, ttl, now).0
    case RevokeEvent(user, now) => RevokedAll(s, user, LoggedOut, now)
  }

  /** A newly generated token has a hash not seen before. */
  predicate Fresh(s: State, e: Event) {
    match e
    case MintEvent(_, minted, _) => minted !in s.rows
    case RotateEvent(presented, minted, _) => minted !in s.rows && minted != presented
    case RevokeEvent(_, _) => true
  }

  function Run(events: seq<Event>, ttl: int): State {
    if events == [] then EMPTY else Apply(Run(events[..|events| - 1], ttl), events[|events| - 1], ttl)
  }

  predicate FreshRun(events: seq<Event>, ttl: int) {
    events == []
    || (FreshRun(events[..|events| - 1], ttl) && Fresh(Run(events[..|events| - 1], ttl), events[|events| - 1]))
  }

  // --- What each request does -------------------------------------------------------------------

  /** Revoking a user's tokens gives each live one this time and reason and changes no other row. */
  lemma RevokingIsForOneUser(s: State, user: int, reason: Reason, now: int)
    ensures var t := RevokedAll(s, user, reason, now);
            && t.rows.Keys == s.rows.Keys && t.count == s.count
            && forall h :: h in s.rows ==>
                 var r, u := s.rows[h], t.rows[h];
                 if r.user == user && r.revokedAt.None? then
                   && u.revokedAt == Some(now) && u.reason == Some(reason)
                   && u.id == r.id && u.user == r.user && u.replacedBy == r.replacedBy && u.lastUsedAt == r.lastUsedAt
                   && u.createdAt == r.createdAt && u.expiresAt == r.expiresAt
                 else u == r
  {
  }

  /** A rotation is granted exactly for a token that is there, unexpired and live, and gives its user a new
      live one with the full lifetime; each refusal has its reason. */
  lemma RotationIsGrantedIff(s: State, h: Hash, minted: Hash, ttl: int, now: int)
    requires minted !in s.rows
    ensures var (t, r) := Rotate(s, h, minted, ttl, now);
            && (r == Err(RefreshInvalid) <==> h !in s.rows)
            && (r == Err(RefreshExpired) <==> h in s.rows && s.rows[h].expiresAt <= now)
            && (r == Err(RefreshRevoked) <==> h in s.rows && now < s.rows[h].expiresAt && s.rows[h].revokedAt.Some?)
            && (r.Ok? <==> h in s.rows && now < s.rows[h].expiresAt && s.rows[h].revokedAt.None?)
            && (r.Ok? ==>
                  && r.value == s.rows[h].user
                  && t.rows.Keys == s.rows.Keys + {minted}
                  && t.rows[minted] == Token(s.count, s.rows[h].user, now, now + ttl, None, None, None, None)
                  && t.rows[h].revokedAt == t.rows[h].lastUsedAt == Some(now)
                  && t.rows[h].reason == Some(Rotated) && t.rows[h].replacedBy == Some(minted)
                  && t.rows[h].user == s.rows[h].user && t.rows[h].expiresAt == s.rows[h].expiresAt
                  && forall g :: g in s.rows && g != h ==> t.rows[g] == s.rows[g])
            && (r.Err? ==>
                  && t.rows.Keys == s.rows.Keys
                  && (forall g :: g in s.rows && (h !in s.rows || s.rows[g].user != s.rows[h].user) ==>
                        t.rows[g] == s.rows[g]))
            && (r == Err(RefreshExpired) ==>
                  && (forall g :: g in s.rows && g != h ==> t.rows[g] == s.rows[g])
                  && t.rows[h].revokedAt.Some?
                  && (s.rows[h].revokedAt.None? ==>
                        t.rows[h].revokedAt == Some(now) && t.rows[h].reason == Some(Expired))
                  && (s.rows[h].revokedAt.Some? ==> t.rows[h] == s.rows[h]))
            && (r == Err(RefreshRevoked) && s.rows[h].replacedBy.None? ==> t == s)
            && (r == Err(RefreshRevoked) && s.rows[h].replacedBy.Some? ==>
                  forall g :: g in s.rows && s.rows[g].user == s.rows[h].user && s.rows[g].revokedAt.None? ==>
                    t.rows[g].revokedAt == Some(now) && t.rows[g].reason == Some(ReuseDetected))
  {
  }

  /** Whose tokens a request is about: nobody's when it presents an unknown one. */
  predicate IsAbout(s: State, e: Event, user: int) {
    match e
    case MintEvent(u, _, _) => u == user
    case RotateEvent(presented, _, _) => presented in s.rows && s.rows[presented].user == user
    case RevokeEvent(u, _) => u == user
  }

  /** Over every run none of whose requests is about a user, every token of his stays as it is. */
  lemma {:induction false} OthersLeaveTheUserAlone(events: seq<Event>, n: nat, ttl: int, user: int, h: Hash)
    requires FreshRun(events, ttl) && n <= |events|
    requires h in Run(events[..n], ttl).rows && Run(events[..n], ttl).rows[h].user == user
    requires forall i :: n <= i < |events| ==> !IsAbout(Run(events[..i], ttl), events[i], user)
    ensures h in Run(events, ttl).rows && Run(events, ttl).rows[h] == Run(events[..n], ttl).rows[h]
  {
    if n == |events| {
      assert events[..n] == events;
    } else {
      var before, last := events[..|events| - 1], events[|events| - 1];
      assert before[..n] == events[..n];
      forall i | n <= i < |before| ensures !IsAbout(Run(before[..i], ttl), before[i], user) {
        assert before[..i] == events[..i];
      }
      OthersLeaveTheUserAlone(before, n, ttl, user, h);
      OneRequestLeavesOthersAlone(Run(before, ttl), last, ttl, user, h);
    }
  }

  lemma OneRequestLeavesOthersAlone(s: State, e: Event, ttl: int, user: int, h: Hash)
    requires Fresh(s, e) && !IsAbout(s, e, user) && h in s.rows && s.rows[h].user == user
    ensures h in Apply(s, e, ttl).rows && Apply(s, e, ttl).rows[h] == s.rows[h]
  {
  }

  /** A minted token is live, its user's, and expires after the lifetime; no other row changes. */
  lemma MintedTokenIsLive(s: State, minted: Hash, user: int, ttl: int, now: int)
    requires minted !in s.rows
    ensures var t := Added(s, minted, user, ttl, now);
            && t.rows.Keys == s.rows.Keys + {minted} && (forall g :: g in s.rows ==> t.rows[g] == s.rows[g])
            && t.rows[minted].user == user && t.rows[minted].revokedAt.None? && t.rows[minted].replacedBy.None?
            && t.rows[minted].createdAt == now && t.rows[minted].expiresAt == now + ttl
  {
  }

  // --- Chains -----------------------------------------------------------------------------------

  /** A replaced token is revoked, its successor is a younger token of the same user, and no two
      tokens share a successor. */
  ghost predicate Inv(s: State) {
    && (forall h :: h in s.rows ==> s.rows[h].id < s.count)
    && (forall h :: h in s.rows && s.rows[h].replacedBy.Some? ==>
          && s.rows[h].revokedAt.Some?
          && s.rows[h].replacedBy.value in s.rows
          && s.rows[s.rows[h].replacedBy.value].user == s.rows[h].user
          && s.rows[h].id < s.rows[s.rows[h].replacedBy.value].id)
    && (forall g, h ::
          g in s.rows && h in s.rows && s.rows[g].replacedBy.Some? && s.rows[g].replacedBy == s.rows[h].replacedBy
          ==> g == h)
  }

  lemma RevokingKeepsInv(s: State, user: int, reason: Reason, now: int)
    requires Inv(s)
    ensures Inv(RevokedAll(s, user, reason, now))
  {
  }

  lemma AddingKeepsInv(s: State, h: Hash, user: int, ttl: int, now: int)
    requires Inv(s) && h !in s.rows
    ensures Inv(Added(s, h, user, ttl, now))
  {
  }

  lemma RotatingKeepsInv(s: State, h: Hash, minted: Hash, ttl: int, now: int)
    requires Inv(s) && minted !in s.rows
    ensures Inv(Rotate(s, h, minted, ttl, now).0)
  {
    if h in s.rows {
      RevokingKeepsInv(s, s.rows[h].user, ReuseDetected, now);
    }
  }

  /** With fresh hashes the tokens form chains after every run. */
  lemma {:induction false} TokensAlwaysFormChains(events: seq<Event>, ttl: int)
    requires FreshRun(events, ttl)
    ensures Inv(Run(events, ttl))
  {
    if events != [] {
      var s := Run(events[..|events| - 1], ttl);
      TokensAlwaysFormChains(events[..|events| - 1], ttl);
      match events[|events| - 1]
      case MintEvent(user, minted, now) => AddingKeepsInv(s, minted, user, ttl, now);
      case RotateEvent(presented, minted, now) => RotatingKeepsInv(s, presented, minted, ttl, now);
      case RevokeEvent(user, now) => RevokingKeepsInv(s, user, LoggedOut, now);
    }
  }

  /** The last token of the chain a token belongs to. */
  ghost function Tail(s: State, h: Hash): (t: Hash)
    requires Inv(s) && h in s.rows
    ensures t in s.rows && s.rows[t].replacedBy.None?
    ensures s.rows[t].user == s.rows[h].user && s.rows[h].id <= s.rows[t].id
    decreases s.count - s.rows[h].id
  {
    if s.rows[h].replacedBy.None? then h else Tail(s, s.rows[h].replacedBy.value)
  }

  /** Following successors from g leads to h. */
  ghost predicate LeadsTo(s: State, g: Hash, h: Hash)
    requires Inv(s) && g in s.rows
    ensures LeadsTo(s, g, h) ==> h in s.rows && (g == h || s.rows[g].id < s.rows[h].id)
    decreases s.count - s.rows[g].id
  {
    g == h || (s.rows[g].replacedBy.Some? && LeadsTo(s, s.rows[g].replacedBy.value, h))
  }

  /** Two tokens are in the same chain only if one leads to the other, so chains do not merge,
      and never both ways, so they do not turn back on themselves. */
  lemma ChainsAreDisjointLines(s: State, g: Hash, h: Hash)
    requires Inv(s) && g in s.rows && h in s.rows
    ensures Tail(s, g) == Tail(s, h) ==> LeadsTo(s, g, h) || LeadsTo(s, h, g)
    ensures LeadsTo(s, g, h) && LeadsTo(s, h, g) ==> g == h
    ensures LeadsTo(s, g, h) ==> Tail(s, g) == Tail(s, h) && s.rows[g].user == s.rows[h].user
    decreases s.count - s.rows[g].id
  {
    var row := s.rows[g];
    if row.replacedBy.Some? {
      var next := row.replacedBy.value;
      ChainsAreDisjointLines(s, next, h);
      if LeadsTo(s, h, next) && h != next {
        LastStep(s, h, next, g);
      }
    } else {
      LeadsToTail(s, h);
    }
  }

  lemma {:induction false} LeadsToTail(s: State, h: Hash)
    requires Inv(s) && h in s.rows
    ensures LeadsTo(s, h, Tail(s, h))
    decreases s.count - s.rows[h].id
  {
    if s.rows[h].replacedBy.Some? {
      LeadsToTail(s, s.rows[h].replacedBy.value);
    }
  }

  /** Whoever leads to a token leads to the only one it replaces. */
  lemma {:induction false} LastStep(s: State, h: Hash, next: Hash, g: Hash)
    requires Inv(s) && h in s.rows && g in s.rows && h != next
    requires s.rows[g].replacedBy == Some(next) && LeadsTo(s, h, next)
    ensures LeadsTo(s, h, g)
    decreases s.count - s.rows[h].id
  {
    var step := s.rows[h].replacedBy.value;
    if step == next {
      assert g == h;
    } else {
      LastStep(s, step, next, g);
    }
  }

  /** Only the last token of a chain can be unrevoked. */
  lemma OnlyTheTailIsLive(s: State, h: Hash)
    requires Inv(s) && h in s.rows && s.rows[h].revokedAt.None?
    ensures Tail(s, h) == h
    ensures forall g :: g in s.rows && Tail(s, g) == h && s.rows[g].revokedAt.None? ==> g == h
  {
  }

  // --- Once revoked, once rotated ---------------------------------------------------------------

  lemma StepOnlyRevokes(s: State, e: Event, ttl: int, h: Hash)
    requires Fresh(s, e) && h in s.rows
    ensures var t := Apply(s, e, ttl);
            && h in t.rows && t.rows[h].user == s.rows[h].user && t.rows[h].expiresAt == s.rows[h].expiresAt
            && (s.rows[h].revokedAt.Some? ==> t.rows[h].revokedAt == s.rows[h].revokedAt)
            && (s.rows[h].revokedAt.Some? ==> t.rows[h].replacedBy == s.rows[h].replacedBy)
  {
  }

  /** A revoked token stays revoked, with the successor it had, over every later run. */
  lemma {:induction false} RevokedForGood(events: seq<Event>, n: nat, ttl: int, h: Hash)
    requires FreshRun(events, ttl) && n <= |events|
    requires h in Run(events[..n], ttl).rows && Run(events[..n], ttl).rows[h].revokedAt.Some?
    ensures h in Run(events, ttl).rows
    ensures Run(events, ttl).rows[h].revokedAt == Run(events[..n], ttl).rows[h].revokedAt
    ensures Run(events, ttl).rows[h].replacedBy == Run(events[..n], ttl).rows[h].replacedBy
  {
    var before := events[..|events| - (if n == |events| then 0 else 1)];
    assert before[..n] == events[..n];
    if n == |events| {
      assert events[..n] == events;
    } else {
      RevokedForGood(before, n, ttl, h);
      StepOnlyRevokes(Run(before, ttl), events[|events| - 1], ttl, h);
    }
  }

  /** How often presenting h succeeded in a run. */
  function Rotations(events: seq<Event>, ttl: int, h: Hash): nat {
    if events == [] then 0
    else
      var before, e := events[..|events| - 1], events[|events| - 1];
      Rotations(before, ttl, h)
      + if e.RotateEvent? && e.presented == h && Rotate(Run(before, ttl), h, e.minted, ttl, e.now).1.Ok? then 1 else 0
  }

  /** Each token rotates successfully at most once, and has a successor exactly if it did. */
  lemma {:induction false} RotatesAtMostOnce(events: seq<Event>, ttl: int, h: Hash)
    requires FreshRun(events, ttl)
    ensures var s := Run(events, ttl);
            Rotations(events, ttl, h) == if h in s.rows && s.rows[h].replacedBy.Some? then 1 else 0
  {
    if events != [] {
      var before, e := events[..|events| - 1], events[|events| - 1];
      RotatesAtMostOnce(before, ttl, h);
      TokensAlwaysFormChains(before, ttl);
      var s := Run(before, ttl);
      if h in s.rows {
        StepOnlyRevokes(s, e, ttl, h);
      }
    }
  }

  // --- Reuse ------------------------------------------------------------------------------------

  ghost predicate AllRevoked(s: State, user: int) {
    forall h :: h in s.rows && s.rows[h].user == user ==> s.rows[h].revokedAt.Some?
  }

  /** Presenting a rotated token leaves its user without a live token exactly when it is presented
      before its own expiry, or the user had none left already. */
  lemma ReuseRevokesEverythingIff(s: State, h: Hash, minted: Hash, ttl: int, now: int)
    requires Inv(s) && h in s.rows && s.rows[h].replacedBy.Some?
    ensures Rotate(s, h, minted, ttl, now).1.Err?
    ensures AllRevoked(Rotate(s, h, minted, ttl, now).0, s.rows[h].user) <==>
            now < s.rows[h].expiresAt || AllRevoked(s, s.rows[h].user)
  {
  }

  /** A rotated token that has expired gives no alarm: its younger successor stays live. */
  lemma ExpiredReuseGoesUnnoticed()
    ensures exists events: seq<Event> ::
              && FreshRun(events, 10)
              && |events| == 3 && events[2] == RotateEvent("a", "c", 12)
              && "a" in Run(events[..2], 10).rows && Run(events[..2], 10).rows["a"].replacedBy == Some("b")
              && "b" in Run(events, 10).rows && Run(events, 10).rows["b"].revokedAt.None?
  {
    var mint, rotate, reuse := MintEvent(7, "a", 0), RotateEvent("a", "b", 5), RotateEvent("a", "c", 12);
    var events := [mint, rotate, reuse];
    assert events[..2] == [mint, rotate] && events[..2][..1] == [mint] && events[..2][..1][..0] == [];
    var s1 := Added(EMPTY, "a", 7, 10, 0);
    assert Run([mint], 10) == s1 by { assert [mint][..0] == []; }
    assert Run([mint, rotate], 10) == Apply(s1, rotate, 10) by { assert [mint, rotate][..1] == [mint]; }
    assert FreshRun([], 10) && Run([], 10) == EMPTY;
    assert FreshRun([mint], 10) by { assert [mint][..0] == []; }
    assert FreshRun([mint, rotate], 10) by { assert [mint, rotate][..1] == [mint]; }
    assert FreshRun(events, 10);
  }
}
