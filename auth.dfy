/** The access-control chain in front of the protected routes: `verifyToken`,
    the admin gate and the per-email ownership check. */
module Auth {
  import opened Wrappers
  import opened Documents

  /** The decoded token payload; only its `email` claim is used. */
  datatype Claims = Claims(email: Email)

  /** Token verification against the server secret and the clock, as an oracle:
      the decoded claims, or `None` for a bad signature, an expired or malformed token. */
  type Verifier = string -> Option<Claims>

  /** Where a request stands after a gate. */
  datatype Gate = Unauthorized | Forbidden | Granted(claims: Claims)

  /** JavaScript's `s.split(sep)` for a one-character separator. */
  function Split(s: string, sep: char): (parts: seq<string>)
    ensures |parts| >= 1
    ensures |parts| == 1 <==> sep !in s
    ensures forall i :: 0 <= i < |parts| ==> sep !in parts[i]
    decreases |s|
  {
    if |s| == 0 then [""]
    else
      var rest := Split(s[1..], sep);
      if s[0] == sep then [""] + rest
      else [[s[0]] + rest[0]] + rest[1..]
  }

  /** `parts.join(sep)`. */
  function Join(parts: seq<string>, sep: char): string
    requires |parts| >= 1
    decreases |parts|
  {
    if |parts| == 1 then parts[0] else parts[0] + [sep] + Join(parts[1..], sep)
  }

  /** Joining the pieces of a split gives back the string. */
  lemma {:induction false} JoinSplit(s: string, sep: char)
    ensures Join(Split(s, sep), sep) == s
    decreases |s|
  {
    if |s| > 0 {
      var rest := Split(s[1..], sep);
      JoinSplit(s[1..], sep);
      if s[0] == sep {
        assert s == [sep] + s[1..];
      } else if |rest| == 1 {
        assert s == [s[0]] + s[1..];
      } else {
        assert Join(rest, sep) == rest[0] + [sep] + Join(rest[1..], sep);
        assert s == [s[0]] + s[1..];
      }
    }
  }

  /** Splitting a join of separator-free pieces gives back the pieces. */
  lemma {:induction false} SplitJoin(parts: seq<string>, sep: char)
    requires |parts| >= 1
    requires forall i :: 0 <= i < |parts| ==> sep !in parts[i]
    ensures Split(Join(parts, sep), sep) == parts
    decreases |parts|, |parts[0]|
  {
    var p := parts[0];
    if |p| > 0 {
      var parts' := [p[1..]] + parts[1..];
      assert forall i :: 0 <= i < |parts'| ==> sep !in parts'[i] by {
        assert forall c :: c in p[1..] ==> c in p;
      }
      SplitJoin(parts', sep);
      SplitJoinFirstChar(parts, sep);
    } else if |parts| > 1 {
      SplitJoin(parts[1..], sep);
      SplitJoinEmptyFirst(parts, sep);
    }
  }

  /** The step of `SplitJoin` that takes the first character off a non-empty first piece. */
  lemma SplitJoinFirstChar(parts: seq<string>, sep: char)
    requires |parts| >= 1 && |parts[0]| > 0 && sep !in parts[0]
    requires Split(Join([parts[0][1..]] + parts[1..], sep), sep) == [parts[0][1..]] + parts[1..]
    ensures Split(Join(parts, sep), sep) == parts
  {
    var p := parts[0];
    var parts' := [p[1..]] + parts[1..];
    JoinHead(parts, sep);
    SplitHead(p[0], Join(parts', sep), sep);
    assert [p[0]] + p[1..] == p;
    assert parts == [p] + parts'[1..];
  }

  /** The step of `SplitJoin` that takes an empty first piece off. */
  lemma SplitJoinEmptyFirst(parts: seq<string>, sep: char)
    requires |parts| > 1 && parts[0] == ""
    requires Split(Join(parts[1..], sep), sep) == parts[1..]
    ensures Split(Join(parts, sep), sep) == parts
  {
    assert Join(parts, sep) == [sep] + Join(parts[1..], sep);
    SplitHead(sep, Join(parts[1..], sep), sep);
    assert parts == [""] + parts[1..];
  }

  /** Splitting a string that starts with character `c`. */
  lemma SplitHead(c: char, s: string, sep: char)
    ensures Split([c] + s, sep) ==
      if c == sep then [""] + Split(s, sep)
      else [[c] + Split(s, sep)[0]] + Split(s, sep)[1..]
  {
    assert ([c] + s)[1..] == s;
  }

  /** Taking the first character off the first piece of a join. */
  lemma JoinHead(parts: seq<string>, sep: char)
    requires |parts| >= 1 && |parts[0]| > 0
    ensures Join(parts, sep) == [parts[0][0]] + Join([parts[0][1..]] + parts[1..], sep)
  {
    var p := parts[0];
    var parts' := [p[1..]] + parts[1..];
    assert p == [p[0]] + p[1..];
    if |parts| > 1 {
      assert parts'[1..] == parts[1..];
      assert Join(parts', sep) == p[1..] + [sep] + Join(parts[1..], sep);
    }
  }

  /** `authorization.split(' ')[1]`: the second space-separated piece, undefined when
      the header holds no space. */
  function BearerToken(authorization: string): (token: Option<string>)
    ensures token.None? <==> ' ' !in authorization
    ensures token.Some? ==> ' ' !in token.value
  {
    var parts := Split(authorization, ' ');
    if |parts| >= 2 then Some(parts[1]) else None
  }

  /** A well-formed `Bearer <token>` header yields its token. */
  lemma BearerTokenOf(scheme: string, token: string)
    requires ' ' !in scheme && ' ' !in token
    ensures BearerToken(scheme + " " + token) == Some(token)
  {
    SplitJoin([scheme, token], ' ');
    assert Join([scheme, token], ' ') == scheme + " " + token;
  }

  /** Whatever follows a third space, the token is the second piece: for `Bearer tok
      extra` it is `tok`. */
  lemma BearerTokenSecond(scheme: string, token: string, more: string)
    requires ' ' !in scheme && ' ' !in token
    ensures BearerToken(scheme + " " + token + " " + more) == Some(token)
  {
    var parts := [scheme, token] + Split(more, ' ');
    JoinSplit(more, ' ');
    assert forall i :: 0 <= i < |parts| ==> ' ' !in parts[i];
    SplitJoin(parts, ' ');
    assert parts[2..] == Split(more, ' ');
    assert Join(parts, ' ') == scheme + " " + token + " " + more;
  }

  /** A header that JavaScript treats as present (`undefined` and `""` are falsy). */
  predicate HeaderPresent(authorization: Option<string>): (present: bool)
    ensures authorization == None ==> !present
    ensures authorization == Some("") ==> !present
    ensures authorization.Some? && |authorization.value| > 0 ==> present
  {
    authorization.Some? && authorization.value != ""
  }

  /** `verifyToken`: 401 for a missing header, a header without a second piece or a
      token the verifier rejects; otherwise the decoded claims go downstream. */
  function VerifyToken(authorization: Option<string>, verify: Verifier): (g: Gate)
    ensures !g.Forbidden?
    ensures g.Granted? <==>
      HeaderPresent(authorization) && BearerToken(authorization.value).Some? &&
      verify(BearerToken(authorization.value).value).Some?
    ensures g.Granted? ==> verify(BearerToken(authorization.value).value) == Some(g.claims)
  {
    if !HeaderPresent(authorization) then Unauthorized
    else match BearerToken(authorization.value)
      case None => Unauthorized
      case Some(token) =>
        match verify(token)
        case None => Unauthorized
        case Some(claims) => Granted(claims)
  }

  /** `findOne({email})?.role === 'admin'`. */
  predicate IsAdmin(users: map<Key, User>, email: Email)
    ensures IsAdmin(users, email) ==> EmailTaken(users, email)
  {
    exists k | k in users :: users[k].email == email && users[k].role == Some(AdminRole)
  }

  /** `varifyAdmin`, run after `verifyToken`: a granted request passes only for an admin
      user with the claimed email, and is forbidden otherwise. */
  function VerifyAdmin(users: map<Key, User>, g: Gate): (r: Gate)
    ensures g.Granted? && IsAdmin(users, g.claims.email) ==> r == g
    ensures g.Granted? && !IsAdmin(users, g.claims.email) ==> r == Forbidden
    ensures !g.Granted? ==> r == g
  {
    if g.Granted? && !IsAdmin(users, g.claims.email) then Forbidden else g
  }

  /** The ownership check of the per-email routes: forbidden when the path email is not
      the token's email. */
  function VerifyOwner(email: string, g: Gate): (r: Gate)
    ensures g.Granted? && g.claims.email == Some(email) ==> r == g
    ensures g.Granted? && g.claims.email != Some(email) ==> r == Forbidden
    ensures !g.Granted? ==> r == g
  {
    if g.Granted? && g.claims.email != Some(email) then Forbidden else g
  }

  /** `verifyToken, varifyAdmin` in front of an admin route: 401 exactly when
      authentication fails, 403 exactly when an authenticated caller is not an admin,
      and the caller's own claims otherwise. */
  function AdminChain(authorization: Option<string>, verify: Verifier, users: map<Key, User>): (g: Gate)
    ensures g == Unauthorized <==> VerifyToken(authorization, verify) == Unauthorized
    ensures g == Forbidden <==>
      VerifyToken(authorization, verify).Granted? &&
      !IsAdmin(users, VerifyToken(authorization, verify).claims.email)
    ensures g.Granted? ==>
      g == VerifyToken(authorization, verify) && IsAdmin(users, g.claims.email)
  {
    VerifyAdmin(users, VerifyToken(authorization, verify))
  }

  /** `verifyToken` followed by the ownership check for `email`: 401 exactly when
      authentication fails, 403 exactly when the token's email is another one, and the
      caller's own claims otherwise. */
  function OwnerChain(authorization: Option<string>, verify: Verifier, email: string): (g: Gate)
    ensures g == Unauthorized <==> VerifyToken(authorization, verify) == Unauthorized
    ensures g == Forbidden <==>
      VerifyToken(authorization, verify).Granted? &&
      VerifyToken(authorization, verify).claims.email != Some(email)
    ensures g.Granted? ==>
      g == VerifyToken(authorization, verify) && g.claims.email == Some(email)
  {
    VerifyOwner(email, VerifyToken(authorization, verify))
  }

  /** Without an Authorization header every protected route answers 401. */
  lemma NoHeaderUnauthorized(verify: Verifier, users: map<Key, User>, email: string)
    ensures AdminChain(None, verify, users) == Unauthorized
    ensures OwnerChain(None, verify, email) == Unauthorized
  {
  }

  /** With emails unique, the admin gate's lookup finds the one user with that email, so
      the caller is an admin exactly when that user's role is "admin". */
  lemma IsAdminOfUniqueUser(users: map<Key, User>, k: Key)
    requires UniqueEmails(users)
    requires k in users
    ensures IsAdmin(users, users[k].email) <==> users[k].role == Some(AdminRole)
  {
  }

  /** A caller whose token names an admin user, presented as `Bearer <token>`, is let
      through the admin chain with its own claims. */
  lemma AdminTokenGranted(scheme: string, token: string, verify: Verifier, users: map<Key, User>, claims: Claims)
    requires ' ' !in scheme && ' ' !in token
    requires verify(token) == Some(claims)
    requires IsAdmin(users, claims.email)
    ensures AdminChain(Some(scheme + " " + token), verify, users) == Granted(claims)
  {
    BearerTokenOf(scheme, token);
  }
}
