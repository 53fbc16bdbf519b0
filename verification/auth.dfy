/** The `authenticate` middleware (backend/src/middleware/auth.ts): read the
    Authorization header, take the second space-separated segment as the token,
    verify it, and either answer 401 or record the user and call `next`. */
module Auth {
  import opened Wrappers
  import opened TaskModel

  const NoTokenMessage := "No token provided"
  const InvalidTokenMessage := "Invalid token"
  const Unauthorized := 401

  /** `jwt.verify` followed by reading `payload.userId`: None when the token is
      malformed, expired or signed with another key. */
  type TokenVerifier = string -> Option<UserId>

  /** `parts.join(' ')`. */
  function Join(parts: seq<string>): string
    requires |parts| >= 1
  {
    if |parts| == 1 then parts[0] else parts[0] + " " + Join(parts[1..])
  }

  /** `s.split(' ')`: the maximal space-free runs between single spaces, empty
      runs included; an empty string gives one empty segment. */
  function Split(s: string): (parts: seq<string>)
    ensures |parts| >= 1
    ensures forall i :: 0 <= i < |parts| ==> ' ' !in parts[i]
  {
    if s == [] then [""]
    else
      var rest := Split(s[1..]);
      if s[0] == ' ' then [""] + rest
      else [[s[0]] + rest[0]] + rest[1..]
  }

  /** Joining the segments with spaces gives the string back: nothing is lost
      or added by the split. */
  lemma {:induction false} JoinSplit(s: string)
    ensures Join(Split(s)) == s
    decreases |s|
  {
    if s != [] {
      var rest := Split(s[1..]);
      JoinSplit(s[1..]);
      assert s == [s[0]] + s[1..];
      if s[0] == ' ' {
        assert ([""] + rest)[1..] == rest;
      } else if |rest| > 1 {
        var head := [s[0]] + rest[0];
        assert ([head] + rest[1..])[1..] == rest[1..];
        assert Join(rest) == rest[0] + " " + Join(rest[1..]);
        assert Join([head] + rest[1..]) == head + " " + Join(rest[1..]);
      }
    }
  }

  /** Splitting a word with no space in it, followed by anything, puts the word
      at the front of the first segment. */
  lemma {:induction false} SplitAfterWord(w: string, r: string)
    requires ' ' !in w
    ensures Split(w + r) == [w + Split(r)[0]] + Split(r)[1..]
    decreases |w|
  {
    if w == [] {
      var p := Split(r);
      assert w + r == r && w + p[0] == p[0];
      assert p == [p[0]] + p[1..];
    } else {
      var x := w + r;
      assert x[0] == w[0] && x[0] != ' ';
      assert x[1..] == w[1..] + r;
      SplitAfterWord(w[1..], r);
      var rest := Split(w[1..] + r);
      assert Split(x) == [[w[0]] + rest[0]] + rest[1..];
      assert rest[0] == w[1..] + Split(r)[0];
      assert [w[0]] + (w[1..] + Split(r)[0]) == w + Split(r)[0];
    }
  }

  /** A leading space closes an empty first segment. */
  lemma {:induction false} SplitLeadingSpace(t: string)
    ensures Split(" " + t) == [""] + Split(t)
  {
    assert (" " + t)[0] == ' ' && (" " + t)[1..] == t;
  }

  /** Split is the inverse of Join on space-free segments: the segmentation is unique. */
  lemma {:induction false} SplitJoin(parts: seq<string>)
    requires |parts| >= 1
    requires forall i :: 0 <= i < |parts| ==> ' ' !in parts[i]
    ensures Split(Join(parts)) == parts
    decreases |parts|
  {
    var w := parts[0];
    if |parts| == 1 {
      SplitAfterWord(w, "");
      assert w + "" == w;
    } else {
      var tail := parts[1..];
      SplitJoin(tail);
      SplitLeadingSpace(Join(tail));
      SplitAfterWord(w, " " + Join(tail));
      assert Join(parts) == w + (" " + Join(tail));
      assert Split(Join(parts)) == [w + ""] + tail;
      assert w + "" == w;
      assert [w] + tail == parts;
    }
  }

  /** `const [, token] = header.split(' ')` followed by `if (!token)`: the second
      segment, when there is one and it is not empty. */
  function BearerToken(header: string): (token: Option<string>)
    ensures token.Some? ==> token.value != "" && ' ' !in token.value
  {
    var parts := Split(header);
    if |parts| >= 2 && parts[1] != "" then Some(parts[1]) else None
  }

  /** What `authenticate` decides for a request. */
  datatype Verdict = Rejected(message: string) | Verified(userId: UserId)

  function Decide(header: Option<string>, verify: TokenVerifier): (v: Verdict)
    ensures header.None? || header == Some("") ==> v == Rejected(NoTokenMessage)
    ensures header.Some? && BearerToken(header.value).None? ==> v == Rejected(NoTokenMessage)
    ensures v == Rejected(InvalidTokenMessage) <==>
              header.Some? && BearerToken(header.value).Some? && verify(BearerToken(header.value).value).None?
    ensures v.Verified? <==>
              header.Some? && BearerToken(header.value).Some? && verify(BearerToken(header.value).value).Some?
    ensures v.Verified? ==> Some(v.userId) == verify(BearerToken(header.value).value)
  {
    if header.None? || header.value == "" then Rejected(NoTokenMessage)
    else match BearerToken(header.value)
      case None => Rejected(NoTokenMessage)
      case Some(token) =>
        match verify(token)
        case None => Rejected(InvalidTokenMessage)
        case Some(userId) => Verified(userId)
  }

  /** The scheme word is never looked at, and nothing after the token is
      either: any first word, one space, a space-free token, then nothing or
      anything starting with a space, yields that token. */
  lemma {:induction false} AnySchemeAccepted(scheme: string, token: string, rest: string)
    requires ' ' !in scheme && ' ' !in token && token != ""
    requires rest == "" || rest[0] == ' '
    ensures BearerToken(scheme + " " + token + rest) == Some(token)
  {
    var tail := token + rest;
    assert Split(rest)[0] == "" by {
      if rest != "" {
        assert rest == " " + rest[1..];
        SplitLeadingSpace(rest[1..]);
      }
    }
    SplitAfterWord(token, rest);
    assert Split(tail)[0] == token;
    SplitLeadingSpace(tail);
    SplitAfterWord(scheme, " " + tail);
    assert scheme + " " + token + rest == scheme + (" " + tail);
    assert Split(scheme + (" " + tail))[1] == Split(" " + tail)[1] == token;
  }

  /** `header` is a space-free first word, one space, `token`, and then nothing
      or a rest that starts with a space. */
  predicate ShapedAs(header: string, scheme: string, token: string, rest: string) {
    && ' ' !in scheme
    && header == scheme + " " + token + rest
    && (rest == "" || rest[0] == ' ')
  }

  /** Whenever a token is extracted, it is the header's second word. */
  lemma {:induction false} TokenIsSecondWord(header: string)
    requires BearerToken(header).Some?
    ensures exists scheme, rest :: ShapedAs(header, scheme, BearerToken(header).value, rest)
  {
    var parts := Split(header);
    JoinSplit(header);
    var scheme, token := parts[0], parts[1];
    assert ' ' !in scheme;
    var rest: string;
    if |parts| == 2 {
      rest := "";
      assert Join(parts[1..]) == token;
    } else {
      rest := " " + Join(parts[2..]);
      assert parts[1..][1..] == parts[2..];
      assert Join(parts[1..]) == token + rest;
    }
    assert header == scheme + " " + token + rest;
    assert rest == "" || rest[0] == ' ';
    assert BearerToken(header).value == token;
    assert ShapedAs(header, scheme, BearerToken(header).value, rest);
  }

  /** A header without a space has no second segment: `"Bearer"` gives no token. */
  lemma {:induction false} NoSecondSegment(header: string)
    requires ' ' !in header
    ensures BearerToken(header).None?
  {
    SplitJoin([header]);
  }

  /** A first word followed by a space and then nothing or another space has an
      empty second segment: `"Bearer "` and `"Bearer  x"` give no token. */
  lemma {:induction false} EmptySecondSegment(scheme: string, rest: string)
    requires ' ' !in scheme
    requires rest == "" || rest[0] == ' '
    ensures BearerToken(scheme + " " + rest).None?
  {
    SplitLeadingSpace(rest);
    SplitAfterWord(scheme, " " + rest);
    assert scheme + " " + rest == scheme + (" " + rest);
    if rest == "" {
      assert Split(rest) == [""];
    } else {
      assert rest == " " + rest[1..];
      SplitLeadingSpace(rest[1..]);
    }
    assert Split(scheme + " " + rest)[1] == Split(rest)[0] == "";
  }

  /** `req.user`, the identity later handlers read. */
  datatype User = User(userId: UserId)

  /** The part of an Express request the middleware chain reads and writes. */
  class Request {
    const authorization: Option<string>
    var user: Option<User>

    constructor (authorization: Option<string>)
      ensures this.authorization == authorization && user == None
    {
      this.authorization := authorization;
      user := None;
    }
  }

  /** What a middleware does with a request: answer it, or hand it on with `next()`. */
  datatype Step = Respond(status: int, message: string) | Next

  /** `authenticate(req, res, next)`: exactly one of a 401 answer or a call to
      `next`; on `next`, `req.user` holds the verified user. */
  method Authenticate(req: Request, verify: TokenVerifier) returns (step: Step)
    modifies req
    ensures step.Respond? ==> step.status == Unauthorized && req.user == old(req.user)
    ensures step.Respond? <==> Decide(req.authorization, verify).Rejected?
    ensures step.Respond? ==> step.message == Decide(req.authorization, verify).message
    ensures step.Next? ==> req.user == Some(User(Decide(req.authorization, verify).userId))
  {
    var header := req.authorization;
    if header.None? || header.value == "" {
      return Respond(Unauthorized, NoTokenMessage);
    }
    var token := BearerToken(header.value);
    if token.None? {
      return Respond(Unauthorized, NoTokenMessage);
    }
    var payload := verify(token.value);
    if payload.None? {
      return Respond(Unauthorized, InvalidTokenMessage);
    }
    req.user := Some(User(payload.value));
    step := Next;
  }
}
