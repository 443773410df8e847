/** The fetchUser middleware: take the token from the Authorization header,
    verify it, and either hand the payload's `user` object to the next
    handler or answer 401. */
module FetchUser {
  import opened Common
  import opened Database

  /** String.prototype.split with a one-character separator: the pieces
      between separators, in order, empty pieces included. */
  function Split(s: string, sep: char): (parts: seq<string>)
    ensures |parts| >= 1
    ensures forall i :: 0 <= i < |parts| ==> sep !in parts[i]
    decreases |s|
  {
    if |s| == 0 then [""]
    else if s[0] == sep then [""] + Split(s[1..], sep)
    else
      var rest := Split(s[1..], sep);
      [[s[0]] + rest[0]] + rest[1..]
  }

  /** The inverse of Split: the pieces glued back with the separator. */
  function Join(parts: seq<string>, sep: char): string
    requires |parts| >= 1
  {
    if |parts| == 1 then parts[0] else parts[0] + [sep] + Join(parts[1..], sep)
  }

  /** Splitting loses nothing: joining the pieces gives back the string. */
  lemma {:induction false} JoinSplit(s: string, sep: char)
    ensures Join(Split(s, sep), sep) == s
    decreases |s|
  {
    if |s| == 0 {
    } else if s[0] == sep {
      JoinSplit(s[1..], sep);
      var rest := Split(s[1..], sep);
      assert Split(s, sep) == [""] + rest;
      assert ([""] + rest)[1..] == rest;
      assert s == [sep] + s[1..];
    } else {
      JoinSplit(s[1..], sep);
      var rest := Split(s[1..], sep);
      var parts := [[s[0]] + rest[0]] + rest[1..];
      assert Split(s, sep) == parts;
      if |rest| == 1 {
        assert s == [s[0]] + s[1..];
      } else {
        assert parts[1..] == rest[1..];
        assert Join(rest, sep) == rest[0] + [sep] + Join(rest[1..], sep);
        assert s == [s[0]] + s[1..];
      }
    }
  }

  /** A string without the separator is one piece. */
  lemma {:induction false} SplitWithoutSeparator(s: string, sep: char)
    requires sep !in s
    ensures Split(s, sep) == [s]
    decreases |s|
  {
    if |s| > 0 {
      SplitWithoutSeparator(s[1..], sep);
      assert [s[0]] + s[1..] == s;
    }
  }

  /** A separator-free prefix followed by the separator is the first piece. */
  lemma {:induction false} SplitAfterPrefix(a: string, sep: char, b: string)
    requires sep !in a
    ensures Split(a + [sep] + b, sep) == [a] + Split(b, sep)
    decreases |a|
  {
    if |a| == 0 {
      assert a + [sep] + b == [sep] + b;
      assert ([sep] + b)[1..] == b;
    } else {
      var s := a + [sep] + b;
      assert s[0] == a[0] && s[1..] == a[1..] + [sep] + b;
      SplitAfterPrefix(a[1..], sep, b);
      assert [a[0]] + a[1..] == a;
    }
  }

  /** The token: element [1] of the header split on a space, or None when
      the header is absent or empty, has no space, or that element is empty. */
  function TokenOf(header: Option<string>): (token: Option<string>)
    ensures token.Some? ==> token.value != "" && ' ' !in token.value
  {
    if header.None? || header.value == "" then None
    else
      var parts := Split(header.value, ' ');
      if |parts| < 2 || parts[1] == "" then None else Some(parts[1])
  }

  /** "scheme token" yields the token when neither part holds a space. */
  lemma BearerToken(scheme: string, token: string)
    requires ' ' !in scheme && ' ' !in token && token != ""
    ensures TokenOf(Some(scheme + " " + token)) == Some(token)
  {
    SplitAfterPrefix(scheme, ' ', token);
    SplitWithoutSeparator(token, ' ');
    assert scheme + " " + token == scheme + [' '] + token;
  }

  /** A header without a space carries no token. */
  lemma NoSpaceNoToken(header: string)
    requires ' ' !in header
    ensures TokenOf(Some(header)) == None
  {
    if header != "" {
      SplitWithoutSeparator(header, ' ');
    }
  }

  /** "scheme " (nothing after the space) carries no token. */
  lemma EmptyCredentialNoToken(scheme: string)
    requires ' ' !in scheme
    ensures TokenOf(Some(scheme + " ")) == None
  {
    SplitAfterPrefix(scheme, ' ', "");
    assert scheme + " " == scheme + [' '] + "";
  }

  /** The pieces after the second one, glued back with their separators. */
  function Tail(parts: seq<string>, sep: char): string
    requires |parts| >= 2
  {
    if |parts| == 2 then "" else [sep] + Join(parts[2..], sep)
  }

  /** One step of Join: the first piece, the separator, the rest joined. */
  lemma JoinUnfold(parts: seq<string>, sep: char)
    requires |parts| >= 2
    ensures Join(parts, sep) == parts[0] + [sep] + Join(parts[1..], sep)
    ensures parts[1..][0] == parts[1]
  {
  }

  /** What follows the second piece: nothing for two pieces, otherwise the
      separator and the remaining pieces joined. */
  lemma JoinAfterSecond(parts: seq<string>, sep: char)
    requires |parts| >= 2
    ensures Join(parts[1..], sep) == parts[1] + Tail(parts, sep)
  {
    var rest := parts[1..];
    if |parts| == 2 {
      assert Join(rest, sep) == parts[1];
      assert parts[1] + Tail(parts, sep) == parts[1];
    } else {
      JoinUnfold(rest, sep);
      assert rest[1..] == parts[2..];
    }
  }

  lemma JoinFirstTwo(parts: seq<string>, sep: char)
    requires |parts| >= 2
    ensures Join(parts, sep) == parts[0] + [sep] + parts[1] + Tail(parts, sep)
  {
    JoinUnfold(parts, sep);
    JoinAfterSecond(parts, sep);
    var head, t := parts[0] + [sep], Tail(parts, sep);
    assert head + (parts[1] + t) == head + parts[1] + t;
  }

  /** The header reads "scheme token", then nothing or a further
      space-separated tail. */
  predicate BearerLayout(header: string, scheme: string, token: string, tail: string)
  {
    ' ' !in scheme && (tail == "" || tail[0] == ' ') && header == scheme + " " + token + tail
  }

  /** Conversely, whenever a token is found, the header has that layout. */
  lemma TokenIsSecondWord(header: string)
    requires TokenOf(Some(header)).Some?
    ensures exists scheme: string, tail: string :: BearerLayout(header, scheme, TokenOf(Some(header)).value, tail)
  {
    var parts := Split(header, ' ');
    JoinSplit(header, ' ');
    JoinFirstTwo(parts, ' ');
    var scheme, tail := parts[0], Tail(parts, ' ');
    assert BearerLayout(header, scheme, TokenOf(Some(header)).value, tail);
  }

  /** What fetchUser does with a request: pass the claims on (next() is
      called once, with `req.user` set), or stop with an answer. */
  datatype Outcome = Next(user: Claims) | Halt(reply: Reply)

  const NoToken := Reply(401, Failure(None, "Access denied. No token provided."))
  const BadToken := Reply(401, Failure(None, "Invalid token."))

  function Authenticate(header: Option<string>, verify: Verifier): (r: Outcome)
    ensures TokenOf(header).None? ==> r == Halt(NoToken)
    ensures TokenOf(header).Some? && verify(TokenOf(header).value).None? ==> r == Halt(BadToken)
    ensures r.Next? <==> TokenOf(header).Some? && verify(TokenOf(header).value).Some?
    ensures r.Next? ==> r.user == verify(TokenOf(header).value).value.user
  {
    match TokenOf(header)
    case None => Halt(NoToken)
    case Some(token) =>
      match verify(token)
      case None => Halt(BadToken)
      case Some(payload) => Next(payload.user)
  }

  /** An absent or empty header is refused before verification is tried. */
  lemma MissingHeaderRefused(verify: Verifier)
    ensures Authenticate(None, verify) == Halt(NoToken)
    ensures Authenticate(Some(""), verify) == Halt(NoToken)
  {
  }
}
