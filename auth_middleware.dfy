/** `protect`: the route guard that reads a bearer token from the Authorization header,
    hands it to the token verifier and either answers 401 or passes the request on with
    the user id it decoded. The verifier is a parameter: it returns the user id of a
    token it accepts and `None` where it would throw. */
module AuthMiddleware {
  import opened Wrappers
  import opened Strings

  datatype Outcome = Unauthorized | Next(userId: string)

  const Scheme := "Bearer "

  /** The first part of `s.split(sep)` is the text up to the first `sep` (or all of `s`). */
  lemma {:induction false} SplitFirstPart(s: string, sep: char)
    ensures var p := Split(s, sep)[0];
            StartsWith(s, p) && (|p| == |s| || s[|p|] == sep)
  {
    if s != [] && s[0] != sep {
      SplitFirstPart(s[1..], sep);
    }
  }

  /** `authHeader.split(" ")[1]` for a header that starts with the scheme: the text after
      "Bearer " up to the next space or the end. */
  function BearerToken(header: string): (token: string)
    requires StartsWith(header, Scheme)
    ensures ' ' !in token
    ensures StartsWith(header[|Scheme|..], token)
    ensures |Scheme| + |token| == |header| || header[|Scheme| + |token|] == ' '
  {
    var rest := header[|Scheme|..];
    assert header == "Bearer" + [' '] + rest;
    SplitAtFirst("Bearer", ' ', rest);
    SplitFirstPart(rest, ' ');
    Split(header, ' ')[1]
  }

  /** The guard: 401 without a header that starts with exactly "Bearer ", with an empty
      token, or when the verifier rejects the token; otherwise the request goes on once,
      as the decoded user. */
  function Protect(header: Option<string>, verify: string -> Option<string>): (r: Outcome)
    ensures r.Next? <==>
              header.Some? && StartsWith(header.value, Scheme)
              && BearerToken(header.value) != "" && verify(BearerToken(header.value)).Some?
    ensures r.Next? ==> r.userId == verify(BearerToken(header.value)).value
  {
    if header.None? || !StartsWith(header.value, Scheme) then Unauthorized
    else
      var token := BearerToken(header.value);
      if token == "" then Unauthorized
      else
        match verify(token)
        case None => Unauthorized
        case Some(userId) => Next(userId)
  }

  /** A well-formed header is accepted exactly when the verifier accepts its token, and
      anything after a further space is ignored. */
  lemma WellFormedHeader(token: string, rest: string, verify: string -> Option<string>)
    requires token != "" && ' ' !in token
    ensures Protect(Some(Scheme + token), verify) == Protect(Some(Scheme + token + " " + rest), verify)
    ensures Protect(Some(Scheme + token), verify) == if verify(token).Some? then Next(verify(token).value) else Unauthorized
  {
    var h1 := Scheme + token;
    var h2 := Scheme + token + " " + rest;
    assert h1[..|Scheme|] == Scheme && h2[..|Scheme|] == Scheme;
    assert h1[|Scheme|..] == token;
    assert h2[|Scheme|..] == token + [' '] + rest;
    SplitNoSeparator(token, ' ');
    SplitAtFirst(token, ' ', rest);
    assert h1 == "Bearer" + [' '] + token;
    assert h2 == "Bearer" + [' '] + (token + [' '] + rest);
    SplitAtFirst("Bearer", ' ', token);
    SplitAtFirst("Bearer", ' ', token + [' '] + rest);
  }

  /** "Bearer " alone and "Bearer" followed by two spaces carry an empty token. */
  lemma EmptyTokenRejected(rest: string, verify: string -> Option<string>)
    ensures Protect(Some(Scheme), verify) == Unauthorized
    ensures Protect(Some(Scheme + " " + rest), verify) == Unauthorized
  {
    var h := Scheme + " " + rest;
    assert h[..|Scheme|] == Scheme;
    assert h[|Scheme|] == ' ';
  }

  /** The scheme is matched with its case: "bearer " is refused whatever follows. */
  lemma SchemeIsCaseSensitive(rest: string, verify: string -> Option<string>)
    ensures Protect(Some("bearer " + rest), verify) == Unauthorized
  {
    assert ("bearer " + rest)[0] == 'b';
  }
}
