/**
 * The header test at the top of `get_current_user`: which `authorization`
 * values are refused with 401, and which part of an accepted one is the token.
 * Decoding the token and looking the user up are foreign calls and are not
 * part of this module.
 */
module Auth {
  import opened Wrappers
  import opened Http
  import opened Text

  const BearerPrefix: string := "Bearer "

  const NotAuthenticated: HttpError := HttpError(401, "Not authenticated")

  /**
   * The token carried by an `authorization` value. A missing or empty value,
   * or one that does not start with `"Bearer "`, is refused with 401. Otherwise
   * the token is field 1 of the value split on single spaces: everything after
   * `"Bearer "` up to the next space or the end.
   */
  function BearerToken(authorization: Option<string>): (r: Result<string, HttpError>)
    ensures r.Err? <==> authorization.None? || !(BearerPrefix <= authorization.value)
    ensures r.Err? ==> r.error == NotAuthenticated
    ensures r.Ok? ==>
              var rest := authorization.value[|BearerPrefix|..];
              && r.value <= rest
              && ' ' !in r.value
              && (|r.value| == |rest| || rest[|r.value|] == ' ')
  {
    if authorization.None? || authorization.value == "" || !(BearerPrefix <= authorization.value) then
      Err(NotAuthenticated)
    else
      var header := authorization.value;
      var rest := header[|BearerPrefix|..];
      assert header == "Bearer" + [' '] + rest;
      SplitAfterPrefix("Bearer", ' ', rest);
      Ok(Split(header, ' ')[1])
  }

  /**
   * A space-free token after `"Bearer "` is read back exactly, whether the value
   * ends there or goes on after another space (`"Bearer abc def"` gives `"abc"`).
   */
  lemma BearerTokenRoundTrip(token: string, tail: Option<string>)
    requires ' ' !in token
    ensures var header := if tail.None? then BearerPrefix + token else BearerPrefix + token + " " + tail.value;
            BearerToken(Some(header)) == Ok(token)
  {
    var header := if tail.None? then BearerPrefix + token else BearerPrefix + token + " " + tail.value;
    assert BearerPrefix <= header;
    var rest := header[|BearerPrefix|..];
    assert rest == if tail.None? then token else token + " " + tail.value;
    assert header == "Bearer" + [' '] + rest;
    SplitAfterPrefix("Bearer", ' ', rest);
    if tail.None? {
      SplitWithoutSeparator(token, ' ');
    } else {
      assert rest == token + [' '] + tail.value;
      SplitAfterPrefix(token, ' ', tail.value);
    }
  }
}
