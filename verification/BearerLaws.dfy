/** Round trips of mock tokens through the header, the middleware and the guard; the header form is that of
    section 2.1 of RFC 6750. */
module BearerLaws {
  import opened Outcomes
  import opened Texts
  import opened TextLaws
  import opened BearerTokens

  lemma {:induction false} NormalizedIsTight(token: string)
    requires token == "" || Tight(token)
    ensures NormalizedToken(token) == "" || Tight(NormalizedToken(token))
    decreases |token|
  {
    if StartsWithBearer(token) {
      TrimIsTight(TrimStart(token[6..]));
      NormalizedIsTight(WithoutBearer(token));
    }
  }

  // ---- the middleware

  lemma OneBearer(word: string, gap: string, rest: string)
    requires |word| == 6 && Lower(word) == "bearer" && gap != "" && AllSpace(gap) && Tight(rest)
    ensures Tight(word + gap + rest)
    ensures NormalizedToken(word + gap + rest) == NormalizedToken(rest)
  {
    var token := word + gap + rest;
    assert token[..6] == word && token[6..] == gap + rest;
    assert Lower(word)[0] == LowerChar(word[0]) == 'b';
    TrimStartPadded(gap, rest);
    TrimTight(rest);
  }

  /** Normalising twice is normalising once, whatever the header. */
  lemma NormalizingIsIdempotent(header: Option<string>)
    ensures Normalized(Normalized(header)) == Normalized(header)
  {
    if header.Some? && NormalizedToken(Trim(header.value)) != "" {
      var token := NormalizedToken(Trim(header.value));
      TrimIsTight(header.value);
      NormalizedIsTight(Trim(header.value));
      OneBearer("Bearer", " ", token);
      assert "Bearer" + " " + token == "Bearer " + token;
      TrimTight("Bearer " + token);
    }
  }

  /** One `Bearer` as a caller may write it: the word in any letter case, then white space. */
  datatype Layer = Layer(word: string, gap: string)

  predicate AreLayers(layers: seq<Layer>) {
    forall i | 0 <= i < |layers| ::
      |layers[i].word| == 6 && Lower(layers[i].word) == "bearer" && layers[i].gap != "" && AllSpace(layers[i].gap)
  }

  /** The token behind any number of layers. */
  function Wrapped(layers: seq<Layer>, token: string): string {
    if layers == [] then token else layers[0].word + layers[0].gap + Wrapped(layers[1..], token)
  }

  lemma {:induction false} Unwraps(layers: seq<Layer>, token: string)
    requires AreLayers(layers) && Tight(token) && !StartsWithBearer(token)
    ensures Tight(Wrapped(layers, token)) && NormalizedToken(Wrapped(layers, token)) == token
  {
    if layers != [] {
      Unwraps(layers[1..], token);
      OneBearer(layers[0].word, layers[0].gap, Wrapped(layers[1..], token));
    }
  }

  /** However many prefixes, in whatever case and spacing, exactly one is left. */
  lemma OnePrefixIsLeft(before: string, layers: seq<Layer>, token: string, after: string)
    requires AllSpace(before) && AreLayers(layers) && AllSpace(after)
    requires Tight(token) && !StartsWithBearer(token)
    ensures Normalized(Some(before + Wrapped(layers, token) + after)) == Some("Bearer " + token)
  {
    Unwraps(layers, token);
    TrimPadded(before, Wrapped(layers, token), after);
  }

  // ---- the guard

  lemma GuardReads(word: string, token: string, after: string)
    requires |word| == 6 && Lower(word) == "bearer" && Tight(token) && AllSpace(after)
    ensures GuardToken(Some(word + " " + token + after)) == Some(token)
  {
    var header := word + " " + token + after;
    assert header[..7] == word + " " && header[7..] == token + after;
    assert forall i | 0 <= i < 6 :: Lower(header[..7])[i] == Lower(word)[i];
    assert Lower(header[..7]) == "bearer ";
    TrimPadded("", token, after);
    assert "" + token + after == token + after;
  }

  predicate Capturable(username: string) {
    username != "" && forall i | 0 <= i < |username| :: !IsLineBreak(username[i])
  }

  /** Printing is injective and the pattern inverts it, for user names the pattern can capture. */
  lemma TokenRoundTrip(username: string)
    ensures var captured := TokenUsername(TokenOf(username));
      captured == if Capturable(username) then Some(username) else None
    ensures Tight(TokenOf(username)) && !StartsWithBearer(TokenOf(username))
  {
    var token := TokenOf(username);
    var end := |token| - 6;
    assert token[..5] == "mock-" && token[end..] == "-token" && token[5..end] == username;
    assert Lower(token[..6])[0] == LowerChar('m') == 'm';
    assert forall i | 5 <= i < end :: token[i] == username[i - 5];
    assert forall i | 0 <= i < |username| :: username[i] == token[i + 5];
  }

  /** The pattern captures a user name from no other token than the printed one. */
  lemma OnlyPrintedTokensParse(token: string)
    requires TokenUsername(token).Some?
    ensures token == TokenOf(TokenUsername(token).value)
  {
    var end := |token| - 6;
    assert token == token[..5] + token[5..end] + token[end..];
  }

  lemma GuardAccepts(users: seq<MockUser>, username: string)
    ensures Authenticated(users, Some("Bearer " + TokenOf(username))) ==
      if Capturable(username) then FindByUsername(users, username) else None
  {
    var token := TokenOf(username);
    TokenRoundTrip(username);
    GuardReads("Bearer", token, "");
    assert "Bearer" + " " + token + "" == "Bearer " + token;
  }

  /** A token from the login, sent behind any number of `Bearer` prefixes and spaces, is accepted as the
      same user if and only if the user name is not empty and has no line break; otherwise no user is
      found. */
  lemma TokenRoundTripIff(users: seq<MockUser>, username: string, password: string,
                          before: string, layers: seq<Layer>, after: string)
    requires AllSpace(before) && AreLayers(layers) && AllSpace(after)
    requires MockLogin(users, username, password).Ok?
    ensures var header := before + Wrapped(layers, MockLogin(users, username, password).value) + after;
      Authenticated(users, Normalized(Some(header))) ==
        if Capturable(username) then FindByUsername(users, username) else None
  {
    TokenRoundTrip(username);
    OnePrefixIsLeft(before, layers, TokenOf(username), after);
    GuardAccepts(users, username);
  }

  /** With distinct user names, each user's own token leads back to that user. */
  lemma {:induction false} FindsEveryUser(users: seq<MockUser>, k: nat)
    requires k < |users| && forall i, j | 0 <= i < j < |users| :: users[i].username != users[j].username
    ensures FindByUsername(users, users[k].username) == Some(users[k])
  {
    if k > 0 {
      FindsEveryUser(users[1..], k - 1);
    }
  }

  ghost predicate DistinctNames(users: seq<MockUser>) {
    forall i, j | 0 <= i < j < |users| :: users[i].username != users[j].username
  }

  /** With distinct user names a login succeeds exactly for a user with that name and that password, and its
      token is the name between two fixed texts; anything else is Unauthorized. */
  lemma LoginIff(users: seq<MockUser>, username: string, password: string)
    requires DistinctNames(users)
    ensures MockLogin(users, username, password) ==
      if exists k | 0 <= k < |users| :: users[k].username == username && users[k].password == password
        then Ok("mock-" + username + "-token")
      else Err(Unauthorized)
  {
    if k :| 0 <= k < |users| && users[k].username == username {
      FindsEveryUser(users, k);
    }
  }

  /** Who logged in as a user, with whatever prefixes, is let through on every route with exactly that user's
      sub, name and roles attached. */
  lemma LoginAttachesTheUser(users: seq<MockUser>, k: nat, before: string, layers: seq<Layer>, after: string)
    requires AllSpace(before) && AreLayers(layers) && AllSpace(after)
    requires DistinctNames(users) && k < |users| && Capturable(users[k].username)
    ensures var login := MockLogin(users, users[k].username, users[k].password);
      && login.Ok?
      && var found := Authenticated(users, Normalized(Some(before + Wrapped(layers, login.value) + after)));
         && found.Some?
         && PrincipalOf(found.value).sub == users[k].sub
         && PrincipalOf(found.value).preferredUsername == users[k].username
         && PrincipalOf(found.value).roles == users[k].roles
  {
    LoginIff(users, users[k].username, users[k].password);
    FindsEveryUser(users, k);
    TokenRoundTripIff(users, users[k].username, users[k].password, before, layers, after);
  }

  /** A header in which the guard finds a token has one layer. */
  lemma GuardSeesOneLayer(header: string) returns (layer: Layer, after: string)
    requires GuardToken(Some(header)).Some?
    ensures AreLayers([layer]) && AllSpace(after)
    ensures header == "" + Wrapped([layer], GuardToken(Some(header)).value) + after
  {
    var word, rest := header[..6], header[7..];
    assert Lower(header[..7])[6] == LowerChar(header[6]) == ' ';
    assert forall i | 0 <= i < 6 :: Lower(word)[i] == Lower(header[..7])[i];
    var before;
    before, after := Split(rest);
    layer := Layer(word, " " + before);
    assert [layer][1..] == [];
    assert header == word + " " + rest;
  }

  /** What the guard accepts without the middleware it accepts, as the same user, behind it. */
  lemma NormalizingKeepsAcceptance(users: seq<MockUser>, header: string)
    requires Authenticated(users, Some(header)).Some?
    ensures Authenticated(users, Normalized(Some(header))) == Authenticated(users, Some(header))
  {
    var token := GuardToken(Some(header)).value;
    var username := TokenUsername(token).value;
    OnlyPrintedTokensParse(token);
    TokenRoundTrip(username);
    var layer, after := GuardSeesOneLayer(header);
    OnePrefixIsLeft("", [layer], token, after);
    GuardAccepts(users, username);
  }

  /** The white space that trimming takes off. */
  lemma Split(s: string) returns (before: string, after: string)
    ensures AllSpace(before) && AllSpace(after) && s == before + Trim(s) + after
  {
    before := SplitStart(s);
    var start := TrimStart(s);
    after := start[|Trim(s)|..];
    assert start == Trim(s) + after;
  }

  lemma {:induction false} SplitStart(s: string) returns (before: string)
    ensures AllSpace(before) && s == before + TrimStart(s)
  {
    if s != "" && IsSpace(s[0]) {
      var rest := SplitStart(s[1..]);
      before := [s[0]] + rest;
      assert s == [s[0]] + s[1..];
    } else {
      before := "";
      assert s == "" + s;
    }
  }
}
