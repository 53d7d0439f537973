/** The per-status-code retry rule table of an upstream. A rule maps a status code
    to whether a request that is not idempotent may be retried on it. */
module RetryPolicies {
  import opened Wrappers
  import opened JavaStrings

  // The values of `HttpStatuses` and `ResponseStatusMessages` are not part of this
  // model: the constants are declared without a value and no proof depends on one.
  const REQUEST_TIMEOUT: int
  const SERVICE_UNAVAILABLE: int
  const CONNECT_ERROR: int
  const CONNECT_ERROR_MESSAGE: string

  /** What the policy reads of a response. */
  datatype Response = Response(statusCode: int, statusText: string)

  /** Status code -> "retry even if the request is not idempotent". */
  type Rules = map<int, bool>

  /** One parsed configuration token (`CodeIdempotence`). */
  datatype CodeIdempotence = CodeIdempotence(code: int, idempotent: bool)

  /** The rules of a fresh policy. */
  function DefaultRules(): (rules: Rules)
    ensures rules.Keys == {REQUEST_TIMEOUT, SERVICE_UNAVAILABLE}
    ensures forall code :: code in rules ==> !rules[code]
  {
    map[REQUEST_TIMEOUT := false, SERVICE_UNAVAILABLE := false]
  }

  // ---------------------------------------------------------------------------
  // Parsing the configuration string

  /** `splitAsStream` on ",": the pieces between the commas. (Java also drops trailing
      empty pieces; an empty piece matches no token, so the rules are the same.) */
  function SplitOnComma(s: string): (parts: seq<string>)
    ensures |parts| > 0
    ensures forall i :: 0 <= i < |parts| ==> ',' !in parts[i]
    decreases |s|
  {
    var i := IndexOf(s, ",");
    if i < 0 then
      assert forall k :: 0 <= k < |s| ==> s[k] != ',' by {
        forall k | 0 <= k < |s| ensures s[k] != ',' { assert !OccursAt(s, ",", k); }
      }
      [s]
    else
      assert forall k :: 0 <= k < i ==> s[k] != ',' by {
        forall k | 0 <= k < i ensures s[k] != ',' { assert !OccursAt(s, ",", k); }
      }
      [s[..i]] + SplitOnComma(s[i + 1..])
  }

  /** Splitting loses nothing: joining the pieces with commas gives the string back. */
  lemma {:induction false} SplitOnCommaJoins(s: string)
    ensures Join(",", SplitOnComma(s)) == s
    decreases |s|
  {
    var i := IndexOf(s, ",");
    if i >= 0 {
      SplitOnCommaJoins(s[i + 1..]);
      assert OccursAt(s, ",", i);
      assert s == s[..i] + "," + s[i + 1..];
    }
  }

  const HTTP_PREFIX: string := "http_"
  const NON_IDEMPOTENT_PREFIX: string := "non_idempotent_"

  /** `prefix` followed by exactly three ASCII digits: a whole match of `prefix([0-9]{3})`. */
  predicate MatchesCode(token: string, prefix: string) {
    |token| == |prefix| + 3 && token[..|prefix|] == prefix && IsDigits(token[|prefix|..])
  }

  /** The mapping of one token: `timeout`, `http_DDD`, `non_idempotent_DDD`, or nothing. */
  function ParseToken(token: string): (r: Option<CodeIdempotence>)
    ensures token == "timeout" ==> r == Some(CodeIdempotence(REQUEST_TIMEOUT, false))
    ensures MatchesCode(token, HTTP_PREFIX) ==>
      r == Some(CodeIdempotence(ParseDigits(token[|HTTP_PREFIX|..]), false))
    ensures MatchesCode(token, NON_IDEMPOTENT_PREFIX) ==>
      r == Some(CodeIdempotence(ParseDigits(token[|NON_IDEMPOTENT_PREFIX|..]), true))
    ensures r.None? <==>
      token != "timeout" && !MatchesCode(token, HTTP_PREFIX) && !MatchesCode(token, NON_IDEMPOTENT_PREFIX)
    ensures r.Some? && r.value.code != REQUEST_TIMEOUT ==> 0 <= r.value.code < 1000
  {
    if token == "timeout" then Some(CodeIdempotence(REQUEST_TIMEOUT, false))
    else if MatchesCode(token, HTTP_PREFIX) then
      ThreeDigits(token[|HTTP_PREFIX|..]);
      Some(CodeIdempotence(ParseDigits(token[|HTTP_PREFIX|..]), false))
    else if MatchesCode(token, NON_IDEMPOTENT_PREFIX) then
      ThreeDigits(token[|NON_IDEMPOTENT_PREFIX|..]);
      Some(CodeIdempotence(ParseDigits(token[|NON_IDEMPOTENT_PREFIX|..]), true))
    else None
  }

  /** The value of three digits, and so a code below 1000. */
  lemma ThreeDigits(s: string)
    requires |s| == 3 && IsDigits(s)
    ensures ParseDigits(s) == 100 * DigitValue(s[0]) + 10 * DigitValue(s[1]) + DigitValue(s[2]) < 1000
  {
    assert s[..2][..1] == s[..1] && s[..1][..0] == [];
    assert s[..1][0] == s[0] && s[..2][1] == s[1];
    assert ParseDigits(s[..1]) == DigitValue(s[0]);
    assert ParseDigits(s[..2]) == 10 * DigitValue(s[0]) + DigitValue(s[1]);
  }

  /** Tokens that are not exactly one of the three forms map to nothing: surrounding
      whitespace, a wrong number of digits, a non-digit or another prefix. */
  lemma MalformedTokensIgnored()
    ensures ParseToken(" http_503") == None && ParseToken("http_503 ") == None
    ensures ParseToken("http_50") == None && ParseToken("http_5034") == None
    ensures ParseToken("http_5x3") == None && ParseToken("Timeout") == None
    ensures ParseToken("idempotent_503") == None && ParseToken("") == None
    ensures ParseToken("http_503") == Some(CodeIdempotence(503, false))
    ensures ParseToken("non_idempotent_007") == Some(CodeIdempotence(7, true))
  {
    assert "http_5x3"[5..][1] == 'x';
    ThreeDigits("http_503"[5..]);
    ThreeDigits("non_idempotent_007"[15..]);
  }

  /** The tokens that map to a rule, mapped (the `map`/`filter` of `update`). */
  function ParseTokens(tokens: seq<string>): (rules: seq<CodeIdempotence>)
    ensures |rules| <= |tokens|
  {
    if tokens == [] then []
    else
      var last := ParseToken(tokens[|tokens| - 1]);
      ParseTokens(tokens[..|tokens| - 1]) + (if last.Some? then [last.value] else [])
  }

  /** `toMap` with `(i1, i2) -> i1 || i2`: a repeated code keeps the OR of its flags. */
  function Collect(rules: seq<CodeIdempotence>): (m: Rules)
  {
    if rules == [] then map[]
    else
      var m := Collect(rules[..|rules| - 1]);
      var r := rules[|rules| - 1];
      m[r.code := if r.code in m then m[r.code] || r.idempotent else r.idempotent]
  }

  /** `update`'s new table for a configuration string. */
  function ParseRules(configString: string): (rules: Rules)
  {
    Collect(ParseTokens(SplitOnComma(configString)))
  }

  /** Some token maps to `code`. */
  ghost predicate Mentions(tokens: seq<string>, code: int) {
    exists i :: 0 <= i < |tokens| && ParseToken(tokens[i]).Some? && ParseToken(tokens[i]).value.code == code
  }

  /** Some token maps to `code` with the non-idempotent flag. */
  ghost predicate MentionsNonIdempotent(tokens: seq<string>, code: int) {
    exists i :: 0 <= i < |tokens| && ParseToken(tokens[i]) == Some(CodeIdempotence(code, true))
  }

  /** The parsed rules are exactly the mappings of the tokens that have one. */
  lemma {:induction false} ParseTokensSpec(tokens: seq<string>, rule: CodeIdempotence)
    ensures rule in ParseTokens(tokens) <==> exists i :: 0 <= i < |tokens| && ParseToken(tokens[i]) == Some(rule)
  {
    if tokens != [] {
      var init := tokens[..|tokens| - 1];
      ParseTokensSpec(init, rule);
      if exists i :: 0 <= i < |tokens| && ParseToken(tokens[i]) == Some(rule) {
        var i :| 0 <= i < |tokens| && ParseToken(tokens[i]) == Some(rule);
        if i < |init| {
          assert init[i] == tokens[i];
        }
      }
      if exists i :: 0 <= i < |init| && ParseToken(init[i]) == Some(rule) {
        var i :| 0 <= i < |init| && ParseToken(init[i]) == Some(rule);
        assert tokens[i] == init[i];
      }
    }
  }

  /** The collected table holds exactly the codes of the rules, and a code's flag is set
      exactly when one of its rules has the flag. */
  lemma {:induction false} CollectSpec(rules: seq<CodeIdempotence>, code: int)
    ensures code in Collect(rules) <==> exists r :: r in rules && r.code == code
    ensures code in Collect(rules) ==> (Collect(rules)[code] <==> CodeIdempotence(code, true) in rules)
  {
    if rules != [] {
      var init := rules[..|rules| - 1];
      var last := rules[|rules| - 1];
      CollectSpec(init, code);
      assert rules == init + [last];
      assert forall r :: r in rules <==> r in init || r == last;
    }
  }

  /** The table holds exactly the codes some token maps to, and a code's flag is the OR
      over all its tokens. */
  lemma ParseTokensCollect(tokens: seq<string>, code: int)
    ensures code in Collect(ParseTokens(tokens)) <==> Mentions(tokens, code)
    ensures code in Collect(ParseTokens(tokens)) ==>
      (Collect(ParseTokens(tokens))[code] <==> MentionsNonIdempotent(tokens, code))
  {
    var rules := ParseTokens(tokens);
    CollectSpec(rules, code);
    ParseTokensSpec(tokens, CodeIdempotence(code, true));
    ParseTokensSpec(tokens, CodeIdempotence(code, false));
    if Mentions(tokens, code) {
      var i :| 0 <= i < |tokens| && ParseToken(tokens[i]).Some? && ParseToken(tokens[i]).value.code == code;
      ParseTokensSpec(tokens, ParseToken(tokens[i]).value);
    }
    if exists r :: r in rules && r.code == code {
      var r :| r in rules && r.code == code;
      ParseTokensSpec(tokens, r);
    }
  }

  /** `update` in terms of the tokens of the configuration string: a code is in the new
      table exactly when a token maps to it, and its flag is set exactly when one of
      them is a `non_idempotent_` token. Nothing of the old table survives. */
  lemma ParseRulesSpec(configString: string, code: int)
    ensures var tokens := SplitOnComma(configString);
      && (code in ParseRules(configString) <==> Mentions(tokens, code))
      && (code in ParseRules(configString) ==>
            (ParseRules(configString)[code] <==> MentionsNonIdempotent(tokens, code)))
  {
    ParseTokensCollect(SplitOnComma(configString), code);
  }

  // ---------------------------------------------------------------------------
  // Decisions

  /** The transport-level connect failure, recognised by status code and text. */
  predicate IsConnectError(response: Response) {
    response.statusCode == CONNECT_ERROR && response.statusText == CONNECT_ERROR_MESSAGE
  }

  /** `isRetriable`: a non-idempotent request is retried only on a connect error or under
      a rule that allows it. */
  predicate IsRetriable(rules: Rules, response: Response, idempotent: bool)
    ensures IsRetriable(rules, response, idempotent) && !idempotent ==>
      IsConnectError(response) || (response.statusCode in rules && rules[response.statusCode])
  {
    if IsConnectError(response) then true
    else if response.statusCode !in rules then false
    else rules[response.statusCode] || idempotent
  }

  /** `isServerError`: what is not a server error is never retried. */
  predicate IsServerError(rules: Rules, response: Response)
    ensures !IsServerError(rules, response) ==> !IsRetriable(rules, response, true)
  {
    IsConnectError(response) || response.statusCode in rules
  }

  /** A connect error is retriable whatever the rules and the idempotency; any other
      response is retriable exactly when its code has a rule that allows it. */
  lemma RetriableCases(rules: Rules, response: Response, idempotent: bool)
    ensures IsConnectError(response) ==> IsRetriable(rules, response, idempotent)
    ensures !IsConnectError(response) ==>
      (IsRetriable(rules, response, idempotent) <==>
         response.statusCode in rules && (rules[response.statusCode] || idempotent))
  {
  }

  /** Every retriable response is a server error, and a server error is retriable for
      an idempotent request; `isServerError` does not look at idempotency. */
  lemma RetriableIsServerError(rules: Rules, response: Response, idempotent: bool)
    ensures IsRetriable(rules, response, idempotent) ==> IsServerError(rules, response)
    ensures IsServerError(rules, response) <==> IsRetriable(rules, response, true)
  {
  }

  /** Under the default rules, SERVICE_UNAVAILABLE and REQUEST_TIMEOUT are retried only for
      idempotent requests, and no other status but the connect error is retried. */
  lemma DefaultRulesRetry(response: Response, idempotent: bool)
    requires !IsConnectError(response)
    ensures response.statusCode in {SERVICE_UNAVAILABLE, REQUEST_TIMEOUT} ==>
      (IsRetriable(DefaultRules(), response, idempotent) <==> idempotent)
    ensures response.statusCode !in {SERVICE_UNAVAILABLE, REQUEST_TIMEOUT} ==>
      !IsRetriable(DefaultRules(), response, idempotent)
  {
  }

  /** The `RetryPolicy` object: a rule table that `update` replaces as a whole. */
  class RetryPolicy {
    var rules: Rules

    constructor ()
      ensures rules == DefaultRules()
    {
      rules := map[REQUEST_TIMEOUT := false, SERVICE_UNAVAILABLE := false];
    }

    method Update(configString: string)
      modifies this
      ensures rules == ParseRules(configString)
    {
      var tokens := SplitOnComma(configString);
      var parsed: seq<CodeIdempotence> := [];
      for i := 0 to |tokens|
        invariant parsed == ParseTokens(tokens[..i])
      {
        var rule := ParseToken(tokens[i]);
        assert tokens[..i + 1][..i] == tokens[..i];
        if rule.Some? {
          parsed := parsed + [rule.value];
        }
      }
      assert tokens[..|tokens|] == tokens;
      var collected: Rules := map[];
      for i := 0 to |parsed|
        invariant collected == Collect(parsed[..i])
      {
        var r := parsed[i];
        assert parsed[..i + 1][..i] == parsed[..i];
        collected := collected[r.code := if r.code in collected then collected[r.code] || r.idempotent else r.idempotent];
      }
      assert parsed[..|parsed|] == parsed;
      rules := collected;
    }

    /** `getRules`: an immutable copy of the current table. */
    function GetRules(): (copy: Rules)
      reads this
      ensures copy.Keys == rules.Keys && forall code :: code in copy ==> copy[code] == rules[code]
    {
      rules
    }
  }
}
