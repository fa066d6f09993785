/**
 The ClickHouse connection-string parser (`info_parser`).

 The input is split on white space the way `operator>>` on a string stream
 splits it; each token must match the whole of the pattern
 `(host|port|user|pass|db)(?:=((?:.|\n)*))?`; a match sets the key to the
 captured value (the empty string when there is no `=`), and the first token
 that does not match stops the program. Defaults for `user`, `pass` and `db`
 are seeded before any token is read.
 */
module ClickHouseOptions {
  import opened RelModel

  // ---------------------------------------------------------------------------
  // Tokenizer
  // ---------------------------------------------------------------------------

  /** The characters `isspace` accepts in the C locale, which `operator>>` skips. */
  predicate IsSpace(c: char)
  {
    c == ' ' || c == '\t' || c == '\n' || c == '\U{0B}' || c == '\U{0C}' || c == '\r'
  }

  predicate NoSpace(s: string)
  {
    forall i | 0 <= i < |s| :: !IsSpace(s[i])
  }

  predicate AllSpace(s: string)
  {
    forall i | 0 <= i < |s| :: IsSpace(s[i])
  }

  /** A token as extraction produces it: not empty, no white space in it. */
  predicate IsToken(t: string)
  {
    t != [] && NoSpace(t)
  }

  /** The tokens of `s`, where the token being read so far is `cur`. */
  function SplitFrom(s: string, cur: string): seq<string>
    decreases |s|
  {
    if s == [] then
      (if cur == [] then [] else [cur])
    else if IsSpace(s[0]) then
      (if cur == [] then SplitFrom(s[1..], []) else [cur] + SplitFrom(s[1..], []))
    else
      SplitFrom(s[1..], cur + [s[0]])
  }

  /** The successive tokens `while (ss >> token)` reads from `s`. */
  function Tokens(s: string): seq<string>
  {
    SplitFrom(s, [])
  }

  /** The tokens joined by single spaces: the inverse of `Tokens` on well-formed tokens. */
  function Join(ts: seq<string>): string
  {
    if ts == [] then "" else if |ts| == 1 then ts[0] else ts[0] + " " + Join(ts[1..])
  }

  lemma {:induction false} SplitFromTokens(s: string, cur: string)
    requires NoSpace(cur)
    ensures forall i | 0 <= i < |SplitFrom(s, cur)| :: IsToken(SplitFrom(s, cur)[i])
    decreases |s|
  {
    if s == [] {
    } else if IsSpace(s[0]) {
      SplitFromTokens(s[1..], []);
    } else {
      SplitFromTokens(s[1..], cur + [s[0]]);
    }
  }

  /** Every token is non-empty and free of white space. */
  lemma TokensAreTokens(s: string)
    ensures forall i | 0 <= i < |Tokens(s)| :: IsToken(Tokens(s)[i])
  {
    SplitFromTokens(s, []);
  }

  lemma {:induction false} SplitFromBlank(s: string)
    requires AllSpace(s)
    ensures SplitFrom(s, []) == []
    decreases |s|
  {
    if s != [] {
      SplitFromBlank(s[1..]);
    }
  }

  /** A token with no white space in it is read in one piece. */
  lemma {:induction false} SplitFromAppend(t: string, rest: string, cur: string)
    requires NoSpace(t)
    ensures SplitFrom(t + rest, cur) == SplitFrom(rest, cur + t)
    decreases |t|
  {
    if t == [] {
      assert t + rest == rest;
      assert cur + t == cur;
    } else {
      assert (t + rest)[0] == t[0];
      assert (t + rest)[1..] == t[1..] + rest;
      SplitFromAppend(t[1..], rest, cur + [t[0]]);
      assert cur + [t[0]] + t[1..] == cur + t;
    }
  }

  /** Splitting undoes joining: `Tokens(Join(ts)) == ts` for well-formed tokens. */
  lemma {:induction false} TokensOfJoin(ts: seq<string>)
    requires forall i | 0 <= i < |ts| :: IsToken(ts[i])
    ensures Tokens(Join(ts)) == ts
  {
    if ts == [] {
    } else if |ts| == 1 {
      SplitFromAppend(ts[0], [], []);
      assert ts[0] + [] == ts[0];
      assert [] + ts[0] == ts[0];
    } else {
      var j := Join(ts[1..]);
      assert Join(ts) == ts[0] + (" " + j);
      SplitFromAppend(ts[0], " " + j, []);
      assert [] + ts[0] == ts[0];
      assert (" " + j)[1..] == j;
      TokensOfJoin(ts[1..]);
    }
  }

  // ---------------------------------------------------------------------------
  // The option pattern
  // ---------------------------------------------------------------------------

  const OptionKeys: seq<string> := ["host", "port", "user", "pass", "db"]

  /**
   A character that `(?:.|\n)` matches: `.` takes anything but the line
   terminators `\n` and `\r`, and the alternative adds `\n` back.
   */
  predicate ValueChar(c: char)
  {
    c != '\r'
  }

  /** The pattern matches the whole of `token`, with group 1 = `k` and group 2 = `v`. */
  predicate FullMatch(token: string, k: string, v: string)
  {
    && k in OptionKeys
    && ((token == k && v == "")
        || (token == k + "=" + v && forall i | 0 <= i < |v| :: ValueChar(v[i])))
  }

  /** Matches `token` against one key alternative, giving group 2. */
  function MatchKey(token: string, k: string): (r: Option<string>)
    ensures r.Some? ==> (token == k && r.value == "") || token == k + "=" + r.value
  {
    if token == k then
      Some("")
    else if |token| > |k| && token[..|k|] == k && token[|k|] == '='
         && forall i | |k| < i < |token| :: ValueChar(token[i]) then
      assert token == k + "=" + token[|k| + 1..];
      Some(token[|k| + 1..])
    else
      None
  }

  /** Tries the key alternatives in order; the first that matches gives groups 1 and 2. */
  function MatchFrom(token: string, keys: seq<string>): (r: Option<(string, string)>)
    ensures r.Some? ==> r.value.0 in keys && MatchKey(token, r.value.0) == Some(r.value.1)
  {
    if keys == [] then
      None
    else
      match MatchKey(token, keys[0])
      case Some(v) => Some((keys[0], v))
      case None => MatchFrom(token, keys[1..])
  }

  /** `regex_match(token, match, optregex)`, with `(match[1], match[2])` on success. */
  function MatchOption(token: string): (r: Option<(string, string)>)
    ensures r.Some? ==> FullMatch(token, r.value.0, r.value.1)
  {
    MatchFrom(token, OptionKeys)
  }

  /** No two keys share their first two characters. */
  lemma KeysDifferEarly(k1: string, k2: string)
    requires k1 in OptionKeys && k2 in OptionKeys && k1 != k2
    ensures k1[0] != k2[0] || k1[1] != k2[1]
  {
    assert k1 == "host" || k1 == "port" || k1 == "user" || k1 == "pass" || k1 == "db";
    assert k2 == "host" || k2 == "port" || k2 == "user" || k2 == "pass" || k2 == "db";
  }

  /** No two alternatives match the same token: the captured key and value are unique. */
  lemma FullMatchUnique(token: string, k1: string, v1: string, k2: string, v2: string)
    requires FullMatch(token, k1, v1) && FullMatch(token, k2, v2)
    ensures k1 == k2 && v1 == v2
  {
    if k1 != k2 {
      assert token[..|k1|] == k1 by { assert token == k1 || token[..|k1|] == (k1 + "=" + v1)[..|k1|]; }
      assert token[..|k2|] == k2 by { assert token == k2 || token[..|k2|] == (k2 + "=" + v2)[..|k2|]; }
      assert k1[0] == token[0] == k2[0] && k1[1] == token[1] == k2[1];
      KeysDifferEarly(k1, k2);
      assert false;
    }
    if token != k1 {
      assert token == k1 + "=" + v1 && token == k1 + "=" + v2;
      assert v1 == token[|k1| + 1..] == v2;
    }
  }

  /** The pattern accepts exactly what `MatchOption` accepts, with the same groups. */
  lemma MatchOptionComplete(token: string, k: string, v: string)
    requires FullMatch(token, k, v)
    ensures MatchOption(token) == Some((k, v))
  {
    if token != k {
      assert token[..|k|] == k && token[|k|] == '=' && token[|k| + 1..] == v;
    }
    assert MatchKey(token, k).Some?;
    var i :| 0 <= i < |OptionKeys| && OptionKeys[i] == k;
    if MatchOption(token).None? {
      MatchFromNone(token, OptionKeys, i);
      assert false;
    }
    FullMatchUnique(token, k, v, MatchOption(token).value.0, MatchOption(token).value.1);
  }

  lemma {:induction false} MatchFromNone(token: string, keys: seq<string>, i: nat)
    requires i < |keys| && MatchFrom(token, keys).None?
    ensures MatchKey(token, keys[i]).None?
  {
    if i > 0 {
      MatchFromNone(token, keys[1..], i - 1);
    }
  }

  // ---------------------------------------------------------------------------
  // The parser
  // ---------------------------------------------------------------------------

  /** The options seeded before any token is read. */
  const Defaults: map<string, string> := map["user" := "default", "pass" := "", "db" := "db"]

  /** Applies the tokens in order; the first token that does not match is the error. */
  function Apply(options: map<string, string>, tokens: seq<string>): Result<map<string, string>, string>
    decreases |tokens|
  {
    if tokens == [] then
      Ok(options)
    else
      match MatchOption(tokens[0])
      case None => Err(tokens[0])
      case Some((k, v)) => Apply(options[k := v], tokens[1..])
  }

  /** What `info_parser(info)` leaves in `options`, or the token it stops at. */
  function Parse(info: string): Result<map<string, string>, string>
  {
    Apply(Defaults, Tokens(info))
  }

  /** The `info_parser` constructor: seeds the defaults, then updates them token by token. */
  method ParseOptions(info: string) returns (r: Result<map<string, string>, string>)
    ensures r == Parse(info)
  {
    var options: map<string, string> := map[];
    options := options["user" := "default"];
    options := options["pass" := ""];
    options := options["db" := "db"];
    var tokens := Tokens(info);
    var i := 0;
    while i < |tokens|
      invariant 0 <= i <= |tokens|
      invariant Apply(options, tokens[i..]) == Parse(info)
    {
      var m := MatchOption(tokens[i]);
      if m.None? {
        return Err(tokens[i]);
      }
      options := options[m.value.0 := m.value.1];
      assert tokens[i..][1..] == tokens[i + 1..];
      i := i + 1;
    }
    r := Ok(options);
  }

  // ---------------------------------------------------------------------------
  // Properties of the parser
  // ---------------------------------------------------------------------------

  /** An empty or all-white-space string gives exactly the defaults, with no host or port. */
  lemma ParseBlank(info: string)
    requires AllSpace(info)
    ensures Parse(info) == Ok(map["user" := "default", "pass" := "", "db" := "db"])
    ensures "host" !in Parse(info).value && "port" !in Parse(info).value
  {
    SplitFromBlank(info);
  }

  lemma {:induction false} ApplySucceedsIff(options: map<string, string>, tokens: seq<string>)
    decreases |tokens|
    ensures Apply(options, tokens).Ok?
        <==> forall i | 0 <= i < |tokens| :: MatchOption(tokens[i]).Some?
  {
    if tokens != [] {
      match MatchOption(tokens[0])
      case None =>
      case Some((k, v)) =>
        ApplySucceedsIff(options[k := v], tokens[1..]);
        assert forall i | 1 <= i < |tokens| :: tokens[i] == tokens[1..][i - 1];
    }
  }

  /** Parsing succeeds exactly when every token matches the pattern. */
  lemma ParseSucceedsIff(info: string)
    ensures Parse(info).Ok?
        <==> forall i | 0 <= i < |Tokens(info)| :: MatchOption(Tokens(info)[i]).Some?
  {
    ApplySucceedsIff(Defaults, Tokens(info));
  }

  /** `i` is the first token that the pattern rejects. */
  predicate FirstUnmatched(tokens: seq<string>, i: int)
  {
    && 0 <= i < |tokens|
    && MatchOption(tokens[i]).None?
    && forall j | 0 <= j < i :: MatchOption(tokens[j]).Some?
  }

  lemma {:induction false} ApplyStopsAt(options: map<string, string>, tokens: seq<string>, i: int)
    requires FirstUnmatched(tokens, i)
    ensures Apply(options, tokens) == Err(tokens[i])
    decreases i
  {
    if i > 0 {
      var kv := MatchOption(tokens[0]).value;
      assert FirstUnmatched(tokens[1..], i - 1) by {
        forall j | 0 <= j < i - 1
          ensures MatchOption(tokens[1..][j]).Some?
        {
          assert tokens[1..][j] == tokens[j + 1];
        }
      }
      ApplyStopsAt(options[kv.0 := kv.1], tokens[1..], i - 1);
    }
  }

  lemma {:induction false} ApplyFailureAt(options: map<string, string>, tokens: seq<string>)
    requires Apply(options, tokens).Err?
    decreases |tokens|
    ensures exists i :: FirstUnmatched(tokens, i) && tokens[i] == Apply(options, tokens).error
  {
    if tokens == [] {
    } else if MatchOption(tokens[0]).None? {
      assert FirstUnmatched(tokens, 0);
    } else {
      var kv := MatchOption(tokens[0]).value;
      ApplyFailureAt(options[kv.0 := kv.1], tokens[1..]);
      var i :| FirstUnmatched(tokens[1..], i) && tokens[1..][i] == Apply(options[kv.0 := kv.1], tokens[1..]).error;
      assert FirstUnmatched(tokens, i + 1) by {
        forall j | 0 <= j < i + 1
          ensures MatchOption(tokens[j]).Some?
        {
          if j > 0 {
            assert tokens[j] == tokens[1..][j - 1];
          }
        }
      }
    }
  }

  /**
   Parsing fails exactly at the first token (in reading order) that the
   pattern rejects, and the failure names that token.
   */
  lemma ParseFailsAtFirstUnmatched(info: string, i: int)
    ensures FirstUnmatched(Tokens(info), i) ==> Parse(info) == Err(Tokens(info)[i])
    ensures Parse(info).Err? ==>
      exists j :: FirstUnmatched(Tokens(info), j) && Tokens(info)[j] == Parse(info).error
  {
    if FirstUnmatched(Tokens(info), i) {
      ApplyStopsAt(Defaults, Tokens(info), i);
    }
    if Parse(info).Err? {
      ApplyFailureAt(Defaults, Tokens(info));
    }
  }

  /** The value `token` assigns to key `k`, if it is a matching token for `k`. */
  function Assigned(token: string, k: string): Option<string>
  {
    match MatchOption(token)
    case Some((k', v)) => if k' == k then Some(v) else None
    case None => None
  }

  /** The value of the last token in `tokens` that assigns key `k`. */
  function LastValue(tokens: seq<string>, k: string): Option<string>
  {
    if tokens == [] then
      None
    else
      match LastValue(tokens[1..], k)
      case Some(v) => Some(v)
      case None => Assigned(tokens[0], k)
  }

  lemma {:induction false} ApplyLastValue(options: map<string, string>, tokens: seq<string>, k: string)
    requires Apply(options, tokens).Ok?
    decreases |tokens|
    ensures var m := Apply(options, tokens).value;
      && (k in m <==> k in options || LastValue(tokens, k).Some?)
      && (k in m ==> m[k] == if LastValue(tokens, k).Some? then LastValue(tokens, k).value else options[k])
  {
    if tokens != [] {
      var kv := MatchOption(tokens[0]).value;
      ApplyLastValue(options[kv.0 := kv.1], tokens[1..], k);
    }
  }

  /**
   After a successful parse each key holds the value of the LAST token that
   set it, overriding any default; a key no token set keeps its default, and
   a key with neither is absent.
   */
  lemma ParseLastValueWins(info: string, k: string)
    requires Parse(info).Ok?
    ensures var m := Parse(info).value;
      && (k in m <==> k in Defaults || LastValue(Tokens(info), k).Some?)
      && (LastValue(Tokens(info), k).Some? ==> m[k] == LastValue(Tokens(info), k).value)
      && (LastValue(Tokens(info), k).None? && k in Defaults ==> m[k] == Defaults[k])
  {
    ApplyLastValue(Defaults, Tokens(info), k);
  }

  /** Examples of the pattern: the value is everything after the first `=`, or empty without one. */
  lemma MatchExamplesAccepted()
    ensures MatchOption("pass=a=b") == Some(("pass", "a=b"))
    ensures MatchOption("db") == Some(("db", ""))
  {
    MatchOptionComplete("pass=a=b", "pass", "a=b");
    MatchOptionComplete("db", "db", "");
  }

  /** Near-miss keys are rejected: the key must be followed by `=` or end the token. */
  lemma MatchExamplesRejected()
    ensures MatchOption("username=x") == None
    ensures MatchOption("dbx") == None
  {
  }

  /** A matching first token updates its key and the rest is applied to the result. */
  lemma ApplyMatched(options: map<string, string>, t: string, rest: seq<string>, k: string, v: string)
    requires MatchOption(t) == Some((k, v))
    ensures Apply(options, [t] + rest) == Apply(options[k := v], rest)
  {
    assert ([t] + rest)[1..] == rest;
  }

  /** Four matching tokens are applied in order, each updating its own key. */
  lemma ApplyFour(options: map<string, string>, t0: string, t1: string, t2: string, t3: string,
                  k0: string, k1: string, k2: string, k3: string,
                  v0: string, v1: string, v2: string, v3: string)
    requires MatchOption(t0) == Some((k0, v0)) && MatchOption(t1) == Some((k1, v1))
    requires MatchOption(t2) == Some((k2, v2)) && MatchOption(t3) == Some((k3, v3))
    ensures Apply(options, [t0, t1, t2, t3]) == Ok(options[k0 := v0][k1 := v1][k2 := v2][k3 := v3])
  {
    var m1 := options[k0 := v0];
    var m2 := m1[k1 := v1];
    var m3 := m2[k2 := v2];
    ApplyMatched(m3, t3, [], k3, v3);
    assert [t3] == [t3] + [];
    ApplyMatched(m2, t2, [t3], k2, v2);
    assert [t2, t3] == [t2] + [t3];
    ApplyMatched(m1, t1, [t2, t3], k1, v1);
    assert [t1, t2, t3] == [t1] + [t2, t3];
    ApplyMatched(options, t0, [t1, t2, t3], k0, v0);
    assert [t0, t1, t2, t3] == [t0] + [t1, t2, t3];
  }

  /**
   A full configuration string, `host=localhost port=9000 user=default pass=`:
   every key set, the database left at its default.
   */
  lemma ParseExampleFull()
    ensures Parse(Join(["host" + "=" + "localhost", "port" + "=" + "9000", "user" + "=" + "default", "pass" + "=" + ""]))
         == Ok(map["host" := "localhost", "port" := "9000", "user" := "default", "pass" := "", "db" := "db"])
  {
    OptionToken("host", "localhost");
    OptionToken("port", "9000");
    OptionToken("user", "default");
    OptionToken("pass", "");
    ParseFour("host" + "=" + "localhost", "port" + "=" + "9000", "user" + "=" + "default", "pass" + "=" + "",
              "host", "port", "user", "pass", "localhost", "9000", "default", "");
    FullConfiguration();
  }

  /** `key=value` with a blank-free value is one token, and the pattern captures exactly that key and value. */
  lemma OptionToken(k: string, v: string)
    requires k in OptionKeys && NoSpace(v) && forall i | 0 <= i < |v| :: ValueChar(v[i])
    ensures IsToken(k + "=" + v) && MatchOption(k + "=" + v) == Some((k, v))
  {
    var t := k + "=" + v;
    MatchOptionComplete(t, k, v);
    assert NoSpace(k) by {
      assert k == "host" || k == "port" || k == "user" || k == "pass" || k == "db";
    }
    forall i | 0 <= i < |t|
      ensures !IsSpace(t[i])
    {
      if i < |k| {
        assert t[i] == k[i];
      } else if i > |k| {
        assert t[i] == v[i - |k| - 1];
      }
    }
  }

  /** Four matching tokens joined by blanks parse to the defaults updated by each in turn. */
  lemma ParseFour(t0: string, t1: string, t2: string, t3: string,
                  k0: string, k1: string, k2: string, k3: string,
                  v0: string, v1: string, v2: string, v3: string)
    requires IsToken(t0) && IsToken(t1) && IsToken(t2) && IsToken(t3)
    requires MatchOption(t0) == Some((k0, v0)) && MatchOption(t1) == Some((k1, v1))
    requires MatchOption(t2) == Some((k2, v2)) && MatchOption(t3) == Some((k3, v3))
    ensures Parse(Join([t0, t1, t2, t3])) == Ok(Defaults[k0 := v0][k1 := v1][k2 := v2][k3 := v3])
  {
    TokensOfJoin([t0, t1, t2, t3]);
    ApplyFour(Defaults, t0, t1, t2, t3, k0, k1, k2, k3, v0, v1, v2, v3);
  }

  /** Setting all four keys over the defaults leaves only `db` at its default. */
  lemma FullConfiguration()
    ensures Defaults["host" := "localhost"]["port" := "9000"]["user" := "default"]["pass" := ""]
         == map["host" := "localhost", "port" := "9000", "user" := "default", "pass" := "", "db" := "db"]
  {
  }

  /** `host=localhost foo=bar`: the unknown key stops the parse, naming the offending token. */
  lemma ParseExampleUnknownKey()
    ensures Parse(Join(["host" + "=" + "localhost", "foo=bar"])) == Err("foo=bar")
  {
    var t0, t1 := "host" + "=" + "localhost", "foo=bar";
    OptionToken("host", "localhost");
    TokensOfJoin([t0, t1]);
    ApplyMatched(Defaults, t0, [t1], "host", "localhost");
    assert [t0, t1] == [t0] + [t1];
  }
}
