/** Secret redaction as the event store applies it before every append: two regular-expression
    replacements composed over every string of a nested value, and a deny-list of key names. */
module Redaction {

  const MASK := "[REDACTED]"
  const BEARER_MASK := "Bearer [REDACTED]"

  /** Case-insensitive matching folds ASCII capitals, the long s and the Kelvin sign. */
  function Fold(c: char): char {
    if 'A' <= c <= 'Z' then (c as int + 32) as char
    else if c == '\U{017F}' then 's'
    else if c == '\U{212A}' then 'k'
    else c
  }

  predicate Alnum(c: char) {
    'a' <= Fold(c) <= 'z' || '0' <= c <= '9'
  }

  predicate Space(c: char) {
    c == ' ' || c == '\t' || c == '\n' || c == '\r' || c == '\U{000C}'
  }

  predicate TokenChar(c: char) {
    Alnum(c) || c in "._~+/=-"
  }

  predicate SecretChar(c: char) {
    Alnum(c) || c == '_' || c == '-'
  }

  // Each pattern is read left to right. `XxxFrom(k, s)` says that some prefix of `s` completes
  // the pattern once its first `k` stages have been read.

  /** Stages 0..5 spell the literal, stage 6 needs the first blank, stage 7 allows more blanks before the token. */
  predicate BearerFrom(k: nat, s: string)
    requires k <= 7
    decreases |s|
  {
    s != [] &&
    if k < 6 then Fold(s[0]) == "bearer"[k] && BearerFrom(k + 1, s[1..])
    else if k == 6 then Space(s[0]) && BearerFrom(7, s[1..])
    else TokenChar(s[0]) || (Space(s[0]) && BearerFrom(7, s[1..]))
  }

  /** Three literal characters and then at least six more. */
  predicate KeyFrom(k: nat, s: string)
    requires k <= 9
    decreases |s|
  {
    k == 9 ||
    (s != [] &&
     (if k < 3 then Fold(s[0]) == "sk-"[k] else SecretChar(s[0])) &&
     KeyFrom(k + 1, s[1..]))
  }

  /** Eight literal characters, a separator, and at least one more. */
  predicate SentinelFrom(k: nat, s: string)
    requires k <= 10
    decreases |s|
  {
    k == 10 ||
    (s != [] &&
     (if k < 8 then Fold(s[0]) == "sentinel"[k]
      else if k == 8 then s[0] == '-' || s[0] == '_'
      else SecretChar(s[0])) &&
     SentinelFrom(k + 1, s[1..]))
  }

  predicate BearerHere(s: string) { BearerFrom(0, s) }

  predicate SecretHere(s: string) { KeyFrom(0, s) || SentinelFrom(0, s) }

  function Run(p: char -> bool, s: string): (n: nat)
    ensures n <= |s|
  {
    if s != [] && p(s[0]) then 1 + Run(p, s[1..]) else 0
  }

  lemma {:induction false} BearerLength(k: nat, s: string)
    requires k <= 7 && BearerFrom(k, s)
    ensures k < 7 ==> |s| >= 8 - k && (Space(s[7 - k]) || TokenChar(s[7 - k]))
    decreases |s|
  {
    if k < 7 { BearerLength(k + 1, s[1..]); }
  }

  // How far the match reaches once its first `k` stages have been read; repetitions are greedy.

  function BearerReach(k: nat, s: string): (n: nat)
    requires k <= 7 && BearerFrom(k, s)
    ensures 0 < n <= |s|
    decreases |s|
  {
    if k < 7 then 1 + BearerReach(k + 1, s[1..])
    else if TokenChar(s[0]) then 1 + Run(TokenChar, s[1..])
    else 1 + BearerReach(7, s[1..])
  }

  function KeyReach(k: nat, s: string): (n: nat)
    requires k <= 9 && KeyFrom(k, s)
    ensures n <= |s| && (k < 9 ==> 0 < n)
    decreases |s|
  {
    if k == 9 then Run(SecretChar, s) else 1 + KeyReach(k + 1, s[1..])
  }

  function SentinelReach(k: nat, s: string): (n: nat)
    requires k <= 10 && SentinelFrom(k, s)
    ensures n <= |s| && (k < 10 ==> 0 < n)
    decreases |s|
  {
    if k == 10 then Run(SecretChar, s) else 1 + SentinelReach(k + 1, s[1..])
  }

  function BearerMatch(s: string): (n: nat)
    requires BearerHere(s)
    ensures 0 < n <= |s|
  {
    BearerReach(0, s)
  }

  function SecretMatch(s: string): (n: nat)
    requires SecretHere(s)
    ensures 0 < n <= |s|
  {
    if KeyFrom(0, s) then KeyReach(0, s) else SentinelReach(0, s)
  }

  /** Leftmost, non-overlapping replacement. */
  function ReplaceBearer(s: string): string
    decreases |s|
  {
    if s == [] then []
    else if BearerHere(s) then BEARER_MASK + ReplaceBearer(s[BearerMatch(s)..])
    else [s[0]] + ReplaceBearer(s[1..])
  }

  function ReplaceSecret(s: string): string
    decreases |s|
  {
    if s == [] then []
    else if SecretHere(s) then MASK + ReplaceSecret(s[SecretMatch(s)..])
    else [s[0]] + ReplaceSecret(s[1..])
  }

  function RedactString(s: string): string {
    ReplaceSecret(ReplaceBearer(s))
  }

  ghost predicate HasBearer(s: string) {
    exists i | 0 <= i <= |s| :: BearerHere(s[i..])
  }

  ghost predicate HasSecret(s: string) {
    exists i | 0 <= i <= |s| :: SecretHere(s[i..])
  }

  /** No match of either pattern anywhere. */
  ghost predicate Clean(s: string) {
    !HasBearer(s) && !HasSecret(s)
  }

  // ---- a replacement never completes a match that the original text did not have

  lemma BearerHead(s: string)
    requires ReplaceBearer(s) != []
    ensures s != []
    ensures ReplaceBearer(s)[0] == if BearerHere(s) then 'B' else s[0]
    ensures BearerHere(s) ==> Fold(s[0]) == 'b'
  {
  }

  lemma SecretHead(s: string)
    requires ReplaceSecret(s) != []
    ensures s != []
    ensures ReplaceSecret(s)[0] == if SecretHere(s) then '[' else s[0]
  {
  }

  lemma {:induction false} BearerSurvives(k: nat, s: string)
    requires k <= 7 && BearerFrom(k, ReplaceBearer(s))
    ensures BearerFrom(k, s)
    decreases |s|
  {
    var r := ReplaceBearer(s);
    BearerHead(s);
    assert 0 < k < 6 ==> "bearer"[k] != 'b';
    if BearerHere(s) {
    } else {
      assert r[0] == s[0] && r[1..] == ReplaceBearer(s[1..]);
      if k < 7 {
        BearerSurvives(k + 1, s[1..]);
      } else if !TokenChar(s[0]) {
        BearerSurvives(7, s[1..]);
      }
    }
  }

  lemma {:induction false} BearerSurvivesSecret(k: nat, s: string)
    requires k <= 7 && BearerFrom(k, ReplaceSecret(s))
    ensures BearerFrom(k, s)
    decreases |s|
  {
    var r := ReplaceSecret(s);
    SecretHead(s);
    if !SecretHere(s) {
      assert r[0] == s[0] && r[1..] == ReplaceSecret(s[1..]);
      if k < 7 {
        BearerSurvivesSecret(k + 1, s[1..]);
      } else if !TokenChar(s[0]) {
        BearerSurvivesSecret(7, s[1..]);
      }
    }
  }

  lemma {:induction false} KeySurvives(k: nat, s: string)
    requires k <= 9 && KeyFrom(k, ReplaceSecret(s))
    ensures KeyFrom(k, s)
    decreases |s|
  {
    if k < 9 {
      var r := ReplaceSecret(s);
      SecretHead(s);
      if !SecretHere(s) {
        assert r[0] == s[0] && r[1..] == ReplaceSecret(s[1..]);
        KeySurvives(k + 1, s[1..]);
      }
    }
  }

  lemma {:induction false} SentinelSurvives(k: nat, s: string)
    requires k <= 10 && SentinelFrom(k, ReplaceSecret(s))
    ensures SentinelFrom(k, s)
    decreases |s|
  {
    if k < 10 {
      var r := ReplaceSecret(s);
      SecretHead(s);
      if !SecretHere(s) {
        assert r[0] == s[0] && r[1..] == ReplaceSecret(s[1..]);
        SentinelSurvives(k + 1, s[1..]);
      }
    }
  }

  // ---- no match starts inside an inserted mask

  lemma NothingInsideBearerMask(i: nat, rest: string)
    requires i < |BEARER_MASK|
    ensures !BearerHere((BEARER_MASK + rest)[i..])
  {
    var t := (BEARER_MASK + rest)[i..];
    assert t[0] == BEARER_MASK[i];
    assert i == 0 ==> t[7] == '[';
    if BearerHere(t) { BearerLength(0, t); }
  }

  lemma NothingInsideMask(i: nat, rest: string)
    requires i < |MASK|
    ensures !SecretHere((MASK + rest)[i..]) && !BearerHere((MASK + rest)[i..])
  {
    var t := (MASK + rest)[i..];
    assert t[0] == MASK[i];
  }

  lemma {:induction false} ReplaceBearerClean(s: string)
    ensures !HasBearer(ReplaceBearer(s))
    decreases |s|
  {
    var r := ReplaceBearer(s);
    forall i | 0 <= i <= |r| ensures !BearerHere(r[i..]) {
      if s != [] {
        if BearerHere(s) {
          var rest := s[BearerMatch(s)..];
          ReplaceBearerClean(rest);
          if i < |BEARER_MASK| {
            NothingInsideBearerMask(i, ReplaceBearer(rest));
          } else {
            assert r[i..] == ReplaceBearer(rest)[i - |BEARER_MASK|..];
          }
        } else if i == 0 {
          assert r[0..] == r;
          if BearerHere(r) { BearerSurvives(0, s); }
        } else {
          ReplaceBearerClean(s[1..]);
          assert r[i..] == ReplaceBearer(s[1..])[i - 1..];
        }
      }
    }
  }

  lemma {:induction false} ReplaceSecretClean(s: string)
    ensures !HasSecret(ReplaceSecret(s))
    decreases |s|
  {
    var r := ReplaceSecret(s);
    forall i | 0 <= i <= |r| ensures !SecretHere(r[i..]) {
      if s != [] {
        if SecretHere(s) {
          var rest := s[SecretMatch(s)..];
          ReplaceSecretClean(rest);
          if i < |MASK| {
            NothingInsideMask(i, ReplaceSecret(rest));
          } else {
            assert r[i..] == ReplaceSecret(rest)[i - |MASK|..];
          }
        } else if i == 0 {
          assert r[0..] == r;
          if KeyFrom(0, r) { KeySurvives(0, s); }
          if SentinelFrom(0, r) { SentinelSurvives(0, s); }
        } else {
          ReplaceSecretClean(s[1..]);
          assert r[i..] == ReplaceSecret(s[1..])[i - 1..];
        }
      }
    }
  }

  /** Masking secrets does not bring a bearer token back. */
  lemma {:induction false} SecretMaskKeepsBearerClean(s: string)
    requires !HasBearer(s)
    ensures !HasBearer(ReplaceSecret(s))
    decreases |s|
  {
    var r := ReplaceSecret(s);
    assert s[0..] == s;
    forall i | 0 <= i <= |r| ensures !BearerHere(r[i..]) {
      if s != [] {
        if SecretHere(s) {
          var n := SecretMatch(s);
          SuffixWithoutBearer(s, n);
          SecretMaskKeepsBearerClean(s[n..]);
          if i < |MASK| {
            NothingInsideMask(i, ReplaceSecret(s[n..]));
          } else {
            assert r[i..] == ReplaceSecret(s[n..])[i - |MASK|..];
          }
        } else if i == 0 {
          assert r[0..] == r;
          if BearerHere(r) { BearerSurvivesSecret(0, s); }
        } else {
          SuffixWithoutBearer(s, 1);
          SecretMaskKeepsBearerClean(s[1..]);
          assert r[i..] == ReplaceSecret(s[1..])[i - 1..];
        }
      }
    }
  }

  lemma SuffixWithoutBearer(s: string, n: nat)
    requires n <= |s| && !HasBearer(s)
    ensures !HasBearer(s[n..])
  {
    forall i | 0 <= i <= |s[n..]| ensures !BearerHere(s[n..][i..]) {
      assert s[n..][i..] == s[n + i..];
    }
  }

  lemma SuffixWithoutSecret(s: string, n: nat)
    requires n <= |s| && !HasSecret(s)
    ensures !HasSecret(s[n..])
  {
    forall i | 0 <= i <= |s[n..]| ensures !SecretHere(s[n..][i..]) {
      assert s[n..][i..] == s[n + i..];
    }
  }

  lemma {:induction false} CleanUnchanged(s: string)
    requires Clean(s)
    ensures RedactString(s) == s
  {
    BearerFreeUnchanged(s);
    SecretFreeUnchanged(s);
  }

  lemma {:induction false} BearerFreeUnchanged(s: string)
    requires !HasBearer(s)
    ensures ReplaceBearer(s) == s
  {
    if s != [] {
      assert s[0..] == s;
      SuffixWithoutBearer(s, 1);
      BearerFreeUnchanged(s[1..]);
    }
  }

  lemma {:induction false} SecretFreeUnchanged(s: string)
    requires !HasSecret(s)
    ensures ReplaceSecret(s) == s
  {
    if s != [] {
      assert s[0..] == s;
      SuffixWithoutSecret(s, 1);
      SecretFreeUnchanged(s[1..]);
    }
  }

  /** The output of redaction holds no match of either pattern. */
  lemma RedactedStringIsClean(s: string)
    ensures Clean(RedactString(s))
  {
    ReplaceBearerClean(s);
    ReplaceSecretClean(ReplaceBearer(s));
    SecretMaskKeepsBearerClean(ReplaceBearer(s));
  }

  /** A string is left alone exactly when it holds no match: the fixed points are the clean strings. */
  lemma FixedPointsAreClean(s: string)
    ensures RedactString(s) == s <==> Clean(s)
  {
    RedactedStringIsClean(s);
    if Clean(s) { CleanUnchanged(s); }
  }

  // ---- the text that is masked is a whole match of its pattern, and the longest one

  /** `t` completes the bearer pattern from stage `k` exactly; stage 8 is inside the token. */
  predicate BearerText(k: nat, t: string)
    requires k <= 8
    decreases |t|
  {
    if t == [] then k == 8
    else if k < 6 then Fold(t[0]) == "bearer"[k] && BearerText(k + 1, t[1..])
    else if k == 6 then Space(t[0]) && BearerText(7, t[1..])
    else (TokenChar(t[0]) && BearerText(8, t[1..])) || (k == 7 && Space(t[0]) && BearerText(7, t[1..]))
  }

  /** `t` completes one of the two secret patterns exactly. */
  predicate KeyText(k: nat, t: string)
    requires k <= 9
    decreases |t|
  {
    if t == [] then k == 9
    else if k < 3 then Fold(t[0]) == "sk-"[k] && KeyText(k + 1, t[1..])
    else SecretChar(t[0]) && KeyText(if k < 9 then k + 1 else 9, t[1..])
  }

  predicate SentinelText(k: nat, t: string)
    requires k <= 10
    decreases |t|
  {
    if t == [] then k == 10
    else if k < 8 then Fold(t[0]) == "sentinel"[k] && SentinelText(k + 1, t[1..])
    else if k == 8 then (t[0] == '-' || t[0] == '_') && SentinelText(9, t[1..])
    else SecretChar(t[0]) && SentinelText(10, t[1..])
  }

  lemma {:induction false} TokenIsGreedy(s: string, m: nat)
    requires m <= |s|
    ensures BearerText(8, s[..m]) <==> m <= Run(TokenChar, s)
    decreases |s|
  {
    if m > 0 {
      assert s[..m][1..] == s[1..][..m - 1];
      TokenIsGreedy(s[1..], m - 1);
    }
  }

  lemma {:induction false} BearerReachIsLongest(k: nat, s: string, m: nat)
    requires k <= 7 && m <= |s|
    ensures BearerText(k, s[..m]) ==> BearerFrom(k, s) && m <= BearerReach(k, s)
    ensures BearerFrom(k, s) && m == BearerReach(k, s) ==> BearerText(k, s[..m])
    decreases |s|
  {
    if m > 0 {
      assert s[..m][1..] == s[1..][..m - 1];
      if k < 7 {
        BearerReachIsLongest(k + 1, s[1..], m - 1);
      } else if TokenChar(s[0]) {
        TokenIsGreedy(s[1..], m - 1);
      } else {
        BearerReachIsLongest(7, s[1..], m - 1);
      }
    }
  }

  lemma {:induction false} KeyReachIsLongest(k: nat, s: string, m: nat)
    requires k <= 9 && m <= |s|
    ensures KeyText(k, s[..m]) ==> KeyFrom(k, s) && m <= KeyReach(k, s)
    ensures KeyFrom(k, s) && m == KeyReach(k, s) ==> KeyText(k, s[..m])
    decreases |s|
  {
    if m > 0 {
      assert s[..m][1..] == s[1..][..m - 1];
      KeyReachIsLongest(if k < 9 then k + 1 else 9, s[1..], m - 1);
    }
  }

  lemma {:induction false} SentinelReachIsLongest(k: nat, s: string, m: nat)
    requires k <= 10 && m <= |s|
    ensures SentinelText(k, s[..m]) ==> SentinelFrom(k, s) && m <= SentinelReach(k, s)
    ensures SentinelFrom(k, s) && m == SentinelReach(k, s) ==> SentinelText(k, s[..m])
    decreases |s|
  {
    if m > 0 {
      assert s[..m][1..] == s[1..][..m - 1];
      SentinelReachIsLongest(if k < 10 then k + 1 else 10, s[1..], m - 1);
    }
  }

  /** A prefix of `s` is a bearer credential exactly up to the masked length. */
  lemma BearerMatchIsGreedy(s: string)
    ensures BearerHere(s) <==> exists m | 0 <= m <= |s| :: BearerText(0, s[..m])
    ensures BearerHere(s) ==>
              BearerText(0, s[..BearerMatch(s)]) &&
              forall m | 0 <= m <= |s| && BearerText(0, s[..m]) :: m <= BearerMatch(s)
  {
    forall m | 0 <= m <= |s| ensures BearerText(0, s[..m]) ==> BearerHere(s) && m <= BearerMatch(s) {
      BearerReachIsLongest(0, s, m);
    }
    if BearerHere(s) { BearerReachIsLongest(0, s, BearerMatch(s)); }
  }

  predicate SecretText(t: string) { KeyText(0, t) || SentinelText(0, t) }

  lemma SecretMatchIsGreedy(s: string)
    ensures SecretHere(s) <==> exists m | 0 <= m <= |s| :: SecretText(s[..m])
    ensures SecretHere(s) ==>
              SecretText(s[..SecretMatch(s)]) &&
              forall m | 0 <= m <= |s| && SecretText(s[..m]) :: m <= SecretMatch(s)
  {
    assert KeyFrom(0, s) && SentinelFrom(0, s) ==> KeyFrom(1, s[1..]) && SentinelFrom(1, s[1..]);
    forall m | 0 <= m <= |s| ensures SecretText(s[..m]) ==> SecretHere(s) && m <= SecretMatch(s) {
      KeyReachIsLongest(0, s, m);
      SentinelReachIsLongest(0, s, m);
    }
    if SecretHere(s) {
      KeyReachIsLongest(0, s, SecretMatch(s));
      SentinelReachIsLongest(0, s, SecretMatch(s));
    }
  }

  // ---- joining identifiers with ':' keeps them clean

  lemma {:induction false} BearerStopsAtColon(k: nat, a: string, b: string)
    requires k <= 7
    ensures BearerFrom(k, a + ":" + b) ==> BearerFrom(k, a)
    decreases |a|
  {
    assert a == [] ==> (a + ":" + b)[0] == ':';
    if a != [] {
      assert (a + ":" + b)[1..] == a[1..] + ":" + b;
      if k < 7 {
        BearerStopsAtColon(k + 1, a[1..], b);
      } else if !TokenChar(a[0]) {
        BearerStopsAtColon(7, a[1..], b);
      }
    }
  }

  lemma {:induction false} SecretStopsAtColon(k: nat, a: string, b: string)
    requires k <= 10
    ensures k <= 9 && KeyFrom(k, a + ":" + b) ==> KeyFrom(k, a)
    ensures SentinelFrom(k, a + ":" + b) ==> SentinelFrom(k, a)
    decreases |a|
  {
    assert a == [] ==> (a + ":" + b)[0] == ':';
    if a != [] && k < 10 {
      assert (a + ":" + b)[1..] == a[1..] + ":" + b;
      SecretStopsAtColon(k + 1, a[1..], b);
    }
  }

  lemma {:induction false} MatchExtends(k: nat, a: string, b: string)
    requires k <= 10
    ensures k <= 7 && BearerFrom(k, a) ==> BearerFrom(k, a + b)
    ensures k <= 9 && KeyFrom(k, a) ==> KeyFrom(k, a + b)
    ensures SentinelFrom(k, a) ==> SentinelFrom(k, a + b)
    decreases |a|
  {
    if a != [] {
      assert (a + b)[1..] == a[1..] + b;
      if k < 10 { MatchExtends(k + 1, a[1..], b); }
      MatchExtends(7, a[1..], b);
    }
  }

  /** A colon-joined identifier is a fixed point of redaction exactly when both parts are. */
  lemma JoinClean(a: string, b: string)
    ensures Clean(a + ":" + b) <==> Clean(a) && Clean(b)
  {
    var j := a + ":" + b;
    forall i | 0 <= i <= |j|
      ensures i <= |a| ==> (BearerHere(j[i..]) <==> BearerHere(a[i..])) && (SecretHere(j[i..]) <==> SecretHere(a[i..]))
      ensures i > |a| ==> j[i..] == b[i - |a| - 1..]
    {
      if i <= |a| {
        assert j[i..] == a[i..] + ":" + b == a[i..] + (":" + b);
        MatchExtends(0, a[i..], ":" + b);
        BearerStopsAtColon(0, a[i..], b);
        SecretStopsAtColon(0, a[i..], b);
      } else {
        assert j[i..] == b[i - |a| - 1..];
      }
    }
    if Clean(j) {
      forall i | 0 <= i <= |b| ensures !BearerHere(b[i..]) && !SecretHere(b[i..]) {
        assert j[i + |a| + 1..] == b[i..];
      }
    }
  }

  // ---- nested values

  /** Event data as the store sees it. `Typed` is a value whose Go type is neither string, map nor
      slice of any (a struct, a slice of strings): the redactor passes such a value through untouched. */
  datatype Value =
    | Null
    | Bool(b: bool)
    | Number(n: int)
    | Text(s: string)
    | List(items: seq<Value>)
    | Object(fields: map<string, Value>)
    | Typed(inner: Value)

  predicate WordAt(w: string, s: string) {
    w == [] || (s != [] && Fold(s[0]) == w[0] && WordAt(w[1..], s[1..]))
  }

  predicate SensitiveHere(s: string) {
    || WordAt("authorization", s) || WordAt("token", s) || WordAt("secret", s) || WordAt("password", s)
    || WordAt("apikey", s) || WordAt("api_key", s) || WordAt("api-key", s) || WordAt("cookie", s)
  }

  predicate SensitiveKey(s: string) {
    SensitiveHere(s) || (s != [] && SensitiveKey(s[1..]))
  }

  function RedactValue(v: Value): Value
    decreases v
  {
    match v
    case Text(s) => Text(RedactString(s))
    case Object(m) => Object(map k | k in m :: if SensitiveKey(k) then Text(MASK) else RedactValue(m[k]))
    case List(a) => List(seq(|a|, i requires 0 <= i < |a| => RedactValue(a[i])))
    case _ => v
  }

  /** No string outside typed values holds a match, and no sensitive key keeps its value. */
  ghost predicate CleanValue(v: Value) {
    match v
    case Text(s) => Clean(s)
    case Object(m) => forall k | k in m :: if SensitiveKey(k) then m[k] == Text(MASK) else CleanValue(m[k])
    case List(a) => forall i | 0 <= i < |a| :: CleanValue(a[i])
    case _ => true
  }

  lemma {:induction false} RedactedValueIsClean(v: Value)
    ensures CleanValue(RedactValue(v))
  {
    match v
    case Text(s) => RedactedStringIsClean(s);
    case Object(m) =>
      forall k | k in m && !SensitiveKey(k) ensures CleanValue(RedactValue(m[k])) { RedactedValueIsClean(m[k]); }
    case List(a) =>
      forall i | 0 <= i < |a| ensures CleanValue(RedactValue(a[i])) { RedactedValueIsClean(a[i]); }
    case _ =>
  }

  lemma {:induction false} CleanValueUnchanged(v: Value)
    requires CleanValue(v)
    ensures RedactValue(v) == v
  {
    match v
    case Text(s) => CleanUnchanged(s);
    case Object(m) =>
      forall k | k in m ensures RedactValue(v).fields[k] == m[k] {
        if !SensitiveKey(k) { CleanValueUnchanged(m[k]); }
      }
      assert RedactValue(v).fields == m;
    case List(a) =>
      forall i | 0 <= i < |a| ensures RedactValue(a[i]) == a[i] { CleanValueUnchanged(a[i]); }
      assert RedactValue(v).items == a;
    case _ =>
  }

  /** Redaction on import changes nothing that redaction on append already produced. */
  lemma RedactValueIdempotent(v: Value)
    ensures RedactValue(RedactValue(v)) == RedactValue(v)
  {
    RedactedValueIsClean(v);
    CleanValueUnchanged(RedactValue(v));
  }

  /** Cleanliness that also looks inside typed values. */
  ghost predicate DeepClean(v: Value) {
    match v
    case Text(s) => Clean(s)
    case Object(m) => forall k | k in m :: if SensitiveKey(k) then m[k] == Text(MASK) else DeepClean(m[k])
    case List(a) => forall i | 0 <= i < |a| :: DeepClean(a[i])
    case Typed(w) => DeepClean(w)
    case _ => true
  }

  ghost predicate TypedPartsClean(v: Value) {
    match v
    case Object(m) => forall k | k in m && !SensitiveKey(k) :: TypedPartsClean(m[k])
    case List(a) => forall i | 0 <= i < |a| :: TypedPartsClean(a[i])
    case Typed(w) => DeepClean(w)
    case _ => true
  }

  /** The promise "nothing secret is stored" holds exactly for data whose typed parts were already clean:
      the code does not look inside an action or an adapter result that is still a Go struct. */
  lemma {:induction false} TypedPartsDecide(v: Value)
    ensures DeepClean(RedactValue(v)) <==> TypedPartsClean(v)
  {
    match v
    case Text(s) => RedactedStringIsClean(s);
    case Object(m) =>
      var r := RedactValue(v).fields;
      forall k | k in m && !SensitiveKey(k) ensures DeepClean(r[k]) <==> TypedPartsClean(m[k]) { TypedPartsDecide(m[k]); }
      if DeepClean(RedactValue(v)) {
        forall k | k in m && !SensitiveKey(k) ensures TypedPartsClean(m[k]) { assert k in r && DeepClean(r[k]); }
      }
    case List(a) =>
      var r := RedactValue(v).items;
      forall i | 0 <= i < |a| ensures DeepClean(r[i]) <==> TypedPartsClean(a[i]) { TypedPartsDecide(a[i]); }
      if DeepClean(RedactValue(v)) {
        forall i | 0 <= i < |a| ensures TypedPartsClean(a[i]) { assert DeepClean(r[i]); }
      }
    case _ =>
  }

  lemma {:induction false} KeyTail(k: nat, s: string)
    requires 3 <= k <= 9 && |s| >= 9 - k && forall i | 0 <= i < 9 - k :: SecretChar(s[i])
    ensures KeyFrom(k, s)
    decreases |s|
  {
    if k < 9 { KeyTail(k + 1, s[1..]); }
  }

  /** Three letters of the literal and six more make a match. */
  lemma KeyMatches(s: string)
    requires |s| >= 9 && Fold(s[0]) == 's' && Fold(s[1]) == 'k' && s[2] == '-' && forall i | 3 <= i < 9 :: SecretChar(s[i])
    ensures SecretHere(s)
  {
    var s1 := s[1..];
    var s2 := s1[1..];
    var s3 := s2[1..];
    assert s3 == s[3..];
    KeyTail(3, s3);
    assert KeyFrom(2, s2);
    assert KeyFrom(1, s1);
  }

  lemma MatchIsDirty(s: string)
    requires SecretHere(s)
    ensures !Clean(s)
  {
    assert s[0..] == s;
  }

  /** A typed result whose text holds a key is stored as it came. */
  lemma TypedSecretIsKept()
    ensures !DeepClean(RedactValue(Typed(Text("sk-abcdef"))))
  {
    var s := "sk-abcdef";
    KeyMatches(s);
    MatchIsDirty(s);
  }

  // ---- what is taken for a secret

  /** The word in any case, one blank of any kind, and a character of a token: already that is a match. */
  lemma BearersAreSeen(word: string, blank: char, token: char)
    requires |word| == 6 && forall i | 0 <= i < 6 :: word[i] == "bearer"[i] || word[i] == "BEARER"[i]
    requires blank in {' ', '\t', '\n', '\r', '\U{000C}'}
    requires 'a' <= token <= 'z' || 'A' <= token <= 'Z' || '0' <= token <= '9' || token in "._~+/=-"
    ensures BearerHere(word + [blank, token])
  {
    var s := word + [blank, token];
    assert BearerFrom(7, s[7..]);
    BearerBack(6, s);
    BearerBack(5, s);
    BearerBack(4, s);
    BearerBack(3, s);
    BearerBack(2, s);
    BearerBack(1, s);
    BearerBack(0, s);
    assert s[0..] == s;
  }

  lemma BearerBack(k: nat, s: string)
    requires k < 7 && k < |s| && BearerFrom(k + 1, s[k + 1..])
    requires if k < 6 then s[k] == "bearer"[k] || s[k] == "BEARER"[k] else Space(s[k])
    ensures BearerFrom(k, s[k..])
  {
    assert s[k..][0] == s[k] && s[k..][1..] == s[k + 1..];
    assert "BEARER"[0] == 'B' && "BEARER"[1] == 'E' && "BEARER"[2] == 'A' && "BEARER"[3] == 'R' && "BEARER"[4] == 'E'
        && "BEARER"[5] == 'R';
  }

  /** The prefix in any case and six more letters, digits, underscores or dashes: already that is a match. */
  lemma KeysAreSeen(s: string)
    requires |s| == 9 && (s[0] == 's' || s[0] == 'S') && (s[1] == 'k' || s[1] == 'K') && s[2] == '-'
    requires forall i | 3 <= i < 9 ::
               'a' <= s[i] <= 'z' || 'A' <= s[i] <= 'Z' || '0' <= s[i] <= '9' || s[i] == '_' || s[i] == '-'
    ensures SecretHere(s) && ReplaceSecret(s) == "[REDACTED]"
  {
    KeyRest(3, s);
    KeyBack(2, s);
    KeyBack(1, s);
    KeyBack(0, s);
    assert s[0..] == s;
    KeyReachesNine(0, s);
    assert s[SecretMatch(s)..] == [];
    assert MASK + ReplaceSecret([]) == MASK;
  }

  lemma {:induction false} KeyReachesNine(k: nat, s: string)
    requires k <= 9 && KeyFrom(k, s)
    ensures KeyReach(k, s) >= 9 - k
    decreases |s|
  {
    if k < 9 { KeyReachesNine(k + 1, s[1..]); }
  }

  lemma {:induction false} KeyRest(k: nat, s: string)
    requires 3 <= k <= 9 == |s| && forall i | 3 <= i < 9 :: SecretChar(s[i])
    ensures KeyFrom(k, s[k..])
    decreases 9 - k
  {
    if k < 9 {
      KeyRest(k + 1, s);
      assert s[k..][0] == s[k] && s[k..][1..] == s[k + 1..];
    }
  }

  lemma KeyBack(k: nat, s: string)
    requires k < 3 < |s| && KeyFrom(k + 1, s[k + 1..]) && Fold(s[k]) == "sk-"[k]
    ensures KeyFrom(k, s[k..])
  {
    assert s[k..][0] == s[k] && s[k..][1..] == s[k + 1..];
  }

  /** Fewer than six are none. */
  lemma {:induction false} ShortKeysAreNone(k: nat, s: string)
    requires k <= 9 && KeyFrom(k, s)
    ensures |s| >= 9 - k
    decreases |s|
  {
    if k < 9 { ShortKeysAreNone(k + 1, s[1..]); }
  }
}
