/** Replacing the escape of U+0000 in raw JSON before it is decoded. Bytes are characters below 256. */
module Sanitize {
  import opened Lists

  const NUL_ESCAPE := "\\u0000"
  const NUL_SYMBOL := "\\u2400"

  // --- escapes as section 7 of RFC 8259 reads them, left to right ---

  datatype Token = Plain(c: char) | Short(c: char) | Unicode(hex: string)

  predicate HexDigit(c: char) {
    '0' <= c <= '9' || 'a' <= c <= 'f' || 'A' <= c <= 'F'
  }

  predicate Hex(s: string) {
    |s| == 4 && forall i :: 0 <= i < 4 ==> HexDigit(s[i])
  }

  /** How many bytes the token at the start of s takes; 0 when an escape is cut short or has no hex digits. */
  function TokenLength(s: string): (n: nat)
    requires s != ""
    ensures n <= |s|
  {
    if s[0] != '\\' then 1
    else if |s| >= 2 && s[1] != 'u' then 2
    else if |s| >= 6 && Hex(s[2..6]) then 6
    else 0
  }

  function FirstToken(s: string): Token
    requires s != "" && TokenLength(s) > 0
  {
    if TokenLength(s) == 1 then Plain(s[0]) else if TokenLength(s) == 2 then Short(s[1]) else Unicode(s[2..6])
  }

  /** None when s is not well escaped; valid JSON always is. */
  function Tokens(s: string): Option<seq<Token>> {
    if s == "" then Some([])
    else if TokenLength(s) == 0 then None
    else
      var rest := Tokens(s[TokenLength(s)..]);
      if rest.None? then None else Some([FirstToken(s)] + rest.value)
  }

  /** Reading from the left, a token starts at i. */
  predicate Starts(s: string, i: nat) {
    i == 0 || (s != "" && 0 < TokenLength(s) <= i && Starts(s[TokenLength(s)..], i - TokenLength(s)))
  }

  // --- the code's own test ---

  function BackslashesBefore(raw: string, i: nat): (n: nat)
    requires i <= |raw|
    ensures n <= i
  {
    if i > 0 && raw[i - 1] == '\\' then 1 + BackslashesBefore(raw, i - 1) else 0
  }

  predicate NulAt(raw: string, i: nat) {
    i + 6 <= |raw| && raw[i..i + 6] == NUL_ESCAPE
  }

  predicate RealNul(raw: string, i: nat)
    requires i <= |raw|
  {
    NulAt(raw, i) && BackslashesBefore(raw, i) % 2 == 0
  }

  /** What the loop appends from position i on. */
  function Rewritten(raw: string, i: nat): (out: string)
    requires i <= |raw|
    ensures |out| == |raw| - i
    decreases |raw| - i
  {
    if i == |raw| then ""
    else if RealNul(raw, i) then NUL_SYMBOL + Rewritten(raw, i + 6)
    else [raw[i]] + Rewritten(raw, i + 1)
  }

  /** Counting backslashes decides exactly whether a token starts here. */
  lemma {:induction false} ParityFrom(raw: string, from: nat, i: nat)
    requires from <= i < |raw| && raw[i] == '\\'
    requires Tokens(raw[from..]).Some? && BackslashesBefore(raw, from) % 2 == 0
    ensures Starts(raw[from..], i - from) <==> BackslashesBefore(raw, i) % 2 == 0
    decreases |raw| - from
  {
    var s := raw[from..];
    var n := TokenLength(s);
    if from < i {
      if i < from + n {
        InsideToken(raw, from, i);
      } else {
        TokenEnds(raw, from);
        assert raw[from + n..] == s[n..];
        ParityFrom(raw, from + n, i);
      }
    }
  }

  lemma BackslashBefore(raw: string, i: nat)
    requires 0 < i <= |raw|
    ensures BackslashesBefore(raw, i) == if raw[i - 1] == '\\' then 1 + BackslashesBefore(raw, i - 1) else 0
  {}

  lemma TokenBytes(s: string, k: nat)
    requires s != "" && 0 < k < TokenLength(s) && s[k] == '\\'
    ensures k == 1 && s[0] == '\\'
  {
    if TokenLength(s) == 6 {
      assert s[2..6] == [s[2], s[3], s[4], s[5]];
    }
  }

  lemma NulStartsWithBackslash(raw: string, i: nat)
    requires NulAt(raw, i)
    ensures raw[i] == '\\'
  {
    assert raw[i..i + 6][0] == raw[i];
  }

  /** The only backslash inside a token is the second of a pair. */
  lemma InsideToken(raw: string, from: nat, i: nat)
    requires from < i < |raw| && TokenLength(raw[from..]) > i - from
    requires BackslashesBefore(raw, from) % 2 == 0
    ensures raw[i] == '\\' ==> BackslashesBefore(raw, i) % 2 == 1
    ensures !RealNul(raw, i)
  {
    var s := raw[from..];
    assert s[0] == raw[from] && s[i - from] == raw[i];
    if raw[i] == '\\' {
      TokenBytes(s, i - from);
      BackslashBefore(raw, i);
    } else if NulAt(raw, i) {
      NulStartsWithBackslash(raw, i);
    }
  }

  /** Where a token ends, an even number of backslashes stands again. */
  lemma TokenEnds(raw: string, from: nat)
    requires from < |raw| && TokenLength(raw[from..]) > 0
    requires BackslashesBefore(raw, from) % 2 == 0
    ensures BackslashesBefore(raw, from + TokenLength(raw[from..])) % 2 == 0
  {
    var s := raw[from..];
    var n := TokenLength(s);
    assert s[0] == raw[from] && s[n - 1] == raw[from + n - 1];
    if n == 6 {
      assert s[2..6][3] == s[5];
    }
  }

  lemma ParityIsTokenStart(raw: string, i: nat)
    requires Tokens(raw).Some? && i < |raw| && raw[i] == '\\'
    ensures Starts(raw, i) <==> BackslashesBefore(raw, i) % 2 == 0
  {
    assert raw[0..] == raw;
    ParityFrom(raw, 0, i);
  }

  // --- the rewriting, token by token ---

  function Fixed(t: Token): Token {
    if t == Unicode("0000") then Unicode("2400") else t
  }

  function FixAll(ts: seq<Token>): (us: seq<Token>)
    ensures |us| == |ts|
    ensures forall k :: 0 <= k < |ts| ==> us[k] == Fixed(ts[k])
  {
    seq(|ts|, k requires 0 <= k < |ts| => Fixed(ts[k]))
  }

  lemma {:induction false} CopiesUpTo(raw: string, i: nat, end: nat)
    requires i <= end <= |raw|
    requires forall j :: i <= j < end ==> !RealNul(raw, j)
    ensures Rewritten(raw, i) == raw[i..end] + Rewritten(raw, end)
    decreases end - i
  {
    if i < end {
      CopiesUpTo(raw, i + 1, end);
      var rest := Rewritten(raw, end);
      calc {
        Rewritten(raw, i);
        [raw[i]] + Rewritten(raw, i + 1);
        [raw[i]] + (raw[i + 1..end] + rest);
        ([raw[i]] + raw[i + 1..end]) + rest;
        { assert raw[i..end] == [raw[i]] + raw[i + 1..end]; }
        raw[i..end] + rest;
      }
    }
  }

  lemma NulIsToken(raw: string, i: nat)
    requires NulAt(raw, i)
    ensures TokenLength(raw[i..]) == 6 && FirstToken(raw[i..]) == Unicode("0000")
  {
    var s := raw[i..];
    var e := raw[i..i + 6];
    assert forall k :: 0 <= k < 6 ==> s[k] == e[k];
    assert e[0] == '\\' && e[1] == 'u';
    assert s[2..6] == e[2..6] == "0000";
  }

  /** At a token's start the code rewrites that token and leaves the others alone. */
  lemma RewritesToken(raw: string, i: nat)
    requires i < |raw| && TokenLength(raw[i..]) > 0
    requires BackslashesBefore(raw, i) % 2 == 0
    ensures
      var n := TokenLength(raw[i..]);
      Rewritten(raw, i)
        == (if FirstToken(raw[i..]) == Unicode("0000") then NUL_SYMBOL else raw[i..i + n]) + Rewritten(raw, i + n)
  {
    var s := raw[i..];
    var n := TokenLength(s);
    assert s[0] == raw[i];
    if FirstToken(s) == Unicode("0000") {
      assert s[2..6] == "0000";
      assert raw[i..i + 6] == [s[0], s[1]] + s[2..6] == NUL_ESCAPE;
    } else {
      forall j | i <= j < i + n ensures !RealNul(raw, j) {
        if j > i {
          InsideToken(raw, i, j);
        } else if NulAt(raw, i) {
          NulIsToken(raw, i);
        }
      }
      CopiesUpTo(raw, i, i + n);
    }
  }

  /** A whole token in front is read as that token. */
  lemma TokensOfFront(front: string, rest: string)
    requires front != "" && TokenLength(front) == |front| && Tokens(rest).Some?
    ensures Tokens(front + rest) == Some([FirstToken(front)] + Tokens(rest).value)
  {
    var s := front + rest;
    assert s[0] == front[0];
    assert s[|front|..] == rest;
    if |front| == 6 {
      assert s[2..6] == front[2..6];
    }
  }

  lemma {:induction false} RewritesFrom(raw: string, i: nat)
    requires i <= |raw| && Tokens(raw[i..]).Some?
    requires BackslashesBefore(raw, i) % 2 == 0
    ensures Tokens(Rewritten(raw, i)) == Some(FixAll(Tokens(raw[i..]).value))
    decreases |raw| - i
  {
    if i < |raw| {
      var s := raw[i..];
      var n := TokenLength(s);
      TokenEnds(raw, i);
      assert raw[i + n..] == s[n..];
      RewritesFrom(raw, i + n);
      RewritesToken(raw, i);
      var front := if FirstToken(s) == Unicode("0000") then NUL_SYMBOL else raw[i..i + n];
      FrontIsToken(s, n, front);
      TokensOfFront(front, Rewritten(raw, i + n));
      assert FixAll([FirstToken(s)] + Tokens(s[n..]).value) == [Fixed(FirstToken(s))] + FixAll(Tokens(s[n..]).value);
    } else {
      assert FixAll([]) == [];
    }
  }

  lemma FrontIsToken(s: string, n: nat, front: string)
    requires s != "" && n == TokenLength(s) > 0
    requires front == if FirstToken(s) == Unicode("0000") then NUL_SYMBOL else s[..n]
    ensures front != "" && TokenLength(front) == |front| && FirstToken(front) == Fixed(FirstToken(s))
  {
    if FirstToken(s) == Unicode("0000") {
      assert NUL_SYMBOL[2..6] == "2400";
    } else if n == 6 {
      assert front[2..6] == s[2..6];
    }
  }

  // --- what strings decode to ---

  function HexValue(c: char): nat
    requires HexDigit(c)
  {
    if c <= '9' then c as nat - '0' as nat else if c <= 'F' then c as nat - 'A' as nat + 10
    else c as nat - 'a' as nat + 10
  }

  /** What a token stands for: a byte of the document itself, an escaped character, or a UTF-16 code unit. */
  datatype Meaning = Literal(c: char) | Escaped(c: char) | CodeUnit(value: nat) | Malformed

  function Means(t: Token): Meaning {
    match t
    case Plain(c) => Literal(c)
    case Short(c) => Escaped(c)
    case Unicode(h) =>
      if Hex(h) then CodeUnit(4096 * HexValue(h[0]) + 256 * HexValue(h[1]) + 16 * HexValue(h[2]) + HexValue(h[3]))
      else Malformed
  }

  function NulToSymbol(m: Meaning): Meaning {
    if m == CodeUnit(0) then CodeUnit(0x2400) else m
  }

  /** Only \u0000, in no other spelling, stands for U+0000. */
  lemma OneSpelling(t: Token)
    ensures Means(t) == CodeUnit(0) <==> t == Unicode("0000")
    ensures Means(Fixed(t)) == NulToSymbol(Means(t))
  {
    assert "2400"[0] == '2' && "2400"[1] == '4' && "2400"[2] == '0' && "2400"[3] == '0';
    if t.Unicode? && Hex(t.hex) && Means(t) == CodeUnit(0) {
      assert t.hex == [t.hex[0], t.hex[1], t.hex[2], t.hex[3]];
    }
    assert Hex("0000") && Hex("2400");
  }

  // --- the functions ---

  method EvenBackslashesBefore(raw: string, i: nat) returns (even: bool)
    requires i <= |raw|
    ensures even <==> BackslashesBefore(raw, i) % 2 == 0
  {
    var n := 0;
    var j := i;
    while j > 0 && raw[j - 1] == '\\'
      invariant 0 <= j <= i && n + BackslashesBefore(raw, j) == BackslashesBefore(raw, i)
    {
      n, j := n + 1, j - 1;
    }
    even := n % 2 == 0;
  }

  method Contains(raw: string) returns (found: bool)
    ensures found <==> exists i :: 0 <= i < |raw| && NulAt(raw, i)
  {
    found := false;
    for i := 0 to |raw|
      invariant forall j :: 0 <= j < i ==> !NulAt(raw, j)
    {
      if NulAt(raw, i) {
        return true;
      }
    }
  }

  /** Well-escaped text keeps its tokens, except that every escape of U+0000 becomes that of U+2400: decoding gives
      the original strings with U+0000 replaced, and no U+0000 is left. */
  lemma RewrittenMeans(raw: string)
    requires Tokens(raw).Some?
    ensures Tokens(Rewritten(raw, 0)) == Some(FixAll(Tokens(raw).value))
    ensures forall t :: t in Tokens(raw).value ==> Means(Fixed(t)) == NulToSymbol(Means(t))
    ensures forall t :: t in Tokens(Rewritten(raw, 0)).value ==> Means(t) != CodeUnit(0)
  {
    assert raw[0..] == raw;
    RewritesFrom(raw, 0);
    forall t: Token ensures Means(Fixed(t)) == NulToSymbol(Means(t)) {
      OneSpelling(t);
    }
  }

  lemma NextByte(out: string, raw: string, i: nat)
    requires i < |raw| && out + Rewritten(raw, i) == Rewritten(raw, 0)
    ensures RealNul(raw, i) ==> out + NUL_SYMBOL + Rewritten(raw, i + 6) == Rewritten(raw, 0)
    ensures !RealNul(raw, i) ==> out + [raw[i]] + Rewritten(raw, i + 1) == Rewritten(raw, 0)
  {
    if RealNul(raw, i) {
      assert out + NUL_SYMBOL + Rewritten(raw, i + 6) == out + (NUL_SYMBOL + Rewritten(raw, i + 6));
    } else {
      assert out + [raw[i]] + Rewritten(raw, i + 1) == out + ([raw[i]] + Rewritten(raw, i + 1));
    }
  }

  method SanitizeJson(raw: string) returns (out: string)
    ensures |out| == |raw|
    ensures Tokens(raw).Some? ==> Tokens(out) == Some(FixAll(Tokens(raw).value))
    ensures out == Rewritten(raw, 0)
  {
    if Tokens(raw).Some? {
      RewrittenMeans(raw);
    }
    var found := Contains(raw);
    if !found {
      CopiesUpTo(raw, 0, |raw|);
      assert raw[0..|raw|] + "" == raw;
      return raw;
    }
    out := "";
    var i := 0;
    while i < |raw|
      invariant 0 <= i <= |raw| && out + Rewritten(raw, i) == Rewritten(raw, 0)
    {
      var even := EvenBackslashesBefore(raw, i);
      NextByte(out, raw, i);
      if NulAt(raw, i) {
        NulStartsWithBackslash(raw, i);
      }
      if raw[i] == '\\' && NulAt(raw, i) && even {
        out := out + NUL_SYMBOL;
        i := i + 6;
      } else {
        out := out + [raw[i]];
        i := i + 1;
      }
    }
    assert out + "" == out;
  }

  // --- cutting text ---

  predicate RuneStart(c: char) {
    !(0x80 <= c as int < 0xC0)
  }

  /** How many bytes a character with this first byte takes. */
  function RuneLength(c: char): nat {
    var b := c as int;
    if b < 0x80 then 1 else if 0xC0 <= b < 0xE0 then 2 else if 0xE0 <= b < 0xF0 then 3
    else if 0xF0 <= b < 0xF8 then 4 else 0
  }

  /** s is a sequence of whole characters. */
  predicate WholeRunes(s: string) {
    s == ""
    || (var n := RuneLength(s[0]);
        0 < n <= |s| && (forall i :: 1 <= i < n ==> !RuneStart(s[i])) && WholeRunes(s[n..]))
  }

  lemma {:induction false} CutAtStart(s: string, cut: nat)
    requires WholeRunes(s) && cut <= |s|
    requires cut == |s| || RuneStart(s[cut])
    ensures WholeRunes(s[..cut])
  {
    if cut > 0 {
      var n := RuneLength(s[0]);
      assert n <= cut;
      CutAtStart(s[n..], cut - n);
      assert s[n..][..cut - n] == s[..cut][n..];
    }
  }

  /** The longest prefix of at most max bytes that ends where a character begins; whole characters stay whole. */
  method TruncateUtf8(s: string, max: nat) returns (t: string)
    ensures t <= s && |t| <= max
    ensures |s| <= max ==> t == s
    ensures forall k :: |t| < k <= max && k < |s| ==> !RuneStart(s[k])
    ensures WholeRunes(s) ==> WholeRunes(t)
  {
    if |s| <= max {
      return s;
    }
    var cut := max;
    while cut > 0 && !RuneStart(s[cut])
      invariant 0 <= cut <= max
      invariant forall k :: cut < k <= max ==> !RuneStart(s[k])
    {
      cut := cut - 1;
    }
    if WholeRunes(s) {
      CutAtStart(s, cut);
    }
    t := s[..cut];
  }
}
