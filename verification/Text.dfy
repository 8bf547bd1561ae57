/** The parts of Go's `strings` and `strconv` packages that the modelled code calls.
    A Go string is a sequence of bytes: here it is a `string` with one character per byte.
    White space and letter case are the ASCII ones. */
module Text {

  datatype Option<+T> = None | Some(value: T)

  const MAX_INT := 0x7FFF_FFFF_FFFF_FFFF
  const WHITE: set<char> := {' ', '\t', '\n', '\r', '\U{B}', '\U{C}'}

  const LINE_END: set<char> := {'\r', '\n'}

  // ---------- concatenation ----------

  function Concat(parts: seq<string>): string {
    if parts == [] then "" else parts[0] + Concat(parts[1..])
  }

  lemma Associative<T>(a: seq<T>, b: seq<T>, c: seq<T>)
    ensures a + (b + c) == (a + b) + c && a + [] == a
  {}

  // ---------- trimming ----------

  /** strings.TrimRight */
  function TrimRight(s: string, cut: set<char>): (r: string)
    ensures r <= s
    ensures r == "" || r[|r| - 1] !in cut
  {
    if s != "" && s[|s| - 1] in cut then TrimRight(s[..|s| - 1], cut) else s
  }

  /** strings.TrimLeft */
  function TrimLeft(s: string, cut: set<char>): (r: string)
    ensures |r| <= |s|
    ensures r == "" || (r[0] !in cut && r[|r| - 1] == s[|s| - 1])
  {
    if s != "" && s[0] in cut then TrimLeft(s[1..], cut) else s
  }

  function Trim(s: string, cut: set<char>): (r: string)
    ensures |r| <= |s|
    ensures r == "" || (r[0] !in cut && r[|r| - 1] !in cut)
  {
    var t := TrimRight(s, cut);
    TrimLeft(t, cut)
  }

  lemma TrimRightEmpty(s: string, cut: set<char>)
    ensures TrimRight(s, cut) == "" <==> forall c | c in s :: c in cut
  {
    if s != "" {
      var last := s[|s| - 1];
      assert s == s[..|s| - 1] + [last] && last in s;
      if last in cut { TrimRightEmpty(s[..|s| - 1], cut); }
    }
  }

  lemma TrimLeftEmpty(s: string, cut: set<char>)
    ensures TrimLeft(s, cut) == "" <==> forall c | c in s :: c in cut
  {
    if s != "" {
      assert s == [s[0]] + s[1..] && s[0] in s;
    }
  }

  /** Trimming leaves nothing of exactly the texts made of trimmed characters. */
  lemma TrimEmpty(s: string, cut: set<char>)
    ensures Trim(s, cut) == "" <==> forall c | c in s :: c in cut
  {
    var t := TrimRight(s, cut);
    TrimRightEmpty(s, cut);
    TrimLeftEmpty(t, cut);
    if t != "" {
      assert t[|t| - 1] in t && s[|t| - 1] == t[|t| - 1];
    }
  }

  predicate AllIn(s: string, cut: set<char>) {
    forall i | 0 <= i < |s| :: s[i] in cut
  }

  /** Neither end of the text is cut. */
  predicate IsTrimmed(s: string, cut: set<char>) {
    s == "" || (s[0] !in cut && s[|s| - 1] !in cut)
  }

  lemma {:induction false} TrimRightDrops(s: string, post: string, cut: set<char>)
    requires AllIn(post, cut) && (s == "" || s[|s| - 1] !in cut)
    ensures TrimRight(s + post, cut) == s
  {
    if post == "" {
      assert s + post == s;
    } else {
      var init := post[..|post| - 1];
      assert (s + post)[..|s + post| - 1] == s + init;
      TrimRightDrops(s, init, cut);
    }
  }

  lemma {:induction false} TrimLeftDrops(pre: string, s: string, cut: set<char>)
    requires AllIn(pre, cut) && (s == "" || s[0] !in cut)
    ensures TrimLeft(pre + s, cut) == s
  {
    if pre == "" {
      assert pre + s == s;
    } else {
      assert (pre + s)[1..] == pre[1..] + s;
      TrimLeftDrops(pre[1..], s, cut);
    }
  }

  /** Trimming gives the one trimmed middle of a text. */
  lemma TrimUnique(pre: string, s: string, post: string, cut: set<char>)
    requires AllIn(pre, cut) && AllIn(post, cut) && IsTrimmed(s, cut)
    ensures Trim(pre + s + post, cut) == s
  {
    if s == "" {
      assert pre + s + post == "" + (pre + post);
      TrimRightDrops("", pre + post, cut);
    } else {
      TrimRightDrops(pre + s, post, cut);
      TrimLeftDrops(pre, s, cut);
    }
  }

  lemma {:induction false} TrimRightParts(s: string, cut: set<char>) returns (post: string)
    ensures s == TrimRight(s, cut) + post && AllIn(post, cut)
  {
    post := "";
    if s != "" && s[|s| - 1] in cut {
      post := TrimRightParts(s[..|s| - 1], cut);
      post := post + [s[|s| - 1]];
    }
  }

  lemma {:induction false} TrimLeftParts(s: string, cut: set<char>) returns (pre: string)
    ensures s == pre + TrimLeft(s, cut) && AllIn(pre, cut)
  {
    pre := "";
    if s != "" && s[0] in cut {
      pre := TrimLeftParts(s[1..], cut);
      pre := [s[0]] + pre;
    }
  }

  /** Every text has a trimmed middle. */
  lemma TrimParts(s: string, cut: set<char>) returns (pre: string, post: string)
    ensures s == pre + Trim(s, cut) + post && AllIn(pre, cut) && AllIn(post, cut) && IsTrimmed(Trim(s, cut), cut)
  {
    post := TrimRightParts(s, cut);
    pre := TrimLeftParts(TrimRight(s, cut), cut);
  }

  /** Cut characters around a text do not matter to trimming. */
  lemma TrimAround(pre: string, s: string, post: string, cut: set<char>)
    requires AllIn(pre, cut) && AllIn(post, cut)
    ensures Trim(pre + s + post, cut) == Trim(s, cut)
  {
    var a, b := TrimParts(s, cut);
    assert pre + s + post == (pre + a) + Trim(s, cut) + (b + post);
    TrimUnique(pre + a, Trim(s, cut), b + post, cut);
  }

  /** strings.TrimSpace */
  function TrimSpace(s: string): (r: string)
  {
    Trim(s, WHITE)
  }

  /** TrimSpace leaves nothing. */
  predicate IsBlank(s: string) {
    s == "" || (s[0] in WHITE && IsBlank(s[1..]))
  }

  lemma BlankAll(s: string)
    ensures IsBlank(s) <==> forall c | c in s :: c in WHITE
  {
    if s != "" {
      assert s == [s[0]] + s[1..] && s[0] in s;
    }
  }

  lemma BlankTrims(s: string)
    ensures IsBlank(s) <==> TrimSpace(s) == ""
  {
    BlankAll(s);
    TrimEmpty(s, WHITE);
  }

  lemma TrimRightFixed(s: string, cut: set<char>)
    requires s == "" || s[|s| - 1] !in cut
    ensures TrimRight(s, cut) == s
  {}

  lemma TrimFixed(s: string, cut: set<char>)
    requires s == "" || (s[0] !in cut && s[|s| - 1] !in cut)
    ensures Trim(s, cut) == s
  {}

  lemma TrimIdempotent(s: string, cut: set<char>)
    ensures Trim(Trim(s, cut), cut) == Trim(s, cut)
  {
    TrimFixed(Trim(s, cut), cut);
  }

  // ---------- letter case ----------

  function Lower(c: char): char {
    if 'A' <= c <= 'Z' then c + 32 as char else c
  }

  /** strings.ToLower */
  function ToLower(s: string): (r: string)
    ensures |r| == |s|
    ensures forall i | 0 <= i < |s| :: r[i] == Lower(s[i])
  {
    seq(|s|, i requires 0 <= i < |s| => Lower(s[i]))
  }

  /** strings.EqualFold */
  predicate EqualFold(a: string, b: string) {
    ToLower(a) == ToLower(b)
  }

  lemma ToLowerConcat(a: string, b: string)
    ensures ToLower(a + b) == ToLower(a) + ToLower(b)
  {}

  // ---------- searching and splitting ----------

  predicate HasPrefix(s: string, prefix: string) {
    prefix <= s
  }

  predicate HasSuffix(s: string, suffix: string) {
    |suffix| <= |s| && s[|s| - |suffix|..] == suffix
  }

  /** `c` does not occur in `s`. */
  predicate Without(s: string, c: char) {
    forall i | 0 <= i < |s| :: s[i] != c
  }

  /** strings.IndexByte: the first position of `c`, or |s| where Go answers -1. */
  function IndexOf(s: string, c: char): (i: nat)
    ensures i <= |s|
    ensures forall j | 0 <= j < i :: s[j] != c
    ensures i < |s| ==> s[i] == c
  {
    if s == "" || s[0] == c then 0 else 1 + IndexOf(s[1..], c)
  }

  lemma IndexOfCut(a: string, c: char, b: string)
    requires Without(a, c)
    ensures IndexOf(a + [c] + b, c) == |a|
    ensures (a + [c] + b)[..|a|] == a && (a + [c] + b)[|a| + 1..] == b
  {
    var s := a + [c] + b;
    assert s[|a|] == c;
    assert forall i | 0 <= i < |a| :: s[i] == a[i];
  }

  /** Two texts that split at their first separator split alike. */
  lemma CutUnique(a: string, x: string, b: string, y: string, c: char)
    requires Without(a, c) && Without(b, c)
    requires a + [c] + x == b + [c] + y
    ensures a == b && x == y
  {
    IndexOfCut(a, c, x);
    IndexOfCut(b, c, y);
  }

  /** strings.Split by one byte */
  function Split(s: string, c: char): (r: seq<string>)
    ensures |r| >= 1
    ensures forall i | 0 <= i < |r| :: Without(r[i], c)
    decreases |s|
  {
    var i := IndexOf(s, c);
    if i == |s| then [s] else [s[..i]] + Split(s[i + 1..], c)
  }

  /** strings.Join with a one-byte separator */
  function Join(parts: seq<string>, c: char): string {
    if |parts| == 0 then ""
    else if |parts| == 1 then parts[0]
    else parts[0] + [c] + Join(parts[1..], c)
  }

  lemma JoinCons(a: string, parts: seq<string>, c: char)
    requires |parts| >= 1
    ensures Join([a] + parts, c) == a + [c] + Join(parts, c)
  {
    assert ([a] + parts)[1..] == parts;
  }

  lemma SplitCons(a: string, rest: string, c: char)
    requires Without(a, c)
    ensures Split(a + [c] + rest, c) == [a] + Split(rest, c)
  {
    IndexOfCut(a, c, rest);
  }

  lemma {:induction false} JoinSplit(s: string, c: char)
    ensures Join(Split(s, c), c) == s
    decreases |s|
  {
    var i := IndexOf(s, c);
    if i < |s| {
      var first, rest := s[..i], s[i + 1..];
      assert s == first + [c] + rest;
      SplitCons(first, rest, c);
      JoinSplit(rest, c);
      JoinCons(first, Split(rest, c), c);
    }
  }

  lemma {:induction false} SplitJoin(parts: seq<string>, c: char)
    requires |parts| >= 1
    requires forall i | 0 <= i < |parts| :: Without(parts[i], c)
    ensures Split(Join(parts, c), c) == parts
  {
    if |parts| == 1 {
      assert parts == [parts[0]];
    } else {
      var rest := parts[1..];
      SplitJoin(rest, c);
      SplitCons(parts[0], Join(rest, c), c);
      assert parts == [parts[0]] + rest;
    }
  }

  lemma {:induction false} JoinConcat(a: seq<string>, b: seq<string>, c: char)
    requires |a| >= 1 && |b| >= 1
    ensures Join(a + b, c) == Join(a, c) + [c] + Join(b, c)
  {
    if |a| == 1 {
      assert a + b == [a[0]] + b;
      JoinCons(a[0], b, c);
    } else {
      JoinConcat(a[1..], b, c);
      assert a + b == [a[0]] + (a[1..] + b);
      JoinCons(a[0], a[1..] + b, c);
    }
  }

  // ---------- decimal numbers ----------

  function Digit(d: nat): (c: char)
    requires d < 10
    ensures '0' <= c <= '9' && c as int == '0' as int + d
  {
    ('0' as int + d) as char
  }

  predicate IsDigit(c: char) {
    '0' <= c <= '9'
  }

  predicate AllDigits(s: string) {
    forall i | 0 <= i < |s| :: IsDigit(s[i])
  }

  function PrintNat(n: nat): (s: string)
    ensures |s| >= 1 && AllDigits(s)
  {
    if n < 10 then [Digit(n)] else PrintNat(n / 10) + [Digit(n % 10)]
  }

  /** strconv.Itoa and the verb %d */
  function Itoa(n: int): (s: string)
    ensures |s| >= 1
    ensures forall i | 0 <= i < |s| :: IsDigit(s[i]) || s[i] == '-'
  {
    if n < 0 then "-" + PrintNat(-n) else PrintNat(n)
  }

  function ParseNat(s: string): int
    requires AllDigits(s)
  {
    if s == "" then 0 else ParseNat(s[..|s| - 1]) * 10 + (s[|s| - 1] as int - '0' as int)
  }

  /** strconv.Atoi: an optional sign, then digits, within 64 bits. */
  function Atoi(s: string): Option<int> {
    var signed := s != "" && (s[0] == '-' || s[0] == '+');
    var digits := if signed then s[1..] else s;
    if digits == "" || !AllDigits(digits) then None
    else
      var n := if signed && s[0] == '-' then -ParseNat(digits) else ParseNat(digits);
      if -MAX_INT - 1 <= n <= MAX_INT then Some(n) else None
  }

  lemma {:induction false} ParsePrintNat(n: nat)
    ensures ParseNat(PrintNat(n)) == n
  {
    if n >= 10 {
      ParsePrintNat(n / 10);
      var s := PrintNat(n);
      assert s[..|s| - 1] == PrintNat(n / 10);
    } else {
      assert PrintNat(n)[..0] == "";
    }
  }

  lemma AtoiItoa(n: int)
    requires -MAX_INT - 1 <= n <= MAX_INT
    ensures Atoi(Itoa(n)) == Some(n)
  {
    if n < 0 {
      assert Itoa(n)[1..] == PrintNat(-n);
      ParsePrintNat(-n);
    } else {
      assert IsDigit(PrintNat(n)[0]);
      ParsePrintNat(n);
    }
  }

  lemma ItoaInjective(m: int, n: int)
    requires Itoa(m) == Itoa(n)
    ensures m == n
  {
    if m >= 0 { assert IsDigit(PrintNat(m)[0]); ParsePrintNat(m); } else { ParsePrintNat(-m); }
    if n >= 0 { assert IsDigit(PrintNat(n)[0]); ParsePrintNat(n); } else { ParsePrintNat(-n); }
    if m < 0 && n < 0 {
      assert PrintNat(-m) == Itoa(m)[1..] == PrintNat(-n);
    }
  }

  lemma ItoaNotBlank(n: int)
    ensures TrimSpace(Itoa(n)) == Itoa(n)
  {
    var s := Itoa(n);
    assert forall i | 0 <= i < |s| :: s[i] !in WHITE;
    TrimFixed(s, WHITE);
  }
}
