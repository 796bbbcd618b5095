/** Python built-ins the news client relies on, stated over Dafny values:
    truthiness of optional strings, `a or b`, `str.strip`, `str.upper`,
    `str.split`/`str.join` with a one-character separator, the slice `s[:n]`
    and decimal formatting of integers. */
module Common {

  datatype Option<T> = None | Some(value: T)

  datatype Result<T, E> = Success(value: T) | Failure(error: E)

  /** Python truthiness of a value that is a string or `None`. */
  predicate Truthy(s: Option<string>) {
    s.Some? && s.value != ""
  }

  /** Python's `a or b` on two values that are each a string or `None`. */
  function Or(a: Option<string>, b: Option<string>): Option<string> {
    if Truthy(a) then a else b
  }

  /** Python's `a or default` where `default` is a string literal. */
  function OrElse(a: Option<string>, default: string): string {
    if Truthy(a) then a.value else default
  }

  /** The characters for which Python's `str.isspace()` holds; these are what
      `str.strip()` without arguments removes. */
  predicate IsSpace(c: char) {
    || c == ' '
    || ('\t' <= c <= '\r')
    || ('\U{1C}' <= c <= '\U{1F}')
    || c == '\U{85}' || c == '\U{A0}' || c == '\U{1680}'
    || ('\U{2000}' <= c <= '\U{200A}')
    || c == '\U{2028}' || c == '\U{2029}' || c == '\U{202F}' || c == '\U{205F}' || c == '\U{3000}'
  }

  predicate AllSpace(s: string) {
    forall i :: 0 <= i < |s| ==> IsSpace(s[i])
  }

  /** `s.lstrip()`: `s` without its leading white space. */
  function TrimStart(s: string): (r: string)
    ensures |r| <= |s|
    ensures r != [] ==> !IsSpace(r[0])
  {
    if s != [] && IsSpace(s[0]) then TrimStart(s[1..]) else s
  }

  /** What `lstrip` removes is a white-space prefix, and what it keeps is the
      rest of the string. */
  lemma {:induction false} TrimStartSuffix(s: string)
    ensures var k := |s| - |TrimStart(s)|;
      TrimStart(s) == s[k..] && AllSpace(s[..k])
  {
    if s != [] && IsSpace(s[0]) {
      TrimStartSuffix(s[1..]);
      var k := |s| - |TrimStart(s)|;
      assert s[1..][k - 1..] == s[k..];
      assert forall j :: 1 <= j < k ==> s[..k][j] == s[1..][..k - 1][j - 1];
    }
  }

  /** `s.rstrip()`: `s` without its trailing white space. */
  function TrimEnd(s: string): (r: string)
    ensures |r| <= |s|
    ensures r != [] ==> !IsSpace(r[|r| - 1])
  {
    if s != [] && IsSpace(s[|s| - 1]) then TrimEnd(s[..|s| - 1]) else s
  }

  /** What `rstrip` removes is a white-space suffix, and what it keeps is the
      rest of the string. */
  lemma {:induction false} TrimEndPrefix(s: string)
    ensures var k := |TrimEnd(s)|;
      TrimEnd(s) == s[..k] && AllSpace(s[k..])
  {
    if s != [] && IsSpace(s[|s| - 1]) {
      var init := s[..|s| - 1];
      TrimEndPrefix(init);
      var k := |TrimEnd(s)|;
      assert init[..k] == s[..k];
      assert forall j :: 0 <= j < |s| - 1 - k ==> s[k..][j] == init[k..][j];
    }
  }

  /** `s.strip()`: `s` without its leading and trailing white space. */
  function Strip(s: string): (r: string)
    ensures |r| <= |s|
    ensures r != [] ==> !IsSpace(r[0]) && !IsSpace(r[|r| - 1])
  {
    TrimEndPrefix(TrimStart(s));
    TrimEnd(TrimStart(s))
  }

  /** The strip of `s` is the part of `s` left between a white-space
      prefix and a white-space suffix. */
  lemma StripInfix(s: string) returns (i: nat)
    ensures i + |Strip(s)| <= |s| && Strip(s) == s[i..i + |Strip(s)|]
    ensures AllSpace(s[..i]) && AllSpace(s[i + |Strip(s)|..])
  {
    var t := TrimStart(s);
    var r := TrimEnd(t);
    TrimStartSuffix(s);
    TrimEndPrefix(t);
    i := |s| - |t|;
    assert s[i..] == t;
    assert s[i..i + |r|] == t[..|r|];
    assert s[i + |r|..] == t[|r|..];
  }

  /** Stripping a string leaves nothing exactly when the string is all white space. */
  lemma StripEmpty(s: string)
    ensures Strip(s) == [] <==> AllSpace(s)
  {
    var r := Strip(s);
    var i := StripInfix(s);
    if r == [] {
      forall k | 0 <= k < |s| ensures IsSpace(s[k]) {
        if k < i { assert s[..i][k] == s[k]; } else { assert s[i..][k - i] == s[k]; }
      }
    } else {
      assert s[i] == r[0];
    }
  }

  /** A string that neither starts nor ends with white space is its own strip. */
  lemma StripUnchanged(s: string)
    requires s != [] ==> !IsSpace(s[0]) && !IsSpace(s[|s| - 1])
    ensures Strip(s) == s
  {
    assert TrimStart(s) == s;
  }

  /** Python's `str.upper()` on one character, for the ASCII letters. */
  function UpperChar(c: char): char {
    if 'a' <= c <= 'z' then (c as int - 32) as char else c
  }

  /** `s.upper()`, restricted to the ASCII case mapping. */
  function Upper(s: string): (r: string)
    ensures |r| == |s|
    ensures forall i :: 0 <= i < |s| ==> r[i] == UpperChar(s[i])
  {
    seq(|s|, i requires 0 <= i < |s| => UpperChar(s[i]))
  }

  /** No character of `s` is an ASCII lower-case letter. */
  predicate IsUpper(s: string) {
    forall i :: 0 <= i < |s| ==> !('a' <= s[i] <= 'z')
  }

  /** `s.split(sep)` for a one-character separator: the pieces between the
      separators, always at least one, none containing the separator. */
  function Split(s: string, sep: char): (pieces: seq<string>)
    ensures |pieces| >= 1
    ensures forall p :: p in pieces ==> sep !in p
  {
    if s == [] then [[]]
    else
      var rest := Split(s[1..], sep);
      if s[0] == sep then [[]] + rest
      else [[s[0]] + rest[0]] + rest[1..]
  }

  /** `sep.join(pieces)` for a one-character separator. */
  function Join(pieces: seq<string>, sep: char): string {
    if |pieces| == 0 then []
    else if |pieces| == 1 then pieces[0]
    else pieces[0] + [sep] + Join(pieces[1..], sep)
  }

  /** Joining the pieces of a split gives back the original string. */
  lemma {:induction false} JoinSplit(s: string, sep: char)
    ensures Join(Split(s, sep), sep) == s
  {
    if s != [] {
      var rest := Split(s[1..], sep);
      JoinSplit(s[1..], sep);
      if s[0] == sep {
        assert Split(s, sep) == [[]] + rest;
      } else if |rest| == 1 {
        assert Split(s, sep) == [[s[0]] + rest[0]];
      } else {
        calc {
          Join(Split(s, sep), sep);
          == { assert Split(s, sep) == [[s[0]] + rest[0]] + rest[1..]; }
          [s[0]] + rest[0] + [sep] + Join(rest[1..], sep);
          == [s[0]] + Join(rest, sep);
          == [s[0]] + s[1..];
        }
      }
    }
  }

  /** Splitting a string that starts with a separator-free piece `p`. */
  lemma {:induction false} SplitPrefix(p: string, t: string, sep: char)
    requires sep !in p
    ensures Split(p + t, sep) == [p + Split(t, sep)[0]] + Split(t, sep)[1..]
  {
    if p != [] {
      var st := Split(t, sep);
      SplitPrefix(p[1..], t, sep);
      assert (p + t)[1..] == p[1..] + t;
      var rest := Split((p + t)[1..], sep);
      assert rest == [p[1..] + st[0]] + st[1..];
      assert rest[0] == p[1..] + st[0] && rest[1..] == st[1..];
      assert p[0] != sep && (p + t)[0] == p[0];
      assert Split(p + t, sep) == [[p[0]] + rest[0]] + rest[1..];
      assert [p[0]] + (p[1..] + st[0]) == p + st[0];
    } else {
      var st := Split(t, sep);
      assert p + t == t && p + st[0] == st[0];
      assert st == [st[0]] + st[1..];
    }
  }

  /** A leading separator splits off an empty first piece. */
  lemma SplitAfterSeparator(rest: string, sep: char)
    ensures Split([sep] + rest, sep) == [[]] + Split(rest, sep)
  {
    assert ([sep] + rest)[1..] == rest;
  }

  /** Splitting the join of separator-free pieces gives back the pieces. */
  lemma {:induction false} SplitJoin(pieces: seq<string>, sep: char)
    requires |pieces| >= 1
    requires forall p :: p in pieces ==> sep !in p
    ensures Split(Join(pieces, sep), sep) == pieces
  {
    var p := pieces[0];
    if |pieces| == 1 {
      SplitPrefix(p, [], sep);
      assert p + [] == p;
    } else {
      var tail := pieces[1..];
      var t := [sep] + Join(tail, sep);
      SplitJoin(tail, sep);
      SplitAfterSeparator(Join(tail, sep), sep);
      SplitPrefix(p, t, sep);
      var st := Split(t, sep);
      assert st[0] == [] && st[1..] == tail;
      assert p + t == Join(pieces, sep);
      assert p + [] == p && [p] + tail == pieces;
    }
  }

  /** Python's slice `s[:n]`, including a negative `n`, which counts from the end. */
  function SliceTo<T>(s: seq<T>, n: int): (r: seq<T>)
    ensures |r| <= |s| && r == s[..|r|]
    ensures 0 <= n ==> |r| == if n < |s| then n else |s|
    ensures n < 0 ==> |r| == if -n < |s| then |s| + n else 0
  {
    if 0 <= n then (if n < |s| then s[..n] else s)
    else (if -n < |s| then s[..|s| + n] else [])
  }

  /** The values of the `Some` elements of `s`, in order. */
  function Somes<T>(s: seq<Option<T>>): (r: seq<T>)
    ensures |r| <= |s|
  {
    if s == [] then []
    else Somes(s[..|s| - 1]) + (if s[|s| - 1].Some? then [s[|s| - 1].value] else [])
  }

  /** Collecting the present values of a concatenation collects each part in turn. */
  lemma {:induction false} SomesAppend<T>(a: seq<Option<T>>, b: seq<Option<T>>)
    ensures Somes(a + b) == Somes(a) + Somes(b)
    decreases |b|
  {
    if b == [] {
      assert a + b == a;
    } else {
      SomesAppend(a, b[..|b| - 1]);
      assert (a + b)[..|a + b| - 1] == a + b[..|b| - 1];
    }
  }

  /** When every element is present, nothing is dropped and nothing reordered. */
  lemma {:induction false} SomesAllPresent<T>(s: seq<Option<T>>)
    requires forall i :: 0 <= i < |s| ==> s[i].Some?
    ensures |Somes(s)| == |s|
    ensures forall i :: 0 <= i < |s| ==> Somes(s)[i] == s[i].value
  {
    if s != [] {
      SomesAllPresent(s[..|s| - 1]);
    }
  }

  /** An absent element contributes nothing: the values around it are kept as they are. */
  lemma SomesSkip<T>(s: seq<Option<T>>, k: nat)
    requires k < |s| && s[k].None?
    ensures Somes(s) == Somes(s[..k]) + Somes(s[k + 1..])
  {
    var a, b := s[..k], s[k + 1..];
    var ax := a + [s[k]];
    assert ax[..|ax| - 1] == a;
    assert Somes(ax) == Somes(a);
    assert s == ax + b;
    SomesAppend(ax, b);
  }

  /** One absent element among present ones costs exactly one value. */
  lemma SomesOneAbsent<T>(s: seq<Option<T>>, k: nat)
    requires k < |s| && s[k].None?
    requires forall i :: 0 <= i < |s| && i != k ==> s[i].Some?
    ensures |Somes(s)| == |s| - 1
  {
    SomesSkip(s, k);
    SomesAllPresent(s[..k]);
    SomesAllPresent(s[k + 1..]);
  }

  predicate IsDigits(s: string) {
    forall i :: 0 <= i < |s| ==> '0' <= s[i] <= '9'
  }

  function DigitChar(d: nat): char
    requires d < 10
  {
    ('0' as int + d) as char
  }

  /** `str(n)` for a natural number: its decimal digits, most significant first. */
  function NatToString(n: nat): (r: string)
    ensures r != []
    ensures IsDigits(r)
    ensures r[0] == '0' ==> n == 0 && r == "0"
  {
    if n < 10 then [DigitChar(n)] else NatToString(n / 10) + [DigitChar(n % 10)]
  }

  /** The number a string of decimal digits denotes. */
  function DigitsValue(s: string): nat
    requires IsDigits(s)
  {
    if s == [] then 0
    else DigitsValue(s[..|s| - 1]) * 10 + (s[|s| - 1] as int - '0' as int)
  }

  /** Reading back the decimal text of `n` gives `n`. */
  lemma {:induction false} NatToStringRoundTrip(n: nat)
    ensures DigitsValue(NatToString(n)) == n
  {
    if n >= 10 {
      NatToStringRoundTrip(n / 10);
      var s := NatToString(n);
      assert s[..|s| - 1] == NatToString(n / 10);
    }
  }

  /** `str(i)` for any integer: a minus sign for a negative `i`, then the
      decimal digits of its magnitude. */
  function IntToString(i: int): (r: string)
    ensures r != []
    ensures i < 0 <==> r[0] == '-'
    ensures 0 <= i ==> IsDigits(r) && DigitsValue(r) == i
    ensures i < 0 ==> IsDigits(r[1..]) && DigitsValue(r[1..]) == -i
    ensures r[0] == '0' ==> r == "0"
    ensures i < 0 ==> |r| >= 2 && r[1] != '0'
  {
    if i < 0 then
      NatToStringRoundTrip(-i);
      assert ("-" + NatToString(-i))[1..] == NatToString(-i);
      "-" + NatToString(-i)
    else
      NatToStringRoundTrip(i);
      NatToString(i)
  }
}
