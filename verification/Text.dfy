// The string handling the rule parser and the page cursor rely on: splitting, trimming, upper case, decimals.
module Text {
  import opened Finite

  // strings.Split with a one-character separator: never empty.
  function Split(s: string, sep: char): (parts: seq<string>)
    ensures |parts| > 0
  {
    if s == "" then [""]
    else
      var rest := Split(s[1..], sep);
      if s[0] == sep then [""] + rest else [[s[0]] + rest[0]] + rest[1..]
  }

  lemma {:induction false} SplitOne(s: string, sep: char)
    requires sep !in s
    ensures Split(s, sep) == [s]
  {
    if s != "" {
      SplitOne(s[1..], sep);
      assert s[0] in s && [s[0]] + s[1..] == s;
    }
  }

  lemma {:induction false} SplitJoin(s: string, sep: char, rest: string)
    requires sep !in s
    ensures Split(s + [sep] + rest, sep) == [s] + Split(rest, sep)
  {
    if s == "" {
      assert (s + [sep] + rest)[1..] == rest;
    } else {
      SplitJoin(s[1..], sep, rest);
      assert s[0] in s && [s[0]] + s[1..] == s;
      assert (s + [sep] + rest)[1..] == s[1..] + [sep] + rest;
    }
  }

  function Join(parts: seq<string>, sep: char): string
    requires |parts| > 0
  {
    if |parts| == 1 then parts[0] else parts[0] + [sep] + Join(parts[1..], sep)
  }

  lemma {:induction false} SplitJoined(parts: seq<string>, sep: char)
    requires |parts| > 0 && forall i :: 0 <= i < |parts| ==> sep !in parts[i]
    ensures Split(Join(parts, sep), sep) == parts
  {
    if |parts| == 1 {
      SplitOne(parts[0], sep);
    } else {
      SplitJoined(parts[1..], sep);
      SplitJoin(parts[0], sep, Join(parts[1..], sep));
    }
  }

  // Joined text begins as its first part does and ends as its last part does.
  lemma {:induction false} JoinEnds(parts: seq<string>, sep: char)
    requires |parts| > 0 && parts[0] != "" && parts[|parts| - 1] != ""
    ensures var s, last := Join(parts, sep), parts[|parts| - 1];
      s != "" && s[0] == parts[0][0] && s[|s| - 1] == last[|last| - 1]
    decreases |parts|
  {
    if |parts| > 1 {
      var rest, last := Join(parts[1..], sep), parts[|parts| - 1];
      JoinLast(parts[1..], sep);
      assert Join(parts, sep)[|Join(parts, sep)| - 1] == rest[|rest| - 1];
    }
  }

  lemma {:induction false} JoinLast(parts: seq<string>, sep: char)
    requires |parts| > 0 && parts[|parts| - 1] != ""
    ensures var s, last := Join(parts, sep), parts[|parts| - 1];
      s != "" && s[|s| - 1] == last[|last| - 1]
  {
    if |parts| > 1 {
      JoinLast(parts[1..], sep);
    }
  }

  // strings.Cut / SplitN(s, sep, 2): around the first separator.
  function Cut(s: string, sep: char): Option<(string, string)> {
    if s == "" then None
    else if s[0] == sep then Some(("", s[1..]))
    else
      match Cut(s[1..], sep)
      case None => None
      case Some(p) => Some(([s[0]] + p.0, p.1))
  }

  lemma {:induction false} CutAtFirst(key: string, sep: char, rest: string)
    requires sep !in key
    ensures Cut(key + [sep] + rest, sep) == Some((key, rest))
  {
    if key == "" {
      assert (key + [sep] + rest)[1..] == rest;
    } else {
      CutAtFirst(key[1..], sep, rest);
      assert key[0] in key && [key[0]] + key[1..] == key;
      assert (key + [sep] + rest)[1..] == key[1..] + [sep] + rest;
    }
  }

  // ---- space and case ----

  predicate IsSpace(c: char) {
    c == ' ' || 9 <= c as int <= 13 || c as int == 0x85 || c as int == 0xA0
  }

  function TrimLeft(s: string): string {
    if s != "" && IsSpace(s[0]) then TrimLeft(s[1..]) else s
  }

  function TrimRight(s: string): string {
    if s != "" && IsSpace(s[|s| - 1]) then TrimRight(s[..|s| - 1]) else s
  }

  function Trim(s: string): string {
    TrimRight(TrimLeft(s))
  }

  function UpperChar(c: char): char {
    if 'a' <= c <= 'z' then (c as int - 32) as char else c
  }

  function Upper(s: string): string {
    seq(|s|, i requires 0 <= i < |s| => UpperChar(s[i]))
  }

  lemma TrimNothing(s: string)
    requires s != "" && !IsSpace(s[0]) && !IsSpace(s[|s| - 1])
    ensures Trim(s) == s
  { }

  // ---- decimals ----

  predicate IsDigit(c: char) {
    '0' <= c <= '9'
  }

  predicate AllDigits(s: string) {
    forall i :: 0 <= i < |s| ==> IsDigit(s[i])
  }

  function DigitChar(d: nat): (c: char)
    requires d < 10
    ensures IsDigit(c)
  {
    ('0' as int + d) as char
  }

  function Value(s: string): (n: nat)
    requires AllDigits(s)
  {
    if s == "" then 0 else 10 * Value(s[..|s| - 1]) + (s[|s| - 1] as int - '0' as int)
  }

  function Digits(n: nat): (s: string)
    ensures |s| > 0 && AllDigits(s)
  {
    if n < 10 then [DigitChar(n)] else Digits(n / 10) + [DigitChar(n % 10)]
  }

  // Exactly `width` digits.
  function Padded(n: nat, width: nat): (s: string)
    ensures |s| == width && AllDigits(s)
  {
    if width == 0 then "" else Padded(n / 10, width - 1) + [DigitChar(n % 10)]
  }

  lemma {:induction false} DigitsRoundTrip(n: nat)
    ensures Value(Digits(n)) == n
  {
    if n >= 10 {
      DigitsRoundTrip(n / 10);
      assert Digits(n)[..|Digits(n)| - 1] == Digits(n / 10);
    }
  }

  function Power10(k: nat): nat {
    if k == 0 then 1 else 10 * Power10(k - 1)
  }

  // A number of k digits is below 10^k.
  lemma {:induction false} ValueFits(s: string)
    requires AllDigits(s)
    ensures Value(s) < Power10(|s|)
  {
    if s != "" {
      ValueFits(s[..|s| - 1]);
    }
  }

  lemma TenThousand()
    ensures Power10(2) == 100 && Power10(4) == 10000
  {
    assert Power10(1) == 10 && Power10(2) == 100 && Power10(3) == 1000;
  }

  // Texts of the same length say the same number only when they are the same.
  lemma {:induction false} ValueTellsApart(s: string, t: string)
    requires AllDigits(s) && AllDigits(t) && |s| == |t| && Value(s) == Value(t)
    ensures s == t
  {
    if s != "" {
      var a, b := s[|s| - 1], t[|t| - 1];
      assert IsDigit(a) && IsDigit(b);
      ValueTellsApart(s[..|s| - 1], t[..|t| - 1]);
      assert s == s[..|s| - 1] + [a] && t == t[..|t| - 1] + [b];
    }
  }

  lemma {:induction false} PaddedRoundTrip(n: nat, width: nat)
    requires n < Power10(width)
    ensures Value(Padded(n, width)) == n
  {
    if width > 0 {
      PaddedRoundTrip(n / 10, width - 1);
      assert Padded(n, width)[..width - 1] == Padded(n / 10, width - 1);
    }
  }

  // strconv.Atoi before its range check: an optional sign, then at least one digit.
  function ParseInt(s: string): Option<int> {
    if s == "" then None
    else if s[0] == '-' || s[0] == '+' then
      if |s| > 1 && AllDigits(s[1..]) then Some((if s[0] == '-' then -1 else 1) * Value(s[1..])) else None
    else if AllDigits(s) then Some(Value(s))
    else None
  }

  function PrintInt(n: int): string {
    if n < 0 then "-" + Digits(-n) else Digits(n)
  }

  lemma PrintParse(n: int)
    ensures ParseInt(PrintInt(n)) == Some(n)
  {
    DigitsRoundTrip(if n < 0 then -n else n);
    var s := PrintInt(n);
    if n < 0 {
      assert s[1..] == Digits(-n);
    } else {
      assert IsDigit(s[0]);
    }
  }

  lemma UpperDigits(s: string)
    requires AllDigits(s)
    ensures Upper(s) == s
  { }

  // ---- order ----

  // Go's < on strings.
  predicate Less(a: string, b: string) {
    if b == "" then false
    else if a == "" then true
    else if a[0] == b[0] then Less(a[1..], b[1..])
    else a[0] < b[0]
  }

  predicate AtMost(a: string, b: string) {
    !Less(b, a)
  }

  lemma {:induction false} LessIsTotal(a: string, b: string)
    ensures a == b || Less(a, b) || Less(b, a)
    ensures !(Less(a, b) && Less(b, a)) && !Less(a, a)
  {
    if a != "" {
      LessIsTotal(a[1..], a[1..]);
    }
    if a != "" && b != "" {
      LessIsTotal(a[1..], b[1..]);
      if a[0] == b[0] && a[1..] == b[1..] {
        assert a == [a[0]] + a[1..] && b == [b[0]] + b[1..];
      }
    }
  }

  lemma {:induction false} LessIsTransitive(a: string, b: string, c: string)
    requires Less(a, b) && Less(b, c)
    ensures Less(a, c)
  {
    if a != "" && a[0] == b[0] && b[0] == c[0] {
      LessIsTransitive(a[1..], b[1..], c[1..]);
    }
  }

  // ---- what the helpers come to ----

  // Splitting is undone by joining, and leaves no separator in any part.
  lemma {:induction false} SplitMeans(s: string, sep: char)
    ensures Join(Split(s, sep), sep) == s
    ensures forall i :: 0 <= i < |Split(s, sep)| ==> sep !in Split(s, sep)[i]
  {
    if s != "" {
      SplitMeans(s[1..], sep);
      var rest := Split(s[1..], sep);
      if s[0] == sep {
        assert ([""] + rest)[1..] == rest;
      } else {
        assert ([[s[0]] + rest[0]] + rest[1..])[1..] == rest[1..];
      }
    }
  }

  // Around the first separator, when there is one.
  lemma {:induction false} CutMeans(s: string, sep: char)
    ensures Cut(s, sep).None? <==> sep !in s
    ensures Cut(s, sep).Some? ==>
        var (key, rest) := Cut(s, sep).value; sep !in key && s == key + [sep] + rest
  {
    if s != "" && s[0] != sep {
      CutMeans(s[1..], sep);
      assert s == [s[0]] + s[1..];
    }
  }

  // Trimming takes exactly the spaces at either end.
  lemma TrimMeans(s: string) returns (i: nat, j: nat)
    ensures i <= j <= |s| && Trim(s) == s[i..j]
    ensures forall k :: 0 <= k < i || j <= k < |s| ==> IsSpace(s[k])
    ensures Trim(s) != "" ==> !IsSpace(Trim(s)[0]) && !IsSpace(Trim(s)[|Trim(s)| - 1])
  {
    i := TrimLeftMeans(s);
    var n := TrimRightMeans(s[i..]);
    j := i + n;
    assert s[i..][..n] == s[i..j];
    forall k | j <= k < |s| ensures IsSpace(s[k]) {
      assert s[k] == s[i..][k - i];
    }
  }

  lemma {:induction false} TrimLeftMeans(s: string) returns (i: nat)
    ensures i <= |s| && TrimLeft(s) == s[i..] && forall k :: 0 <= k < i ==> IsSpace(s[k])
    ensures TrimLeft(s) != "" ==> !IsSpace(TrimLeft(s)[0])
  {
    i := 0;
    if s != "" && IsSpace(s[0]) {
      i := TrimLeftMeans(s[1..]);
      assert forall k :: 0 < k <= i ==> s[k] == s[1..][k - 1];
      i := i + 1;
    }
  }

  lemma {:induction false} TrimRightMeans(s: string) returns (j: nat)
    ensures j <= |s| && TrimRight(s) == s[..j] && forall k :: j <= k < |s| ==> IsSpace(s[k])
    ensures TrimRight(s) != "" ==> !IsSpace(TrimRight(s)[|TrimRight(s)| - 1])
  {
    j := |s|;
    if s != "" && IsSpace(s[|s| - 1]) {
      j := TrimRightMeans(s[..|s| - 1]);
    }
  }

  // Space, tab, line feed, vertical tab, form feed, carriage return, next line and the no-break space.
  lemma SpacesAre(c: char)
    ensures IsSpace(c) <==> c as int in [32, 9, 10, 11, 12, 13, 133, 160]
  { }

  // Only the small letters change, each to the capital in the same place.
  lemma UpperMeans(c: char)
    ensures 'a' <= c <= 'z' ==>
        'A' <= UpperChar(c) <= 'Z' && UpperChar(c) as int - 'A' as int == c as int - 'a' as int
    ensures !('a' <= c <= 'z') ==> UpperChar(c) == c
  { }

  // Decimal notation.
  lemma ValueMeans(s: string, c: char, d: nat)
    requires AllDigits(s) && d < 10 && c == "0123456789"[d]
    ensures Value("") == 0 && AllDigits(s + [c]) && Value(s + [c]) == 10 * Value(s) + d
    ensures DigitChar(d) == c
  {
    assert (s + [c])[..|s|] == s;
  }

  // At least one digit, with or without a sign, and nothing else.
  lemma IntegersAre(s: string, n: int)
    ensures ParseInt(s) == Some(n) <==>
      || (s != "" && AllDigits(s) && n == Value(s))
      || (|s| > 1 && s[0] == '+' && AllDigits(s[1..]) && n == Value(s[1..]))
      || (|s| > 1 && s[0] == '-' && AllDigits(s[1..]) && n + Value(s[1..]) == 0)
  { }

  // Byte order: the first difference decides, and a text comes before everything it begins.
  ghost predicate DiffersAt(a: string, b: string, i: nat) {
    && i <= |a| && i <= |b| && a[..i] == b[..i]
    && i < |b| && (i == |a| || a[i] < b[i])
  }

  lemma {:induction false} LessMeans(a: string, b: string)
    ensures Less(a, b) <==> exists i: nat :: DiffersAt(a, b, i)
  {
    if a != "" && b != "" && a[0] == b[0] {
      LessMeans(a[1..], b[1..]);
      if i: nat :| DiffersAt(a[1..], b[1..], i) {
        assert a[..i + 1] == [a[0]] + a[1..][..i] && b[..i + 1] == [b[0]] + b[1..][..i];
        assert DiffersAt(a, b, i + 1);
      }
      if i: nat :| DiffersAt(a, b, i) {
        assert i > 0 && a[1..][..i - 1] == a[..i][1..] && b[1..][..i - 1] == b[..i][1..];
        assert DiffersAt(a[1..], b[1..], i - 1);
      }
    } else if Less(a, b) {
      assert DiffersAt(a, b, 0);
    } else {
      forall i: nat | DiffersAt(a, b, i) ensures i == 0 {
        SameStart(a, b, i);
      }
    }
  }

  lemma SameStart(a: string, b: string, i: nat)
    requires DiffersAt(a, b, i)
    ensures i > 0 ==> a[0] == b[0]
  {
    if i > 0 {
      assert a[..i][0] == b[..i][0];
    }
  }
}
