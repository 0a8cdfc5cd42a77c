// The unpadded URL alphabet of section 5 of RFC 4648, as base64.RawURLEncoding writes and reads it. A byte is a
// character below 256.
module Base64 {
  import opened Finite

  predicate IsByte(c: char) {
    c as int < 256
  }

  predicate AllBytes(s: string) {
    forall i :: 0 <= i < |s| ==> IsByte(s[i])
  }

  type Bytes = s: string | AllBytes(s)

  function Letter(n: nat): char
    requires n < 64
  {
    if n < 26 then ('A' as int + n) as char
    else if n < 52 then ('a' as int + n - 26) as char
    else if n < 62 then ('0' as int + n - 52) as char
    else if n == 62 then '-'
    else '_'
  }

  // What a letter stands for; 64 for a character that is none.
  function Sextet(c: char): (n: nat)
    ensures n <= 64
  {
    if 'A' <= c <= 'Z' then c as int - 'A' as int
    else if 'a' <= c <= 'z' then c as int - 'a' as int + 26
    else if '0' <= c <= '9' then c as int - '0' as int + 52
    else if c == '-' then 62
    else if c == '_' then 63
    else 64
  }

  function ByteAt(s: Bytes, i: nat): (n: nat)
    requires i < |s|
    ensures n < 256
  {
    assert IsByte(s[i]);
    s[i] as int
  }

  // The four six-bit parts of three bytes.
  function Part1(a: nat): (n: nat)
    requires a < 256
    ensures n < 64
  {
    a / 4
  }

  function Part2(a: nat, b: nat): (n: nat)
    requires a < 256 && b < 256
    ensures n < 64
  {
    a % 4 * 16 + b / 16
  }

  function Part3(b: nat, c: nat): (n: nat)
    requires b < 256 && c < 256
    ensures n < 64
  {
    b % 16 * 4 + c / 64
  }

  function Part4(c: nat): (n: nat)
    requires c < 256
    ensures n < 64
  {
    c % 64
  }

  // Three bytes make four letters; one or two bytes left over make two or three.
  function Encode(s: Bytes): string
  {
    if s == "" then ""
    else
      var a := ByteAt(s, 0);
      if |s| == 1 then [Letter(Part1(a)), Letter(Part2(a, 0))]
      else
        var b := ByteAt(s, 1);
        if |s| == 2 then [Letter(Part1(a)), Letter(Part2(a, b)), Letter(Part3(b, 0))]
        else
          var c := ByteAt(s, 2);
          [Letter(Part1(a)), Letter(Part2(a, b)), Letter(Part3(b, c)), Letter(Part4(c))] + Encode(s[3..])
  }

  // Line breaks are skipped, wherever they stand.
  function Unbroken(t: string): string {
    if t == "" then ""
    else if t[0] == '\r' || t[0] == '\n' then Unbroken(t[1..])
    else [t[0]] + Unbroken(t[1..])
  }

  function First(x: nat, y: nat): (c: char)
    requires x < 64 && y < 64
    ensures IsByte(c)
  {
    (x * 4 + y / 16) as char
  }

  function Second(y: nat, z: nat): (c: char)
    requires y < 64 && z < 64
    ensures IsByte(c)
  {
    (y % 16 * 16 + z / 4) as char
  }

  function Third(z: nat, w: nat): (c: char)
    requires z < 64 && w < 64
    ensures IsByte(c)
  {
    (z % 4 * 64 + w) as char
  }

  // Four letters make three bytes; two or three letters left over make one or two, spare bits being ignored, and a
  // single one is refused.
  function Letters(t: string): Option<Bytes> {
    if t == "" then Some("")
    else if |t| == 1 then None
    else
      var x, y := Sextet(t[0]), Sextet(t[1]);
      if x == 64 || y == 64 then None
      else if |t| == 2 then Some([First(x, y)])
      else
        var z := Sextet(t[2]);
        if z == 64 then None
        else if |t| == 3 then Some([First(x, y), Second(y, z)])
        else
          var w := Sextet(t[3]);
          if w == 64 then None
          else
            match Letters(t[4..])
            case None => None
            case Some(rest) => Some([First(x, y), Second(y, z), Third(z, w)] + rest)
  }

  function Decode(t: string): Option<Bytes> {
    Letters(Unbroken(t))
  }

  lemma LetterReads(n: nat)
    requires n < 64
    ensures Sextet(Letter(n)) == n && Letter(n) != '\r' && Letter(n) != '\n'
  { }

  // The bits of each byte come back together.
  lemma BitsMeet(a: nat, b: nat, c: nat)
    requires a < 256 && b < 256 && c < 256
    ensures First(Part1(a), Part2(a, b)) as int == a
    ensures Second(Part2(a, b), Part3(b, c)) as int == b
    ensures Third(Part3(b, c), Part4(c)) as int == c
  { }

  lemma {:induction false} LettersUndoEncode(s: Bytes)
    ensures Letters(Encode(s)) == Some(s)
  {
    hide Letter, Sextet, Part1, Part2, Part3, Part4, First, Second, Third;
    if s != "" {
      var a := ByteAt(s, 0);
      var b, c := if |s| > 1 then ByteAt(s, 1) else 0, if |s| > 2 then ByteAt(s, 2) else 0;
      BitsMeet(a, b, c);
      LetterReads(Part1(a));
      LetterReads(Part2(a, b));
      LetterReads(Part3(b, c));
      LetterReads(Part4(c));
      if |s| > 2 {
        LettersUndoEncode(s[3..]);
        assert Encode(s)[4..] == Encode(s[3..]);
        assert s == [s[0], s[1], s[2]] + s[3..];
      } else if |s| == 2 {
        assert s == [s[0], s[1]];
      } else {
        assert s == [s[0]];
      }
    }
  }

  lemma {:induction false} NoBreaks(t: string)
    requires forall i :: 0 <= i < |t| ==> t[i] != '\r' && t[i] != '\n'
    ensures Unbroken(t) == t
  {
    if t != "" {
      NoBreaks(t[1..]);
    }
  }

  lemma {:induction false} EncodeHasNoBreaks(s: Bytes)
    ensures forall i :: 0 <= i < |Encode(s)| ==> Encode(s)[i] != '\r' && Encode(s)[i] != '\n'
  {
    hide Part1, Part2, Part3, Part4;
    if |s| > 2 {
      EncodeHasNoBreaks(s[3..]);
    }
  }

  // Every text of bytes survives the trip.
  lemma DecodeUndoesEncode(s: Bytes)
    ensures Decode(Encode(s)) == Some(s) && (Encode(s) == "" <==> s == "")
  {
    LettersUndoEncode(s);
    EncodeHasNoBreaks(s);
    NoBreaks(Encode(s));
  }

  // The alphabet, in order.
  lemma Alphabet(n: nat)
    requires n < 64
    ensures n < 26 ==> Letter(n) == "ABCDEFGHIJKLMNOPQRSTUVWXYZ"[n]
    ensures 26 <= n < 52 ==> Letter(n) == "abcdefghijklmnopqrstuvwxyz"[n - 26]
    ensures 52 <= n ==> Letter(n) == "0123456789-_"[n - 52]
  {
    if n < 26 {
      Capitals(n);
    } else if n < 52 {
      Smalls(n - 26);
    }
  }

  lemma Capitals(n: nat)
    requires n < 26
    ensures Letter(n) == "ABCDEFGHIJKLMNOPQRSTUVWXYZ"[n]
  { }

  lemma Smalls(n: nat)
    requires n < 26
    ensures Letter(26 + n) == "abcdefghijklmnopqrstuvwxyz"[n]
  { }

  // The test vectors of section 10 of RFC 4648, unpadded.
  lemma Vectors()
    ensures Encode("") == "" && Encode("f") == "Zg" && Encode("fo") == "Zm8" && Encode("foo") == "Zm9v"
    ensures Encode("foob") == "Zm9vYg" && Encode("fooba") == "Zm9vYmE" && Encode("foobar") == "Zm9vYmFy"
  {
    hide Encode;
    Foo();
    B();
    Ba();
    Bar();
    Whole("foo", "b");
    Whole("foo", "ba");
    Whole("foo", "bar");
    assert "foob" == "foo" + "b" && "fooba" == "foo" + "ba" && "foobar" == "foo" + "bar";
    Nothing();
  }

  lemma Nothing()
    ensures Encode("") == ""
  { }

  lemma Foo()
    ensures Encode("f") == "Zg" && Encode("fo") == "Zm8" && Encode("foo") == "Zm9v"
  { }

  lemma B()
    ensures Encode("b") == "Yg"
  { }

  lemma Ba()
    ensures Encode("ba") == "YmE"
  { }

  lemma Bar()
    ensures Encode("bar") == "YmFy"
  {
    assert "bar"[3..] == "";
  }

  // Three bytes at a time.
  lemma Whole(s: Bytes, rest: Bytes)
    requires |s| == 3
    ensures AllBytes(s + rest) && Encode(s + rest) == Encode(s) + Encode(rest)
  {
    assert (s + rest)[3..] == rest && s[3..] == "";
  }
}
