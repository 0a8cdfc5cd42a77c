// The recurrence rules of internal/plans: FREQ=DAILY|WEEKLY|MONTHLY[;INTERVAL=n][;COUNT=n|;UNTIL=YYYYMMDD], a
// subset of section 3.3.10 of RFC 5545.
module Recurrence {
  import opened Finite
  import opened Text
  import opened Calendar

  const MAX_INTERVAL: int := 12
  const MAX_COUNT: int := 104

  datatype Freq = Daily | Weekly | Monthly

  // count == 0 and until == ZERO (the zero time) both mean unbounded.
  datatype Rule = Rule(freq: Freq, interval: int, count: int, until: Date)

  // A rule while its parts are still being read.
  datatype Draft = Draft(freq: Option<Freq>, interval: int, count: int, until: Date)

  const BLANK: Draft := Draft(None, 1, 0, ZERO)

  ghost predicate ValidRule(r: Rule) {
    && 1 <= r.interval <= MAX_INTERVAL && 0 <= r.count <= MAX_COUNT
    && ValidDate(r.until) && 0 <= r.until.y <= 9999
    && (r.count == 0 || r.until == ZERO)
  }

  // ---- reading ----

  function ParseFreq(val: string): Option<Freq> {
    if val == "DAILY" then Some(Daily)
    else if val == "WEEKLY" then Some(Weekly)
    else if val == "MONTHLY" then Some(Monthly)
    else None
  }

  function ParseWithin(val: string, most: int): Option<int> {
    match ParseInt(val)
    case None => None
    case Some(n) => if n < 1 || n > most then None else Some(n)
  }

  // time.Parse("20060102", val)
  function ParseDate(val: string): Option<Date> {
    if |val| != 8 || !AllDigits(val) then None
    else
      var t := Date(Value(val[..4]), Value(val[4..6]), Value(val[6..]));
      if ValidDate(t) then Some(t) else None
  }

  datatype Key = FreqKey | IntervalKey | CountKey | UntilKey

  function KeyOf(key: string): Option<Key> {
    if key == "FREQ" then Some(FreqKey)
    else if key == "INTERVAL" then Some(IntervalKey)
    else if key == "COUNT" then Some(CountKey)
    else if key == "UNTIL" then Some(UntilKey)
    else None
  }

  // One KEY=VALUE part read into the draft.
  function Field(r: Draft, part: string): Option<Draft> {
    match Cut(part, '=')
    case None => None
    case Some(kv) =>
      var val := Upper(kv.1);
      match KeyOf(Upper(kv.0))
      case None => None
      case Some(FreqKey) =>
        (match ParseFreq(val) case None => None case Some(f) => Some(r.(freq := Some(f))))
      case Some(IntervalKey) =>
        (match ParseWithin(val, MAX_INTERVAL) case None => None case Some(n) => Some(r.(interval := n)))
      case Some(CountKey) =>
        (match ParseWithin(val, MAX_COUNT) case None => None case Some(n) => Some(r.(count := n)))
      case Some(UntilKey) =>
        (match ParseDate(val) case None => None case Some(t) => Some(r.(until := t)))
  }

  function Fields(parts: seq<string>): Option<Draft> {
    if parts == [] then Some(BLANK)
    else
      match Fields(parts[..|parts| - 1])
      case None => None
      case Some(r) => Field(r, parts[|parts| - 1])
  }

  function Finish(r: Draft): Option<Rule> {
    if r.freq.None? || (r.count > 0 && r.until != ZERO) then None
    else Some(Rule(r.freq.value, r.interval, r.count, r.until))
  }

  function Parse(s: string): Option<Rule> {
    match Fields(Split(Trim(s), ';'))
    case None => None
    case Some(r) => Finish(r)
  }

  method ParseRule(s: string) returns (r: Option<Rule>)
    ensures r == Parse(s)
    ensures r.Some? ==> ValidRule(r.value)
  {
    hide Cut, Upper, Field, Trim, Split, ValidRule;
    ParsedIsValid(s);
    var parts := Split(Trim(s), ';');
    var draft := BLANK;
    for i := 0 to |parts|
      invariant Fields(parts[..i]) == Some(draft)
    {
      assert parts[..i + 1][..i] == parts[..i];
      var next := ReadPart(draft, parts[i]);
      if next.None? {
        BadPartFails(parts, i + 1);
        return None;
      }
      draft := next.value;
    }
    assert parts[..|parts|] == parts;
    return Finish(draft);
  }

  method ReadPart(draft: Draft, part: string) returns (r: Option<Draft>)
    ensures r == Field(draft, part)
  {
    hide Cut, Upper, ParseFreq, ParseWithin, ParseDate, KeyOf;
    var kv := Cut(part, '=');
    if kv.None? {
      return None;
    }
    var key, val := KeyOf(Upper(kv.value.0)), Upper(kv.value.1);
    if key.None? {
      return None;
    }
    match key.value {
      case FreqKey =>
        var f := ParseFreq(val);
        return if f.None? then None else Some(draft.(freq := f));
      case IntervalKey =>
        var n := ParseWithin(val, MAX_INTERVAL);
        return if n.None? then None else Some(draft.(interval := n.value));
      case CountKey =>
        var n := ParseWithin(val, MAX_COUNT);
        return if n.None? then None else Some(draft.(count := n.value));
      case UntilKey =>
        var t := ParseDate(val);
        return if t.None? then None else Some(draft.(until := t.value));
    }
  }

  // Once a part fails, the whole text fails.
  lemma {:induction false} BadPartFails(parts: seq<string>, i: nat)
    requires i <= |parts| && Fields(parts[..i]).None?
    ensures Fields(parts).None?
    decreases |parts|
  {
    if i == |parts| {
      assert parts[..i] == parts;
    } else {
      assert parts[..|parts| - 1][..i] == parts[..i];
      BadPartFails(parts[..|parts| - 1], i);
    }
  }

  // ---- what is accepted ----

  // A part that reads well, whatever came before it.
  predicate GoodPart(part: string) {
    Field(BLANK, part).Some?
  }

  function ValueFor(part: string, key: Key): Option<string> {
    match Cut(part, '=')
    case None => None
    case Some(kv) => if KeyOf(Upper(kv.0)) == Some(key) then Some(Upper(kv.1)) else None
  }

  // The value of the last part with this key.
  function LastFor(parts: seq<string>, key: Key): Option<string> {
    if parts == [] then None
    else if ValueFor(parts[|parts| - 1], key).Some? then ValueFor(parts[|parts| - 1], key)
    else LastFor(parts[..|parts| - 1], key)
  }

  function NumberFor(parts: seq<string>, key: Key, most: int, absent: int): int {
    match LastFor(parts, key)
    case None => absent
    case Some(val) => ParseWithin(val, most).GetOr(absent)
  }

  function UntilFor(parts: seq<string>): Date {
    match LastFor(parts, UntilKey)
    case None => ZERO
    case Some(val) => ParseDate(val).GetOr(ZERO)
  }

  function FreqFor(parts: seq<string>): Option<Freq> {
    match LastFor(parts, FreqKey)
    case None => None
    case Some(val) => ParseFreq(val)
  }

  function Summary(parts: seq<string>): Draft {
    Draft(FreqFor(parts), NumberFor(parts, IntervalKey, MAX_INTERVAL, 1), NumberFor(parts, CountKey, MAX_COUNT, 0),
      UntilFor(parts))
  }

  // Reading left to right keeps, for every key, what its last part said.
  lemma {:induction false} LastPartWins(parts: seq<string>)
    ensures Fields(parts).Some? <==> forall i :: 0 <= i < |parts| ==> GoodPart(parts[i])
    ensures Fields(parts).Some? ==> Fields(parts).value == Summary(parts)
  {
    hide Cut, ParseFreq, ParseWithin, ParseDate, KeyOf, Upper;
    if parts != [] {
      var front, part := parts[..|parts| - 1], parts[|parts| - 1];
      LastPartWins(front);
      if Fields(front).Some? {
        assert GoodPart(part) <==> Field(Fields(front).value, part).Some?;
      }
    }
  }

  // A text is a rule exactly when every part reads well, some part gives the frequency, and it is not bounded both
  // ways; the rule then says what the last part of each key said.
  lemma ParseAcceptsIff(s: string)
    ensures var parts := Split(Trim(s), ';');
      var count, until := NumberFor(parts, CountKey, MAX_COUNT, 0), UntilFor(parts);
      && (Parse(s).Some? <==>
            (forall i :: 0 <= i < |parts| ==> GoodPart(parts[i])) && FreqFor(parts).Some?
              && (count == 0 || until == ZERO))
      && (Parse(s).Some? ==>
            Parse(s).value == Rule(FreqFor(parts).value, NumberFor(parts, IntervalKey, MAX_INTERVAL, 1), count, until))
  {
    hide Cut, ParseFreq, ParseWithin, ParseDate, KeyOf, Upper, LastFor, Split, Trim;
    LastPartWins(Split(Trim(s), ';'));
    NumberForBounds(Split(Trim(s), ';'));
  }

  lemma NumberForBounds(parts: seq<string>)
    ensures 1 <= NumberFor(parts, IntervalKey, MAX_INTERVAL, 1) <= MAX_INTERVAL
    ensures 0 <= NumberFor(parts, CountKey, MAX_COUNT, 0) <= MAX_COUNT
    ensures ValidDate(UntilFor(parts)) && 0 <= UntilFor(parts).y <= 9999
  {
    if LastFor(parts, UntilKey).Some? && ParseDate(LastFor(parts, UntilKey).value).Some? {
      YearFits(LastFor(parts, UntilKey).value[..4]);
    }
  }

  lemma YearFits(s: string)
    requires |s| == 4 && AllDigits(s)
    ensures 0 <= Value(s) <= 9999
  {
    ValueFits(s);
    TenThousand();
  }

  lemma ParsedIsValid(s: string)
    ensures Parse(s).Some? ==> ValidRule(Parse(s).value)
  {
    hide Fields, Split, Trim, NumberFor, UntilFor, FreqFor;
    ParseAcceptsIff(s);
    NumberForBounds(Split(Trim(s), ';'));
  }

  // ---- writing ----

  function FreqName(f: Freq): string {
    match f
    case Daily => "DAILY"
    case Weekly => "WEEKLY"
    case Monthly => "MONTHLY"
  }

  function FormatDate(t: Date): string
    requires ValidDate(t) && 0 <= t.y
  {
    Padded(t.y, 4) + Padded(t.m, 2) + Padded(t.d, 2)
  }

  function FormatParts(r: Rule): seq<string>
    requires ValidRule(r)
  {
    [Part("FREQ", FreqName(r.freq)), Part("INTERVAL", Digits(r.interval))]
    + (if r.count > 0 then [Part("COUNT", Digits(r.count))] else [])
    + (if r.until != ZERO then [Part("UNTIL", FormatDate(r.until))] else [])
  }

  function Part(key: string, val: string): string {
    key + "=" + val
  }

  function Format(r: Rule): string
    requires ValidRule(r)
  {
    Join(FormatParts(r), ';')
  }

  lemma DateRoundTrip(t: Date)
    requires ValidDate(t) && 0 <= t.y <= 9999
    ensures ParseDate(FormatDate(t)) == Some(t)
  {
    TenThousand();
    PaddedRoundTrip(t.y, 4);
    PaddedRoundTrip(t.m, 2);
    PaddedRoundTrip(t.d, 2);
    var s := FormatDate(t);
    assert s[..4] == Padded(t.y, 4) && s[4..6] == Padded(t.m, 2) && s[6..] == Padded(t.d, 2);
  }

  // Cutting a written part gives its key and value back.
  lemma PartCuts(key: string, val: string)
    requires '=' !in key
    ensures Cut(Part(key, val), '=') == Some((key, val))
  {
    CutAtFirst(key, '=', val);
    assert key + ['='] + val == Part(key, val);
  }

  // What each written part reads back as.
  lemma FreqReads(r: Draft, f: Freq)
    ensures Field(r, Part("FREQ", FreqName(f))) == Some(r.(freq := Some(f)))
  {
    hide Part, Cut;
    PartCuts("FREQ", FreqName(f));
    KeysAreKnown();
  }

  lemma IntervalReads(r: Draft, n: int)
    requires 1 <= n <= MAX_INTERVAL
    ensures Field(r, Part("INTERVAL", Digits(n))) == Some(r.(interval := n))
  {
    hide Part, Cut, ParseWithin;
    PartCuts("INTERVAL", Digits(n));
    KeysAreKnown();
    NumberPart(n, MAX_INTERVAL);
  }

  lemma CountReads(r: Draft, n: int)
    requires 1 <= n <= MAX_COUNT
    ensures Field(r, Part("COUNT", Digits(n))) == Some(r.(count := n))
  {
    hide Part, Cut, ParseWithin;
    PartCuts("COUNT", Digits(n));
    KeysAreKnown();
    NumberPart(n, MAX_COUNT);
  }

  lemma UntilReads(r: Draft, t: Date)
    requires ValidDate(t) && 0 <= t.y <= 9999
    ensures Field(r, Part("UNTIL", FormatDate(t))) == Some(r.(until := t))
  {
    hide Part, Cut, ParseDate;
    PartCuts("UNTIL", FormatDate(t));
    KeysAreKnown();
    DateRoundTrip(t);
    UntilDigits(t);
    UpperDigits(FormatDate(t));
  }

  lemma NumberPart(n: int, most: int)
    requires 1 <= n <= most
    ensures ParseWithin(Digits(n), most) == Some(n) && Upper(Digits(n)) == Digits(n)
  {
    PrintParse(n);
    UpperDigits(Digits(n));
  }

  lemma KeysAreKnown()
    ensures KeyOf("FREQ") == Some(FreqKey) && KeyOf("INTERVAL") == Some(IntervalKey)
    ensures KeyOf("COUNT") == Some(CountKey) && KeyOf("UNTIL") == Some(UntilKey)
    ensures Upper("FREQ") == "FREQ" && Upper("INTERVAL") == "INTERVAL" && Upper("COUNT") == "COUNT"
    ensures Upper("UNTIL") == "UNTIL"
    ensures forall f :: Upper(FreqName(f)) == FreqName(f) && ParseFreq(FreqName(f)) == Some(f)
  { }

  lemma FieldsAppend(parts: seq<string>, part: string)
    ensures Fields(parts + [part]) == match Fields(parts) case None => None case Some(r) => Field(r, part)
  {
    assert (parts + [part])[..|parts|] == parts;
  }

  lemma ReadsBack(r: Rule)
    requires ValidRule(r)
    ensures Fields(FormatParts(r)) == Some(Draft(Some(r.freq), r.interval, r.count, r.until))
  {
    hide Upper, ParseFreq, ParseWithin, ParseDate, Field, Digits, FormatDate, FreqName, Part, KeyOf;
    var d1 := BLANK.(freq := Some(r.freq));
    var d2 := d1.(interval := r.interval);
    var a, b := Part("FREQ", FreqName(r.freq)), Part("INTERVAL", Digits(r.interval));
    FreqReads(BLANK, r.freq);
    IntervalReads(d1, r.interval);
    FieldsAppend([], a);
    FieldsAppend([a], b);
    assert [] + [a] == [a] && [a] + [b] == [a, b];
    if r.count > 0 {
      CountReads(d2, r.count);
      FieldsAppend([a, b], Part("COUNT", Digits(r.count)));
      assert FormatParts(r) == [a, b] + [Part("COUNT", Digits(r.count))];
    } else if r.until != ZERO {
      UntilReads(d2, r.until);
      FieldsAppend([a, b], Part("UNTIL", FormatDate(r.until)));
      assert FormatParts(r) == [a, b] + [Part("UNTIL", FormatDate(r.until))];
    } else {
      assert FormatParts(r) == [a, b];
    }
  }

  lemma UntilDigits(t: Date)
    requires ValidDate(t) && 0 <= t.y
    ensures AllDigits(FormatDate(t)) && |FormatDate(t)| == 8
  { }

  // Every rule that can be stored is written and read back unchanged.
  lemma FormatParseRoundTrip(r: Rule)
    requires ValidRule(r)
    ensures Parse(Format(r)) == Some(r)
  {
    ReadsBack(r);
    FormatSplits(r);
  }

  lemma FormatSplits(r: Rule)
    requires ValidRule(r)
    ensures Split(Trim(Format(r)), ';') == FormatParts(r)
  {
    hide Join, Split, Trim, FormatParts;
    var parts := FormatParts(r);
    PartsAreClean(r);
    SplitJoined(parts, ';');
    JoinEnds(parts, ';');
    TrimNothing(Format(r));
  }

  // No part holds a separator; the text begins with a letter and ends in a digit.
  lemma PartsAreClean(r: Rule)
    requires ValidRule(r)
    ensures var parts := FormatParts(r);
      && |parts| > 0 && (forall i :: 0 <= i < |parts| ==> parts[i] != "" && ';' !in parts[i])
      && !IsSpace(parts[0][0]) && !IsSpace(parts[|parts| - 1][|parts[|parts| - 1]| - 1])
  {
    hide Digits, FormatDate;
    if r.until != ZERO {
      UntilDigits(r.until);
    }
  }

  // ---- when UNTIL bounds ----

  // Whether the rule's UNTIL lets a day through.
  predicate UntilAllows(r: Rule, day: int) {
    r.until == ZERO || !Before(r.until, Civil(day))
  }

  const ZERO_TEXT: string := "00010101"

  // Only one text is the zero date.
  lemma ZeroTextIff(val: string)
    ensures ParseDate(val) == Some(ZERO) <==> val == ZERO_TEXT
  {
    ZeroTextReads();
    if ParseDate(val) == Some(ZERO) {
      var zero := ZERO_TEXT;
      ValueTellsApart(val[..4], zero[..4]);
      ValueTellsApart(val[4..6], zero[4..6]);
      ValueTellsApart(val[6..], zero[6..]);
      assert val == val[..4] + val[4..6] + val[6..] && zero == zero[..4] + zero[4..6] + zero[6..];
    }
  }

  lemma ZeroTextReads()
    ensures ParseDate(ZERO_TEXT) == Some(ZERO) && |ZERO_TEXT| == 8 && AllDigits(ZERO_TEXT)
    ensures var z := ZERO_TEXT; Value(z[..4]) == 1 && Value(z[4..6]) == 1 && Value(z[6..]) == 1
  {
    DateRoundTrip(ZERO);
    ZeroUntilDigits();
  }

  // A rule with an end lets some day through no more.
  lemma EndsSomewhere(r: Rule)
    requires ValidRule(r)
    ensures (exists day :: !UntilAllows(r, day)) <==> r.until != ZERO
  {
    if r.until != ZERO {
      var day := DayNumber(r.until) + 1;
      CivilRoundTrip(day);
      OrderMatches(r.until, Civil(day));
      assert !UntilAllows(r, day);
    }
  }

  // In every accepted text, an UNTIL part ends the series if and only if what its last one says is not 00010101: that
  // date is the zero time and bounds nothing, and only beside it may a COUNT stand.
  lemma UntilBoundsIff(s: string)
    requires Parse(s).Some? && LastFor(Split(Trim(s), ';'), UntilKey).Some?
    ensures var r, val := Parse(s).value, LastFor(Split(Trim(s), ';'), UntilKey).value;
      && ((exists day :: !UntilAllows(r, day)) <==> val != ZERO_TEXT)
      && (r.count > 0 ==> val == ZERO_TEXT)
  {
    hide Split, Trim, LastFor, UntilAllows;
    var parts := Split(Trim(s), ';');
    var r, val := Parse(s).value, LastFor(parts, UntilKey).value;
    ParseAcceptsIff(s);
    ParsedIsValid(s);
    EndsSomewhere(r);
    ZeroTextIff(val);
    LastIsGood(parts);
  }

  // The last UNTIL part of well-read parts is a date.
  lemma {:induction false} LastIsGood(parts: seq<string>)
    requires (forall i :: 0 <= i < |parts| ==> GoodPart(parts[i])) && LastFor(parts, UntilKey).Some?
    ensures ParseDate(LastFor(parts, UntilKey).value).Some?
  {
    hide Cut, Upper, ParseFreq, ParseWithin, ParseDate, KeyOf;
    if ValueFor(parts[|parts| - 1], UntilKey).Some? {
      assert GoodPart(parts[|parts| - 1]);
    } else {
      LastIsGood(parts[..|parts| - 1]);
    }
  }

  lemma ZeroUntilDigits()
    ensures FormatDate(ZERO) == ZERO_TEXT
  {
    OneIn(2);
    OneIn(4);
    hide Padded;
  }

  // The number one is written as zeros and a one.
  lemma OneIn(width: nat)
    requires width >= 1
    ensures Padded(1, width)[width - 1] == '1' && forall i :: 0 <= i < width - 1 ==> Padded(1, width)[i] == '0'
  {
    ZerosIn(width - 1);
    assert Padded(1, width) == Padded(0, width - 1) + [DigitChar(1)];
  }

  lemma {:induction false} ZerosIn(width: nat)
    ensures forall i :: 0 <= i < width ==> Padded(0, width)[i] == '0'
  {
    if width > 0 {
      ZerosIn(width - 1);
      assert Padded(0, width) == Padded(0, width - 1) + [DigitChar(0)];
    }
  }

  // And such texts are accepted.
  lemma ZeroUntilIsAccepted(freq: Freq, interval: int, count: int)
    requires 1 <= interval <= MAX_INTERVAL && 1 <= count <= MAX_COUNT
    ensures var parts := ZeroUntilParts(freq, interval, count);
      && Parse(Join(parts, ';')) == Some(Rule(freq, interval, count, ZERO))
      && Split(Trim(Join(parts, ';')), ';') == parts
  {
    var parts := ZeroUntilParts(freq, interval, count);
    ZeroUntilSplits(freq, interval, count);
    ZeroUntilFields(freq, interval, count);
  }

  function ZeroUntilParts(freq: Freq, interval: int, count: int): seq<string>
    requires interval >= 0 && count >= 0
  {
    [Part("FREQ", FreqName(freq)), Part("INTERVAL", Digits(interval)), Part("COUNT", Digits(count)),
      Part("UNTIL", ZERO_TEXT)]
  }

  lemma ZeroUntilSplits(freq: Freq, interval: int, count: int)
    requires interval >= 0 && count >= 0
    ensures var parts := ZeroUntilParts(freq, interval, count);
      Split(Trim(Join(parts, ';')), ';') == parts
  {
    hide Join, Split, Trim, Digits;
    var parts := ZeroUntilParts(freq, interval, count);
    SplitJoined(parts, ';');
    JoinEnds(parts, ';');
    TrimNothing(Join(parts, ';'));
  }

  lemma ZeroUntilFields(freq: Freq, interval: int, count: int)
    requires 1 <= interval <= MAX_INTERVAL && 1 <= count <= MAX_COUNT
    ensures Fields(ZeroUntilParts(freq, interval, count)) == Some(Draft(Some(freq), interval, count, ZERO))
  {
    hide Upper, ParseFreq, ParseWithin, ParseDate, Field, Digits, Part, KeyOf;
    var a, b := Part("FREQ", FreqName(freq)), Part("INTERVAL", Digits(interval));
    var c, d := Part("COUNT", Digits(count)), Part("UNTIL", FormatDate(ZERO));
    var d1 := BLANK.(freq := Some(freq));
    FreqReads(BLANK, freq);
    IntervalReads(d1, interval);
    CountReads(d1.(interval := interval), count);
    ZeroUntilDigits();
    UntilReads(Draft(Some(freq), interval, count, ZERO), ZERO);
    FieldsAppend([], a);
    FieldsAppend([a], b);
    FieldsAppend([a, b], c);
    FieldsAppend([a, b, c], d);
    assert [] + [a] == [a] && [a] + [b] == [a, b] && [a, b] + [c] == [a, b, c];
    assert [a, b, c] + [d] == ZeroUntilParts(freq, interval, count);
  }
}
