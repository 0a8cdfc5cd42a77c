// Smart groups: participants sorted by their joined interests, then dealt round-robin.
module Groups {
  import opened Arithmetic
  import opened Text

  datatype Participant = Participant(user: string, interests: seq<string>)

  function Key(p: Participant): string {
    if p.interests == [] then "" else Join(p.interests, ',')
  }

  // A key tells its interests apart, as long as none holds a comma.
  lemma KeyMeans(p: Participant)
    ensures p.interests == [] ==> Key(p) == ""
    ensures p.interests != [] && (forall i :: 0 <= i < |p.interests| ==> ',' !in p.interests[i]) ==>
        Split(Key(p), ',') == p.interests
  {
    if p.interests != [] && forall i :: 0 <= i < |p.interests| ==> ',' !in p.interests[i] {
      SplitJoined(p.interests, ',');
    }
  }

  ghost predicate Sorted(s: seq<Participant>) {
    forall i, j :: 0 <= i < j < |s| ==> AtMost(Key(s[i]), Key(s[j]))
  }

  // ---- dealing ----

  // Whose turn place i is.
  function Turn(i: nat, n: nat): (g: nat)
    requires n > 0
    ensures g < n
  {
    i % n
  }

  // What group g holds once the first i participants are dealt.
  function Dealt(s: seq<Participant>, n: nat, g: nat, i: nat): seq<Participant>
    requires n > 0 && i <= |s|
  {
    if i == 0 then []
    else Dealt(s, n, g, i - 1) + if Turn(i - 1, n) == g then [s[i - 1]] else []
  }

  function Deal(s: seq<Participant>, n: nat, i: nat): (groups: seq<seq<Participant>>)
    requires n > 0 && i <= |s|
    ensures |groups| == n
  {
    seq(n, g requires 0 <= g < n => Dealt(s, n, g, i))
  }

  lemma DealNext(s: seq<Participant>, n: nat, i: nat)
    requires n > 0 && i < |s|
    ensures Deal(s, n, i + 1) == Deal(s, n, i)[Turn(i, n) := Deal(s, n, i)[Turn(i, n)] + [s[i]]]
  {
    hide Dealt, Turn;
    var before, after := Deal(s, n, i), Deal(s, n, i + 1);
    forall g | 0 <= g < n ensures after[g] == if g == Turn(i, n) then before[g] + [s[i]] else before[g] {
      DealtNext(s, n, g, i);
    }
  }

  lemma DealtNext(s: seq<Participant>, n: nat, g: nat, i: nat)
    requires n > 0 && i < |s|
    ensures Dealt(s, n, g, i + 1) == if g == Turn(i, n) then Dealt(s, n, g, i) + [s[i]] else Dealt(s, n, g, i)
  { }

  function CountKey(group: seq<Participant>, key: string): nat {
    if group == [] then 0
    else CountKey(group[..|group| - 1], key) + if Key(group[|group| - 1]) == key then 1 else 0
  }

  // How many of the places a, a+1, ..., b-1 fall to group g.
  function Share(a: nat, b: nat, n: nat, g: nat): nat
    requires n > 0
  {
    if b <= a then 0 else Share(a, b - 1, n, g) + if Turn(b - 1, n) == g then 1 else 0
  }

  // n places in a row fall one to each group.
  lemma {:induction false} ShareOfRound(a: nat, b: nat, n: nat, g: nat)
    requires 0 <= g < n && a <= b <= a + n
    ensures Share(a, b, n, g) <= 1
    ensures Share(a, b, n, g) == 1 <==> exists i :: a <= i < b && Turn(i, n) == g
  {
    if a < b {
      ShareOfRound(a, b - 1, n, g);
      if Turn(b - 1, n) == g {
        forall i | a <= i < b - 1 ensures Turn(i, n) != g {
          DifferentPlaces(i, b - 1, n);
        }
      }
    }
  }

  lemma DifferentPlaces(i: nat, j: nat, n: nat)
    requires i < j < i + n
    ensures Turn(i, n) != Turn(j, n)
  {
    var p, q := i / n, j / n;
    assert i == n * p + i % n && j == n * q + j % n;
    assert n * (q - p) == n * q - n * p;
    Multiples(n, q - p);
  }

  lemma {:induction false} ShareSplits(a: nat, m: nat, b: nat, n: nat, g: nat)
    requires n > 0 && a <= m <= b
    ensures Share(a, b, n, g) == Share(a, m, n, g) + Share(m, b, n, g)
  {
    if m < b {
      ShareSplits(a, m, b - 1, n, g);
    }
  }

  lemma {:induction false} FullRound(a: nat, n: nat, g: nat)
    requires 0 <= g < n
    ensures Share(a, a + n, n, g) == 1
  {
    hide Share, Turn;
    if a == 0 {
      ShareOfRound(0, n, n, g);
      OwnTurn(g, n);
    } else {
      FullRound(a - 1, n, g);
      ShareSplits(a - 1, a, a + n - 1, n, g);
      ShareNext(a, a + n - 1, n, g);
      SameTurn(a - 1, n);
      ShareNext(a - 1, a - 1, n, g);
      ShareOfNone(a - 1, n, g);
    }
  }

  lemma OwnTurn(g: nat, n: nat)
    requires g < n
    ensures Turn(g, n) == g
  { }

  lemma SameTurn(a: nat, n: nat)
    requires n > 0
    ensures Turn(a + n, n) == Turn(a, n)
  {
    var p, q := a / n, (a + n) / n;
    assert a == n * p + a % n && a + n == n * q + (a + n) % n;
    assert n * (q - p - 1) == n * q - n * p - n;
    Multiples(n, q - p - 1);
  }

  // Any run of consecutive places is shared out evenly.
  lemma {:induction false} SharesAreEven(a: nat, b: nat, n: nat, g: nat, h: nat)
    requires g < n && h < n
    ensures -1 <= Share(a, b, n, g) - Share(a, b, n, h) <= 1
    decreases b - a
  {
    if b <= a + n {
      if a <= b {
        ShareOfRound(a, b, n, g);
        ShareOfRound(a, b, n, h);
      }
    } else {
      FullRound(a, n, g);
      FullRound(a, n, h);
      ShareSplits(a, a + n, b, n, g);
      ShareSplits(a, a + n, b, n, h);
      SharesAreEven(a + n, b, n, g, h);
    }
  }

  // ---- sizes ----

  lemma {:induction false} SizeIsShare(s: seq<Participant>, n: nat, g: nat, i: nat)
    requires n > 0 && i <= |s|
    ensures |Dealt(s, n, g, i)| == Share(0, i, n, g)
  {
    if i > 0 {
      SizeIsShare(s, n, g, i - 1);
    }
  }

  // No group gets more than one participant per round dealt.
  lemma {:induction false} ShareAtMostRounds(b: nat, n: nat, g: nat, rounds: nat)
    requires g < n && b <= n * rounds
    ensures Share(0, b, n, g) <= rounds
    decreases rounds
  {
    if rounds > 0 && b > n * (rounds - 1) {
      var last := n * (rounds - 1);
      assert n * rounds == last + n;
      ShareAtMostRounds(last, n, g, rounds - 1);
      ShareSplits(0, last, b, n, g);
      ShareOfRound(last, b, n, g);
    } else if rounds > 0 {
      ShareAtMostRounds(b, n, g, rounds - 1);
    }
  }

  // ---- keys ----

  // Equal keys stand together in sorted order.
  lemma KeysStandTogether(s: seq<Participant>, i: nat, k: nat, j: nat)
    requires Sorted(s) && i <= k <= j < |s| && Key(s[i]) == Key(s[j])
    ensures Key(s[k]) == Key(s[i])
  {
    LessIsTotal(Key(s[i]), Key(s[k]));
    LessIsTotal(Key(s[k]), Key(s[i]));
  }

  lemma CountAppend(group: seq<Participant>, p: Participant, key: string)
    ensures CountKey(group + [p], key) == CountKey(group, key) + if Key(p) == key then 1 else 0
  {
    assert (group + [p])[..|group|] == group;
  }

  // Where a key's participants stand: the places from first to last.
  ghost predicate Stands(s: seq<Participant>, key: string, first: nat, last: nat) {
    first <= last <= |s| && forall i :: 0 <= i < |s| ==> (Key(s[i]) == key <==> first <= i < last)
  }

  lemma SomewhereStands(s: seq<Participant>, key: string) returns (first: nat, last: nat)
    requires Sorted(s)
    ensures Stands(s, key, first, last)
  {
    hide Key, Sorted;
    if k :| 0 <= k < |s| && Key(s[k]) == key {
      first, last := k, k + 1;
      while first > 0 && Key(s[first - 1]) == key
        invariant first <= k && Key(s[first]) == key
      {
        first := first - 1;
      }
      while last < |s| && Key(s[last]) == key
        invariant k < last <= |s| && Key(s[last - 1]) == key
      {
        last := last + 1;
      }
      forall i | 0 <= i < |s| ensures Key(s[i]) == key <==> first <= i < last {
        if first <= i < last {
          KeysStandTogether(s, first, i, last - 1);
        } else if i < first && Key(s[i]) == key {
          KeysStandTogether(s, i, first - 1, first);
        } else if i >= last && Key(s[i]) == key {
          KeysStandTogether(s, last - 1, last, i);
        }
      }
    } else {
      first, last := 0, 0;
    }
  }

  function Clip(x: nat, i: nat): nat {
    if x < i then x else i
  }

  lemma {:induction false} KeyCountIsShare(s: seq<Participant>, n: nat, g: nat, i: nat, key: string, first: nat,
    last: nat)
    requires n > 0 && i <= |s| && Stands(s, key, first, last)
    ensures CountKey(Dealt(s, n, g, i), key) == Share(Clip(first, i), Clip(last, i), n, g)
  {
    hide Dealt, CountKey, Share, Key, Turn;
    if i == 0 {
      NothingDealt(s, n, g, key);
    } else {
      KeyCountIsShare(s, n, g, i - 1, key, first, last);
      DealtNext(s, n, g, i - 1);
      CountAppend(Dealt(s, n, g, i - 1), s[i - 1], key);
      assert Key(s[i - 1]) == key <==> first <= i - 1 < last;
      if first <= i - 1 {
        ShareNext(first, i - 1, n, g);
      }
      ShareOfNone(i - 1, n, g);
      ShareOfNone(i, n, g);
    }
  }

  lemma NothingDealt(s: seq<Participant>, n: nat, g: nat, key: string)
    requires n > 0
    ensures CountKey(Dealt(s, n, g, 0), key) == 0 && Share(0, 0, n, g) == 0
  { }

  lemma ShareNext(a: nat, b: nat, n: nat, g: nat)
    requires n > 0 && a <= b
    ensures Share(a, b + 1, n, g) == Share(a, b, n, g) + if Turn(b, n) == g then 1 else 0
  { }

  lemma ShareOfNone(a: nat, n: nat, g: nat)
    requires n > 0
    ensures Share(a, a, n, g) == 0
  { }

  // ---- nobody lost ----

  function All(groups: seq<seq<Participant>>): multiset<Participant> {
    if groups == [] then multiset{} else multiset(groups[0]) + All(groups[1..])
  }

  lemma {:induction false} AllAfterAdding(groups: seq<seq<Participant>>, g: nat, p: Participant)
    requires g < |groups|
    ensures All(groups[g := groups[g] + [p]]) == All(groups) + multiset{p}
  {
    var after := groups[g := groups[g] + [p]];
    if g == 0 {
      assert after[1..] == groups[1..];
    } else {
      AllAfterAdding(groups[1..], g - 1, p);
      assert after[1..] == groups[1..][g - 1 := groups[1..][g - 1] + [p]];
    }
  }

  lemma {:induction false} EmptyGroups(groups: seq<seq<Participant>>)
    requires forall g :: 0 <= g < |groups| ==> groups[g] == []
    ensures All(groups) == multiset{}
  {
    if groups != [] {
      EmptyGroups(groups[1..]);
    }
  }

  lemma {:induction false} DealLosesNobody(s: seq<Participant>, n: nat, i: nat)
    requires n > 0 && i <= |s|
    ensures All(Deal(s, n, i)) == multiset(s[..i])
  {
    hide Deal, All, Turn;
    if i == 0 {
      NobodyDealt(s, n);
    } else {
      DealLosesNobody(s, n, i - 1);
      DealNext(s, n, i - 1);
      AllAfterAdding(Deal(s, n, i - 1), Turn(i - 1, n), s[i - 1]);
      assert s[..i] == s[..i - 1] + [s[i - 1]];
    }
  }

  lemma NobodyDealt(s: seq<Participant>, n: nat)
    requires n > 0
    ensures All(Deal(s, n, 0)) == multiset{}
  {
    EmptyGroups(Deal(s, n, 0));
  }

  // ---- the algorithm ----

  function Ceil(n: nat, target: int): int
    requires target > 0
  {
    (n + target - 1) / target
  }

  // What BuildGroups promises for participants and a target size.
  ghost predicate Balanced(participants: seq<Participant>, target: int, groups: seq<seq<Participant>>)
    requires target > 0
  {
    && |groups| == Ceil(|participants|, target)
    && All(groups) == multiset(participants)
    && (forall g :: 0 <= g < |groups| ==> 1 <= |groups[g]| <= target)
    && (forall g, h :: 0 <= g < |groups| && 0 <= h < |groups| ==> |groups[g]| <= |groups[h]| + 1)
    && (forall g, h, key :: 0 <= g < |groups| && 0 <= h < |groups| ==>
      CountKey(groups[g], key) <= CountKey(groups[h], key) + 1)
  }

  lemma CeilBounds(n: nat, target: int)
    requires target > 0 && n > 0
    ensures 1 <= Ceil(n, target) <= n && (Ceil(n, target) - 1) * target < n <= Ceil(n, target) * target
  {
    var c := Ceil(n, target);
    assert n + target - 1 == target * c + (n + target - 1) % target;
    assert (c - 1) * target == target * c - target;
    assert target * (c - n) == target * c - target * n;
    Multiples(n, target - 1);
    assert target * n == n * (target - 1) + n;
    Multiples(target, c);
    Multiples(target, c - n);
  }

  lemma DealIsBalanced(participants: seq<Participant>, target: int, s: seq<Participant>)
    requires target > 0 && |participants| > 0 && Sorted(s) && multiset(s) == multiset(participants)
    requires |s| == |participants|
    ensures Ceil(|s|, target) > 0 && Balanced(participants, target, Deal(s, Ceil(|s|, target), |s|))
  {
    hide Dealt, Share, Turn, CountKey, All, Sorted, Ceil;
    CeilBounds(|s|, target);
    var n := Ceil(|s|, target);
    var groups := Deal(s, n, |s|);
    DealLosesNobody(s, n, |s|);
    assert s[..|s|] == s;
    forall g | 0 <= g < n ensures 1 <= |groups[g]| <= target {
      SizeIsShare(s, n, g, |s|);
      ShareAtMostRounds(|s|, n, g, target);
      ShareSplits(0, n, |s|, n, g);
      FullRound(0, n, g);
    }
    forall g, h | 0 <= g < n && 0 <= h < n ensures |groups[g]| <= |groups[h]| + 1 {
      SizeIsShare(s, n, g, |s|);
      SizeIsShare(s, n, h, |s|);
      SharesAreEven(0, |s|, n, g, h);
    }
    forall g, h, key | 0 <= g < n && 0 <= h < n ensures CountKey(groups[g], key) <= CountKey(groups[h], key) + 1 {
      KeysEven(s, n, g, h, key);
    }
  }

  lemma KeysEven(s: seq<Participant>, n: nat, g: nat, h: nat, key: string)
    requires Sorted(s) && g < n && h < n
    ensures CountKey(Dealt(s, n, g, |s|), key) <= CountKey(Dealt(s, n, h, |s|), key) + 1
  {
    var first, last := SomewhereStands(s, key);
    KeyCountIsShare(s, n, g, |s|, key, first, last);
    KeyCountIsShare(s, n, h, |s|, key, first, last);
    SharesAreEven(first, last, n, g, h);
  }

  method BuildGroups(participants: seq<Participant>, target: int) returns (groups: seq<seq<Participant>>)
    ensures participants == [] || target <= 0 ==> groups == []
    ensures participants != [] && target > 0 ==> Balanced(participants, target, groups)
  {
    if |participants| == 0 || target <= 0 {
      return [];
    }
    hide Balanced, Sorted, Deal;
    var s := SortByKey(participants);
    var n := (|s| + target - 1) / target;
    if n < 1 {
      n := 1;
    }
    DealIsBalanced(participants, target, s);
    groups := DealAll(s, n);
  }

  method DealAll(s: seq<Participant>, n: nat) returns (groups: seq<seq<Participant>>)
    requires n > 0
    ensures groups == Deal(s, n, |s|)
  {
    groups := seq(n, _ => []);
    EmptyDeal(s, n);
    hide Deal, Dealt;
    for i := 0 to |s|
      invariant groups == Deal(s, n, i)
    {
      DealNext(s, n, i);
      groups := groups[i % n := groups[i % n] + [s[i]]];
    }
  }

  lemma EmptyDeal(s: seq<Participant>, n: nat)
    requires n > 0
    ensures Deal(s, n, 0) == seq(n, _ => [])
  { }

  // Stands for sort.Slice: any sorted permutation will do.
  method SortByKey(participants: seq<Participant>) returns (s: seq<Participant>)
    ensures Sorted(s) && multiset(s) == multiset(participants) && |s| == |participants|
  {
    hide Key, Less, Sorted;
    s := [];
    NobodySorted();
    for i := 0 to |participants|
      invariant Sorted(s) && multiset(s) == multiset(participants[..i]) && |s| == i
    {
      var p := participants[i];
      var k := |s|;
      while k > 0 && Less(Key(p), Key(s[k - 1]))
        invariant 0 <= k <= |s|
        invariant forall j :: k <= j < |s| ==> Less(Key(p), Key(s[j]))
      {
        k := k - 1;
      }
      InsertSorted(s, k, p);
      InsertKeepsAll(s, k, p);
      assert participants[..i + 1] == participants[..i] + [p];
      s := s[..k] + [p] + s[k..];
    }
    assert participants[..|participants|] == participants;
  }

  lemma InsertKeepsAll(s: seq<Participant>, k: nat, p: Participant)
    requires k <= |s|
    ensures multiset(s[..k] + [p] + s[k..]) == multiset(s) + multiset{p}
  {
    assert s == s[..k] + s[k..];
  }

  lemma NobodySorted()
    ensures Sorted([])
  { }

  lemma InsertSorted(s: seq<Participant>, k: nat, p: Participant)
    requires Sorted(s) && k <= |s|
    requires k > 0 ==> AtMost(Key(s[k - 1]), Key(p))
    requires forall j :: k <= j < |s| ==> Less(Key(p), Key(s[j]))
    ensures Sorted(s[..k] + [p] + s[k..])
  {
    forall i | 0 <= i < k ensures AtMost(Key(s[i]), Key(p)) {
      if i < k - 1 && Less(Key(p), Key(s[i])) {
        LessIsTotal(Key(s[i]), Key(s[k - 1]));
        LessIsTotal(Key(s[k - 1]), Key(p));
        if Less(Key(s[i]), Key(s[k - 1])) {
          LessIsTransitive(Key(p), Key(s[i]), Key(s[k - 1]));
        }
      }
    }
    forall j | k <= j < |s| ensures AtMost(Key(p), Key(s[j])) {
      LessIsTotal(Key(p), Key(s[j]));
    }
  }
}
