/** The order of mesh revisions: dash-separated segments, numeric where both sides are numbers. */
module Revisions {
  import opened Wrappers
  import opened Strings
  import opened Ordering

  const MAX_INT: int := 0x7fff_ffff_ffff_ffff

  predicate IsDigit(c: char) { '0' <= c <= '9' }

  predicate AllDigits(s: string) { forall c :: c in s ==> IsDigit(c) }

  function Decimal(s: string): nat
    requires AllDigits(s)
  {
    if s == "" then 0
    else
      assert IsDigit(s[|s| - 1]);
      10 * Decimal(s[..|s| - 1]) + (s[|s| - 1] as int - '0' as int)
  }

  /** An optionally signed decimal number that fits a 64-bit integer. */
  function Atoi(s: string): Option<int> {
    var signed := s != "" && (s[0] == '+' || s[0] == '-');
    var digits := if signed then s[1..] else s;
    if digits == "" || !AllDigits(digits) then None
    else
      var size: int := Decimal(digits);
      var n := if signed && s[0] == '-' then -size else size;
      if -MAX_INT - 1 <= n <= MAX_INT then Some(n) else None
  }

  function Sign(n: int): int { if n < 0 then -1 else if n > 0 then 1 else 0 }

  /** Two segments compare as numbers when both are, and as strings otherwise. */
  function CompareSegments(a: string, b: string): int {
    if Atoi(a).Some? && Atoi(b).Some? then Sign(Atoi(a).value - Atoi(b).value) else Compare(a, b)
  }

  function Segment(parts: seq<string>, i: nat): string {
    if i < |parts| then parts[i] else ""
  }

  function Longer(a: seq<string>, b: seq<string>): nat { if |a| >= |b| then |a| else |b| }

  /** The first differing segment from position `i` on decides. */
  function CompareFrom(a: seq<string>, b: seq<string>, i: nat): int
    decreases Longer(a, b) - i
  {
    if i >= Longer(a, b) then 0
    else
      var c := CompareSegments(Segment(a, i), Segment(b, i));
      if c != 0 then c else CompareFrom(a, b, i + 1)
  }

  function RevisionOrder(a: string, b: string): int {
    CompareFrom(Split(a, '-'), Split(b, '-'), 0)
  }

  method CompareRevisions(a: string, b: string) returns (order: int)
    ensures order == RevisionOrder(a, b)
  {
    hide *;
    var aParts, bParts := Split(a, '-'), Split(b, '-');
    StartOfOrder(a, b);
    var maxLen := Longer(aParts, bParts);
    for i := 0 to maxLen
      invariant CompareFrom(aParts, bParts, i) == RevisionOrder(a, b)
    {
      NextSegment(aParts, bParts, i);
      var aVal, bVal := "", "";
      if i < |aParts| {
        aVal := aParts[i];
      }
      if i < |bParts| {
        bVal := bParts[i];
      }
      var aNum, bNum := Atoi(aVal), Atoi(bVal);
      CompareLaws(aVal, bVal);
      SegmentsAre(aVal, bVal);
      if aNum.Some? && bNum.Some? {
        if aNum.value < bNum.value {
          return -1;
        }
        if aNum.value > bNum.value {
          return 1;
        }
        continue;
      }
      if Compare(aVal, bVal) < 0 {
        return -1;
      }
      if Compare(aVal, bVal) > 0 {
        return 1;
      }
    }
    NextSegment(aParts, bParts, maxLen);
    order := 0;
  }

  lemma StartOfOrder(a: string, b: string)
    ensures RevisionOrder(a, b) == CompareFrom(Split(a, '-'), Split(b, '-'), 0)
  {
  }

  lemma NextSegment(a: seq<string>, b: seq<string>, i: nat)
    ensures i >= Longer(a, b) ==> CompareFrom(a, b, i) == 0
    ensures i < Longer(a, b) ==>
      var x, y := if i < |a| then a[i] else "", if i < |b| then b[i] else "";
      CompareFrom(a, b, i) == if CompareSegments(x, y) != 0 then CompareSegments(x, y) else CompareFrom(a, b, i + 1)
  {
    hide CompareSegments;
  }

  lemma SegmentsAre(a: string, b: string)
    ensures Atoi(a).Some? && Atoi(b).Some? ==>
      CompareSegments(a, b) == if Atoi(a).value < Atoi(b).value then -1 else if Atoi(a).value > Atoi(b).value then 1 else 0
    ensures !(Atoi(a).Some? && Atoi(b).Some?) ==> CompareSegments(a, b) == Compare(a, b)
  {
    hide Atoi, Compare;
  }

  // ----- revisions proper

  /** `asm-` and two decimal numbers. */
  predicate IsRevision(s: string) {
    var parts := Split(s, '-');
    && |parts| == 3 && parts[0] == "asm"
    && parts[1] != "" && AllDigits(parts[1])
    && parts[2] != "" && AllDigits(parts[2])
  }

  function Major(s: string): nat
    requires IsRevision(s)
  {
    Decimal(Split(s, '-')[1])
  }

  function Minor(s: string): nat
    requires IsRevision(s)
  {
    Decimal(Split(s, '-')[2])
  }

  /** A revision whose numbers fit an integer. */
  predicate Fits(s: string) {
    IsRevision(s) && Major(s) <= MAX_INT && Minor(s) <= MAX_INT
  }

  ghost predicate AllFit(revisions: seq<string>) {
    forall r :: r in revisions ==> Fits(r)
  }

  /** The numeric order of (major, minor). */
  predicate AtMost(a: string, b: string)
    requires Fits(a) && Fits(b)
  {
    Major(a) < Major(b) || (Major(a) == Major(b) && Minor(a) <= Minor(b))
  }

  lemma DigitsAreNumbers(s: string)
    requires s != "" && AllDigits(s) && Decimal(s) <= MAX_INT
    ensures Atoi(s) == Some(Decimal(s))
  {
    assert s[0] in s;
  }

  lemma NameIsNoNumber()
    ensures Atoi("asm").None?
  {
    assert "asm"[0] in "asm";
  }

  /** On revisions whose numbers fit, the comparison is the numeric order. */
  lemma OrderIsNumeric(a: string, b: string)
    requires Fits(a) && Fits(b)
    ensures RevisionOrder(a, b) <= 0 <==> AtMost(a, b)
    ensures RevisionOrder(a, b) == -RevisionOrder(b, a)
  {
    hide Split, Decimal, Atoi, Compare;
    var x, y := Split(a, '-'), Split(b, '-');
    NameIsNoNumber();
    DigitsAreNumbers(x[1]);
    DigitsAreNumbers(x[2]);
    DigitsAreNumbers(y[1]);
    DigitsAreNumbers(y[2]);
    CompareLaws("asm", "asm");
    ThreeSegments(x, y);
    ThreeSegments(y, x);
  }

  lemma ThreeSegments(x: seq<string>, y: seq<string>)
    requires |x| == |y| == 3
    ensures CompareFrom(x, y, 0) ==
      var c0, c1, c2 := CompareSegments(x[0], y[0]), CompareSegments(x[1], y[1]), CompareSegments(x[2], y[2]);
      if c0 != 0 then c0 else if c1 != 0 then c1 else c2
  {
    hide CompareSegments;
    assert CompareFrom(x, y, 3) == 0;
    assert CompareFrom(x, y, 2) == CompareSegments(x[2], y[2]);
    assert CompareFrom(x, y, 1) == var c := CompareSegments(x[1], y[1]); if c != 0 then c else CompareFrom(x, y, 2);
  }

  /** A total preorder: revisions of equal numbers compare equal even when they are written differently. */
  lemma OrderIsTotalPreorder(a: string, b: string, c: string)
    requires Fits(a) && Fits(b) && Fits(c)
    ensures RevisionOrder(a, b) <= 0 || RevisionOrder(b, a) <= 0
    ensures RevisionOrder(a, b) <= 0 && RevisionOrder(b, c) <= 0 ==> RevisionOrder(a, c) <= 0
    ensures RevisionOrder(a, b) == 0 <==> Major(a) == Major(b) && Minor(a) == Minor(b)
  {
    hide RevisionOrder, Split, Decimal;
    OrderIsNumeric(a, b);
    OrderIsNumeric(b, c);
    OrderIsNumeric(a, c);
    OrderIsNumeric(b, a);
  }

  /** Revisions of one major number compare by their last segment. */
  lemma LastSegmentDecides(x: string, y: string)
    requires '-' !in x && '-' !in y
    ensures RevisionOrder("asm-1-" + x, "asm-1-" + y) == CompareSegments(x, y)
    ensures IsRevision("asm-1-" + x) <==> x != "" && AllDigits(x)
  {
    SplitLast(x);
    SplitLast(y);
    hide Split, Atoi, Compare;
    CompareLaws("asm", "asm");
    CompareLaws("1", "1");
    ThreeSegments(["asm", "1", x], ["asm", "1", y]);
  }

  lemma SplitLast(x: string)
    requires '-' !in x
    ensures Split("asm-1-" + x, '-') == ["asm", "1", x]
  {
    hide Split;
    SplitOfOne(x, '-');
    SplitPrefix("1", x, '-');
    SplitPrefix("asm", "1-" + x, '-');
    assert "asm" + ['-'] + ("1-" + x) == "asm-1-" + x && "1" + ['-'] + x == "1-" + x;
  }

  /** The first number that is too large for an integer. */
  function TooLarge(): string { "9223372036854775808" }

  /** A number too large for an integer is compared as text, and the order of revisions closes a circle. */
  lemma OverflowBreaksTheOrder()
    ensures var a, b, c := "asm-1-" + "93", "asm-1-" + "100", "asm-1-" + TooLarge();
            && UpTo(a, MAX_INT + 1) && UpTo(b, MAX_INT + 1) && UpTo(c, MAX_INT + 1)
            && RevisionOrder(a, b) < 0 && RevisionOrder(b, c) < 0 && RevisionOrder(c, a) < 0 && RevisionOrder(a, c) > 0
  {
    LastSegments();
    hide *;
    LastSegmentDecides("93", "100");
    LastSegmentDecides("100", TooLarge());
    LastSegmentDecides(TooLarge(), "93");
    LastSegmentDecides("93", TooLarge());
    LastNumber("93");
    LastNumber("100");
    LastNumber(TooLarge());
  }

  /** A revision whose numbers are at most `n`. */
  predicate UpTo(s: string, n: nat) {
    IsRevision(s) && Major(s) <= n && Minor(s) <= n
  }

  lemma LastNumber(x: string)
    requires x != "" && '-' !in x && AllDigits(x) && Decimal(x) <= MAX_INT + 1
    ensures UpTo("asm-1-" + x, MAX_INT + 1)
  {
    hide Split;
    SplitLast(x);
    assert Decimal("1") == 1 by {
      DecimalStep("", '1');
      assert "" + ['1'] == "1";
    }
  }

  lemma LastSegments()
    ensures forall x :: x in {"93", "100", TooLarge()} ==> x != "" && AllDigits(x) && '-' !in x && Decimal(x) <= MAX_INT + 1
    ensures CompareSegments("93", "100") < 0 && CompareSegments("100", TooLarge()) < 0
    ensures CompareSegments(TooLarge(), "93") < 0 && CompareSegments("93", TooLarge()) > 0
  {
    SmallNumbers();
    TooLargeIsNoNumber();
    NoDash("93");
    NoDash("100");
    NoDash(TooLarge());
    StartsBefore93(TooLarge());
    hide Atoi, Compare, TooLarge, Decimal, AllDigits;
  }

  lemma NoDash(s: string)
    requires AllDigits(s)
    ensures '-' !in s
  {
  }

  lemma StartsBefore93(s: string)
    requires |s| > 2 && s[0] == '9' && s[1] == '2'
    ensures Compare("100", s) < 0 && Compare(s, "93") < 0 && Compare("93", s) > 0
  {
    assert "93"[1..] == "3" && s[1..][0] == '2';
    assert Compare(s, "93") == Compare(s[1..], "3") && Compare("93", s) == Compare("3", s[1..]);
  }

  lemma DecimalStep(p: string, d: char)
    requires AllDigits(p) && IsDigit(d)
    ensures AllDigits(p + [d]) && Decimal(p + [d]) == 10 * Decimal(p) + (d as int - '0' as int)
  {
    assert (p + [d])[..|p|] == p;
  }

  lemma ThreeDigits(p: string, a: char, b: char, c: char)
    requires AllDigits(p) && IsDigit(a) && IsDigit(b) && IsDigit(c)
    ensures var q := p + [a, b, c];
            AllDigits(q) && Decimal(q) == 1000 * Decimal(p) + 100 * (a as int - 48) + 10 * (b as int - 48) + (c as int - 48)
  {
    hide Decimal, AllDigits, IsDigit;
    DecimalStep(p, a);
    DecimalStep(p + [a], b);
    DecimalStep(p + [a] + [b], c);
    assert p + [a, b, c] == p + [a] + [b] + [c];
  }

  lemma SmallNumbers()
    ensures AllDigits("93") && AllDigits("100") && Decimal("93") == 93 && Decimal("100") == 100
    ensures Atoi("93") == Some(93) && Atoi("100") == Some(100)
  {
    DecimalStep("", '9');
    DecimalStep("9", '3');
    assert "" + ['9'] == "9" && "9" + ['3'] == "93";
    ThreeDigits("", '1', '0', '0');
    assert "" + ['1', '0', '0'] == "100";
    DigitsAreNumbers("93");
    DigitsAreNumbers("100");
  }

  lemma TooLargeIsNoNumber()
    ensures AllDigits(TooLarge()) && Decimal(TooLarge()) == MAX_INT + 1 && Atoi(TooLarge()).None?
    ensures |TooLarge()| == 19 && TooLarge()[0] == '9' && TooLarge()[1] == '2'
  {
    TooLargeIs();
    hide Decimal, AllDigits;
  }

  lemma TooLargeIs()
    ensures AllDigits(TooLarge()) && Decimal(TooLarge()) == MAX_INT + 1
  {
    hide Decimal, AllDigits;
    Nothing();
    DecimalStep("", '9');
    assert "" + ['9'] == "9";
    ThreeDigits("9", '2', '2', '3');
    assert "9" + ['2', '2', '3'] == "9223";
    ThreeDigits("9223", '3', '7', '2');
    assert "9223" + ['3', '7', '2'] == "9223372";
    ThreeDigits("9223372", '0', '3', '6');
    assert "9223372" + ['0', '3', '6'] == "9223372036";
    ThreeDigits("9223372036", '8', '5', '4');
    assert "9223372036" + ['8', '5', '4'] == "9223372036854";
    ThreeDigits("9223372036854", '7', '7', '5');
    assert "9223372036854" + ['7', '7', '5'] == "9223372036854775";
    ThreeDigits("9223372036854775", '8', '0', '8');
    assert "9223372036854775" + ['8', '0', '8'] == TooLarge();
  }

  lemma Nothing()
    ensures AllDigits("") && Decimal("") == 0
  {
  }

  /** The comparison can be chained on all revisions with numbers up to `n`. */
  ghost predicate TransitiveUpTo(n: nat) {
    forall a, b, c :: UpTo(a, n) && UpTo(b, n) && UpTo(c, n) && RevisionOrder(a, b) <= 0 && RevisionOrder(b, c) <= 0 ==>
      RevisionOrder(a, c) <= 0
  }

  /** The comparison is transitive up to a bound exactly when the bound fits an integer. */
  lemma TransitiveWhileFitting(n: nat)
    ensures TransitiveUpTo(n) <==> n <= MAX_INT
  {
    hide RevisionOrder, IsRevision, Major, Minor;
    if n <= MAX_INT {
      forall a, b, c | UpTo(a, n) && UpTo(b, n) && UpTo(c, n) && RevisionOrder(a, b) <= 0 && RevisionOrder(b, c) <= 0
        ensures RevisionOrder(a, c) <= 0
      {
        OrderIsTotalPreorder(a, b, c);
      }
    } else {
      OverflowBreaksTheOrder();
      var a, b, c := "asm-1-" + "93", "asm-1-" + "100", "asm-1-" + TooLarge();
      assert UpTo(a, n) && UpTo(b, n) && UpTo(c, n);
    }
  }

  // ----- choosing a revision

  /** Whether `a` is preferred at most as much as `b` when the newest, or the oldest, revision is wanted. */
  predicate NoBetter(a: string, b: string, newest: bool) {
    if newest then RevisionOrder(a, b) <= 0 else RevisionOrder(b, a) <= 0
  }

  /** What remains when every revision that is preferred to the best one before it takes its place. */
  function Best(revisions: seq<string>, newest: bool): (best: string)
    requires revisions != []
    ensures best in revisions
  {
    var n := |revisions| - 1;
    if n == 0 then revisions[0]
    else
      var before := Best(revisions[..n], newest);
      if NoBetter(revisions[n], before, newest) then before else revisions[n]
  }

  /** An entry none is preferred to, and that is preferred to every entry before it. */
  ghost predicate FirstBest(revisions: seq<string>, newest: bool, k: nat)
    requires k < |revisions|
  {
    && (forall r :: r in revisions ==> NoBetter(r, revisions[k], newest))
    && (forall j :: 0 <= j < k ==> !NoBetter(revisions[k], revisions[j], newest))
  }

  /** On revisions whose numbers fit, this is the first of the newest, or of the oldest, ones. */
  lemma {:induction false} BestIsFirst(revisions: seq<string>, newest: bool) returns (k: nat)
    requires revisions != [] && AllFit(revisions)
    ensures k < |revisions| && revisions[k] == Best(revisions, newest) && FirstBest(revisions, newest, k)
  {
    hide NoBetter, Fits;
    var n := |revisions| - 1;
    var last := revisions[n];
    NoBetterTrans(last, last, last, newest);
    if n == 0 {
      k := 0;
    } else {
      var init := revisions[..n];
      assert revisions == init + [last];
      k := BestIsFirst(init, newest);
      var before := init[k];
      if !NoBetter(last, before, newest) {
        forall r | r in init ensures NoBetter(r, last, newest) && !NoBetter(last, r, newest) {
          assert NoBetter(r, before, newest);
          NoBetterTrans(r, before, last, newest);
          NoBetterTrans(last, r, before, newest);
        }
        forall j | 0 <= j < n ensures !NoBetter(last, revisions[j], newest) {
          assert revisions[j] in init;
        }
        k := n;
      }
    }
  }

  lemma NoBetterTrans(a: string, b: string, c: string, newest: bool)
    requires Fits(a) && Fits(b) && Fits(c)
    ensures NoBetter(a, b, newest) || NoBetter(b, a, newest)
    ensures NoBetter(b, c, newest) || NoBetter(c, b, newest)
    ensures NoBetter(a, b, newest) && NoBetter(b, c, newest) ==> NoBetter(a, c, newest)
    ensures NoBetter(a, a, newest)
  {
    hide RevisionOrder, Fits;
    OrderIsTotalPreorder(a, b, c);
    OrderIsTotalPreorder(c, b, a);
    OrderIsTotalPreorder(a, a, a);
  }

  /** The first of the newest, or of the oldest, revisions. */
  method Extreme(revisions: seq<string>, newest: bool) returns (best: string)
    requires revisions != []
    ensures best in revisions && best == Best(revisions, newest)
    ensures AllFit(revisions) ==> forall r :: r in revisions ==> NoBetter(r, best, newest)
    ensures AllFit(revisions) ==> exists k :: 0 <= k < |revisions| && revisions[k] == best && FirstBest(revisions, newest, k)
  {
    hide NoBetter, RevisionOrder, Fits;
    best := revisions[0];
    for i := 1 to |revisions|
      invariant best == Best(revisions[..i], newest)
    {
      var order;
      if newest {
        order := CompareRevisions(revisions[i], best);
      } else {
        order := CompareRevisions(best, revisions[i]);
      }
      NoBetterIs(revisions[i], best, newest);
      assert revisions[..i + 1][..i] == revisions[..i];
      if order > 0 {
        best := revisions[i];
      }
    }
    assert revisions[..|revisions|] == revisions;
    if AllFit(revisions) {
      var k := BestIsFirst(revisions, newest);
    }
  }

  lemma NoBetterIs(a: string, b: string, newest: bool)
    ensures NoBetter(a, b, newest) <==> if newest then RevisionOrder(a, b) <= 0 else RevisionOrder(b, a) <= 0
  {
    hide RevisionOrder;
  }

  predicate Others(revisions: seq<string>, exclude: string) {
    exists r :: r in revisions && r != exclude
  }

  /** The newest or oldest of the revisions other than `exclude`; empty when there is none. */
  method PickRevision(revisions: seq<string>, exclude: string, newest: bool) returns (picked: string)
    ensures !Others(revisions, exclude) ==> picked == ""
    ensures Others(revisions, exclude) ==> picked in revisions && picked != exclude
    ensures Others(revisions, exclude) && AllFit(revisions) ==>
      forall r :: r in revisions && r != exclude ==> NoBetter(r, picked, newest)
  {
    hide NoBetter, Fits;
    var candidates := [];
    for i := 0 to |revisions|
      invariant forall r :: r in candidates <==> r in revisions[..i] && r != exclude
    {
      if revisions[i] != exclude {
        candidates := candidates + [revisions[i]];
      }
      assert revisions[..i + 1] == revisions[..i] + [revisions[i]];
    }
    assert revisions[..|revisions|] == revisions;
    if candidates == [] {
      return "";
    }
    assert candidates[0] in candidates;
    picked := Extreme(candidates, newest);
  }
}
