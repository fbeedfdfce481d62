/** The history timeline of the recap screen: the validated, dated
    objectives, newest first. */
module Recap {
  import opened Records

  // ---------------------------------------------------------------------
  // Python's string order

  /** `a < b` on Python strings: lexicographic by code point, a proper prefix
      coming first. */
  predicate LexLess(a: string, b: string)
  {
    if a == [] then b != []
    else if b == [] then false
    else if a[0] != b[0] then a[0] < b[0]
    else LexLess(a[1..], b[1..])
  }

  lemma {:induction false} LexLessIrreflexive(a: string)
    ensures !LexLess(a, a)
  {
    if a != [] {
      LexLessIrreflexive(a[1..]);
    }
  }

  lemma {:induction false} LexLessAsymmetric(a: string, b: string)
    requires LexLess(a, b)
    ensures !LexLess(b, a)
  {
    if a != [] && b != [] && a[0] == b[0] {
      LexLessAsymmetric(a[1..], b[1..]);
    }
  }

  lemma {:induction false} LexLessTransitive(a: string, b: string, c: string)
    requires LexLess(a, b) && LexLess(b, c)
    ensures LexLess(a, c)
  {
    if a != [] && b != [] && c != [] && a[0] == b[0] && b[0] == c[0] {
      LexLessTransitive(a[1..], b[1..], c[1..]);
    }
  }

  lemma {:induction false} LexLessTotal(a: string, b: string)
    requires a != b
    ensures LexLess(a, b) || LexLess(b, a)
  {
    if a != [] && b != [] && a[0] == b[0] {
      assert a == [a[0]] + a[1..] && b == [b[0]] + b[1..];
      LexLessTotal(a[1..], b[1..]);
    }
  }

  /** `a >= b` on Python strings. */
  predicate LexAtLeast(a: string, b: string)
  {
    !LexLess(a, b)
  }

  lemma LexAtLeastTransitive(a: string, b: string, c: string)
    requires LexAtLeast(a, b) && LexAtLeast(b, c)
    ensures LexAtLeast(a, c)
  {
    if LexLess(a, c) {
      if a == b {
      } else if b == c {
      } else {
        LexLessTotal(a, b);
        LexLessTotal(b, c);
        LexLessTransitive(c, b, a);
        LexLessAsymmetric(c, a);
      }
    }
  }

  /** Comparing two strings that start with parts of equal length compares
      those parts first. */
  lemma {:induction false} LexLessConcat(x1: string, x2: string, y1: string, y2: string)
    requires |x1| == |x2|
    ensures LexLess(x1 + y1, x2 + y2) <==> LexLess(x1, x2) || (x1 == x2 && LexLess(y1, y2))
  {
    if x1 == [] {
      assert x1 + y1 == y1 && x2 + y2 == y2;
    } else {
      assert (x1 + y1)[0] == x1[0] && (x2 + y2)[0] == x2[0];
      assert (x1 + y1)[1..] == x1[1..] + y1 && (x2 + y2)[1..] == x2[1..] + y2;
      LexLessConcat(x1[1..], x2[1..], y1, y2);
      if x1[0] == x2[0] {
        assert x1 == x2 <==> x1[1..] == x2[1..] by {
          assert x1 == [x1[0]] + x1[1..] && x2 == [x2[0]] + x2[1..];
        }
      }
    }
  }

  // ---------------------------------------------------------------------
  // The time stamps written by the grid screen

  /** A local date and time, the fields of `%Y-%m-%d %H:%M:%S`. */
  datatype DateTime = DateTime(year: int, month: int, day: int, hour: int, minute: int, second: int)

  predicate InRange(t: DateTime)
  {
    && 1000 <= t.year <= 9999
    && 1 <= t.month <= 12 && 1 <= t.day <= 31
    && 0 <= t.hour <= 23 && 0 <= t.minute <= 59 && 0 <= t.second <= 59
  }

  /** Chronological order: by year, then month, day, hour, minute, second. */
  predicate Before(t1: DateTime, t2: DateTime)
  {
    if t1.year != t2.year then t1.year < t2.year
    else if t1.month != t2.month then t1.month < t2.month
    else if t1.day != t2.day then t1.day < t2.day
    else if t1.hour != t2.hour then t1.hour < t2.hour
    else if t1.minute != t2.minute then t1.minute < t2.minute
    else t1.second < t2.second
  }

  function Pow10(w: nat): (p: nat)
    ensures p >= 1
  {
    if w == 0 then 1 else 10 * Pow10(w - 1)
  }

  function DigitChar(d: int): char
    requires 0 <= d < 10
  {
    ('0' as int + d) as char
  }

  /** `n` in exactly `w` decimal digits, zero-padded. */
  function Pad(n: int, w: nat): (s: string)
    requires 0 <= n < Pow10(w)
    ensures |s| == w
  {
    if w == 0 then "" else Pad(n / 10, w - 1) + [DigitChar(n % 10)]
  }

  lemma {:induction false} PadOrder(a: int, b: int, w: nat)
    requires 0 <= a < Pow10(w) && 0 <= b < Pow10(w)
    ensures LexLess(Pad(a, w), Pad(b, w)) <==> a < b
    ensures Pad(a, w) == Pad(b, w) <==> a == b
  {
    if w > 0 {
      PadOrder(a / 10, b / 10, w - 1);
      LexLessConcat(Pad(a / 10, w - 1), Pad(b / 10, w - 1), [DigitChar(a % 10)], [DigitChar(b % 10)]);
      assert a == 10 * (a / 10) + a % 10 && b == 10 * (b / 10) + b % 10;
      if Pad(a, w) == Pad(b, w) {
        assert Pad(a / 10, w - 1) == Pad(a, w)[..w - 1] == Pad(b, w)[..w - 1] == Pad(b / 10, w - 1);
        assert DigitChar(a % 10) == Pad(a, w)[w - 1] == Pad(b, w)[w - 1] == DigitChar(b % 10);
      }
    } else {
      assert a == 0 && b == 0;
    }
  }

  /** Comparing two strings that start with padded numbers of one width
      compares the numbers first. */
  lemma FieldStep(a: int, b: int, w: nat, sep: char, r1: string, r2: string)
    requires 0 <= a < Pow10(w) && 0 <= b < Pow10(w)
    ensures LexLess(Pad(a, w) + ([sep] + r1), Pad(b, w) + ([sep] + r2))
        <==> a < b || (a == b && LexLess(r1, r2))
  {
    PadOrder(a, b, w);
    LexLessConcat(Pad(a, w), Pad(b, w), [sep] + r1, [sep] + r2);
    LexLessConcat([sep], [sep], r1, r2);
  }

  /** strftime("%Y-%m-%d %H:%M:%S"). */
  function Format(t: DateTime): (s: string)
    requires InRange(t)
    ensures |s| == 19
  {
    Pad(t.year, 4) + ("-" + (Pad(t.month, 2) + ("-" + (Pad(t.day, 2) + (" " +
      (Pad(t.hour, 2) + (":" + (Pad(t.minute, 2) + (":" + Pad(t.second, 2))))))))))
  }

  /** For stamps in this format, string order is chronological order, so
      sorting the strings newest first sorts the moments newest first. */
  lemma FormatOrderIsChronological(t1: DateTime, t2: DateTime)
    requires InRange(t1) && InRange(t2)
    ensures LexLess(Format(t1), Format(t2)) <==> Before(t1, t2)
  {
    var s5 := ":" + Pad(t1.second, 2);
    var u5 := ":" + Pad(t2.second, 2);
    LexLessConcat([':'], [':'], Pad(t1.second, 2), Pad(t2.second, 2));
    PadOrder(t1.second, t2.second, 2);
    var s4 := Pad(t1.minute, 2) + s5;
    var u4 := Pad(t2.minute, 2) + u5;
    FieldStep(t1.minute, t2.minute, 2, ':', Pad(t1.second, 2), Pad(t2.second, 2));
    var s3 := Pad(t1.hour, 2) + (":" + s4);
    var u3 := Pad(t2.hour, 2) + (":" + u4);
    FieldStep(t1.hour, t2.hour, 2, ':', s4, u4);
    var s2 := Pad(t1.day, 2) + (" " + s3);
    var u2 := Pad(t2.day, 2) + (" " + u3);
    FieldStep(t1.day, t2.day, 2, ' ', s3, u3);
    var s1 := Pad(t1.month, 2) + ("-" + s2);
    var u1 := Pad(t2.month, 2) + ("-" + u2);
    FieldStep(t1.month, t2.month, 2, '-', s2, u2);
    FieldStep(t1.year, t2.year, 4, '-', s1, u1);
  }

  // ---------------------------------------------------------------------
  // The timeline

  /** The filter of charger_donnees: `obj['valide'] and obj.get('date_validation')`,
      where an empty date string is false. */
  predicate IsSuccess(o: Objective)
  {
    o.valide && o.dateValidation.Some? && o.dateValidation.value != ""
  }

  /** The sort key `x['date_validation']`; the timeline only holds dated
      objectives, so the empty default is never used there. */
  function DateKey(o: Objective): string
  {
    match o.dateValidation
    case Some(d) => d
    case None => ""
  }

  /** The list comprehension: the successes in grid order. */
  function Successes(objs: seq<Objective>): (r: seq<Objective>)
    ensures forall i :: 0 <= i < |r| ==> IsSuccess(r[i])
    ensures forall o :: multiset(r)[o] == (if IsSuccess(o) then multiset(objs)[o] else 0)
  {
    if objs == [] then []
    else
      assert objs == [objs[0]] + objs[1..];
      (if IsSuccess(objs[0]) then [objs[0]] else []) + Successes(objs[1..])
  }

  /** Newest first: no entry has a date string below a later entry's. */
  predicate NewestFirst(s: seq<Objective>)
  {
    forall p, q :: 0 <= p < q < |s| ==> LexAtLeast(DateKey(s[p]), DateKey(s[q]))
  }

  predicate AdjacentNewestFirst(s: seq<Objective>, lo: int, hi: int)
    requires 0 <= lo <= hi <= |s|
  {
    forall p :: lo < p < hi ==> LexAtLeast(DateKey(s[p - 1]), DateKey(s[p]))
  }

  lemma {:induction false} AdjacentImpliesNewestFirst(s: seq<Objective>)
    requires AdjacentNewestFirst(s, 0, |s|)
    ensures NewestFirst(s)
  {
    if |s| > 1 {
      var t := s[..|s| - 1];
      assert AdjacentNewestFirst(t, 0, |t|) by {
        forall p | 0 < p < |t| ensures LexAtLeast(DateKey(t[p - 1]), DateKey(t[p])) {
          assert t[p - 1] == s[p - 1] && t[p] == s[p];
        }
      }
      AdjacentImpliesNewestFirst(t);
      forall p, q | 0 <= p < q < |s| ensures LexAtLeast(DateKey(s[p]), DateKey(s[q])) {
        if q < |s| - 1 {
          assert t[p] == s[p] && t[q] == s[q];
        } else if p < q - 1 {
          assert t[p] == s[p] && t[q - 1] == s[q - 1];
          LexAtLeastTransitive(DateKey(s[p]), DateKey(s[q - 1]), DateKey(s[q]));
        }
      }
    }
  }

  /** The entries with date string `d`, in order. */
  function WithDate(s: seq<Objective>, d: string): seq<Objective>
  {
    if s == [] then []
    else (if DateKey(s[0]) == d then [s[0]] else []) + WithDate(s[1..], d)
  }

  lemma {:induction false} WithDateConcat(a: seq<Objective>, b: seq<Objective>, d: string)
    ensures WithDate(a + b, d) == WithDate(a, d) + WithDate(b, d)
  {
    if a == [] {
      assert a + b == b;
    } else {
      var head := if DateKey(a[0]) == d then [a[0]] else [];
      assert (a + b)[0] == a[0] && (a + b)[1..] == a[1..] + b;
      assert WithDate(a + b, d) == head + WithDate(a[1..] + b, d);
      assert WithDate(a, d) == head + WithDate(a[1..], d);
      WithDateConcat(a[1..], b, d);
      assert head + (WithDate(a[1..], d) + WithDate(b, d)) == (head + WithDate(a[1..], d)) + WithDate(b, d);
    }
  }

  /** The group of one entry: itself when it has the date, nothing otherwise. */
  lemma WithDateSingle(x: Objective, d: string)
    ensures WithDate([x], d) == if DateKey(x) == d then [x] else []
  {
    assert [x][0] == x && [x][1..] == [];
  }

  /** Exchanging two entries with different dates keeps every date's group
      in its order. */
  lemma SwapKeepsDateGroup(left: seq<Objective>, x: Objective, y: Objective, right: seq<Objective>, d: string)
    requires DateKey(x) != DateKey(y)
    ensures WithDate(left + ([y, x] + right), d) == WithDate(left + ([x, y] + right), d)
  {
    var wx, wy := WithDate([x], d), WithDate([y], d);
    WithDateSingle(x, d);
    WithDateSingle(y, d);
    assert wx + wy == wy + wx;
    assert [x] + [y] == [x, y] && [y] + [x] == [y, x];
    WithDateConcat([x], [y], d);
    WithDateConcat([y], [x], d);
    WithDateConcat([x, y], right, d);
    WithDateConcat([y, x], right, d);
    assert WithDate([x, y] + right, d) == WithDate([y, x] + right, d);
    WithDateConcat(left, [x, y] + right, d);
    WithDateConcat(left, [y, x] + right, d);
  }

  /** Swapping two neighbours with different dates keeps the group of `d`. */
  lemma SwapKeepsDateGroupAt(s: seq<Objective>, j: int, d: string)
    requires 0 < j < |s| && DateKey(s[j - 1]) != DateKey(s[j])
    ensures WithDate(s[j - 1 := s[j]][j := s[j - 1]], d) == WithDate(s, d)
  {
    var x, y := s[j - 1], s[j];
    var left, right := s[..j - 1], s[j + 1..];
    assert s == left + ([x, y] + right);
    assert s[j - 1 := y][j := x] == left + ([y, x] + right);
    SwapKeepsDateGroup(left, x, y, right, d);
  }

  /** Swapping two neighbours with different dates keeps every date's group. */
  lemma SwapKeepsDateGroups(s: seq<Objective>, j: int)
    requires 0 < j < |s| && DateKey(s[j - 1]) != DateKey(s[j])
    ensures forall d :: WithDate(s[j - 1 := s[j]][j := s[j - 1]], d) == WithDate(s, d)
  {
    forall d ensures WithDate(s[j - 1 := s[j]][j := s[j - 1]], d) == WithDate(s, d) {
      SwapKeepsDateGroupAt(s, j, d);
    }
  }

  lemma {:induction false} WithDateCounts(s: seq<Objective>, d: string, o: Objective)
    ensures multiset(WithDate(s, d))[o] == if DateKey(o) == d then multiset(s)[o] else 0
  {
    if s != [] {
      assert s == [s[0]] + s[1..];
      WithDateCounts(s[1..], d, o);
    }
  }

  /** Sequences with the same date groups are permutations of each other. */
  lemma SameDateGroupsSameMultiset(s: seq<Objective>, r: seq<Objective>)
    requires forall d :: WithDate(s, d) == WithDate(r, d)
    ensures multiset(s) == multiset(r)
  {
    forall o ensures multiset(s)[o] == multiset(r)[o] {
      WithDateCounts(s, DateKey(o), o);
      WithDateCounts(r, DateKey(o), o);
      assert WithDate(s, DateKey(o)) == WithDate(r, DateKey(o));
    }
  }

  /** `succes.sort(key=date_validation, reverse=True)`, as a stable insertion
      sort: newest first, and the entries of one date keep their order. */
  method SortNewestFirst(a: array<Objective>)
    modifies a
    ensures NewestFirst(a[..])
    ensures forall d :: WithDate(a[..], d) == WithDate(old(a[..]), d)
    ensures multiset(a[..]) == multiset(old(a[..]))
  {
    var i := 0;
    while i < a.Length
      invariant 0 <= i <= a.Length
      invariant AdjacentNewestFirst(a[..], 0, i)
      invariant forall d :: WithDate(a[..], d) == WithDate(old(a[..]), d)
    {
      var j := i;
      while j > 0 && LexLess(DateKey(a[j - 1]), DateKey(a[j]))
        invariant 0 <= j <= i
        invariant AdjacentNewestFirst(a[..], 0, j)
        invariant AdjacentNewestFirst(a[..], j + 1, i + 1)
        invariant 0 < j < i ==> LexAtLeast(DateKey(a[j - 1]), DateKey(a[j + 1]))
        invariant j < i ==> LexAtLeast(DateKey(a[j]), DateKey(a[j + 1]))
        invariant forall d :: WithDate(a[..], d) == WithDate(old(a[..]), d)
      {
        ghost var s := a[..];
        LexLessIrreflexive(DateKey(a[j]));
        LexLessAsymmetric(DateKey(a[j - 1]), DateKey(a[j]));
        a[j - 1], a[j] := a[j], a[j - 1];
        assert a[..] == s[j - 1 := s[j]][j := s[j - 1]];
        SwapKeepsDateGroups(s, j);
        j := j - 1;
      }
      i := i + 1;
    }
    AdjacentImpliesNewestFirst(a[..]);
    SameDateGroupsSameMultiset(a[..], old(a[..]));
  }

  /** charger_donnees: the objectives of the record (none when the key is
      missing), filtered and sorted newest first; the empty message is shown
      exactly when nothing is left. */
  method ChargerDonnees(objectifs: Option<seq<Objective>>) returns (timeline: seq<Objective>, showEmptyMessage: bool)
    ensures forall i :: 0 <= i < |timeline| ==> IsSuccess(timeline[i])
    ensures NewestFirst(timeline)
    ensures objectifs.Some? ==> multiset(timeline) == multiset(Successes(objectifs.value))
    ensures objectifs.Some? ==> forall d :: WithDate(timeline, d) == WithDate(Successes(objectifs.value), d)
    ensures objectifs == None ==> timeline == []
    ensures showEmptyMessage <==> timeline == []
  {
    var objs := if objectifs.Some? then objectifs.value else [];
    var succes := Successes(objs);
    var a := new Objective[|succes|](i requires 0 <= i < |succes| => succes[i]);
    assert a[..] == succes;
    SortNewestFirst(a);
    timeline := a[..];
    forall i | 0 <= i < |timeline| ensures IsSuccess(timeline[i]) {
      assert timeline[i] in multiset(succes);
    }
    showEmptyMessage := |timeline| == 0;
  }
}
