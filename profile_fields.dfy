/** What the profile page (frontend/src/components/profile/UserProfile.tsx)
    and the profile set-up form (frontend/src/components/profile/ProfileSetupForm.tsx)
    share, written identically in both: the birth-date input formatter, the
    toggling and removal of list entries, and the conversion of a
    `DD.MM.YYYY` date into the server's `YYYY-MM-DD`. */
module ProfileFields {
  import opened Text
  import opened Sorting

  /** `value.replace(/\D/g, '')`. */
  function DigitsOf(s: string): (r: string)
    ensures AllDigits(r) && |r| <= |s|
    ensures AllDigits(s) ==> r == s
  {
    if s == [] then []
    else if IsDigit(s[0]) then [s[0]] + DigitsOf(s[1..])
    else DigitsOf(s[1..])
  }

  lemma {:induction false} DigitsOfAppend(a: string, b: string)
    ensures DigitsOf(a + b) == DigitsOf(a) + DigitsOf(b)
  {
    if a == [] {
      assert a + b == b;
    } else {
      assert (a + b)[1..] == a[1..] + b;
      DigitsOfAppend(a[1..], b);
    }
  }

  /** The grouping of a digit string: `DD`, `DD.M…` or `DD.MM.YYYY`. */
  function Group(d: string): string
  {
    if |d| <= 2 then d
    else if |d| <= 4 then d[..2] + "." + d[2..]
    else d[..2] + "." + d[2..4] + "." + d[4..if |d| < 8 then |d| else 8]
  }

  /** A dot between two texts adds no digit. */
  lemma DigitsAroundDot(a: string, b: string)
    ensures DigitsOf(a + "." + b) == DigitsOf(a) + DigitsOf(b)
  {
    var dot: string := ".";
    assert !IsDigit(dot[0]) && dot[1..] == [];
    assert DigitsOf(dot) == DigitsOf([]) == [];
    DigitsOfAppend(a, dot);
    DigitsOfAppend(a + dot, b);
  }

  lemma GroupLongKeepsDigits(d: string)
    requires AllDigits(d) && |d| > 4
    ensures DigitsOf(Group(d)) == Take(d, 8)
  {
    var e := if |d| < 8 then |d| else 8;
    var x, y, z := d[..2], d[2..4], d[4..e];
    assert AllDigits(x) && AllDigits(y) && AllDigits(z);
    DigitsAroundDot(x, y);
    DigitsAroundDot(x + "." + y, z);
    assert x + y + z == d[..e];
  }

  /** The grouping keeps the first eight digits, in order, and adds only
      dots. */
  lemma GroupKeepsDigits(d: string)
    requires AllDigits(d)
    ensures DigitsOf(Group(d)) == Take(d, 8)
    ensures |Group(d)| <= 10
  {
    if |d| > 4 {
      GroupLongKeepsDigits(d);
    } else if |d| > 2 {
      DigitsAroundDot(d[..2], d[2..]);
      assert d[..2] + d[2..] == d;
    }
  }

  /** `formatBirthDate`: the digits of the input, grouped as `DD`, `DD.M…`
      or `DD.MM.YYYY`, with at most eight digits kept and at most ten
      characters in all. */
  function FormatBirthDate(value: string): (r: string)
    ensures |r| <= 10
    ensures DigitsOf(r) == Take(DigitsOf(value), 8)
  {
    GroupKeepsDigits(DigitsOf(value));
    Group(DigitsOf(value))
  }

  /** The three shapes of the formatted text. */
  lemma FormatBirthDateShape(value: string)
    ensures var d := DigitsOf(value); var r := FormatBirthDate(value);
      (|d| <= 2 ==> r == d) &&
      (2 < |d| <= 4 ==> r == d[..2] + "." + d[2..]) &&
      (4 < |d| ==> r == d[..2] + "." + d[2..4] + "." + Take(d[4..], 4))
  {
  }

  /** Formatting what the formatter produced changes nothing, so typing into
      the field never reshapes a date already entered. */
  lemma FormatIdempotent(value: string)
    ensures FormatBirthDate(FormatBirthDate(value)) == FormatBirthDate(value)
  {
    var d := DigitsOf(value);
    var e := DigitsOf(FormatBirthDate(value));
    assert e == Take(d, 8);
    assert Group(e) == Group(d);
  }

  /** The date pattern of the set-up schema, `^\d{2}\.\d{2}\.\d{4}$`. */
  predicate DisplayDate(s: string) {
    |s| == 10 && s[2] == '.' && s[5] == '.' &&
    AllDigits(s[..2]) && AllDigits(s[3..5]) && AllDigits(s[6..])
  }

  /** Eight digits or more always give a date of the schema's shape. */
  lemma FormatGivesDate(value: string)
    requires |DigitsOf(value)| >= 8
    ensures DisplayDate(FormatBirthDate(value))
  {
    var d := DigitsOf(value);
    var r := Group(d);
    assert r == d[..2] + "." + d[2..4] + "." + d[4..8];
    assert r[..2] == d[..2] && r[3..5] == d[2..4] && r[6..] == d[4..8];
  }

  /** A complete date is left as it is. */
  lemma DateIsFixpoint(s: string)
    requires DisplayDate(s)
    ensures FormatBirthDate(s) == s
  {
    assert s == s[..2] + "." + s[3..5] + "." + s[6..];
    DigitsOfAppend(s[..2], ".");
    DigitsOfAppend(s[..2] + ".", s[3..5]);
    DigitsOfAppend(s[..2] + "." + s[3..5], ".");
    DigitsOfAppend(s[..2] + "." + s[3..5] + ".", s[6..]);
    var d := DigitsOf(s);
    assert d == s[..2] + s[3..5] + s[6..];
    assert d[..2] == s[..2] && d[2..4] == s[3..5] && d[4..] == s[6..];
  }

  /** `s.split(c)`: the pieces between the separators, at least one. */
  function SplitOn(s: string, c: char): (r: seq<string>)
    ensures |r| >= 1
    ensures c !in s ==> r == [s]
    ensures forall i :: 0 <= i < |r| ==> c !in r[i]
  {
    if s == [] then [[]]
    else
      var rest := SplitOn(s[1..], c);
      if s[0] == c then [[]] + rest
      else
        var r := [[s[0]] + rest[0]] + rest[1..];
        assert forall i :: 0 < i < |r| ==> r[i] == rest[i];
        assert c !in r[0] by { assert c !in rest[0]; }
        assert c !in s ==> r == [s] by {
          if c !in s {
            assert c !in s[1..];
            assert [s[0]] + s[1..] == s;
          }
        }
        r
  }

  lemma SplitAt(a: string, b: string, c: char)
    requires c !in a
    ensures SplitOn(a + [c] + b, c) == [a] + SplitOn(b, c)
  {
    if a == [] {
      assert a + [c] + b == [c] + b;
      assert ([c] + b)[1..] == b;
    } else {
      assert (a + [c] + b)[1..] == a[1..] + [c] + b;
      SplitAt(a[1..], b, c);
      assert [a[0]] + a[1..] == a;
    }
  }

  /** A piece of a destructured split, as a template literal shows it:
      a missing piece is `undefined`. */
  function Piece(parts: seq<string>, i: nat): (r: string)
    ensures i < |parts| ==> r == parts[i]
    ensures i >= |parts| ==> r == "undefined"
  {
    if i < |parts| then parts[i] else "undefined"
  }

  /** The conversion before saving: `const [day, month, year] =
      birthDate.split('.')` and then `${year}-${month}-${day}`. */
  function IsoFromDisplay(birthDate: string): (r: string)
  {
    var parts := SplitOn(birthDate, '.');
    Piece(parts, 2) + "-" + Piece(parts, 1) + "-" + Piece(parts, 0)
  }

  /** A `DD.MM.YYYY` date becomes `YYYY-MM-DD`. */
  lemma IsoFromDate(s: string)
    requires DisplayDate(s)
    ensures IsoFromDisplay(s) == s[6..] + "-" + s[3..5] + "-" + s[..2]
  {
    assert s == s[..2] + ['.'] + (s[3..5] + ['.'] + s[6..]);
    assert '.' !in s[..2] by {
      forall i | 0 <= i < 2 ensures s[..2][i] != '.' { assert IsDigit(s[..2][i]); }
    }
    assert '.' !in s[3..5] by {
      forall i | 0 <= i < 2 ensures s[3..5][i] != '.' { assert IsDigit(s[3..5][i]); }
    }
    assert '.' !in s[6..] by {
      forall i | 0 <= i < 4 ensures s[6..][i] != '.' { assert IsDigit(s[6..][i]); }
    }
    SplitAt(s[..2], s[3..5] + ['.'] + s[6..], '.');
    SplitAt(s[3..5], s[6..], '.');
  }

  /** The server's `YYYY-MM-DD` form of a date. */
  predicate IsoDate(s: string) {
    |s| == 10 && s[4] == '-' && s[7] == '-' &&
    AllDigits(s[..4]) && AllDigits(s[5..7]) && AllDigits(s[8..])
  }

  /** A date of the schema's shape always converts to the server's shape. */
  lemma DateConvertsToIso(s: string)
    requires DisplayDate(s)
    ensures IsoDate(IsoFromDisplay(s))
    ensures var r := IsoFromDisplay(s); r[..4] == s[6..] && r[5..7] == s[3..5] && r[8..] == s[..2]
  {
    IsoFromDate(s);
    var r := IsoFromDisplay(s);
    assert r[..4] == s[6..] && r[5..7] == s[3..5] && r[8..] == s[..2];
  }

  /** Text without a dot is taken whole as the day, so the year and month
      come out as `undefined`. */
  lemma IsoFromUndotted(s: string)
    requires '.' !in s
    ensures IsoFromDisplay(s) == "undefined-undefined-" + s
  {
    assert IsoFromDisplay(s) == "undefined" + "-" + "undefined" + "-" + s;
    UndefinedTwice();
  }

  /** The two missing pieces and their separators, as one literal. */
  lemma UndefinedTwice()
    ensures "undefined" + "-" + "undefined" + "-" == "undefined-undefined-"
  {
  }

  /** `list.includes(x) ? list.filter(y => y !== x) : [...list, x]`. */
  function Toggle<T(==,!new)>(list: seq<T>, x: T): (r: seq<T>)
    ensures x in list ==> r == Without(list, x)
    ensures x !in list ==> r == list + [x]
  {
    if x in list then Without(list, x) else list + [x]
  }

  /** Toggling an absent entry twice restores the list. */
  lemma ToggleTwiceAbsent<T(!new)>(list: seq<T>, x: T)
    requires x !in list
    ensures Toggle(Toggle(list, x), x) == list
  {
    WithoutAppend(list, [x], x);
  }

  /** Toggling a present entry twice moves it, once, to the end. */
  lemma ToggleTwicePresent<T(!new)>(list: seq<T>, x: T)
    requires x in list
    ensures Toggle(Toggle(list, x), x) == Without(list, x) + [x]
  {
  }

  /** Toggling keeps a list free of duplicates. */
  lemma ToggleKeepsDistinct<T(!new)>(list: seq<T>, x: T)
    requires NoDuplicates(list)
    ensures NoDuplicates(Toggle(list, x))
  {
    if x in list {
      WithoutKeepsDistinct(list, x);
    }
  }
}
