/** Spreadsheet column letters of the report exporter
    (admin/reporting/exporters/report-export.service.ts): bijective base 26. */
module ColumnLetters {

  ghost predicate IsLetters(s: string) {
    forall i | 0 <= i < |s| :: 'A' <= s[i] <= 'Z'
  }

  /** Alphabet position: A is 1, Z is 26. */
  ghost function Digit(c: char): int {
    c as int - 'A' as int + 1
  }

  /** What a column name means: positional value, last letter least significant. */
  ghost function Decode(s: string): int {
    if s == "" then 0 else 26 * Decode(s[..|s| - 1]) + Digit(s[|s| - 1])
  }

  /** Spreadsheet order of column names: shorter first, then the first differing letter. */
  ghost predicate Before(a: string, b: string) {
    || |a| < |b|
    || (|a| == |b| && exists i | 0 <= i < |a| :: a[..i] == b[..i] && a[i] < b[i])
  }

  /** s is the name of a column; columns count from 1, anything below has the empty name. */
  ghost predicate Names(s: string, column: int) {
    && IsLetters(s)
    && (if column > 0 then s != "" && Decode(s) == column else s == "")
  }

  ghost function Pow26(k: nat): int {
    if k == 0 then 1 else 26 * Pow26(k - 1)
  }

  lemma {:induction false} DecodePrepend(c: char, s: string)
    ensures Decode([c] + s) == Digit(c) * Pow26(|s|) + Decode(s)
  {
    if s == "" {
      assert ([c] + s)[..0] == "";
    } else {
      var front := s[..|s| - 1];
      assert ([c] + s)[..|s|] == [c] + front;
      DecodePrepend(c, front);
    }
  }

  lemma ShiftDigit(number: int, letter: char, p: int)
    requires number > 0 && Digit(letter) == (number - 1) % 26 + 1
    ensures number * p == ((number - 1) / 26) * (26 * p) + Digit(letter) * p
  {
    var rest := (number - 1) / 26;
    assert number == 26 * rest + Digit(letter);
    assert number * p == (26 * rest) * p + Digit(letter) * p;
  }

  method GetColumnLetter(columnNumber: int) returns (result: string)
    ensures Names(result, columnNumber)
  {
    result := "";
    var number := columnNumber;
    while number > 0
      invariant IsLetters(result)
      invariant columnNumber > 0 ==> number >= 0 && number * Pow26(|result|) + Decode(result) == columnNumber
      invariant columnNumber > 0 && number == 0 ==> result != ""
      invariant columnNumber <= 0 ==> number == columnNumber && result == ""
      decreases number
    {
      var remainder := (number - 1) % 26;
      var letter := (65 + remainder) as char;
      DecodePrepend(letter, result);
      ShiftDigit(number, letter, Pow26(|result|));
      result := [letter] + result;
      number := (number - 1) / 26;
    }
  }

  /** Any two names in spreadsheet order decode to numbers in the same order. */
  lemma {:induction false} DecodeKeepsOrder(a: string, b: string)
    requires IsLetters(a) && IsLetters(b) && Before(a, b)
    ensures 0 <= Decode(a) < Decode(b)
    decreases |b|
  {
    var bFront := b[..|b| - 1];
    if a == "" {
      if bFront != "" {
        DecodeKeepsOrder("", bFront);
      }
    } else {
      var aFront := a[..|a| - 1];
      if aFront == bFront {
        DecodeNonNegative(aFront);
        if |a| == |b| {
          var i :| 0 <= i < |a| && a[..i] == b[..i] && a[i] < b[i];
          assert i == |a| - 1 by {
            assert forall j | 0 <= j < |aFront| :: a[j] == aFront[j] && b[j] == bFront[j];
          }
        }
      } else {
        assert Before(aFront, bFront) by {
          if |a| == |b| {
            var i :| 0 <= i < |a| && a[..i] == b[..i] && a[i] < b[i];
            assert i < |a| - 1;
            assert aFront[..i] == a[..i] && bFront[..i] == b[..i];
          }
        }
        DecodeKeepsOrder(aFront, bFront);
      }
    }
  }

  lemma {:induction false} DecodeNonNegative(s: string)
    requires IsLetters(s)
    ensures Decode(s) >= |s|
  {
    if s != "" {
      DecodeNonNegative(s[..|s| - 1]);
    }
  }

  lemma {:induction false} BeforeIsTotal(a: string, b: string)
    ensures a == b || Before(a, b) || Before(b, a)
    decreases |a|
  {
    if |a| == |b| && a != b {
      var aFront, bFront := a[..|a| - 1], b[..|b| - 1];
      if aFront == bFront {
        var i := |a| - 1;
        assert a[..i] == b[..i] && a[i] != b[i] by {
          assert a == aFront + [a[i]] && b == bFront + [b[i]];
        }
      } else {
        BeforeIsTotal(aFront, bFront);
        var i :| 0 <= i < |aFront| && aFront[..i] == bFront[..i] && aFront[i] != bFront[i];
        assert a[..i] == aFront[..i] && b[..i] == bFront[..i];
        assert a[i] != b[i];
      }
    }
  }

  /** Column order and spreadsheet order are the same order, so a name belongs to one column only. */
  lemma OrderIsSpreadsheetOrder(a: string, b: string)
    requires IsLetters(a) && IsLetters(b)
    ensures Decode(a) < Decode(b) <==> Before(a, b)
    ensures Decode(a) == Decode(b) <==> a == b
  {
    BeforeIsTotal(a, b);
    if Before(a, b) {
      DecodeKeepsOrder(a, b);
    }
    if Before(b, a) {
      DecodeKeepsOrder(b, a);
    }
  }

  /** Columns and nonempty names correspond one to one: a column has one name only, every nonempty
      name names a column, and numeric order is spreadsheet order. */
  lemma NamesAreOneToOne(s: string, t: string, m: int, n: int)
    requires Names(s, m) && Names(t, n) && m > 0 && n > 0
    ensures m == n <==> s == t
    ensures m < n <==> Before(s, t)
  {
    OrderIsSpreadsheetOrder(s, t);
  }

  lemma EveryNameNamesAColumn(s: string)
    requires IsLetters(s) && s != ""
    ensures Decode(s) > 0 && Names(s, Decode(s))
    ensures forall column | Names(s, column) :: column == Decode(s)
  {
    DecodeNonNegative(s);
  }
}
