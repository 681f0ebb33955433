/**
 * The elapsed-time line the chat session prints after each turn:
 * `duration: ${String(ms).replace(/\B(?=(\d{3})+(?!\d))/g, ',')}ms`.
 * The regular expression is modelled as written (a position where \B and
 * the lookahead both hold) and proved equal to grouping the digits in
 * threes from the right.
 */
module DurationFormat {
  import opened JsValues

  /** \w: letters, digits and underscore. */
  predicate IsWordChar(c: char) {
    IsDigit(c) || 'a' <= c <= 'z' || 'A' <= c <= 'Z' || c == '_'
  }

  /** \B at position p: the characters on both sides are both word characters or both not. */
  predicate NotWordBoundary(s: string, p: nat)
    requires p <= |s|
  {
    (p > 0 && IsWordChar(s[p - 1])) == (p < |s| && IsWordChar(s[p]))
  }

  /** (?=(\d{3})+(?!\d)) at position p: one or more groups of three digits, then no digit. */
  predicate DigitTriplesToEnd(s: string, p: nat)
    requires p <= |s|
    decreases |s| - p
  {
    p + 3 <= |s| && IsDigit(s[p]) && IsDigit(s[p + 1]) && IsDigit(s[p + 2]) &&
    (p + 3 == |s| || !IsDigit(s[p + 3]) || DigitTriplesToEnd(s, p + 3))
  }

  /** The regular expression matches (an empty string) at position p. */
  predicate SeparatorAt(s: string, p: nat)
    requires p <= |s|
  {
    NotWordBoundary(s, p) && DigitTriplesToEnd(s, p)
  }

  /** `s.replace(regex, ',')` with the global flag, from position p on: a comma at every match. */
  function ReplaceFrom(s: string, p: nat): (r: string)
    requires p <= |s|
    ensures |s| - p <= |r| <= 2 * (|s| - p) + 1
    ensures p < |s| && !SeparatorAt(s, p) ==> r[0] == s[p]
    ensures RemoveCommas(r) == RemoveCommas(s[p..])
    decreases |s| - p
  {
    var sep: string := if SeparatorAt(s, p) then "," else "";
    assert RemoveCommas(sep) == [] by {
      if sep != [] {
        assert sep[1..] == [];
      }
    }
    if p == |s| then
      assert sep + "" == sep;
      sep + ""
    else
      var rest := ReplaceFrom(s, p + 1);
      RemoveCommasAppend(sep, [s[p]] + rest);
      RemoveCommasAppend([s[p]], rest);
      RemoveCommasAppend([s[p]], s[p + 1..]);
      assert s[p..] == [s[p]] + s[p + 1..];
      sep + ([s[p]] + rest)
  }

  /** The replacement only inserts commas: deleting them gives back the input with its own commas deleted. */
  function AddSeparators(s: string): (r: string)
    ensures RemoveCommas(r) == RemoveCommas(s)
  {
    assert s[0..] == s;
    ReplaceFrom(s, 0)
  }

  /** The printed line for an elapsed time of `ms` milliseconds. */
  function DurationLine(ms: int): string {
    "duration: " + AddSeparators(IntToDecimal(ms)) + "ms"
  }

  /** Reference definition: the digits grouped in threes from the right, groups joined by commas. */
  function Grouped(d: string): string
    decreases |d|
  {
    if |d| <= 3 then d else Grouped(d[..|d| - 3]) + "," + d[|d| - 3..]
  }

  function RemoveCommas(s: string): string {
    if s == [] then [] else (if s[0] == ',' then [] else [s[0]]) + RemoveCommas(s[1..])
  }

  lemma {:induction false} RemoveCommasAppend(a: string, b: string)
    ensures RemoveCommas(a + b) == RemoveCommas(a) + RemoveCommas(b)
  {
    if a != [] {
      assert (a + b)[1..] == a[1..] + b;
      RemoveCommasAppend(a[1..], b);
    } else {
      assert a + b == b;
    }
  }

  lemma {:induction false} RemoveCommasOfDigits(d: string)
    requires AllDigits(d)
    ensures RemoveCommas(d) == d
  {
    if d != [] {
      RemoveCommasOfDigits(d[1..]);
    }
  }

  /** Where the pattern matches inside a run of digits that starts at o: (|s| - p) is a positive multiple of 3. */
  lemma {:induction false} TriplesInDigits(s: string, o: nat, p: nat)
    requires o <= p <= |s| && forall i :: o <= i < |s| ==> IsDigit(s[i])
    ensures DigitTriplesToEnd(s, p) <==> p < |s| && (|s| - p) % 3 == 0
    decreases |s| - p
  {
    if p + 3 < |s| {
      TriplesInDigits(s, o, p + 3);
    }
  }

  lemma SeparatorInDigits(s: string, o: nat, p: nat)
    requires o < |s| && o <= p <= |s| && forall i :: o <= i < |s| ==> IsDigit(s[i])
    requires o == 0 || !IsWordChar(s[o - 1])
    ensures SeparatorAt(s, p) <==> o < p < |s| && (|s| - p) % 3 == 0
  {
    TriplesInDigits(s, o, p);
  }

  /** The scan with the matching positions counted from the start of the digits. */
  function CommaScan(d: string, q: nat): string
    requires q <= |d|
    decreases |d| - q
  {
    (if 0 < q < |d| && (|d| - q) % 3 == 0 then "," else "") +
    (if q == |d| then "" else [d[q]] + CommaScan(d, q + 1))
  }

  lemma {:induction false} ReplaceIsCommaScan(s: string, o: nat, p: nat)
    requires o < |s| && o <= p <= |s| && forall i :: o <= i < |s| ==> IsDigit(s[i])
    requires o == 0 || !IsWordChar(s[o - 1])
    ensures ReplaceFrom(s, p) == CommaScan(s[o..], p - o)
    decreases |s| - p
  {
    SeparatorInDigits(s, o, p);
    if p < |s| {
      ReplaceIsCommaScan(s, o, p + 1);
    }
  }

  /** Within the last two digits the scan inserts nothing. */
  lemma {:induction false} TailScan(d: string, q: nat)
    requires |d| - 2 <= q <= |d|
    ensures CommaScan(d, q) == d[q..]
    decreases |d| - q
  {
    if q < |d| {
      TailScan(d, q + 1);
      assert |d| - q == 1 || |d| - q == 2;
      assert d[q..] == [d[q]] + d[q + 1..];
    }
  }

  /** Three digits from the end the scan puts a comma (unless at the start). */
  lemma CommaBeforeLastGroup(d: string, q: nat)
    requires 0 < q && q + 3 == |d|
    ensures CommaScan(d, q) == "," + ([d[q]] + CommaScan(d, q + 1))
  {
    assert (|d| - q) % 3 == 0;
  }

  /** The scan of the last three digits puts the comma that precedes them. */
  lemma LastGroupScan(d: string)
    requires |d| >= 4
    ensures CommaScan(d, |d| - 3) == "," + d[|d| - 3..]
  {
    var q := |d| - 3;
    var last := d[q..];
    CommaBeforeLastGroup(d, q);
    TailScan(d, q + 1);
    assert last == [d[q]] + d[q + 1..];
    calc {
      CommaScan(d, q);
      "," + ([d[q]] + CommaScan(d, q + 1));
      "," + ([d[q]] + d[q + 1..]);
      "," + last;
    }
  }

  /** Splitting off the last three digits: the scan of a + b is the scan of a, a comma, then b. */
  lemma {:induction false} CommaScanSplit(a: string, b: string, q: nat)
    requires |a| >= 1 && |b| == 3 && q <= |a|
    ensures CommaScan(a + b, q) == CommaScan(a, q) + "," + b
    decreases |a| - q
  {
    var d := a + b;
    if q < |a| {
      CommaScanSplit(a, b, q + 1);
      assert d[q] == a[q];
      assert (|d| - q) % 3 == (|a| - q) % 3 by {
        assert |d| - q == (|a| - q) + 3;
      }
      var sep := if 0 < q < |a| && (|a| - q) % 3 == 0 then "," else "";
      calc {
        CommaScan(d, q);
        sep + ([d[q]] + CommaScan(d, q + 1));
        sep + ([a[q]] + (CommaScan(a, q + 1) + "," + b));
        (sep + ([a[q]] + CommaScan(a, q + 1))) + "," + b;
      }
    } else {
      LastGroupScan(d);
      assert d[|d| - 3..] == b;
      assert CommaScan(a, q) == "";
    }
  }

  lemma {:induction false} ShortScan(d: string, q: nat)
    requires |d| <= 3 && q <= |d|
    ensures CommaScan(d, q) == d[q..]
    decreases |d| - q
  {
    if q < |d| {
      ShortScan(d, q + 1);
    }
  }

  lemma {:induction false} CommaScanIsGrouped(d: string)
    requires |d| >= 1
    ensures CommaScan(d, 0) == Grouped(d)
    decreases |d|
  {
    if |d| <= 3 {
      ShortScan(d, 0);
    } else {
      var a, b := d[..|d| - 3], d[|d| - 3..];
      assert d == a + b;
      CommaScanSplit(a, b, 0);
      CommaScanIsGrouped(a);
    }
  }

  /**
   * The separator regex applied to String(ms) groups the digits in threes
   * from the right, keeping a leading minus sign in front.
   */
  lemma SeparatorsGroupDigits(ms: int)
    ensures AddSeparators(IntToDecimal(ms)) ==
              (if ms < 0 then "-" else "") + Grouped(NatToDecimal(if ms < 0 then -ms else ms))
  {
    var d := NatToDecimal(if ms < 0 then -ms else ms);
    var s := IntToDecimal(ms);
    if ms < 0 {
      assert s == "-" + d && s[1..] == d;
      ReplaceIsCommaScan(s, 1, 1);
      assert !DigitTriplesToEnd(s, 0);
      assert ReplaceFrom(s, 0) == "-" + ReplaceFrom(s, 1);
    } else {
      ReplaceIsCommaScan(s, 0, 0);
      assert s[0..] == s;
    }
    CommaScanIsGrouped(d);
  }

  /** The printed line: the label, the grouped digits (minus sign in front), then the unit. */
  lemma DurationLineGroupsDigits(ms: int)
    ensures DurationLine(ms) ==
              "duration: " + (if ms < 0 then "-" else "") + Grouped(NatToDecimal(if ms < 0 then -ms else ms)) + "ms"
  {
    SeparatorsGroupDigits(ms);
  }

  /** Grouping only inserts commas: removing them gives the digits back. */
  lemma {:induction false} GroupedRemoveCommas(d: string)
    requires AllDigits(d)
    ensures RemoveCommas(Grouped(d)) == d
    decreases |d|
  {
    if |d| <= 3 {
      RemoveCommasOfDigits(d);
    } else {
      var a, b := d[..|d| - 3], d[|d| - 3..];
      GroupedRemoveCommas(a);
      RemoveCommasAppend(Grouped(a) + ",", b);
      RemoveCommasAppend(Grouped(a), ",");
      RemoveCommasOfDigits(b);
      assert RemoveCommas(",") == [];
      assert a + b == d;
    }
  }

  /**
   * Grouping keeps at most three digits before the first comma and exactly
   * three after each comma: the comma positions count from the right.
   */
  lemma {:induction false} GroupedShape(d: string)
    requires AllDigits(d) && |d| >= 1
    ensures var g := Grouped(d);
            |g| == |d| + (|d| - 1) / 3 &&
            forall i :: 0 <= i < |g| ==> (g[i] == ',' <==> i > 0 && (|g| - i) % 4 == 0)
    decreases |d|
  {
    var g := Grouped(d);
    if |d| <= 3 {
      forall i | 0 <= i < |g| ensures g[i] != ',' {
        assert IsDigit(d[i]);
      }
    } else {
      var a, b := d[..|d| - 3], d[|d| - 3..];
      assert AllDigits(a) && AllDigits(b);
      GroupedShape(a);
      var ga := Grouped(a);
      assert g == ga + "," + b;
      assert |g| == |ga| + 4;
      assert (|d| - 1) / 3 == (|a| - 1) / 3 + 1 by {
        assert |d| - 1 == (|a| - 1) + 3;
      }
      forall i | 0 <= i < |g|
        ensures g[i] == ',' <==> i > 0 && (|g| - i) % 4 == 0
      {
        if i < |ga| {
          assert g[i] == ga[i];
          assert (|g| - i) % 4 == (|ga| - i) % 4 by {
            assert |g| - i == (|ga| - i) + 4;
          }
        } else if i == |ga| {
          assert g[i] == ',';
        } else {
          assert g[i] == b[i - |ga| - 1];
          assert IsDigit(b[i - |ga| - 1]);
          assert 1 <= |g| - i <= 3;
        }
      }
    }
  }

  /** Durations below one second are printed unchanged. */
  lemma BelowThousandUnchanged(ms: int)
    requires 0 <= ms < 1000
    ensures AddSeparators(IntToDecimal(ms)) == IntToDecimal(ms)
  {
    SeparatorsGroupDigits(ms);
    DecimalLength(ms);
  }

  /** Deleting the commas of a printed duration gives back the numeral, which reads back as the number. */
  lemma SeparatorsRoundTrip(ms: int)
    ensures RemoveCommas(AddSeparators(IntToDecimal(ms))) == IntToDecimal(ms)
    ensures ms >= 0 ==> DecimalValue(RemoveCommas(AddSeparators(IntToDecimal(ms)))) == ms
  {
    var d := NatToDecimal(if ms < 0 then -ms else ms);
    SeparatorsGroupDigits(ms);
    GroupedRemoveCommas(d);
    if ms < 0 {
      RemoveCommasAppend("-", Grouped(d));
      assert RemoveCommas("-") == "-";
    } else {
      assert "" + Grouped(d) == Grouped(d);
      DecimalRoundTrip(ms);
    }
  }
}
