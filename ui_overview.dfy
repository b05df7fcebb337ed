/** The helpers of the session overview (internal/ui/overview.go): numbers
    with thousands separators, the sorted and shortened path lists, and the
    guard of the token bar.  The scroll window of the overview is
    UiCommon.ScrollWindow. */
module Overview {
  import opened Wrappers
  import opened GoStrings
  import opened SessionTypes
  import opened UiCommon
  import Sorting

  // ---------------------------------------------------------------------
  // Thousands separators

  /** Digit groups from the right: a comma before each group of three
      characters, counted from the end. */
  function Commafy(s: string): (r: string)
    decreases |s|
  {
    if |s| <= 3 then s else Commafy(s[..|s| - 3]) + "," + s[|s| - 3..]
  }

  /** What formatTokensComma prints: "0" for zero, otherwise the decimal
      text of n grouped by Commafy, the minus sign included. */
  function CommaText(n: int): string
  {
    if n == 0 then "0" else Commafy(Itoa(n))
  }

  /** The text the loop of formatTokensComma has built after the first i
      characters of s. */
  ghost function CommaPrefix(s: string, i: nat): string
    requires i <= |s|
  {
    if i == 0 then []
    else CommaPrefix(s, i - 1) + (if i - 1 > 0 && (|s| - (i - 1)) % 3 == 0 then [','] else []) + [s[i - 1]]
  }

  /** formatTokensComma: copies the decimal text of n, putting a comma
      before character i when i > 0 and the characters from i on are a
      multiple of three. */
  method FormatTokensComma(n: int) returns (r: string)
    ensures r == CommaText(n)
  {
    if n == 0 {
      return "0";
    }
    var s := Itoa(n);
    var out: string := [];
    var i := 0;
    while i < |s|
      invariant 0 <= i <= |s|
      invariant out == CommaPrefix(s, i)
    {
      if i > 0 && (|s| - i) % 3 == 0 {
        out := out + [','];
      }
      out := out + [s[i]];
      i := i + 1;
    }
    CommaPrefixIsCommafy(s);
    r := out;
  }

  lemma {:induction false} CommaPrefixShort(s: string, i: nat)
    requires i <= |s| <= 3
    ensures CommaPrefix(s, i) == s[..i]
  {
    if i > 0 {
      CommaPrefixShort(s, i - 1);
      assert s[..i] == s[..i - 1] + [s[i - 1]];
    }
  }

  lemma {:induction false} CommaPrefixDropGroup(s: string, i: nat)
    requires |s| > 3 && i <= |s| - 3
    ensures CommaPrefix(s, i) == CommaPrefix(s[..|s| - 3], i)
  {
    if i > 0 {
      CommaPrefixDropGroup(s, i - 1);
    }
  }

  /** The left-to-right loop and the right-to-left grouping agree. */
  lemma {:induction false} CommaPrefixIsCommafy(s: string)
    ensures CommaPrefix(s, |s|) == Commafy(s)
    decreases |s|
  {
    if |s| <= 3 {
      CommaPrefixIsCommafyShort(s);
    } else {
      CommaPrefixIsCommafy(s[..|s| - 3]);
      CommaPrefixIsCommafyStep(s);
    }
  }

  lemma CommaPrefixIsCommafyShort(s: string)
    requires |s| <= 3
    ensures CommaPrefix(s, |s|) == Commafy(s)
  {
    CommaPrefixShort(s, |s|);
    assert s[..|s|] == s;
  }

  /** If the loop agrees with the grouping on all but the last group, it
      agrees on the whole text. */
  lemma CommaPrefixIsCommafyStep(s: string)
    requires |s| > 3
    requires CommaPrefix(s[..|s| - 3], |s| - 3) == Commafy(s[..|s| - 3])
    ensures CommaPrefix(s, |s|) == Commafy(s)
  {
    CommaPrefixDropGroup(s, |s| - 3);
    CommaPrefixLastGroup(s);
    CommafyLastGroup(s, s[|s| - 3], s[|s| - 2], s[|s| - 1]);
  }

  /** The loop ends with a comma and the last three characters. */
  lemma CommaPrefixLastGroup(s: string)
    requires |s| > 3
    ensures CommaPrefix(s, |s|) == CommaPrefix(s, |s| - 3) + [','] + [s[|s| - 3]] + [s[|s| - 2]] + [s[|s| - 1]]
  {
    var n := |s|;
    CommaPrefixComma(s, n - 2);
    CommaPrefixPlain(s, n - 1);
    CommaPrefixPlain(s, n);
  }

  /** The grouping ends with a comma and the last three characters. */
  lemma CommafyLastGroup(s: string, a: char, b: char, c: char)
    requires |s| > 3 && a == s[|s| - 3] && b == s[|s| - 2] && c == s[|s| - 1]
    ensures Commafy(s) == Commafy(s[..|s| - 3]) + [','] + [a] + [b] + [c]
  {
    LastThree(s);
  }

  /** One step of the loop that puts a comma first. */
  lemma CommaPrefixComma(s: string, i: nat)
    requires 2 <= i <= |s| && (|s| - (i - 1)) % 3 == 0
    ensures CommaPrefix(s, i) == CommaPrefix(s, i - 1) + [','] + [s[i - 1]]
  {
  }

  /** One step of the loop that only copies a character. */
  lemma CommaPrefixPlain(s: string, i: nat)
    requires 1 <= i <= |s| && (|s| - (i - 1)) % 3 != 0
    ensures CommaPrefix(s, i) == CommaPrefix(s, i - 1) + [s[i - 1]]
  {
  }

  lemma LastThree(s: string)
    requires |s| >= 3
    ensures s[|s| - 3..] == [s[|s| - 3]] + [s[|s| - 2]] + [s[|s| - 1]]
  {
  }

  /** s without its commas. */
  function StripCommas(s: string): string
  {
    if s == [] then [] else StripCommas(s[..|s| - 1]) + (if s[|s| - 1] == ',' then [] else [s[|s| - 1]])
  }

  lemma {:induction false} StripCommasAppend(a: string, b: string)
    ensures StripCommas(a + b) == StripCommas(a) + StripCommas(b)
    decreases |b|
  {
    if b == [] {
      assert a + b == a;
    } else {
      var b' := b[..|b| - 1];
      assert (a + b)[..|a + b| - 1] == a + b';
      assert (a + b)[|a + b| - 1] == b[|b| - 1];
      StripCommasAppend(a, b');
    }
  }

  lemma {:induction false} StripCommasNone(s: string)
    requires ',' !in s
    ensures StripCommas(s) == s
  {
    if s != [] {
      assert ',' !in s[..|s| - 1];
      StripCommasNone(s[..|s| - 1]);
      assert s == s[..|s| - 1] + [s[|s| - 1]];
    }
  }

  lemma StripCommasAroundComma(a: string, b: string)
    ensures StripCommas(a + "," + b) == StripCommas(a) + StripCommas(b)
  {
    var x := a + ",";
    assert a + "," + b == x + b;
    StripCommasAppend(x, b);
    assert x[..|x| - 1] == a && x[|x| - 1] == ',';
    assert StripCommas(x) == StripCommas(a);
  }

  /** Removing the commas gives back the text that was grouped. */
  lemma {:induction false} CommafyStrips(s: string)
    requires ',' !in s
    ensures StripCommas(Commafy(s)) == s
    decreases |s|
  {
    if |s| <= 3 {
      StripCommasNone(s);
    } else {
      var t := s[..|s| - 3];
      var u := s[|s| - 3..];
      assert ',' !in t && ',' !in u;
      CommafyStrips(t);
      StripCommasAroundComma(Commafy(t), u);
      StripCommasNone(u);
      assert s == t + u;
    }
  }

  /** For n >= 0 the commas stand between the decimal digits of n and
      nothing else: removing them gives the digits back. */
  lemma CommaTextDigits(n: nat)
    ensures StripCommas(CommaText(n)) == Digits(n)
  {
    if n == 0 {
      assert StripCommas("0") == StripCommas("") + "0";
    } else {
      var d := Digits(n);
      assert forall i :: 0 <= i < |d| ==> d[i] != ',';
      CommafyStrips(d);
    }
  }

  /** Below 1000 there is no separator. */
  lemma CommaTextSmall(n: nat)
    requires n < 1000
    ensures CommaText(n) == Digits(n)
  {
  }

  /** The groups of Commafy: the text before the first comma has one to
      three characters, and every comma is followed by exactly three
      characters before the next comma or the end. */
  ghost predicate Grouped(r: string) {
    && (forall i :: 0 <= i < |r| && r[i] == ',' ==> 1 <= i)
    && (|r| > 3 ==> ',' in r[..4])
    && (forall i :: 0 <= i < |r| && r[i] == ',' ==>
          i + 3 < |r| && r[i + 1] != ',' && r[i + 2] != ',' && r[i + 3] != ',' &&
          (i + 4 == |r| || r[i + 4] == ','))
  }

  lemma {:induction false} CommafyGroups(s: string)
    requires s != [] && ',' !in s
    ensures Grouped(Commafy(s))
    decreases |s|
  {
    if |s| > 3 {
      var t := s[..|s| - 3];
      var u := s[|s| - 3..];
      assert ',' !in t && ',' !in u;
      CommafyGroups(t);
      var c := Commafy(t);
      var r := Commafy(s);
      assert r == c + [','] + u;
      assert forall k :: |c| < k < |r| ==> r[k] == u[k - |c| - 1];
      assert forall k :: |c| < k < |r| ==> r[k] != ',';
      forall i | 0 <= i < |r| && r[i] == ',' ensures
          i + 3 < |r| && r[i + 1] != ',' && r[i + 2] != ',' && r[i + 3] != ',' && (i + 4 == |r| || r[i + 4] == ',')
      {
        if i < |c| {
          assert c[i] == ',';
        }
      }
      forall i | 0 <= i < |r| && r[i] == ',' ensures 1 <= i {
        if i < |c| {
          assert c[i] == ',';
        }
      }
      if |c| > 3 {
        assert r[..4] == c[..4];
      } else {
        assert r[|c|] == ',';
      }
    }
  }

  /** Every comma is preceded by a digit. */
  ghost predicate DigitBeforeEveryComma(r: string) {
    forall i :: 0 <= i < |r| && r[i] == ',' ==> 1 <= i && IsDigit(r[i - 1])
  }

  lemma {:induction false} CommafyDigitBefore(s: string)
    requires s != [] && forall i :: 0 <= i < |s| ==> IsDigit(s[i])
    ensures DigitBeforeEveryComma(Commafy(s))
    ensures Commafy(s) != [] && IsDigit(Commafy(s)[|Commafy(s)| - 1])
    decreases |s|
  {
    if |s| > 3 {
      var t := s[..|s| - 3];
      var u := s[|s| - 3..];
      CommafyDigitBefore(t);
      var c := Commafy(t);
      var r := Commafy(s);
      assert r == c + [','] + u;
      assert forall k :: |c| < k < |r| ==> r[k] == u[k - |c| - 1];
      assert forall k :: |c| < k < |r| ==> IsDigit(r[k]);
      forall i | 0 <= i < |r| && r[i] == ',' ensures 1 <= i && IsDigit(r[i - 1]) {
        if i < |c| {
          assert c[i] == ',';
        }
      }
    }
  }

  /** As written, the minus sign takes part in the grouping: -123 is
      printed "-,123". */
  lemma NegativeGroupingCounterexample()
    ensures CommaText(-123) == "-,123"
    ensures !DigitBeforeEveryComma(CommaText(-123))
  {
    assert Digits(123) == "123" by {
      assert DigitChar(1) == '1' && DigitChar(2) == '2' && DigitChar(3) == '3';
      assert Digits(1) == "1";
      assert Digits(12) == Digits(1) + [DigitChar(2)];
      assert Digits(123) == Digits(12) + [DigitChar(3)];
    }
    var s := Itoa(-123);
    assert s == "-123";
    assert s[..|s| - 3] == "-" && s[|s| - 3..] == "123";
    assert Commafy(s) == "-,123";
    var r := CommaText(-123);
    assert r[1] == ',' && !IsDigit(r[0]);
  }

  /** The grouping with the sign kept out of it. */
  function SignedCommaText(n: int): (r: string)
  {
    if n < 0 then "-" + Commafy(Digits(-n)) else CommaText(n)
  }

  /** With the sign kept out, every comma follows a digit and removing
      the commas gives the decimal text of n. */
  lemma SignedCommaTextCorrect(n: int)
    ensures DigitBeforeEveryComma(if n < 0 then SignedCommaText(n)[1..] else SignedCommaText(n))
    ensures StripCommas(SignedCommaText(n)) == Itoa(n)
  {
    if n < 0 {
      NegativeCommaText(n);
    } else {
      CommaTextDigits(n);
      if n != 0 {
        CommafyDigitBefore(Digits(n));
      }
    }
  }

  lemma NegativeCommaText(n: int)
    requires n < 0
    ensures SignedCommaText(n)[1..] == Commafy(Digits(-n))
    ensures DigitBeforeEveryComma(Commafy(Digits(-n)))
    ensures StripCommas(SignedCommaText(n)) == Itoa(n)
  {
    var d := Digits(-n);
    var c := Commafy(d);
    CommafyDigitBefore(d);
    assert forall i :: 0 <= i < |d| ==> d[i] != ',';
    CommafyStrips(d);
    StripCommasAppend("-", c);
    assert StripCommas("-") == "-" by {
      assert "-"[..0] == [];
    }
    assert SignedCommaText(n) == "-" + c;
  }

  // ---------------------------------------------------------------------
  // Sorted short paths

  /** A path as shown: relative to the working directory when there is one,
      the relative form exists (filepath.Rel, a parameter here) and does
      not climb out of the directory with "..". */
  function ShortPath(fp: string, cwd: string, rel: (string, string) -> Option<string>): string
  {
    if cwd != "" && rel(cwd, fp).Some? && !HasPrefix(rel(cwd, fp).value, "..") then rel(cwd, fp).value else fp
  }

  ghost predicate SortedCopy(sorted: seq<string>, paths: seq<string>) {
    multiset(sorted) == multiset(paths) && Sorting.SortedBy(sorted, Sorting.LessString)
  }

  /** sortedShortPaths: a fresh copy of the paths, sorted, then each entry
      shortened in place; the input is left as it was. */
  method SortedShortPaths(paths: array<string>, cwd: string, rel: (string, string) -> Option<string>)
    returns (result: array<string>)
    ensures fresh(result) && result.Length == paths.Length
    ensures exists sorted :: (
      && SortedCopy(sorted, paths[..]) && |sorted| == result.Length
      && forall i :: 0 <= i < |sorted| ==> result[i] == ShortPath(sorted[i], cwd, rel))
  {
    result := new string[paths.Length](i requires 0 <= i < paths.Length reads paths => paths[i]);
    assert result[..] == paths[..];
    Sorting.LessStringIsStrictWeak();
    Sorting.SortBy(result, Sorting.LessString);
    ghost var sorted := result[..];
    if cwd != "" {
      var i := 0;
      while i < result.Length
        invariant 0 <= i <= result.Length
        invariant forall k :: 0 <= k < i ==> result[k] == ShortPath(sorted[k], cwd, rel)
        invariant forall k :: i <= k < result.Length ==> result[k] == sorted[k]
      {
        var fp := result[i];
        var r := rel(cwd, fp);
        if r.Some? && !HasPrefix(r.value, "..") {
          result[i] := r.value;
        }
        i := i + 1;
      }
    }
  }

  /** The sorted copy does not depend on the order the paths came in (the
      source collects them from a map): two sorted permutations of the same
      paths are equal. */
  lemma {:induction false} SortedCopyUnique(a: seq<string>, b: seq<string>)
    requires multiset(a) == multiset(b)
    requires Sorting.SortedBy(a, Sorting.LessString) && Sorting.SortedBy(b, Sorting.LessString)
    ensures a == b
    decreases |a|
  {
    assert |a| == |multiset(a)| == |multiset(b)| == |b|;
    if a != [] {
      SortedHeadsEqual(a, b);
      TailMultisets(a, b);
      SortedTail(a);
      SortedTail(b);
      SortedCopyUnique(a[1..], b[1..]);
      assert a == [a[0]] + a[1..] && b == [b[0]] + b[1..];
    }
  }

  /** The first element of a sorted sequence is not above any element of
      it. */
  lemma SortedHeadIsLeast(a: seq<string>, k: int)
    requires Sorting.SortedBy(a, Sorting.LessString) && 0 <= k < |a|
    ensures !Sorting.LessString(a[k], a[0])
  {
    if k == 0 {
      Sorting.LessStringAsymmetric(a[0], a[0]);
    }
  }

  lemma SortedHeadsEqual(a: seq<string>, b: seq<string>)
    requires multiset(a) == multiset(b) && a != [] && b != []
    requires Sorting.SortedBy(a, Sorting.LessString) && Sorting.SortedBy(b, Sorting.LessString)
    ensures a[0] == b[0]
  {
    assert a[0] in multiset(b);
    var j :| 0 <= j < |b| && b[j] == a[0];
    assert b[0] in multiset(a);
    var k :| 0 <= k < |a| && a[k] == b[0];
    SortedHeadIsLeast(b, j);
    SortedHeadIsLeast(a, k);
    Sorting.LessStringTotal(a[0], b[0]);
  }

  lemma TailMultisets<T>(a: seq<T>, b: seq<T>)
    requires multiset(a) == multiset(b) && a != [] && b != [] && a[0] == b[0]
    ensures multiset(a[1..]) == multiset(b[1..])
  {
    assert a == [a[0]] + a[1..];
    assert b == [b[0]] + b[1..];
    assert multiset(a[1..]) == multiset(a) - multiset{a[0]};
    assert multiset(b[1..]) == multiset(b) - multiset{b[0]};
  }

  lemma SortedTail(a: seq<string>)
    requires a != [] && Sorting.SortedBy(a, Sorting.LessString)
    ensures Sorting.SortedBy(a[1..], Sorting.LessString)
  {
    forall i, j | 0 <= i < j < |a| - 1 ensures !Sorting.LessString(a[1..][j], a[1..][i]) {
      assert a[1..][j] == a[j + 1] && a[1..][i] == a[i + 1];
    }
  }

  // ---------------------------------------------------------------------
  // Token bar

  /** renderTokenBar draws nothing for a session without tokens or a bar
      narrower than 10; otherwise it draws the bar and its legend (their
      widths are floating-point and not modelled). */
  predicate TokenBarDrawn(info: SessionInfo, barWidth: int) {
    TotalTokens(info) != 0 && barWidth >= 10
  }

  /** The overview shows a bar only for a positive token total, and then
      asks renderTokenBar for one of min(width-6, 60) columns. */
  predicate OverviewShowsTokenBar(info: SessionInfo, width: int) {
    TotalTokens(info) > 0 && TokenBarDrawn(info, Min(width - 6, 60))
  }

  /** Below a width of 16 no bar is drawn, and from 16 on one is drawn
      exactly when the token total is positive: a zero or negative total
      draws nothing. */
  lemma OverviewTokenBar(info: SessionInfo, width: int)
    ensures OverviewShowsTokenBar(info, width) <==> TotalTokens(info) > 0 && width >= 16
    ensures TotalTokens(info) <= 0 ==> !OverviewShowsTokenBar(info, width)
  {
  }
}
