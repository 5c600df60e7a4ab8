/** String helpers with Python's semantics: str.join, str.split, str(int) and int(str). */
module Text {
  import opened Wrappers

  /** sep.join(parts) */
  function Join(parts: seq<string>, sep: string): string
    decreases |parts|
  {
    if |parts| == 0 then ""
    else if |parts| == 1 then parts[0]
    else parts[0] + sep + Join(parts[1..], sep)
  }

  predicate OccursAt(s: string, sep: string, i: int)
  {
    0 <= i && i + |sep| <= |s| && s[i..i + |sep|] == sep
  }

  predicate Contains(s: string, sep: string)
  {
    exists i :: 0 <= i <= |s| && OccursAt(s, sep, i)
  }

  /** s.find(sep), as an Option: the leftmost occurrence of sep in s. */
  function Find(s: string, sep: string): (r: Option<nat>)
    requires |sep| > 0
    ensures r.Some? ==> OccursAt(s, sep, r.value)
    ensures r.Some? ==> forall j :: 0 <= j < r.value ==> !OccursAt(s, sep, j)
    ensures r.None? ==> forall j :: !OccursAt(s, sep, j)
    decreases |s|
  {
    if |s| < |sep| then None
    else if s[..|sep|] == sep then Some(0)
    else
      var rest := Find(s[1..], sep);
      assert forall j :: 1 <= j && OccursAt(s, sep, j) ==> OccursAt(s[1..], sep, j - 1) by {
        forall j | 1 <= j && OccursAt(s, sep, j) ensures OccursAt(s[1..], sep, j - 1) {
          assert s[1..][j - 1..j - 1 + |sep|] == s[j..j + |sep|];
        }
      }
      match rest
      case None => None
      case Some(i) =>
        assert s[1..][i..i + |sep|] == s[i + 1..i + 1 + |sep|];
        Some(i + 1)
  }

  /** s.split(sep) for a non-empty separator: cut at every leftmost non-overlapping occurrence. */
  function Split(s: string, sep: string): (parts: seq<string>)
    requires |sep| > 0
    ensures |parts| >= 1
    decreases |s|
  {
    match Find(s, sep)
    case None => [s]
    case Some(i) => [s[..i]] + Split(s[i + |sep|..], sep)
  }

  /** Splitting and joining again gives back the original string. */
  lemma {:induction false} JoinSplit(s: string, sep: string)
    requires |sep| > 0
    ensures Join(Split(s, sep), sep) == s
    decreases |s|
  {
    match Find(s, sep)
    case None =>
    case Some(i) =>
      var rest := Split(s[i + |sep|..], sep);
      JoinSplit(s[i + |sep|..], sep);
      assert ([s[..i]] + rest)[1..] == rest;
      calc {
        Join(Split(s, sep), sep);
        s[..i] + sep + Join(rest, sep);
        s[..i] + s[i..i + |sep|] + s[i + |sep|..];
        { assert s == s[..i] + s[i..i + |sep|] + s[i + |sep|..]; }
        s;
      }
  }

  /** No piece of a split contains the separator. */
  lemma {:induction false} SplitPiecesFree(s: string, sep: string)
    requires |sep| > 0
    ensures forall k :: 0 <= k < |Split(s, sep)| ==> !Contains(Split(s, sep)[k], sep)
    decreases |s|
  {
    match Find(s, sep)
    case None =>
    case Some(i) =>
      SplitPiecesFree(s[i + |sep|..], sep);
      var head := s[..i];
      forall j | OccursAt(head, sep, j) ensures false {
        assert head[j..j + |sep|] == s[j..j + |sep|];
        assert OccursAt(s, sep, j);
      }
      var parts := Split(s, sep);
      assert parts == [head] + Split(s[i + |sep|..], sep);
      forall k | 0 <= k < |parts| ensures !Contains(parts[k], sep) {
        if k > 0 {
          assert parts[k] == Split(s[i + |sep|..], sep)[k - 1];
        }
      }
  }

  /** Joining pieces that are free of a one-character separator, then splitting, gives the pieces back. */
  lemma {:induction false} SplitJoin(parts: seq<string>, c: char)
    requires |parts| >= 1
    requires forall k, j :: 0 <= k < |parts| && 0 <= j < |parts[k]| ==> parts[k][j] != c
    ensures Split(Join(parts, [c]), [c]) == parts
    decreases |parts|
  {
    var s := Join(parts, [c]);
    if |parts| == 1 {
      forall j | 0 <= j < |s| ensures !OccursAt(s, [c], j) {
        assert s[j..j + 1] == [s[j]];
      }
      assert Find(s, [c]).None?;
    } else {
      var p := parts[0];
      var rest := parts[1..];
      assert s == p + [c] + Join(rest, [c]);
      assert OccursAt(s, [c], |p|) by { assert s[|p|..|p| + 1] == [c]; }
      forall j | 0 <= j < |p| ensures !OccursAt(s, [c], j) {
        assert s[j..j + 1] == [s[j]];
        assert s[j] == p[j];
      }
      var f := Find(s, [c]);
      assert f == Some(|p|);
      assert s[..|p|] == p;
      assert s[|p| + 1..] == Join(rest, [c]);
      SplitJoin(rest, c);
      assert parts == [p] + rest;
    }
  }

  /** Joining a non-empty prefix list and a non-empty suffix list. */
  lemma {:induction false} JoinAppend(xs: seq<string>, ys: seq<string>, sep: string)
    requires |xs| >= 1 && |ys| >= 1
    ensures Join(xs + ys, sep) == Join(xs, sep) + sep + Join(ys, sep)
    decreases |xs|
  {
    if |xs| == 1 {
      assert (xs + ys)[1..] == ys;
    } else {
      assert (xs + ys)[1..] == xs[1..] + ys;
      JoinAppend(xs[1..], ys, sep);
    }
  }

  predicate IsDigit(c: char) { '0' <= c <= '9' }

  predicate AllDigits(s: string) { forall i :: 0 <= i < |s| ==> IsDigit(s[i]) }

  function DigitValue(c: char): nat
    requires IsDigit(c)
  {
    (c as int) - ('0' as int)
  }

  function DigitChar(d: nat): (c: char)
    requires d < 10
    ensures IsDigit(c) && DigitValue(c) == d
  {
    ('0' as int + d) as char
  }

  /** The value of a string of decimal digits. */
  function DigitsValue(s: string): nat
    requires AllDigits(s)
    decreases |s|
  {
    if |s| == 0 then 0 else DigitsValue(s[..|s| - 1]) * 10 + DigitValue(s[|s| - 1])
  }

  /** str(n) for n >= 0. */
  function NatToString(n: nat): (s: string)
    ensures |s| >= 1 && AllDigits(s)
    decreases n
  {
    if n < 10 then [DigitChar(n)] else NatToString(n / 10) + [DigitChar(n % 10)]
  }

  /** str(i): a minus sign for negative numbers, no padding. */
  function IntToString(i: int): string
  {
    if i < 0 then "-" + NatToString(-i) else NatToString(i)
  }

  function Pow10(w: nat): nat
  {
    if w == 0 then 1 else 10 * Pow10(w - 1)
  }

  /** The last w decimal digits of n, zero-padded: '%0{w}d' for n < 10^w. */
  function Digits(n: nat, w: nat): (s: string)
    ensures |s| == w && AllDigits(s)
  {
    if w == 0 then "" else Digits(n / 10, w - 1) + [DigitChar(n % 10)]
  }

  /** int(s) for ASCII decimal text with an optional sign. */
  function ParseInt(s: string): Option<int>
  {
    if |s| >= 2 && (s[0] == '-' || s[0] == '+') && AllDigits(s[1..]) then
      var magnitude: int := DigitsValue(s[1..]);
      Some(if s[0] == '-' then -magnitude else magnitude)
    else if |s| >= 1 && AllDigits(s) then Some(DigitsValue(s))
    else None
  }

  lemma {:induction false} NatToStringValue(n: nat)
    ensures DigitsValue(NatToString(n)) == n
    decreases n
  {
    if n >= 10 {
      NatToStringValue(n / 10);
      var s := NatToString(n);
      assert s[..|s| - 1] == NatToString(n / 10);
    }
  }

  /** Zero-padded digits read back as the number they print, when it fits the width. */
  lemma {:induction false} DigitsValueOfDigits(n: nat, w: nat)
    requires n < Pow10(w)
    ensures DigitsValue(Digits(n, w)) == n
  {
    if w > 0 {
      DigitsValueOfDigits(n / 10, w - 1);
      var s := Digits(n, w);
      assert s[..|s| - 1] == Digits(n / 10, w - 1);
    }
  }

  /** int(str(i)) == i */
  lemma ParseIntToString(i: int)
    ensures ParseInt(IntToString(i)) == Some(i)
  {
    if i < 0 {
      NatToStringValue(-i);
      assert ("-" + NatToString(-i))[1..] == NatToString(-i);
    } else {
      NatToStringValue(i);
    }
  }

  /** str(i) never contains the character c unless c is a digit or '-'. */
  lemma IntToStringChars(i: int, c: char)
    requires !IsDigit(c) && c != '-'
    ensures forall j :: 0 <= j < |IntToString(i)| ==> IntToString(i)[j] != c
  {
    if i < 0 {
      var t := NatToString(-i);
      assert forall j :: 1 <= j < |"-" + t| ==> ("-" + t)[j] == t[j - 1];
    }
  }
}
