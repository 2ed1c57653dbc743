/** The parts of Go's `strings` and `strconv` packages the tool relies on,
    over Dafny strings (sequences of Unicode code points).

    Case mapping covers ASCII letters only: Go's `strings.ToLower`,
    `strings.ToUpper` and `strings.EqualFold` map all of Unicode, so the two
    agree only on inputs whose letters are ASCII. `TrimSpace` uses Go's full
    `unicode.IsSpace` set. */
module Strs {
  import opened Errors

  /** Go's `unicode.IsSpace`. */
  predicate IsSpace(c: char)
  {
    var n := c as int;
    n == 0x09 || n == 0x0A || n == 0x0B || n == 0x0C || n == 0x0D || n == 0x20 ||
    n == 0x85 || n == 0xA0 || n == 0x1680 || (0x2000 <= n <= 0x200A) ||
    n == 0x2028 || n == 0x2029 || n == 0x202F || n == 0x205F || n == 0x3000
  }

  predicate AllSpace(s: string)
  {
    forall i :: 0 <= i < |s| ==> IsSpace(s[i])
  }

  /** Drops leading white space. */
  function TrimLeft(s: string): string
  {
    if |s| > 0 && IsSpace(s[0]) then TrimLeft(s[1..]) else s
  }

  /** Drops trailing white space. */
  function TrimRight(s: string): string
  {
    if |s| > 0 && IsSpace(s[|s| - 1]) then TrimRight(s[..|s| - 1]) else s
  }

  /** `TrimLeft` keeps the longest suffix of `s` that does not start with a
      space. */
  lemma {:induction false} TrimLeftSpec(s: string)
    ensures var r := TrimLeft(s);
      && |r| <= |s| && r == s[|s| - |r|..]
      && (r == [] || !IsSpace(r[0]))
      && AllSpace(s[..|s| - |r|])
  {
    if |s| > 0 && IsSpace(s[0]) {
      var t := TrimLeft(s[1..]);
      TrimLeftSpec(s[1..]);
      assert s[1..][..|s| - 1 - |t|] == s[1..|s| - |t|];
      assert s[1..][|s| - 1 - |t|..] == s[|s| - |t|..];
    }
  }

  /** `TrimRight` keeps the longest prefix of `s` that does not end with a
      space. */
  lemma {:induction false} TrimRightSpec(s: string)
    ensures var r := TrimRight(s);
      && |r| <= |s| && r == s[..|r|]
      && (r == [] || !IsSpace(r[|r| - 1]))
      && AllSpace(s[|r|..])
  {
    if |s| > 0 && IsSpace(s[|s| - 1]) {
      var t := TrimRight(s[..|s| - 1]);
      TrimRightSpec(s[..|s| - 1]);
      assert s[|t|..] == s[..|s| - 1][|t|..] + [s[|s| - 1]];
      assert s[..|s| - 1][..|t|] == s[..|t|];
    }
  }

  /** Go's `strings.TrimSpace`. */
  function TrimSpace(s: string): string
  {
    TrimRight(TrimLeft(s))
  }

  /** A trimmed string neither starts nor ends with a space, and it is empty
      exactly when the input was all white space. */
  lemma TrimSpaceSpec(s: string)
    ensures var r := TrimSpace(s);
      && |r| <= |s|
      && (r == [] || (!IsSpace(r[0]) && !IsSpace(r[|r| - 1])))
      && (r == [] <==> AllSpace(s))
  {
    var l := TrimLeft(s);
    var r := TrimRight(l);
    TrimLeftSpec(s);
    TrimRightSpec(l);
    if r == [] {
      assert l[|r|..] == l;
      assert l == [];
      assert s[..|s|] == s;
    } else {
      assert r[0] == l[0] == s[|s| - |l|];
    }
  }

  /** Trimming twice is the same as trimming once. */
  lemma TrimSpaceIdempotent(s: string)
    ensures TrimSpace(TrimSpace(s)) == TrimSpace(s)
  {
    TrimSpaceSpec(s);
    var r := TrimSpace(s);
    if r != [] {
      assert TrimLeft(r) == r;
      assert TrimRight(r) == r;
    }
  }

  function ToLowerChar(c: char): char
  {
    if 'A' <= c <= 'Z' then (c as int + 32) as char else c
  }

  function ToUpperChar(c: char): char
  {
    if 'a' <= c <= 'z' then (c as int - 32) as char else c
  }

  /** `strings.ToLower`, ASCII letters only. */
  function ToLower(s: string): (r: string)
    ensures |r| == |s|
    ensures forall i :: 0 <= i < |s| ==> r[i] == ToLowerChar(s[i])
  {
    if s == [] then [] else [ToLowerChar(s[0])] + ToLower(s[1..])
  }

  /** `strings.EqualFold`, ASCII letters only. */
  predicate EqualFold(a: string, b: string)
  {
    ToLower(a) == ToLower(b)
  }

  predicate HasPrefix(s: string, prefix: string)
  {
    |prefix| <= |s| && s[..|prefix|] == prefix
  }

  /** `strings.Contains`. */
  predicate Contains(s: string, sub: string)
  {
    exists i :: 0 <= i <= |s| - |sub| && OccursAt(s, sub, i)
  }

  predicate OccursAt(s: string, sub: string, i: int)
    requires 0 <= i <= |s| - |sub|
  {
    s[i..i + |sub|] == sub
  }

  /** No string occurs twice. */
  predicate Distinct(order: seq<string>)
  {
    forall i, j :: 0 <= i < j < |order| ==> order[i] != order[j]
  }

  /** The first position of `x` in `s`, or `|s|` when there is none: the
      byte search of `strings.IndexByte` and the scan of a column order. */
  function IndexOf<T(==)>(s: seq<T>, x: T): (i: nat)
    ensures i <= |s|
    ensures i < |s| ==> s[i] == x
    ensures forall j :: 0 <= j < i ==> s[j] != x
  {
    if |s| == 0 then 0
    else if s[0] == x then 0
    else 1 + IndexOf(s[1..], x)
  }

  /** Go's `strings.Split` with a one-character separator: the pieces
      between separators, so `n` separators give `n + 1` pieces. */
  function Split(s: string, sep: char): (parts: seq<string>)
    ensures |parts| >= 1
    ensures forall k :: 0 <= k < |parts| ==> sep !in parts[k]
    decreases |s|
  {
    var i := IndexOf(s, sep);
    if i == |s| then [s]
    else [s[..i]] + Split(s[i + 1..], sep)
  }

  /** Go's `strings.Join`. */
  function Join(parts: seq<string>, sep: string): string
  {
    if |parts| == 0 then ""
    else if |parts| == 1 then parts[0]
    else parts[0] + sep + Join(parts[1..], sep)
  }

  /** Splitting and joining back with the same separator gives the input. */
  lemma {:induction false} JoinSplit(s: string, sep: char)
    ensures Join(Split(s, sep), [sep]) == s
    decreases |s|
  {
    var i := IndexOf(s, sep);
    if i < |s| {
      JoinSplit(s[i + 1..], sep);
      SplitFound(s, sep);
      JoinSplitStep(s, sep, i, Split(s, sep), Split(s[i + 1..], sep));
    }
  }

  lemma JoinSplitStep(s: string, sep: char, i: nat, parts: seq<string>, rest: seq<string>)
    requires i < |s| && s[i] == sep && |rest| >= 1
    requires parts == [s[..i]] + rest && Join(rest, [sep]) == s[i + 1..]
    ensures Join(parts, [sep]) == s
  {
    JoinCons(s[..i], rest, [sep]);
    Around(s, i);
  }

  lemma Around<T>(s: seq<T>, i: nat)
    requires i < |s|
    ensures s[..i] + [s[i]] + s[i + 1..] == s
  {
  }

  lemma SplitFound(s: string, sep: char)
    requires IndexOf(s, sep) < |s|
    ensures Split(s, sep) == [s[..IndexOf(s, sep)]] + Split(s[IndexOf(s, sep) + 1..], sep)
  {
  }

  lemma JoinCons(head: string, rest: seq<string>, sep: string)
    requires |rest| >= 1
    ensures Join([head] + rest, sep) == head + sep + Join(rest, sep)
  {
    assert ([head] + rest)[1..] == rest;
  }

  /** The trimmed, non-blank entries of `parts`, in order. */
  function NonBlank(parts: seq<string>): seq<string>
  {
    if |parts| == 0 then []
    else
      var before := NonBlank(parts[..|parts| - 1]);
      var s := TrimSpace(parts[|parts| - 1]);
      if s != "" then before + [s] else before
  }

  lemma NonBlankStep(parts: seq<string>, i: nat)
    requires i < |parts|
    ensures NonBlank(parts[..i + 1]) ==
      if TrimSpace(parts[i]) != "" then NonBlank(parts[..i]) + [TrimSpace(parts[i])] else NonBlank(parts[..i])
  {
    assert parts[..i + 1][..i] == parts[..i];
  }

  lemma {:induction false} NonBlankWellFormed(parts: seq<string>, c: char)
    requires forall k :: 0 <= k < |parts| ==> c !in parts[k]
    ensures |NonBlank(parts)| <= |parts|
    ensures forall k :: 0 <= k < |NonBlank(parts)| ==>
      NonBlank(parts)[k] != "" && TrimSpace(NonBlank(parts)[k]) == NonBlank(parts)[k] && c !in NonBlank(parts)[k]
  {
    if |parts| > 0 {
      var last := parts[|parts| - 1];
      NonBlankWellFormed(parts[..|parts| - 1], c);
      TrimSpaceIdempotent(last);
      TrimKeepsOut(last, c);
    }
  }

  /** Trimming only removes characters. */
  lemma TrimKeepsOut(s: string, c: char)
    requires c !in s
    ensures c !in TrimSpace(s)
  {
    var l := TrimLeft(s);
    var t := TrimRight(l);
    TrimLeftSpec(s);
    TrimRightSpec(l);
    assert forall k :: 0 <= k < |t| ==> t[k] == l[k] == s[|s| - |l| + k];
  }

  /** Entries that are already trimmed and non-blank are all kept. */
  lemma {:induction false} NonBlankClean(parts: seq<string>)
    requires forall k :: 0 <= k < |parts| ==> Trimmed(parts[k])
    ensures NonBlank(parts) == parts
  {
    if |parts| > 0 {
      var init := parts[..|parts| - 1];
      var last := parts[|parts| - 1];
      assert Trimmed(last);
      assert forall k :: 0 <= k < |init| ==> init[k] == parts[k];
      NonBlankClean(init);
      assert init + [last] == parts;
    }
  }

  /** Non-blank and free of surrounding white space. */
  predicate Trimmed(t: string)
  {
    t != "" && TrimSpace(t) == t
  }

  lemma FindCharAt(a: string, b: string, sep: char)
    requires sep !in a
    ensures IndexOf(a, sep) == |a|
    ensures IndexOf(a + [sep] + b, sep) == |a|
  {
    var s := a + [sep] + b;
    assert s[|a|] == sep;
    assert forall j :: 0 <= j < |a| ==> s[j] == a[j];
  }

  /** Joining pieces that do not contain the separator and splitting again
      gives the pieces back. */
  lemma {:induction false} SplitJoin(parts: seq<string>, sep: char)
    requires |parts| >= 1
    requires forall k :: 0 <= k < |parts| ==> sep !in parts[k]
    ensures Split(Join(parts, [sep]), sep) == parts
  {
    if |parts| == 1 {
      FindCharAt(parts[0], "", sep);
    } else {
      var rest := Join(parts[1..], [sep]);
      var s := parts[0] + [sep] + rest;
      assert Join(parts, [sep]) == s;
      FindCharAt(parts[0], rest, sep);
      assert s[..|parts[0]|] == parts[0];
      assert s[|parts[0]| + 1..] == rest;
      SplitJoin(parts[1..], sep);
      assert [parts[0]] + parts[1..] == parts;
    }
  }

  /** Splits `s` on `sep`, trims every part and keeps the non-blank ones,
      in order. */
  method SplitTrimmed(s: string, sep: char) returns (kept: seq<string>)
    ensures kept == NonBlank(Split(s, sep))
  {
    var parts := Split(s, sep);
    kept := [];
    var i := 0;
    while i < |parts|
      invariant 0 <= i <= |parts|
      invariant kept == NonBlank(parts[..i])
    {
      var p := TrimSpace(parts[i]);
      NonBlankStep(parts, i);
      if p != "" {
        kept := kept + [p];
      }
      i := i + 1;
    }
    assert parts[..|parts|] == parts;
  }

  function DigitChar(d: nat): char
    requires d < 10
  {
    "0123456789"[d]
  }

  /** Decimal rendering of a natural number, as `%d` prints it. */
  function NatToString(n: nat): (r: string)
    ensures |r| >= 1
    ensures forall i :: 0 <= i < |r| ==> '0' <= r[i] <= '9'
    decreases n
  {
    if n < 10 then [DigitChar(n)] else NatToString(n / 10) + [DigitChar(n % 10)]
  }

  /** `strconv.Itoa` and `%d`. */
  function IntToString(n: int): string
  {
    if n < 0 then "-" + NatToString(-n) else NatToString(n)
  }

  predicate IsDigit(c: char) { '0' <= c <= '9' }

  predicate AllDigits(s: string)
  {
    forall i :: 0 <= i < |s| ==> IsDigit(s[i])
  }

  function DigitsValue(s: string): nat
    requires AllDigits(s)
  {
    if |s| == 0 then 0 else DigitsValue(s[..|s| - 1]) * 10 + (s[|s| - 1] as int - '0' as int)
  }

  /** Reading back the digits of a number gives the number. */
  lemma {:induction false} DigitsValueNat(n: nat)
    ensures AllDigits(NatToString(n)) && DigitsValue(NatToString(n)) == n
    decreases n
  {
    var r := NatToString(n);
    if n >= 10 {
      DigitsValueNat(n / 10);
      assert r[..|r| - 1] == NatToString(n / 10);
    }
  }

  predicate InInt64(n: int)
  {
    -0x8000_0000_0000_0000 <= n < 0x8000_0000_0000_0000
  }

  /** `strconv.Atoi` on a 64-bit platform: an optional sign followed by one
      or more decimal digits, whose value fits in 64 bits; anything else is
      an error. */
  function Atoi(s: string): Option<int>
  {
    var signed := |s| > 0 && (s[0] == '+' || s[0] == '-');
    var digits := if signed then s[1..] else s;
    if |digits| == 0 || !AllDigits(digits) then None
    else
      var v: int := if signed && s[0] == '-' then -(DigitsValue(digits) as int) else DigitsValue(digits);
      if InInt64(v) then Some(v) else None
  }

  /** `Atoi` reads back what `IntToString` prints, for every 64-bit value. */
  lemma AtoiIntToString(n: int)
    requires InInt64(n)
    ensures Atoi(IntToString(n)) == Some(n)
  {
    if n < 0 {
      AtoiNegative(n);
    } else {
      AtoiNonNegative(n);
    }
  }

  lemma AtoiNegative(n: int)
    requires -0x8000_0000_0000_0000 <= n < 0
    ensures Atoi(IntToString(n)) == Some(n)
  {
    var m: nat := -n;
    var digits := NatToString(m);
    DigitsValueNat(m);
    AtoiMinus(digits);
    assert Atoi("-" + digits) == Some(n);
    assert IntToString(n) == "-" + digits;
  }

  lemma AtoiMinus(digits: string)
    requires |digits| > 0 && AllDigits(digits)
    requires DigitsValue(digits) <= 0x8000_0000_0000_0000
    ensures Atoi("-" + digits) == Some(-(DigitsValue(digits) as int))
  {
    var s := "-" + digits;
    assert s[0] == '-' && s[1..] == digits;
  }

  lemma AtoiNonNegative(n: int)
    requires 0 <= n < 0x8000_0000_0000_0000
    ensures Atoi(IntToString(n)) == Some(n)
  {
    var str := IntToString(n);
    assert str == NatToString(n);
    DigitsValueNat(n);
    assert str[0] != '-' && str[0] != '+';
  }
}
