/** `ab repo` (cmd/repo.go): repository sizes in binary units, finding a
    repository by name or id, the aligned listing sorted by lower-cased
    name, and the picker that remembers the last index chosen. Cloning and
    opening a browser are outside the model: the commands return the URL
    they would hand to git or to the browser. */
module RepoCmd {
  import opened Errors
  import opened Strs
  import opened Json
  import opened Az
  import opened Repos

  // ---------------------------------------------------------------------
  // Sizes

  const Unit := 1024
  const Suffixes: seq<string> := ["KB", "MB", "GB", "TB"]

  function Pow(k: nat): (p: nat)
    ensures p >= 1
  {
    if k == 0 then 1 else Unit * Pow(k - 1)
  }

  /** The unit a size of at least 1 KB is written in: the largest power of
      1024 not above it, TB at most. */
  function Exponent(n: int): (e: nat)
    requires n >= Unit
    ensures 1 <= e <= 4 && Pow(e) <= n
    ensures e < 4 ==> n < Pow(e + 1)
  {
    if n < Pow(2) then 1 else if n < Pow(3) then 2 else if n < Pow(4) then 3 else 4
  }

  /** `humanSize`, stated without its loop: bytes below 1 KB, otherwise the
      whole number of the largest unit that fits. */
  function SizeText(n: int): string
  {
    if n <= 0 then "0 B"
    else if n < Unit then IntToString(n) + " B"
    else
      var e := Exponent(n);
      IntToString(n / Pow(e)) + " " + Suffixes[e - 1]
  }

  lemma DivDiv(n: nat, a: nat, b: nat)
    requires a > 0 && b > 0
    ensures n / a / b == n / (a * b)
  {
    var q, r := n / a, n % a;
    var q2, r2 := q / b, q % b;
    assert n == a * q + r && 0 <= r < a;
    assert q == b * q2 + r2 && 0 <= r2 < b;
    Regroup(a, b, q2, r2, r);
    RemainderBound(a, b, r2, r);
    DivUnique(n, a * b, q2, a * r2 + r);
  }

  /** The combined remainder stays below the combined divisor. */
  lemma RemainderBound(a: nat, b: nat, r2: nat, r: nat)
    requires r < a && r2 < b
    ensures 0 <= a * r2 + r < a * b
  {
    assert a * (b - 1) - a * r2 == a * (b - 1 - r2);
    assert a * (b - 1) + a == a * b;
  }

  lemma Regroup(a: int, b: int, q2: int, r2: int, r: int)
    ensures a * (b * q2 + r2) + r == (a * b) * q2 + (a * r2 + r)
  {
  }

  lemma DivUnique(n: int, d: int, q: int, r: int)
    requires d > 0 && n == d * q + r && 0 <= r < d
    ensures n / d == q
  {
    var q', r' := n / d, n % d;
    if q' < q {
      assert d * (q - q') == d * q - d * q';
      MulStep(d, q - q');
    } else if q' > q {
      assert d * (q' - q) == d * q' - d * q;
      MulStep(d, q' - q);
    }
  }

  lemma MulStep(d: int, k: int)
    requires d > 0 && k >= 1
    ensures d * k >= d
  {
    assert d * k == d + d * (k - 1);
  }

  /** A quotient is at least `b` exactly when the dividend is at least
      `a * b`. */
  lemma DivAtLeast(n: nat, a: nat, b: nat)
    requires a > 0
    ensures n / a >= b <==> n >= a * b
  {
    var q, r := n / a, n % a;
    if q >= b {
      assert a * q >= a * b;
    } else {
      assert a * q <= a * (b - 1) by {
        assert a * (b - 1) - a * q == a * (b - 1 - q);
      }
    }
  }

  /** `humanSize`: dividing by 1024 while the value is at least 1024, four
      times at most. */
  method HumanSize(n: int) returns (s: string)
    ensures s == SizeText(n)
  {
    if n <= 0 {
      return "0 B";
    }
    if n < Unit {
      return IntToString(n) + " B";
    }
    var m := n;
    var exp := 0;
    while m >= Unit && exp < 4
      invariant 0 <= exp <= 4
      invariant m == n / Pow(exp)
      invariant Pow(exp) <= n
      invariant exp == 0 ==> m >= Unit
      decreases 4 - exp
    {
      DivDiv(n, Pow(exp), Unit);
      DivAtLeast(n, Pow(exp), Unit);
      m := m / Unit;
      exp := exp + 1;
    }
    if exp < 4 {
      DivAtLeast(n, Pow(exp), Unit);
    }
    assert Exponent(n) == exp;
    s := IntToString(m) + " " + Suffixes[exp - 1];
  }

  /** Below 1024 TB the number shown is between 1 and 1023; from 1024 TB
      on it is the size in whole TB. */
  lemma SizeMantissa(n: int)
    requires n >= Unit
    ensures var e := Exponent(n);
      && n / Pow(e) >= 1
      && (n < Pow(5) ==> n / Pow(e) < Unit)
      && (n >= Pow(4) ==> e == 4)
  {
    var e := Exponent(n);
    DivAtLeast(n, Pow(e), 1);
    if n < Pow(5) && e < 4 {
      DivAtLeast(n, Pow(e), Unit);
    } else if n < Pow(5) {
      DivAtLeast(n, Pow(4), Unit);
    }
  }

  /** The sizes the repository's tests list. */
  lemma SizeTextBytes()
    ensures SizeText(0) == "0 B" && SizeText(-5) == "0 B"
    ensures SizeText(1) == "1 B"
    ensures SizeText(1023) == "1023 B"
  {
    assert IntToString(1) == "1";
    assert IntToString(1023) == "1023" by {
      assert NatToString(10) == "10";
      assert NatToString(102) == "102";
      assert NatToString(1023) == NatToString(102) + "3";
    }
  }

  lemma SizeTextUnits()
    ensures SizeText(1024) == "1 KB"
    ensures SizeText(2048) == "2 KB"
    ensures SizeText(1024 * 1024) == "1 MB"
  {
    assert Pow(1) == 1024 && Pow(2) == 1024 * 1024;
    assert Exponent(1024) == 1;
    assert Exponent(2048) == 1;
    assert Exponent(1024 * 1024) == 2;
  }

  // ---------------------------------------------------------------------
  // Finding a repository

  /** `findRepo`'s test: the name equal up to case, or the id exactly. */
  predicate Matches(r: Repo, key: string)
  {
    EqualFold(r.name, key) || r.id == key
  }

  /** The first repository that matches, else "repository not found". */
  function Lookup(repos: seq<Repo>, key: string): Result<Repo>
  {
    if |repos| == 0 then Fail(RepoNotFound(key))
    else if Matches(repos[0], key) then Ok(repos[0])
    else Lookup(repos[1..], key)
  }

  /** A repository is found exactly when one matches, and it is the first
      that does. */
  lemma {:induction false} LookupSpec(repos: seq<Repo>, key: string)
    ensures Lookup(repos, key).Fail? <==> forall i :: 0 <= i < |repos| ==> !Matches(repos[i], key)
    ensures Lookup(repos, key).Fail? ==> Lookup(repos, key).error == RepoNotFound(key)
    ensures Lookup(repos, key).Ok? ==>
      exists i :: 0 <= i < |repos| && repos[i] == Lookup(repos, key).value && Matches(repos[i], key)
        && forall j :: 0 <= j < i ==> !Matches(repos[j], key)
  {
    if |repos| > 0 && !Matches(repos[0], key) {
      LookupSpec(repos[1..], key);
      if Lookup(repos, key).Ok? {
        var i :| 0 <= i < |repos| - 1 && repos[1..][i] == Lookup(repos, key).value && Matches(repos[1..][i], key)
          && forall j :: 0 <= j < i ==> !Matches(repos[1..][j], key);
        assert repos[i + 1] == Lookup(repos, key).value;
        assert forall j :: 0 <= j < i + 1 ==> !Matches(repos[j], key) by {
          forall j | 0 <= j < i + 1 ensures !Matches(repos[j], key) {
            if j > 0 {
              assert repos[j] == repos[1..][j - 1];
            }
          }
        }
      } else {
        forall i | 0 <= i < |repos| ensures !Matches(repos[i], key) {
          if i > 0 {
            assert repos[i] == repos[1..][i - 1];
          }
        }
      }
    } else if |repos| > 0 {
      assert repos[0] == Lookup(repos, key).value;
    }
  }

  /** The listing's error, or the lookup in it. */
  function Found(listed: Result<seq<Repo>>, key: string): Result<Repo>
  {
    match listed
    case Fail(e) => Fail(e)
    case Ok(repos) => Lookup(repos, key)
  }

  /** `findRepo`: the trimmed name or id looked up in the listing. */
  method FindRepo(c: Client, nameOrID: string) returns (r: Result<Repo>)
    modifies c`attempts, c`echoed, c`calls
    ensures c.Ran(old(c.attempts), old(c.echoed), old(c.calls), [ListArgs()])
    ensures r == Found(ReposOf(c.Outcome(ListArgs())), TrimSpace(nameOrID))
  {
    var key := TrimSpace(nameOrID);
    var listed := ListRepos(c);
    match listed {
      case Fail(e) =>
        r := Fail(e);
      case Ok(repos) =>
        var i := 0;
        r := Fail(RepoNotFound(key));
        while i < |repos|
          invariant 0 <= i <= |repos|
          invariant Lookup(repos, key) == Lookup(repos[i..], key)
        {
          if EqualFold(repos[i].name, key) || repos[i].id == key {
            r := Ok(repos[i]);
            return;
          }
          assert repos[i..][1..] == repos[i + 1..];
          i := i + 1;
        }
    }
  }

  // ---------------------------------------------------------------------
  // Alignment

  /** The longest name, in characters; 0 for no repositories. */
  function NameWidth(repos: seq<Repo>): (w: nat)
    ensures forall r :: r in repos ==> |r.name| <= w
    ensures |repos| == 0 ==> w == 0
    ensures |repos| > 0 ==> exists r :: r in repos && |r.name| == w
  {
    if |repos| == 0 then 0
    else
      var w := NameWidth(repos[..|repos| - 1]);
      var last := repos[|repos| - 1];
      assert repos == repos[..|repos| - 1] + [last];
      if |last.name| > w then |last.name| else w
  }

  /** The loop computing the longest name. */
  method LongestName(repos: seq<Repo>) returns (m: nat)
    ensures m == NameWidth(repos)
  {
    m := 0;
    var i := 0;
    while i < |repos|
      invariant 0 <= i <= |repos|
      invariant m == NameWidth(repos[..i])
    {
      assert repos[..i + 1][..i] == repos[..i];
      if |repos[i].name| > m {
        m := |repos[i].name|;
      }
      i := i + 1;
    }
    assert repos[..i] == repos;
  }

  function Spaces(n: nat): (s: string)
    ensures |s| == n && forall i :: 0 <= i < n ==> s[i] == ' '
  {
    if n == 0 then "" else Spaces(n - 1) + " "
  }

  /** `%-*s`: the text followed by spaces up to `width`. */
  function Pad(s: string, width: nat): (p: string)
    ensures |p| >= |s|
    ensures |s| <= width ==> |p| == width
    ensures p[..|s|] == s
    ensures forall i :: |s| <= i < |p| ==> p[i] == ' '
  {
    if |s| < width then s + Spaces(width - |s|) else s
  }

  /** One line of the listing and one option of the pickers. */
  function Line(width: nat, r: Repo): string
  {
    Pad(r.name, width) + Columns(r)
  }

  /** What follows the padded name: the id and the size, each after a
      separator. */
  function Columns(r: Repo): (s: string)
    ensures |s| >= 3 && s[..3] == " | "
  {
    " | " + r.id + " | " + SizeText(r.size)
  }

  /** Padded to a width no name exceeds, every line shows the name first
      and starts its first separator at the same column. */
  lemma LineAligned(width: nat, r: Repo)
    requires |r.name| <= width
    ensures |Line(width, r)| >= width + 3
    ensures Line(width, r)[..|r.name|] == r.name
    ensures Line(width, r)[width..width + 3] == " | "
  {
    var p := Pad(r.name, width);
    var rest := Columns(r);
    assert (p + rest)[..|r.name|] == p[..|r.name|];
    assert (p + rest)[width..width + 3] == rest[..3];
  }

  /** The longest name is a width no name exceeds. */
  lemma Aligned(repos: seq<Repo>)
    ensures var w := NameWidth(repos);
      forall r :: r in repos ==>
        && |Line(w, r)| >= w + 3
        && Line(w, r)[..|r.name|] == r.name
        && Line(w, r)[w..w + 3] == " | "
  {
    var w := NameWidth(repos);
    forall r | r in repos
      ensures |Line(w, r)| >= w + 3 && Line(w, r)[..|r.name|] == r.name && Line(w, r)[w..w + 3] == " | "
    {
      LineAligned(w, r);
    }
  }

  /** The lines for `repos`, in order. */
  function Lines(repos: seq<Repo>, width: nat): (ls: seq<string>)
    ensures |ls| == |repos|
    ensures forall i :: 0 <= i < |repos| ==> ls[i] == Line(width, repos[i])
  {
    if |repos| == 0 then [] else Lines(repos[..|repos| - 1], width) + [Line(width, repos[|repos| - 1])]
  }

  /** The picker's options: a line per repository, then Cancel. */
  function Options(repos: seq<Repo>): seq<string>
  {
    Lines(repos, NameWidth(repos)) + ["Cancel"]
  }

  /** The loops writing the lines: the longest name, then one padded line
      per repository. */
  method ListLines(repos: seq<Repo>) returns (lines: seq<string>)
    ensures lines == Lines(repos, NameWidth(repos))
  {
    var w := LongestName(repos);
    lines := [];
    var i := 0;
    while i < |repos|
      invariant 0 <= i <= |repos|
      invariant lines == Lines(repos[..i], w)
    {
      LinesStep(repos, i, w);
      var size := HumanSize(repos[i].size);
      var rest := " | " + repos[i].id + " | " + size;
      lines := lines + [Pad(repos[i].name, w) + rest];
      i := i + 1;
    }
    assert repos[..i] == repos;
  }

  /** One more repository adds its line at the end. */
  lemma LinesStep(repos: seq<Repo>, i: nat, w: nat)
    requires i < |repos|
    ensures Lines(repos[..i + 1], w) == Lines(repos[..i], w) + [Line(w, repos[i])]
  {
    assert repos[..i + 1][..i] == repos[..i];
  }

  /** The picker's options, Cancel last. */
  method BuildOptions(repos: seq<Repo>) returns (options: seq<string>)
    ensures options == Options(repos)
    ensures |options| == |repos| + 1 && options[|repos|] == "Cancel"
  {
    options := ListLines(repos);
    options := options + ["Cancel"];
  }

  // ---------------------------------------------------------------------
  // Sorting by lower-cased name

  /** Go's `<` on strings: lexicographic, character by character. */
  predicate Less(a: string, b: string)
  {
    if |a| == 0 then |b| > 0
    else if |b| == 0 then false
    else a[0] < b[0] || (a[0] == b[0] && Less(a[1..], b[1..]))
  }

  lemma {:induction false} LessIrreflexive(a: string)
    ensures !Less(a, a)
  {
    if |a| > 0 {
      LessIrreflexive(a[1..]);
    }
  }

  lemma {:induction false} LessTransitive(a: string, b: string, c: string)
    requires Less(a, b) && Less(b, c)
    ensures Less(a, c)
  {
    if |a| > 0 && a[0] == b[0] && b[0] == c[0] {
      LessTransitive(a[1..], b[1..], c[1..]);
    }
  }

  lemma {:induction false} LessTotal(a: string, b: string)
    ensures Less(a, b) || Less(b, a) || a == b
  {
    if |a| > 0 && |b| > 0 && a[0] == b[0] {
      LessTotal(a[1..], b[1..]);
      if a[1..] == b[1..] {
        assert a == [a[0]] + a[1..] && b == [b[0]] + b[1..];
      }
    }
  }

  function Key(r: Repo): string
  {
    ToLower(r.name)
  }

  /** What `sort.Slice` with the lower-cased-name comparison leaves: no
      repository's key is below an earlier one's. */
  predicate SortedByName(repos: seq<Repo>)
  {
    forall i, j :: 0 <= i < j < |repos| ==> !Less(Key(repos[j]), Key(repos[i]))
  }

  /** Not below is transitive. */
  lemma NotLessTransitive(a: string, b: string, c: string)
    requires !Less(b, a) && !Less(c, b)
    ensures !Less(c, a)
  {
    LessTotal(a, b);
    LessTotal(b, c);
    if Less(a, b) && Less(b, c) {
      LessTransitive(a, b, c);
    }
    if Less(a, c) && Less(c, a) {
      LessTransitive(a, c, a);
      LessIrreflexive(a);
    }
    if a == c {
      LessIrreflexive(a);
    }
  }

  function Insert(x: Repo, repos: seq<Repo>): (r: seq<Repo>)
    ensures multiset(r) == multiset(repos) + multiset{x}
  {
    if |repos| == 0 then [x]
    else if Less(Key(repos[0]), Key(x)) then
      assert repos == [repos[0]] + repos[1..];
      [repos[0]] + Insert(x, repos[1..])
    else [x] + repos
  }

  /** The listing order: repositories inserted one by one. The algorithm
      `sort.Slice` runs is not visible; any order it leaves is sorted in
      the same sense and a permutation, which is what the lemmas state. */
  function SortByName(repos: seq<Repo>): seq<Repo>
  {
    if |repos| == 0 then [] else Insert(repos[|repos| - 1], SortByName(repos[..|repos| - 1]))
  }

  lemma {:induction false} InsertSorted(x: Repo, repos: seq<Repo>)
    requires SortedByName(repos)
    ensures SortedByName(Insert(x, repos))
  {
    if |repos| == 0 {
    } else if Less(Key(repos[0]), Key(x)) {
      var tail := repos[1..];
      assert SortedByName(tail) by {
        forall i, j | 0 <= i < j < |tail| ensures !Less(Key(tail[j]), Key(tail[i])) {
          assert tail[j] == repos[j + 1] && tail[i] == repos[i + 1];
        }
      }
      InsertSorted(x, tail);
      InsertAfterHead(x, repos);
    } else {
      InsertAtHead(x, repos);
    }
  }

  /** After a head below `x`, nothing that follows it is below it. */
  lemma TailNotBelowHead(x: Repo, repos: seq<Repo>)
    requires |repos| > 0 && SortedByName(repos) && Less(Key(repos[0]), Key(x))
    ensures forall y :: y in Insert(x, repos[1..]) ==> !Less(Key(y), Key(repos[0]))
  {
    var tail := repos[1..];
    forall y | y in Insert(x, tail) ensures !Less(Key(y), Key(repos[0])) {
      assert y in multiset(Insert(x, tail));
      if y == x {
        if Less(Key(x), Key(repos[0])) {
          LessTransitive(Key(x), Key(repos[0]), Key(x));
          LessIrreflexive(Key(x));
        }
      } else {
        assert y in multiset(tail);
        var k :| 0 <= k < |tail| && tail[k] == y;
        assert repos[k + 1] == y;
      }
    }
  }

  /** A head below `x` stays in front of the sorted rest. */
  lemma InsertAfterHead(x: Repo, repos: seq<Repo>)
    requires |repos| > 0 && SortedByName(repos) && Less(Key(repos[0]), Key(x))
    requires SortedByName(Insert(x, repos[1..]))
    ensures SortedByName(Insert(x, repos))
  {
    var rest := Insert(x, repos[1..]);
    var r := [repos[0]] + rest;
    assert Insert(x, repos) == r;
    TailNotBelowHead(x, repos);
    forall i, j | 0 <= i < j < |r| ensures !Less(Key(r[j]), Key(r[i])) {
      assert r[j] == rest[j - 1];
      if i > 0 {
        assert r[i] == rest[i - 1];
      } else {
        assert r[j] in rest;
      }
    }
  }

  /** `x` not above the head of sorted `repos` goes in front. */
  lemma InsertAtHead(x: Repo, repos: seq<Repo>)
    requires |repos| > 0 && SortedByName(repos) && !Less(Key(repos[0]), Key(x))
    ensures SortedByName(Insert(x, repos))
  {
    var r := [x] + repos;
    assert Insert(x, repos) == r;
    forall i, j | 0 <= i < j < |r| ensures !Less(Key(r[j]), Key(r[i])) {
      assert r[j] == repos[j - 1];
      if i > 0 {
        assert r[i] == repos[i - 1];
      } else if j > 1 {
        NotLessTransitive(Key(x), Key(repos[0]), Key(repos[j - 1]));
      }
    }
  }

  /** The listing order is sorted by lower-cased name and holds the same
      repositories. */
  lemma {:induction false} SortByNameSpec(repos: seq<Repo>)
    ensures SortedByName(SortByName(repos))
    ensures multiset(SortByName(repos)) == multiset(repos)
  {
    if |repos| > 0 {
      var init := repos[..|repos| - 1];
      SortByNameSpec(init);
      InsertSorted(repos[|repos| - 1], SortByName(init));
      assert repos == init + [repos[|repos| - 1]];
    }
  }

  // ---------------------------------------------------------------------
  // Picking

  /** `-1` is Cancel; any other value a picker returns is the index of a
      listed repository. */
  predicate Picks(out: Result<int>, n: nat)
  {
    out.Ok? ==> -1 <= out.value < n
  }

  /** The remembered index moved into `[0, n - 1]`. */
  function Clamp(i: int, n: nat): (k: int)
    requires n > 0
  {
    if i < 0 then 0 else if i >= n then n - 1 else i
  }

  /** Clamping lands on a listed index and keeps one that is listed. */
  lemma ClampSpec(i: int, n: nat)
    requires n > 0
    ensures 0 <= Clamp(i, n) < n
    ensures 0 <= i < n ==> Clamp(i, n) == i
    ensures i < 0 ==> Clamp(i, n) == 0
    ensures i >= n ==> Clamp(i, n) == n - 1
  {
  }

  /** The picker's memory: the last index chosen in this process. */
  class RepoPicker {
    var index: int
    var remembered: bool

    constructor ()
      ensures index == 0 && !remembered
    {
      index := 0;
      remembered := false;
    }

    /** The index preselected among `n` repositories. */
    function Preselect(n: nat): (k: int)
      reads this
      requires n > 0
      ensures 0 <= k < n
    {
      ClampSpec(index, n);
      if remembered then Clamp(index, n) else 0
    }

    /** `pickRepoFromList`: an error for no repositories; otherwise the
        remembered index is clamped in place and preselected, Cancel and a
        failed form leave the memory as clamped, and a choice is
        remembered. */
    method PickFromList(repos: seq<Repo>, pick: (seq<string>, int) -> Result<int>) returns (r: Result<Repo>)
      requires forall pre :: Picks(pick(Options(repos), pre), |repos|)
      modifies this
      ensures |repos| == 0 ==> r == Fail(NoReposToSelect) && index == old(index) && remembered == old(remembered)
      ensures |repos| > 0 ==>
        var pre := old(Preselect(|repos|));
        var out := pick(Options(repos), pre);
        && (out.Fail? ==> r == Fail(out.error))
        && (out == Ok(-1) ==> r == Fail(Cancelled))
        && (out.Fail? || out == Ok(-1) ==>
              remembered == old(remembered) && index == if old(remembered) then pre else old(index))
        && (out.Ok? && out.value != -1 ==>
              0 <= out.value < |repos| && r == Ok(repos[out.value]) && remembered && index == out.value && Preselect(|repos|) == out.value)
    {
      if |repos| == 0 {
        return Fail(NoReposToSelect);
      }
      var options := BuildOptions(repos);
      var chosen := 0;
      if remembered {
        if index < 0 {
          index := 0;
        }
        if index >= |repos| {
          index := |repos| - 1;
        }
        chosen := index;
      }
      var out := pick(options, chosen);
      match out {
        case Fail(e) =>
          r := Fail(e);
        case Ok(v) =>
          if v == -1 {
            r := Fail(Cancelled);
          } else {
            index := v;
            remembered := true;
            r := Ok(repos[v]);
          }
      }
    }
  }

  /** `pickRepo`'s outcome: the listing's error, "no repositories found"
      for an empty listing, otherwise the sorted listing offered with the
      first repository preselected, and Cancel, the form's error or the
      repository chosen. */
  function Picked(listed: Result<seq<Repo>>, pick: (seq<string>, int) -> Result<int>): Result<Repo>
    requires forall repos :: Picks(pick(Options(repos), 0), |repos|)
  {
    match listed
    case Fail(e) => Fail(e)
    case Ok(repos) =>
      if |repos| == 0 then Fail(NoRepositories)
      else
        var sorted := SortByName(repos);
        match pick(Options(sorted), 0)
        case Fail(e) => Fail(e)
        case Ok(v) =>
          assert Picks(pick(Options(sorted), 0), |sorted|);
          SortByNameLength(repos);
          if v == -1 then Fail(Cancelled) else Ok(sorted[v])
  }

  lemma SortByNameLength(repos: seq<Repo>)
    ensures |SortByName(repos)| == |repos|
  {
    SortByNameSpec(repos);
    assert |multiset(SortByName(repos))| == |multiset(repos)|;
  }

  /** A repository picked is one of those listed. */
  lemma PickedListed(listed: Result<seq<Repo>>, pick: (seq<string>, int) -> Result<int>)
    requires forall repos :: Picks(pick(Options(repos), 0), |repos|)
    ensures Picked(listed, pick).Ok? ==> listed.Ok? && Picked(listed, pick).value in listed.value
  {
    if listed.Ok? && |listed.value| > 0 {
      var sorted := SortByName(listed.value);
      var out := pick(Options(sorted), 0);
      if out.Ok? && out.value != -1 {
        SortByNameLength(listed.value);
        assert Picks(out, |sorted|);
        assert Picked(listed, pick) == Ok(sorted[out.value]);
        SortByNameSpec(listed.value);
        assert sorted[out.value] in multiset(sorted);
      }
    }
  }

  /** `pickRepo`: list, sort, offer and take the choice. */
  method PickRepo(c: Client, pick: (seq<string>, int) -> Result<int>) returns (r: Result<Repo>)
    requires forall repos :: Picks(pick(Options(repos), 0), |repos|)
    modifies c`attempts, c`echoed, c`calls
    ensures c.Ran(old(c.attempts), old(c.echoed), old(c.calls), [ListArgs()])
    ensures r == Picked(ReposOf(c.Outcome(ListArgs())), pick)
  {
    var listed := ListRepos(c);
    match listed {
      case Fail(e) =>
        r := Fail(e);
      case Ok(repos) =>
        if |repos| == 0 {
          r := Fail(NoRepositories);
        } else {
          var sorted := SortByName(repos);
          SortByNameLength(repos);
          var options := BuildOptions(sorted);
          var out := pick(options, 0);
          match out {
            case Fail(e) =>
              r := Fail(e);
            case Ok(v) =>
              if v == -1 {
                r := Fail(Cancelled);
              } else {
                r := Ok(sorted[v]);
              }
          }
        }
    }
  }

  // ---------------------------------------------------------------------
  // Commands

  /** `repo list`'s lines: the listing's error, nothing for no
      repositories, else the sorted repositories each on an aligned line. */
  function Listing(listed: Result<seq<Repo>>): Result<seq<string>>
  {
    match listed
    case Fail(e) => Fail(e)
    case Ok(repos) =>
      if |repos| == 0 then Ok([])
      else
        var sorted := SortByName(repos);
        Ok(Lines(sorted, NameWidth(sorted)))
  }

  /** The lines list the repositories sorted by lower-cased name, one
      each; `Aligned` puts their separators in one column. */
  lemma ListingSpec(listed: Result<seq<Repo>>)
    ensures Listing(listed).Fail? <==> listed.Fail?
    ensures listed.Ok? ==> |Listing(listed).value| == |listed.value|
    ensures listed.Ok? && |listed.value| > 0 ==>
      var sorted := SortByName(listed.value);
      var w := NameWidth(sorted);
      && SortedByName(sorted) && multiset(sorted) == multiset(listed.value)
      && Listing(listed).value == Lines(sorted, w)
  {
    if listed.Ok? && |listed.value| > 0 {
      SortByNameSpec(listed.value);
      SortByNameLength(listed.value);
    }
  }

  /** `repo list`. */
  method ListCmd(c: Client) returns (r: Result<seq<string>>)
    modifies c`attempts, c`echoed, c`calls
    ensures c.Ran(old(c.attempts), old(c.echoed), old(c.calls), [ListArgs()])
    ensures r == Listing(ReposOf(c.Outcome(ListArgs())))
  {
    var listed := ListRepos(c);
    match listed {
      case Fail(e) =>
        r := Fail(e);
      case Ok(repos) =>
        if |repos| == 0 {
          r := Ok([]);
        } else {
          var sorted := SortByName(repos);
          var lines := ListLines(sorted);
          r := Ok(lines);
        }
    }
  }

  /** The URL a clone uses: the https remote or, by default, the ssh one,
      trimmed. */
  function CloneURL(r: Repo, https: bool): string
  {
    TrimSpace(if https then r.remoteUrl else r.sshUrl)
  }

  /** The repository `view` and `clone` act on: the one named, or the one
      picked when none is. */
  function Target(c: Client, args: seq<string>, pick: (seq<string>, int) -> Result<int>): Result<Repo>
    reads c`mode, c`confirm, c`exec
    requires |args| <= 1
    requires forall repos :: Picks(pick(Options(repos), 0), |repos|)
  {
    if |args| == 1 then Found(ReposOf(c.Outcome(ListArgs())), TrimSpace(args[0]))
    else Picked(ReposOf(c.Outcome(ListArgs())), pick)
  }

  method Resolve(c: Client, args: seq<string>, pick: (seq<string>, int) -> Result<int>) returns (r: Result<Repo>)
    requires |args| <= 1
    requires forall repos :: Picks(pick(Options(repos), 0), |repos|)
    modifies c`attempts, c`echoed, c`calls
    ensures c.Ran(old(c.attempts), old(c.echoed), old(c.calls), [ListArgs()])
    ensures r == Target(c, args, pick)
  {
    if |args| == 1 {
      r := FindRepo(c, args[0]);
    } else {
      r := PickRepo(c, pick);
    }
  }

  /** `repo view`: the trimmed web URL the browser is given. */
  method ViewCmd(c: Client, args: seq<string>, pick: (seq<string>, int) -> Result<int>) returns (r: Result<string>)
    requires |args| <= 1
    requires forall repos :: Picks(pick(Options(repos), 0), |repos|)
    modifies c`attempts, c`echoed, c`calls
    ensures c.Ran(old(c.attempts), old(c.echoed), old(c.calls), [ListArgs()])
    ensures var t := Target(c, args, pick);
      && (t.Fail? ==> r == Fail(t.error))
      && (t.Ok? ==> r == Ok(TrimSpace(t.value.webUrl)))
  {
    var t := Resolve(c, args, pick);
    match t {
      case Fail(e) =>
        r := Fail(e);
      case Ok(repo) =>
        r := Ok(TrimSpace(repo.webUrl));
    }
  }

  /** `repo clone`: the URL git is given. */
  method CloneCmd(c: Client, args: seq<string>, https: bool, pick: (seq<string>, int) -> Result<int>)
    returns (r: Result<string>)
    requires |args| <= 1
    requires forall repos :: Picks(pick(Options(repos), 0), |repos|)
    modifies c`attempts, c`echoed, c`calls
    ensures c.Ran(old(c.attempts), old(c.echoed), old(c.calls), [ListArgs()])
    ensures var t := Target(c, args, pick);
      && (t.Fail? ==> r == Fail(t.error))
      && (t.Ok? ==> r == Ok(CloneURL(t.value, https)))
  {
    var t := Resolve(c, args, pick);
    match t {
      case Fail(e) =>
        r := Fail(e);
      case Ok(repo) =>
        r := Ok(CloneURL(repo, https));
    }
  }

  /** What `repo create` reports, and the URL to clone when asked to. */
  datatype Made = Made(message: string, clone: Option<string>)

  /** `repo create <name>`: a blank name is refused before any command;
      otherwise the trimmed name is created. */
  method CreateCmd(c: Client, arg: string, clone: bool, https: bool) returns (r: Result<Made>, ghost trace: seq<seq<string>>)
    modifies c`attempts, c`echoed, c`calls
    ensures c.Ran(old(c.attempts), old(c.echoed), old(c.calls), trace)
    ensures TrimSpace(arg) == "" ==> trace == [] && r == Fail(RepoNameRequired)
    ensures TrimSpace(arg) != "" ==>
      var made := CreatedOf(c.Outcome(Repos.CreateArgs(TrimSpace(arg))));
      && trace == [Repos.CreateArgs(TrimSpace(arg))]
      && (made.Fail? ==> r == Fail(made.error))
      && (made.Ok? ==> r == Ok(Made("Created repo " + made.value.name + " (" + made.value.id + ")\n",
                                    if clone then Some(CloneURL(made.value, https)) else None)))
  {
    var name := TrimSpace(arg);
    if name == "" {
      c.Idle(c.attempts, c.echoed, c.calls);
      return Fail(RepoNameRequired), [];
    }
    var made := CreateRepo(c, name);
    trace := [Repos.CreateArgs(name)];
    match made {
      case Fail(e) =>
        r := Fail(e);
      case Ok(repo) =>
        var url := if clone then Some(CloneURL(repo, https)) else None;
        r := Ok(Made("Created repo " + repo.name + " (" + repo.id + ")\n", url));
    }
  }

  /** `repo delete <name>`: without `--yes` the prompt must be accepted
      first; the repository is then looked up and deleted by id, always
      with `--yes` since the question was already asked. */
  method DeleteCmd(c: Client, arg: string, yes: bool, proceed: Result<bool>)
    returns (err: Option<Error>, ghost trace: seq<seq<string>>)
    modifies c`attempts, c`echoed, c`calls
    ensures c.Ran(old(c.attempts), old(c.echoed), old(c.calls), trace)
    ensures !yes && proceed.Fail? ==> trace == [] && err == Some(proceed.error)
    ensures !yes && proceed == Ok(false) ==> trace == [] && err == Some(Cancelled)
    ensures yes || proceed == Ok(true) ==>
      var found := Found(ReposOf(c.Outcome(ListArgs())), TrimSpace(arg));
      && (found.Fail? ==> trace == [ListArgs()] && err == Some(found.error))
      && (found.Ok? ==>
            var del := c.Outcome(Repos.DeleteArgs(found.value.id, true));
            && trace == [ListArgs(), Repos.DeleteArgs(found.value.id, true)]
            && err == if del.Fail? then Some(del.error) else None)
  {
    ghost var a0, e0, c0 := c.attempts, c.echoed, c.calls;
    var name := TrimSpace(arg);
    if !yes {
      match proceed {
        case Fail(e) =>
          c.Idle(a0, e0, c0);
          return Some(e), [];
        case Ok(go) =>
          if !go {
            c.Idle(a0, e0, c0);
            return Some(Cancelled), [];
          }
      }
    }
    TrimSpaceIdempotent(arg);
    var found := FindRepo(c, name);
    trace := [ListArgs()];
    match found {
      case Fail(e) =>
        err := Some(e);
      case Ok(repo) =>
        ghost var a1, e1, c1 := c.attempts, c.echoed, c.calls;
        err := DeleteRepo(c, repo.id, true);
        c.Chain(a0, e0, c0, trace, a1, e1, c1, [Repos.DeleteArgs(repo.id, true)], c.attempts, c.echoed, c.calls);
        trace := trace + [Repos.DeleteArgs(repo.id, true)];
    }
  }
}
