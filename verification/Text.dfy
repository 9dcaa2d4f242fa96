/** The Python string operations the lake layout is built on: split, prefix tests,
    decimal formatting and `int()`. */
module Text {
  import opened Common

  ghost predicate Free(s: string, c: char) {
    c !in s
  }

  // ---------------------------------------------------------------- split

  /** `s.split(sep)` for a one-character separator. */
  function Split(s: string, sep: char): (parts: seq<string>)
    ensures |parts| >= 1
  {
    if s == "" then [""]
    else
      var rest := Split(s[1..], sep);
      if s[0] == sep then [""] + rest
      else [[s[0]] + rest[0]] + rest[1..]
  }

  /** The directory string whose path components are `ps`: each one followed by a slash. */
  function Directory(ps: seq<string>): string {
    if ps == [] then "" else ps[0] + "/" + Directory(ps[1..])
  }

  lemma {:induction false} SplitHead(a: string, rest: string, sep: char)
    requires Free(a, sep)
    ensures Split(a + [sep] + rest, sep) == [a] + Split(rest, sep)
  {
    var s := a + [sep] + rest;
    if a == "" {
      assert s[1..] == rest;
    } else {
      assert s[1..] == a[1..] + [sep] + rest;
      SplitHead(a[1..], rest, sep);
      assert a == [a[0]] + a[1..];
    }
  }

  lemma {:induction false} SplitAtom(a: string, sep: char)
    requires Free(a, sep)
    ensures Split(a, sep) == [a]
  {
    if a != "" {
      SplitAtom(a[1..], sep);
      assert a == [a[0]] + a[1..];
    }
  }

  lemma {:induction false} SplitPartsFree(s: string, sep: char)
    ensures forall i :: 0 <= i < |Split(s, sep)| ==> Free(Split(s, sep)[i], sep)
  {
    if s != "" {
      SplitPartsFree(s[1..], sep);
    }
  }

  /** `k.startswith(directory)` says exactly that the directory's components are the
      first components of `k`, and that something follows them. */
  lemma {:induction false} DirectoryPrefix(ps: seq<string>, k: string)
    requires forall i :: 0 <= i < |ps| ==> Free(ps[i], '/')
    ensures Directory(ps) <= k <==> |Split(k, '/')| > |ps| && Split(k, '/')[..|ps|] == ps
  {
    if ps != [] {
      var head := ps[0] + "/";
      if head <= k {
        var rest := k[|head|..];
        assert k == ps[0] + ['/'] + rest;
        SplitHead(ps[0], rest, '/');
        DirectoryPrefix(ps[1..], rest);
        assert Directory(ps) <= k <==> Directory(ps[1..]) <= rest by {
          assert Directory(ps) == head + Directory(ps[1..]);
          if Directory(ps[1..]) <= rest {
            assert k == head + Directory(ps[1..]) + rest[|Directory(ps[1..])|..];
          }
          if Directory(ps) <= k {
            assert rest[..|Directory(ps[1..])|] == k[|head|..|Directory(ps)|] == Directory(ps[1..]);
          }
        }
        if |Split(k, '/')| > |ps| {
          assert Split(k, '/')[..|ps|] == [ps[0]] + Split(rest, '/')[..|ps| - 1];
        }
        assert ps == [ps[0]] + ps[1..];
      } else {
        assert head <= Directory(ps);
        if |Split(k, '/')| > |ps| && Split(k, '/')[..|ps|] == ps {
          assert Split(k, '/')[0] == Split(k, '/')[..|ps|][0] == ps[0];
          SplitFirst(k, '/');
        }
      }
    }
  }

  /** With at least two parts, the first part and its separator start the string. */
  lemma {:induction false} SplitFirst(s: string, sep: char)
    ensures |Split(s, sep)| >= 2 ==> Split(s, sep)[0] + [sep] <= s
  {
    if s != "" && s[0] != sep {
      SplitFirst(s[1..], sep);
      if |Split(s, sep)| >= 2 {
        assert s == [s[0]] + s[1..];
      }
    }
  }

  lemma {:induction false} SplitSlash(s: string)
    ensures Split(s + "/", '/') == Split(s, '/') + [""]
  {
    if s == "" {
      assert s + "/" == "/" && "/"[1..] == "";
    } else {
      SplitSlash(s[1..]);
      assert (s + "/")[1..] == s[1..] + "/";
    }
  }

  /** `"/".join(ps)` */
  function Join(ps: seq<string>): string
    requires ps != []
  {
    if |ps| == 1 then ps[0] else ps[0] + "/" + Join(ps[1..])
  }

  /** Split and join undo each other. */
  lemma {:induction false} SplitJoin(ps: seq<string>)
    requires ps != [] && forall p :: p in ps ==> Free(p, '/')
    ensures Split(Join(ps), '/') == ps
  {
    assert ps[0] in ps;
    if |ps| == 1 {
      SplitAtom(ps[0], '/');
    } else {
      SplitJoin(ps[1..]);
      SplitHead(ps[0], Join(ps[1..]), '/');
      assert ps == [ps[0]] + ps[1..];
    }
  }

  lemma {:induction false} JoinSplit(s: string)
    ensures Join(Split(s, '/')) == s
  {
    if s != "" {
      var rest := Split(s[1..], '/');
      JoinSplit(s[1..]);
      if s[0] == '/' {
        assert ([""] + rest)[1..] == rest;
      } else {
        assert Split(s, '/')[1..] == rest[1..];
      }
      assert s == [s[0]] + s[1..];
    }
  }

  lemma {:induction false} DirectoryFiles(ps: seq<string>, file: string)
    requires forall i :: 0 <= i < |ps| ==> Free(ps[i], '/')
    requires Free(file, '/')
    ensures Split(Directory(ps) + file, '/') == ps + [file]
  {
    if ps == [] {
      SplitAtom(file, '/');
      assert Directory(ps) + file == file;
    } else {
      var rest := Directory(ps[1..]) + file;
      DirectoryFiles(ps[1..], file);
      SplitHead(ps[0], rest, '/');
      assert Directory(ps) + file == ps[0] + ['/'] + rest;
      assert ps == [ps[0]] + ps[1..];
    }
  }

  /** Two directories of the same depth are the same string only if they agree throughout. */
  lemma DirectoryInjective(ps: seq<string>, qs: seq<string>)
    requires forall i :: 0 <= i < |ps| ==> Free(ps[i], '/')
    requires forall i :: 0 <= i < |qs| ==> Free(qs[i], '/')
    requires Directory(ps) == Directory(qs)
    ensures ps == qs
  {
    DirectoryFiles(ps, "");
    DirectoryFiles(qs, "");
    assert (ps + [""])[..|ps|] == ps && (qs + [""])[..|qs|] == qs;
    assert |ps + [""]| == |qs + [""]|;
  }

  /** `s.endswith(suffix)`. */
  predicate EndsWith(s: string, suffix: string) {
    |s| >= |suffix| && s[|s| - |suffix|..] == suffix
  }

  lemma EndsWithIff(s: string, suffix: string)
    ensures EndsWith(s, suffix) <==> exists front :: s == front + suffix
  {
    if EndsWith(s, suffix) {
      assert s == s[..|s| - |suffix|] + suffix;
    }
  }

  /** `s.rstrip("/")`. */
  function RStripSlash(s: string): (r: string)
    ensures |r| <= |s| && s[..|r|] == r && forall i :: |r| <= i < |s| ==> s[i] == '/'
    ensures r != "" ==> r[|r| - 1] != '/'
  {
    if s != "" && s[|s| - 1] == '/' then RStripSlash(s[..|s| - 1]) else s
  }

  /** `s.lstrip(chars)`. */
  function LStrip(s: string, chars: string): (r: string)
    ensures |r| <= |s| && s[|s| - |r|..] == r
    ensures forall i :: 0 <= i < |s| - |r| ==> s[i] in chars
    ensures r != "" ==> r[0] !in chars && r[0] in s
  {
    if s != "" && s[0] in chars then LStrip(s[1..], chars) else s
  }

  // ---------------------------------------------------------------- order

  /** Python's order on strings. */
  predicate LexLe(a: string, b: string) {
    a == "" || (b != "" && (a[0] < b[0] || (a[0] == b[0] && LexLe(a[1..], b[1..]))))
  }

  lemma {:induction false} LexTotal(a: string, b: string)
    ensures LexLe(a, b) || LexLe(b, a)
    ensures LexLe(a, b) && LexLe(b, a) ==> a == b
  {
    if a != "" && b != "" {
      LexTotal(a[1..], b[1..]);
      assert a == [a[0]] + a[1..] && b == [b[0]] + b[1..];
    }
  }

  lemma {:induction false} LexTransitive(a: string, b: string, c: string)
    requires LexLe(a, b) && LexLe(b, c)
    ensures LexLe(a, c)
  {
    if a != "" && a[0] == b[0] == c[0] {
      LexTransitive(a[1..], b[1..], c[1..]);
    }
  }

  /** A prefix comes first; otherwise the first different character decides. */
  lemma {:induction false} LexLeIff(a: string, b: string)
    ensures LexLe(a, b) <==> a <= b || exists i :: 0 <= i < |a| && i < |b| && a[..i] == b[..i] && a[i] < b[i]
  {
    if a != "" && b != "" {
      var x, y := a[1..], b[1..];
      if a[0] == b[0] {
        LexLeIff(x, y);
        assert a <= b <==> x <= y by {
          assert a == [a[0]] + x && b == [b[0]] + y;
        }
        if exists i :: 0 <= i < |x| && i < |y| && x[..i] == y[..i] && x[i] < y[i] {
          var i :| 0 <= i < |x| && i < |y| && x[..i] == y[..i] && x[i] < y[i];
          assert a[..i + 1] == [a[0]] + x[..i] && b[..i + 1] == [b[0]] + y[..i];
          assert a[i + 1] == x[i] && b[i + 1] == y[i];
        }
        if exists i :: 0 <= i < |a| && i < |b| && a[..i] == b[..i] && a[i] < b[i] {
          var i :| 0 <= i < |a| && i < |b| && a[..i] == b[..i] && a[i] < b[i];
          assert x[..i - 1] == a[..i][1..] && y[..i - 1] == b[..i][1..];
          assert x[i - 1] == a[i] && y[i - 1] == b[i];
        }
      } else {
        FirstDecides(a, b);
      }
    }
  }

  lemma FirstDecides(a: string, b: string)
    requires a != "" && b != "" && a[0] != b[0]
    ensures !(a <= b)
    ensures (exists i :: 0 <= i < |a| && i < |b| && a[..i] == b[..i] && a[i] < b[i]) <==> a[0] < b[0]
  {
    if a[0] < b[0] {
      assert a[..0] == b[..0];
    }
    forall i | 0 < i < |a| && i < |b| ensures a[..i] != b[..i] {
      assert a[..i][0] == a[0] && b[..i][0] == b[0];
    }
  }

  ghost predicate Ordered(s: seq<string>) {
    forall i, j :: 0 <= i < j < |s| ==> LexLe(s[i], s[j])
  }

  function Insert(s: seq<string>, x: string): (r: seq<string>)
    ensures multiset(r) == multiset(s) + multiset{x}
  {
    if s == [] || LexLe(x, s[0]) then [x] + s
    else
      assert s == [s[0]] + s[1..];
      [s[0]] + Insert(s[1..], x)
  }

  /** `sorted(s)`. */
  function Sorted(s: seq<string>): (r: seq<string>)
    ensures multiset(r) == multiset(s)
  {
    if s == [] then []
    else
      assert s == s[..|s| - 1] + [s[|s| - 1]];
      Insert(Sorted(s[..|s| - 1]), s[|s| - 1])
  }

  lemma {:induction false} InsertOrders(s: seq<string>, x: string)
    requires Ordered(s)
    ensures Ordered(Insert(s, x))
  {
    if s == [] {
    } else if LexLe(x, s[0]) {
      forall j | 0 <= j < |s| ensures LexLe(x, s[j]) {
        if j > 0 { LexTransitive(x, s[0], s[j]); }
      }
    } else {
      InsertOrders(s[1..], x);
      LexTotal(x, s[0]);
      var r := Insert(s[1..], x);
      forall j | 0 <= j < |r| ensures LexLe(s[0], r[j]) {
        assert r[j] in multiset(r);
        assert r[j] == x || r[j] in s[1..];
      }
    }
  }

  /** Sorting orders the strings and keeps each as often as it was. */
  lemma {:induction false} SortedOrders(s: seq<string>)
    ensures Ordered(Sorted(s)) && multiset(Sorted(s)) == multiset(s)
    ensures forall x :: x in Sorted(s) <==> x in s
    ensures Distinct(s) ==> Distinct(Sorted(s))
  {
    if s != [] {
      SortedOrders(s[..|s| - 1]);
      InsertOrders(Sorted(s[..|s| - 1]), s[|s| - 1]);
    }
    forall x ensures x in Sorted(s) <==> x in s {
      assert x in Sorted(s) <==> x in multiset(Sorted(s));
    }
    if Distinct(s) {
      DistinctByCount(s, Sorted(s));
    }
  }

  lemma DistinctByCount(s: seq<string>, r: seq<string>)
    requires Distinct(s) && multiset(r) == multiset(s)
    ensures Distinct(r)
  {
    CountedOnce(s);
    forall i, j | 0 <= i < j < |r| ensures r[i] != r[j] {
      CountSplit(r, j, r[i]);
    }
  }

  lemma CountSplit(r: seq<string>, j: nat, x: string)
    requires j < |r| && x in r[..j]
    ensures multiset(r)[x] >= 1 + (if r[j] == x then 1 else 0)
  {
    assert r == r[..j] + [r[j]] + r[j + 1..];
  }

  lemma {:induction false} CountedOnce(s: seq<string>)
    requires Distinct(s)
    ensures forall x :: multiset(s)[x] <= 1
  {
    if s != [] {
      var init, last := s[..|s| - 1], s[|s| - 1];
      CountedOnce(init);
      assert s == init + [last];
      assert last !in init;
    }
  }

  // ---------------------------------------------------------------- decimal

  predicate IsDigit(c: char) {
    '0' <= c <= '9'
  }

  function Digit(d: nat): (c: char)
    requires d < 10
    ensures IsDigit(c) && DigitValue(c) == d
  {
    ['0', '1', '2', '3', '4', '5', '6', '7', '8', '9'][d]
  }

  function DigitValue(c: char): (d: nat)
    requires IsDigit(c)
    ensures d < 10
  {
    (c as int) - ('0' as int)
  }

  function Decimal(n: nat): (s: string)
    ensures s != "" && forall i :: 0 <= i < |s| ==> IsDigit(s[i])
  {
    if n < 10 then [Digit(n)] else Decimal(n / 10) + [Digit(n % 10)]
  }

  /** `strftime("%m")` and `strftime("%d")`. */
  function TwoDigits(n: nat): (s: string)
    ensures s != "" && forall i :: 0 <= i < |s| ==> IsDigit(s[i])
  {
    if n < 10 then "0" + Decimal(n) else Decimal(n)
  }

  /** The digits of a Python integer literal: single underscores may separate digits. */
  function ParseDigits(s: string): Option<nat> {
    if s == "" || !IsDigit(s[|s| - 1]) then None
    else
      var last := DigitValue(s[|s| - 1]);
      if |s| == 1 then Some(last)
      else
        var front := if s[|s| - 2] == '_' then s[..|s| - 2] else s[..|s| - 1];
        match ParseDigits(front)
        case None => None
        case Some(v) => Some(10 * v + last)
  }

  predicate IsSpace(c: char) {
    c == ' ' || 9 <= c as int <= 13 || 28 <= c as int <= 31
  }

  function StripLeft(s: string): string {
    if s != "" && IsSpace(s[0]) then StripLeft(s[1..]) else s
  }

  function StripRight(s: string): string {
    if s != "" && IsSpace(s[|s| - 1]) then StripRight(s[..|s| - 1]) else s
  }

  /** `int(s)` on ASCII text; None stands for ValueError. */
  function ParseInt(s: string): Option<int> {
    var t := StripRight(StripLeft(s));
    if t != "" && t[0] == '-' then
      match ParseDigits(t[1..])
      case None => None
      case Some(v) => Some(-(v as int))
    else
      match ParseDigits(if t != "" && t[0] == '+' then t[1..] else t)
      case None => None
      case Some(v) => Some(v)
  }

  lemma {:induction false} ParseDecimal(n: nat)
    ensures ParseDigits(Decimal(n)) == Some(n)
  {
    if n >= 10 {
      ParseDecimal(n / 10);
      var s := Decimal(n);
      assert s[..|s| - 1] == Decimal(n / 10);
      assert IsDigit(s[|s| - 2]);
    }
  }

  lemma ParseTwoDigits(n: nat)
    requires n < 100
    ensures ParseDigits(TwoDigits(n)) == Some(n)
  {
    ParseDecimal(n);
    if n < 10 {
      var s := TwoDigits(n);
      assert s == ['0', Digit(n)];
      assert s[..1] == "0";
      assert ParseDigits("0") == Some(0);
    }
  }

  lemma ParseIntOfDigits(s: string)
    requires s != "" && forall i :: 0 <= i < |s| ==> IsDigit(s[i])
    ensures ParseInt(s) == match ParseDigits(s) case None => None case Some(v) => Some(v)
  {
  }

  /** `int()` undoes decimal formatting, so decimal formatting is injective. */
  lemma DecimalInjective(m: nat, n: nat)
    requires Decimal(m) == Decimal(n)
    ensures m == n
  {
    ParseDecimal(m);
    ParseDecimal(n);
  }

  // ---------------------------------------------------------------- integer literals

  /** Digits, with single underscores between them. */
  ghost predicate IsLiteral(s: string) {
    && s != "" && IsDigit(s[0]) && IsDigit(s[|s| - 1])
    && (forall i :: 0 <= i < |s| ==> IsDigit(s[i]) || s[i] == '_')
    && (forall i :: 0 <= i < |s| - 1 ==> !(s[i] == '_' && s[i + 1] == '_'))
  }

  lemma {:induction false} ParsesLiterals(s: string)
    ensures ParseDigits(s).Some? <==> IsLiteral(s)
  {
    var n := |s|;
    if n >= 2 && IsDigit(s[n - 1]) {
      var front := if s[n - 2] == '_' then s[..n - 2] else s[..n - 1];
      ParsesLiterals(front);
      assert forall i :: 0 <= i < |front| ==> front[i] == s[i];
      if IsLiteral(s) && s[n - 2] == '_' {
        assert s[n - 2 - 1 + 1] == '_' && s[n - 2 - 1] != '_';
      }
      if IsLiteral(front) {
        forall i | 0 <= i < n - 1 ensures !(s[i] == '_' && s[i + 1] == '_') {
          if i < |front| - 1 { assert !(front[i] == '_' && front[i + 1] == '_'); }
        }
      }
    }
  }

  /** An underscore between digits does not count. */
  lemma {:induction false} UnderscoreIgnored(a: string, b: string)
    requires IsLiteral(a) && b != "" && forall i :: 0 <= i < |b| ==> IsDigit(b[i])
    ensures ParseDigits(a + "_" + b) == ParseDigits(a + b)
  {
    var x, y := a + "_" + b, a + b;
    if |b| == 1 {
      assert x[..|x| - 2] == a && y[..|y| - 1] == a;
      assert x[|x| - 2] == '_' && y[|y| - 2] == a[|a| - 1];
    } else {
      var c := b[..|b| - 1];
      UnderscoreIgnored(a, c);
      assert x[..|x| - 1] == a + "_" + c && y[..|y| - 1] == a + c;
      assert x[|x| - 2] == y[|y| - 2] == c[|c| - 1];
    }
  }

  /** Signs count, and white space around a number does not. */
  lemma ParseSigned(n: nat, before: string, after: string)
    requires (forall i :: 0 <= i < |before| ==> IsSpace(before[i])) && forall i :: 0 <= i < |after| ==> IsSpace(after[i])
    ensures IsNumber(before + Decimal(n) + after, n)
    ensures IsNumber(before + ("+" + Decimal(n)) + after, n)
    ensures IsNumber(before + ("-" + Decimal(n)) + after, 0 - n)
  {
    ParseDecimal(n);
    var d := Decimal(n);
    StripsAround(before, d, after);
    StripsAround(before, "+" + d, after);
    StripsAround(before, "-" + d, after);
    assert ("+" + d)[1..] == d && ("-" + d)[1..] == d;
  }

  ghost predicate IsNumber(s: string, value: int) {
    ParseInt(s).Some? && ParseInt(s).value == value
  }

  lemma StripsAround(before: string, core: string, after: string)
    requires (forall i :: 0 <= i < |before| ==> IsSpace(before[i])) && forall i :: 0 <= i < |after| ==> IsSpace(after[i])
    requires core != "" && !IsSpace(core[0]) && !IsSpace(core[|core| - 1])
    ensures StripRight(StripLeft(before + core + after)) == core
  {
    StripsLeft(before, core + after);
    assert before + core + after == before + (core + after);
    StripsRight(core, after);
  }

  lemma {:induction false} StripsLeft(before: string, rest: string)
    requires (forall i :: 0 <= i < |before| ==> IsSpace(before[i])) && rest != "" && !IsSpace(rest[0])
    ensures StripLeft(before + rest) == rest
  {
    if before == "" {
      assert before + rest == rest;
    } else {
      assert (before + rest)[1..] == before[1..] + rest;
      StripsLeft(before[1..], rest);
    }
  }

  lemma {:induction false} StripsRight(core: string, after: string)
    requires (forall i :: 0 <= i < |after| ==> IsSpace(after[i])) && core != "" && !IsSpace(core[|core| - 1])
    ensures StripRight(core + after) == core
  {
    if after == "" {
      assert core + after == core;
    } else {
      var all := core + after;
      assert all[..|all| - 1] == core + after[..|after| - 1];
      StripsRight(core, after[..|after| - 1]);
    }
  }
}
