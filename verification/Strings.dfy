/** The string operations of the Go standard library that label parsing and printing rest on. */
module Strings {

  datatype Option<+T> = None | Some(value: T)

  // ---------------------------------------------------------------- white space

  /** unicode.IsSpace: the White_Space property. */
  predicate IsSpace(c: char)
  {
    var n := c as int;
    || 9 <= n <= 13 || n == 32 || n == 0x85 || n == 0xA0 || n == 0x1680
    || 0x2000 <= n <= 0x200A || n == 0x2028 || n == 0x2029 || n == 0x202F || n == 0x205F || n == 0x3000
  }

  /** Character by character. */
  lemma WhiteSpace(c: char)
    ensures IsSpace(c) <==> c as int in {
      9, 10, 11, 12, 13, 32, 0x85, 0xA0, 0x1680, 0x2000, 0x2001, 0x2002, 0x2003, 0x2004, 0x2005, 0x2006, 0x2007, 0x2008,
      0x2009, 0x200A, 0x2028, 0x2029, 0x202F, 0x205F, 0x3000}
  {
  }

  predicate Trimmed(s: string)
  {
    s != "" ==> !IsSpace(s[0]) && !IsSpace(s[|s| - 1])
  }

  function TrimLeft(s: string): (r: string)
    ensures forall c :: c in r ==> c in s
    ensures r != "" ==> !IsSpace(r[0])
    ensures s != "" && !IsSpace(s[0]) ==> r == s
  {
    if s != "" && IsSpace(s[0]) then TrimLeft(s[1..]) else s
  }

  function TrimRight(s: string): (r: string)
    ensures forall c :: c in r ==> c in s
    ensures r != "" ==> !IsSpace(r[|r| - 1])
    ensures r != "" ==> s != "" && r[0] == s[0]
    ensures s != "" && !IsSpace(s[|s| - 1]) ==> r == s
  {
    if s != "" && IsSpace(s[|s| - 1]) then TrimRight(s[..|s| - 1]) else s
  }

  /** strings.TrimSpace: a trimmed infix, and the identity on trimmed strings. */
  function Trim(s: string): (r: string)
    ensures Trimmed(r)
    ensures Trimmed(s) ==> r == s
    ensures forall c :: c in r ==> c in s
  {
    var t := TrimLeft(s);
    assert t != "" ==> !IsSpace(t[0]);
    TrimRight(t)
  }

  ghost predicate AllSpace(s: string)
  {
    forall c :: c in s ==> IsSpace(c)
  }

  lemma {:induction false} TrimLeftDrops(s: string) returns (a: string)
    ensures s == a + TrimLeft(s) && AllSpace(a)
  {
    if s != "" && IsSpace(s[0]) {
      a := TrimLeftDrops(s[1..]);
      a := [s[0]] + a;
    } else {
      a := "";
    }
  }

  lemma {:induction false} TrimRightDrops(s: string) returns (b: string)
    ensures s == TrimRight(s) + b && AllSpace(b)
  {
    if s != "" && IsSpace(s[|s| - 1]) {
      b := TrimRightDrops(s[..|s| - 1]);
      b := b + [s[|s| - 1]];
    } else {
      b := "";
    }
  }

  /** Trimming takes white space off both ends, and nothing else. */
  lemma TrimDrops(s: string) returns (a: string, b: string)
    ensures s == a + Trim(s) + b && AllSpace(a) && AllSpace(b) && Trimmed(Trim(s))
  {
    a := TrimLeftDrops(s);
    b := TrimRightDrops(TrimLeft(s));
  }

  // ---------------------------------------------------------------- comma lists

  /** strings.Split for a one-character separator. */
  function Split(s: string, sep: char): (r: seq<string>)
    ensures |r| >= 1
    ensures forall x :: x in r ==> sep !in x
  {
    if s == "" then [""]
    else
      var rest := Split(s[1..], sep);
      if s[0] == sep then [""] + rest else [[s[0]] + rest[0]] + rest[1..]
  }

  /** strings.Join for a one-character separator. */
  function Join(xs: seq<string>, sep: char): string
  {
    if |xs| == 0 then "" else if |xs| == 1 then xs[0] else xs[0] + [sep] + Join(xs[1..], sep)
  }

  lemma {:induction false} SplitHead(x: string, rest: string, sep: char)
    requires sep !in x
    ensures Split(x + [sep] + rest, sep) == [x] + Split(rest, sep)
  {
    var s := x + [sep] + rest;
    if x == "" {
      assert s[1..] == rest;
    } else {
      SplitHead(x[1..], rest, sep);
      assert s[1..] == x[1..] + [sep] + rest;
      assert [s[0]] + x[1..] == x;
    }
  }

  lemma {:induction false} SplitWhole(x: string, sep: char)
    requires sep !in x
    ensures Split(x, sep) == [x]
  {
    if x != "" {
      SplitWhole(x[1..], sep);
      assert [x[0]] + x[1..] == x;
    }
  }

  lemma {:induction false} SplitJoin(xs: seq<string>, sep: char)
    requires |xs| >= 1 && forall x :: x in xs ==> sep !in x
    ensures Split(Join(xs, sep), sep) == xs
  {
    if |xs| == 1 {
      SplitWhole(xs[0], sep);
    } else {
      SplitJoin(xs[1..], sep);
      SplitHead(xs[0], Join(xs[1..], sep), sep);
    }
  }

  /** And splitting is undone by joining. */
  lemma {:induction false} JoinSplit(s: string, sep: char)
    ensures Join(Split(s, sep), sep) == s
  {
    if s != "" {
      JoinSplit(s[1..], sep);
      var rest, parts := Split(s[1..], sep), Split(s, sep);
      if s[0] == sep {
        assert parts == [""] + rest && parts[1..] == rest;
      } else {
        assert parts == [[s[0]] + rest[0]] + rest[1..] && parts[1..] == rest[1..];
      }
    }
  }

  predicate CleanItem(x: string)
  {
    x != "" && Trimmed(x) && ',' !in x
  }

  function Items(parts: seq<string>): seq<string>
  {
    if parts == [] then [] else Kept(parts[0]) + Items(parts[1..])
  }

  function Kept(part: string): seq<string>
  {
    if Trim(part) != "" then [Trim(part)] else []
  }

  /** The lists a comma-separated label can stand for. */
  ghost predicate CleanList(xs: seq<string>)
  {
    forall x :: x in xs ==> CleanItem(x)
  }

  lemma {:induction false} ItemsAreClean(parts: seq<string>)
    requires forall x :: x in parts ==> ',' !in x
    ensures CleanList(Items(parts))
  {
    if parts != [] {
      ItemsAreClean(parts[1..]);
      assert parts[0] in parts;
    }
  }

  lemma {:induction false} ItemsOfClean(xs: seq<string>)
    requires CleanList(xs)
    ensures Items(xs) == xs
  {
    if xs != [] {
      ItemsOfClean(xs[1..]);
      assert CleanItem(xs[0]);
    }
  }

  lemma {:induction false} ItemsSnoc(parts: seq<string>, x: string)
    ensures Items(parts + [x]) == Items(parts) + Kept(x)
  {
    hide Kept;
    var all := parts + [x];
    if parts == [] {
      assert all[1..] == [];
    } else {
      ItemsSnoc(parts[1..], x);
      assert all[0] == parts[0] && all[1..] == parts[1..] + [x];
    }
  }

  function Csv(v: string): (r: seq<string>)
    ensures CleanList(r)
  {
    ItemsAreClean(Split(v, ','));
    Items(Split(v, ','))
  }

  /** Joining and reading back a clean list is the identity. */
  lemma CsvJoin(xs: seq<string>)
    requires CleanList(xs)
    ensures Csv(Join(xs, ',')) == xs
    ensures xs != [] ==> Join(xs, ',') != ""
  {
    if xs != [] {
      assert CleanItem(xs[0]);
      SplitJoin(xs, ',');
      ItemsOfClean(xs);
    } else {
      assert Items([""]) == Kept("") + Items([""][1..]) == [];
    }
  }

  /** The loop of `csv`. */
  method CsvLoop(v: string) returns (out: seq<string>)
    ensures out == Csv(v)
  {
    hide Split, Items, Trim;
    var items := Split(v, ',');
    out := [];
    ItemsOfNone();
    for i := 0 to |items|
      invariant out == Items(items[..i])
    {
      var s := Trim(items[i]);
      ItemsSnoc(items[..i], items[i]);
      assert items[..i + 1] == items[..i] + [items[i]];
      if s != "" {
        out := out + [s];
      }
    }
    assert items[..|items|] == items;
  }

  lemma ItemsOfNone()
    ensures Items([]) == []
  {
  }

  // ---------------------------------------------------------------- booleans and integers

  function LowerChar(c: char): char
  {
    if 'A' <= c <= 'Z' then (c as int + 32) as char else c
  }

  /** strings.ToLower on the letters A to Z; other letters play no part where this is used. */
  function Lower(s: string): (r: string)
    ensures |r| == |s|
  {
    if s == "" then "" else [LowerChar(s[0])] + Lower(s[1..])
  }

  function ParseBool(v: string, default: bool): bool
  {
    var s := Lower(Trim(v));
    if s in ["1", "t", "true", "yes", "y", "on"] then true
    else if s in ["0", "f", "false", "no", "n", "off"] then false
    else default
  }

  function FormatBool(b: bool): string
  {
    if b then "true" else "false"
  }

  lemma LowerTrueFalse()
    ensures Lower("true") == "true" && Lower("false") == "false"
  {
    assert Lower("") == "";
    assert Lower("e") == "e";
    assert Lower("ue") == "ue" && Lower("se") == "se";
    assert Lower("rue") == "rue" && Lower("lse") == "lse";
    assert Lower("alse") == "alse";
  }

  /** Which words stand for yes and no, in whatever case. */
  lemma BoolWords(v: string, default: bool)
    ensures Lower(Trim(v)) in {"1", "t", "true", "yes", "y", "on"} ==> ParseBool(v, default)
    ensures Lower(Trim(v)) in {"0", "f", "false", "no", "n", "off"} ==> !ParseBool(v, default)
    ensures Lower(Trim(v)) !in {"1", "t", "true", "yes", "y", "on", "0", "f", "false", "no", "n", "off"} ==>
      ParseBool(v, default) == default
  {
  }

  lemma {:induction false} LowerAt(s: string, i: nat)
    requires i < |s|
    ensures Lower(s)[i] == if 'A' <= s[i] <= 'Z' then s[i] - 'A' + 'a' else s[i]
  {
    if i > 0 {
      LowerAt(s[1..], i - 1);
    }
  }

  lemma BoolRoundTrip(b: bool, default: bool)
    ensures ParseBool(FormatBool(b), default) == b
  {
    LowerTrueFalse();
    assert Trimmed(FormatBool(b));
    assert "false"[0] == 'f';
    assert "false" !in ["1", "t", "true", "yes", "y", "on"];
  }

  predicate IsDigit(c: char)
  {
    '0' <= c <= '9'
  }

  predicate AllDigits(s: string)
  {
    forall i :: 0 <= i < |s| ==> IsDigit(s[i])
  }

  function DecimalValue(s: string): nat
    requires AllDigits(s)
  {
    if s == "" then 0 else 10 * DecimalValue(s[..|s| - 1]) + (s[|s| - 1] as int - '0' as int)
  }

  function Decimal(n: nat): (r: string)
    ensures r != "" && AllDigits(r) && DecimalValue(r) == n
  {
    var last := [('0' as int + n % 10) as char];
    if n < 10 then
      assert last[..0] == "";
      last
    else
      var front := Decimal(n / 10);
      var r := front + last;
      assert r[..|r| - 1] == front;
      r
  }

  /** strconv.Itoa */
  function Itoa(n: int): string
  {
    if n < 0 then "-" + Decimal(-n) else Decimal(n)
  }

  predicate IsInt64(n: int)
  {
    -0x8000_0000_0000_0000 <= n < 0x8000_0000_0000_0000
  }

  function Signed(negative: bool, n: int): int
  {
    if negative then -n else n
  }

  /** strconv.Atoi on a 64-bit platform: optional sign, at least one digit, in range. */
  function Atoi(s: string): (r: Option<int>)
    ensures r.Some? ==> IsInt64(r.value)
  {
    var signed := s != "" && (s[0] == '-' || s[0] == '+');
    var digits := if signed then s[1..] else s;
    if digits == "" || !AllDigits(digits) then None
    else
      var n := Signed(signed && s[0] == '-', DecimalValue(digits));
      if IsInt64(n) then Some(n) else None
  }

  lemma IntRoundTrip(n: int)
    requires IsInt64(n)
    ensures Atoi(Trim(Itoa(n))) == Atoi(Itoa(n)) == Some(n) && Trimmed(Itoa(n))
    ensures forall c :: c in Itoa(n) ==> c == '-' || IsDigit(c)
  {
    var d := Decimal(if n < 0 then -n else n);
    var s := if n < 0 then "-" + d else d;
    assert IsDigit(d[0]) && IsDigit(d[|d| - 1]);
    assert s[|s| - 1] == d[|d| - 1];
    assert Trimmed(s);
    if n < 0 {
      assert s[1..] == d;
    }
    AtoiOf(s, n < 0, d);
    assert forall c :: c in d ==> IsDigit(c);
  }

  lemma AtoiOf(s: string, negative: bool, d: string)
    requires AllDigits(d) && d != "" && s == if negative then "-" + d else d
    requires IsInt64(Signed(negative, DecimalValue(d)))
    ensures Atoi(s) == Some(Signed(negative, DecimalValue(d)))
  {
    assert IsDigit(d[0]);
    if negative {
      assert s[1..] == d;
    }
  }

  /** What Atoi reads: digits with or without a sign, up to 64 bits. */
  lemma AtoiMeans(s: string, n: int)
    ensures Atoi(s) == Some(n) <==> exists sign, digits :: Numeral(s, sign, digits, n)
  {
    if Atoi(s) == Some(n) {
      if s[0] == '-' || s[0] == '+' {
        assert s == s[..1] + s[1..];
        assert s[..1] == "-" || s[..1] == "+";
        assert Numeral(s, s[..1], s[1..], n);
      } else {
        assert s == "" + s;
        assert Numeral(s, "", s, n);
      }
    }
    if sign, digits :| Numeral(s, sign, digits, n) {
      assert sign != "" ==> s[1..] == digits;
      assert sign == "" ==> s == digits && IsDigit(s[0]);
    }
  }

  ghost predicate Numeral(s: string, sign: string, digits: string, n: int)
  {
    && sign in {"", "+", "-"} && s == sign + digits && digits != "" && AllDigits(digits)
    && n == (if sign == "-" then 0 - DecimalValue(digits) else DecimalValue(digits))
    && -9_223_372_036_854_775_808 <= n <= 9_223_372_036_854_775_807
  }

  /** Itoa writes no plus sign, no leading zeros, and no negative zero. */
  lemma ItoaSays(n: int)
    ensures n >= 0 ==> AllDigits(Itoa(n)) && (Itoa(n)[0] == '0' ==> Itoa(n) == "0")
    ensures n < 0 ==> Itoa(n) == "-" + Itoa(-n) && Itoa(-n)[0] != '0'
  {
    NoLeadingZero(if n < 0 then -n else n);
  }

  lemma {:induction false} NoLeadingZero(n: nat)
    ensures n > 0 ==> Decimal(n)[0] != '0'
    ensures n == 0 ==> Decimal(n) == "0"
  {
    if n >= 10 {
      NoLeadingZero(n / 10);
    }
  }

  // ---------------------------------------------------------------- dotted names

  /** strings.SplitN(s, ".", 2)[0] */
  function UpToDot(s: string): (r: string)
    ensures r <= s && '.' !in r
    ensures r == s || s[|r|] == '.'
  {
    if s == "" || s[0] == '.' then "" else
      var r := [s[0]] + UpToDot(s[1..]);
      r
  }

  lemma {:induction false} UpToDotOf(name: string, rest: string)
    requires '.' !in name
    ensures UpToDot(name + "." + rest) == name
  {
    var s := name + "." + rest;
    if name == "" {
      assert s[0] == '.';
    } else {
      UpToDotOf(name[1..], rest);
      assert s[1..] == name[1..] + "." + rest;
      assert [name[0]] + name[1..] == name;
    }
  }

  /** A key below `prefix + name + "."` determines the dot-free name. */
  lemma NameBelow(prefix: string, name: string, key: string)
    requires '.' !in name && prefix + name + "." <= key
    ensures prefix <= key && UpToDot(key[|prefix|..]) == name
    ensures key == prefix + name + "." + key[|prefix + name + "."|..]
  {
    var p := prefix + name + ".";
    var rest := key[|p|..];
    assert key == p + rest;
    assert key[|prefix|..] == name + "." + rest;
    UpToDotOf(name, rest);
  }

  // ---------------------------------------------------------------- sorting

  /** The order of sort.Strings. */
  predicate LexLe(a: string, b: string)
  {
    a == "" || (b != "" && (a[0] < b[0] || (a[0] == b[0] && LexLe(a[1..], b[1..]))))
  }

  lemma {:induction false} LexTotal(a: string, b: string)
    ensures LexLe(a, b) || LexLe(b, a)
    ensures LexLe(a, b) && LexLe(b, a) ==> a == b
  {
    if a != "" && b != "" && a[0] == b[0] {
      LexTotal(a[1..], b[1..]);
      assert a == [a[0]] + a[1..] && b == [b[0]] + b[1..];
    }
  }

  lemma {:induction false} LexTransitive(a: string, b: string, c: string)
    requires LexLe(a, b) && LexLe(b, c)
    ensures LexLe(a, c)
  {
    if a != "" && a[0] == b[0] == c[0] {
      LexTransitive(a[1..], b[1..], c[1..]);
    }
  }

  predicate IsLeast(x: string, s: set<string>)
  {
    x in s && forall y :: y in s ==> LexLe(x, y)
  }

  lemma {:induction false} LeastExists(s: set<string>) returns (x: string)
    requires s != {}
    ensures IsLeast(x, s)
  {
    x :| x in s;
    LexTotal(x, x);
    var rest := s - {x};
    if rest == {} {
      assert s == {x};
    } else {
      var y := LeastExists(rest);
      LexTotal(x, y);
      var least := if LexLe(x, y) then x else y;
      forall z | z in s ensures LexLe(least, z) {
        if z != x {
          assert z in rest && LexLe(y, z);
          if least == x {
            LexTransitive(x, y, z);
          }
        }
      }
      x := least;
    }
  }

  function Least(s: set<string>): (x: string)
    requires s != {}
    ensures IsLeast(x, s)
  {
    assert exists x :: IsLeast(x, s) by {
      var x := LeastExists(s);
    }
    assert forall x, y | IsLeast(x, s) && IsLeast(y, s) :: x == y by {
      forall x, y | IsLeast(x, s) && IsLeast(y, s) ensures x == y {
        LexTotal(x, y);
      }
    }
    var x :| IsLeast(x, s);
    x
  }

  ghost predicate Distinct<T>(xs: seq<T>)
  {
    forall i, j :: 0 <= i < j < |xs| ==> xs[i] != xs[j]
  }

  /** The elements of a set in ascending order, each once. */
  function Sorted(s: set<string>): (r: seq<string>)
    ensures forall x :: x in r <==> x in s
    ensures Distinct(r)
    ensures forall i, j :: 0 <= i < j < |r| ==> LexLe(r[i], r[j])
  {
    if s == {} then []
    else
      var x := Least(s);
      var rest := Sorted(s - {x});
      [x] + rest
  }
}
