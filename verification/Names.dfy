/** SanitizeName: container names built from arbitrary text. */
module Names {
  import opened Strings

  /** The parts of the Unicode tables that SanitizeName consults: lower case of a rune, and
      whether a rune is a letter or a digit. */
  datatype Tables = Tables(lower: char -> char, alnum: char -> bool)

  predicate IsAsciiName(c: char)
  {
    'a' <= c <= 'z' || '0' <= c <= '9'
  }

  /** What is true of the real tables and all that is used of them. */
  ghost predicate Sane(t: Tables)
  {
    && (forall c :: t.lower(t.lower(c)) == t.lower(c))
    && (forall c :: t.alnum(c) ==> !IsSpace(c) && c != '-')
    && (forall c :: IsAsciiName(c) ==> t.alnum(c) && t.lower(c) == c)
    && t.lower('-') == '-'
  }

  /** The ASCII part of the tables. */
  const ASCII := Tables(LowerChar, c => IsAsciiName(LowerChar(c)))

  lemma AsciiIsSane()
    ensures Sane(ASCII)
  {
  }

  lemma AsciiLetters(c: char)
    ensures ASCII.alnum(c) <==> 'a' <= c <= 'z' || 'A' <= c <= 'Z' || '0' <= c <= '9'
  {
  }

  function LowerAll(t: Tables, s: string): (r: string)
    ensures |r| == |s| && forall i :: 0 <= i < |s| ==> r[i] == t.lower(s[i])
  {
    if s == "" then "" else [t.lower(s[0])] + LowerAll(t, s[1..])
  }

  /** Letters and digits stay, every run of other runes becomes one dash. */
  function Squash(t: Tables, s: string, lastDash: bool): string
  {
    if s == "" then ""
    else if t.alnum(s[0]) then [s[0]] + Squash(t, s[1..], false)
    else if lastDash then Squash(t, s[1..], true)
    else "-" + Squash(t, s[1..], true)
  }

  /** strings.Trim(s, "-") */
  function TrimDashes(s: string): string
  {
    if s != "" && s[0] == '-' then TrimDashes(s[1..])
    else if s != "" && s[|s| - 1] == '-' then TrimDashes(s[..|s| - 1])
    else s
  }

  function SanitizeName(t: Tables, s: string): string
  {
    var low := Trim(LowerAll(t, s));
    if low == "" then "unnamed"
    else
      var out := TrimDashes(Squash(t, low, false));
      if out == "" then "unnamed" else out
  }

  /** Runs of lower-case letters and digits, joined by single dashes inside a run of them. */
  ghost predicate Tidy(t: Tables, s: string)
  {
    && (forall i :: 0 <= i < |s| ==> (s[i] == '-' || t.alnum(s[i])) && t.lower(s[i]) == s[i])
    && (forall i :: 0 <= i < |s| - 1 ==> s[i] != '-' || s[i + 1] != '-')
  }

  ghost predicate NormalForm(t: Tables, s: string)
  {
    s != "" && s[0] != '-' && s[|s| - 1] != '-' && Tidy(t, s)
  }

  lemma {:induction false} SquashIsTidy(t: Tables, s: string, lastDash: bool)
    requires Sane(t) && forall i :: 0 <= i < |s| ==> t.lower(s[i]) == s[i]
    ensures Tidy(t, Squash(t, s, lastDash))
    ensures lastDash && Squash(t, s, lastDash) != "" ==> Squash(t, s, lastDash)[0] != '-'
  {
    if s != "" {
      SquashIsTidy(t, s[1..], false);
      SquashIsTidy(t, s[1..], true);
    }
  }

  lemma {:induction false} TrimKeepsTidy(t: Tables, s: string)
    requires Tidy(t, s)
    ensures Tidy(t, TrimDashes(s))
    ensures TrimDashes(s) != "" ==> NormalForm(t, TrimDashes(s))
  {
    if s != "" && s[0] == '-' {
      TrimKeepsTidy(t, s[1..]);
    } else if s != "" && s[|s| - 1] == '-' {
      TrimKeepsTidy(t, s[..|s| - 1]);
    }
  }

  lemma {:induction false} SquashOfTidy(t: Tables, s: string, lastDash: bool)
    requires Sane(t) && Tidy(t, s) && (lastDash && s != "" ==> s[0] != '-')
    ensures Squash(t, s, lastDash) == s
  {
    if s != "" {
      assert [s[0]] + s[1..] == s;
      SquashOfTidy(t, s[1..], s[0] == '-');
    }
  }

  lemma NormalFormIsFixed(t: Tables, s: string)
    requires Sane(t) && NormalForm(t, s)
    ensures SanitizeName(t, s) == s
  {
    assert LowerAll(t, s) == s;
    assert IsSpace('-') == false;
    assert Trimmed(s);
    SquashOfTidy(t, s, false);
  }

  lemma UnnamedIsNormal(t: Tables)
    requires Sane(t)
    ensures NormalForm(t, "unnamed")
  {
    var s := "unnamed";
    assert forall i :: 0 <= i < |s| ==> IsAsciiName(s[i]);
  }

  /** The result is in normal form, and the strings left unchanged are exactly those. */
  lemma SanitizeNormalises(t: Tables, s: string)
    requires Sane(t)
    ensures NormalForm(t, SanitizeName(t, s))
    ensures SanitizeName(t, SanitizeName(t, s)) == SanitizeName(t, s)
    ensures SanitizeName(t, s) == s <==> NormalForm(t, s)
  {
    var low := Trim(LowerAll(t, s));
    forall i | 0 <= i < |low| ensures t.lower(low[i]) == low[i] {
      assert low[i] in LowerAll(t, s);
    }
    SquashIsTidy(t, low, false);
    TrimKeepsTidy(t, Squash(t, low, false));
    UnnamedIsNormal(t);
    NormalFormIsFixed(t, SanitizeName(t, s));
    if NormalForm(t, s) {
      NormalFormIsFixed(t, s);
    }
  }

  /** Stub names pass through unchanged, so they keep whatever the hash distinguishes. */
  lemma StubNameUnchanged(t: Tables, hex: string)
    requires Sane(t) && hex != "" && forall i :: 0 <= i < |hex| ==> IsAsciiName(hex[i])
    ensures SanitizeName(t, "tc-" + hex) == "tc-" + hex
  {
    var s := "tc-" + hex;
    assert s[0] == 't' && s[1] == 'c' && s[2] == '-';
    forall i | 0 <= i < |s| ensures s[i] == (if i == 2 then '-' else s[i]) && (i != 2 ==> IsAsciiName(s[i])) {
      if i > 2 {
        assert s[i] == hex[i - 3];
      }
    }
    assert s[|s| - 1] == hex[|hex| - 1];
    NormalFormIsFixed(t, s);
  }

  lemma {:induction false} SquashSnoc(t: Tables, s: string, c: char, lastDash: bool)
    ensures Squash(t, s + [c], lastDash) ==
            Squash(t, s, lastDash) + Squash(t, [c], if s == "" then lastDash else !t.alnum(s[|s| - 1]))
  {
    if s == "" {
      assert s + [c] == [c];
    } else {
      assert (s + [c])[1..] == s[1..] + [c];
      SquashSnoc(t, s[1..], c, !t.alnum(s[0]));
    }
  }

  /** The loop of SanitizeName, with its builder and its lastDash flag. */
  method Sanitize(t: Tables, name: string) returns (out: string)
    ensures out == SanitizeName(t, name)
  {
    var s := Trim(LowerAll(t, name));
    if s == "" {
      return "unnamed";
    }
    var b, lastDash := "", false;
    for i := 0 to |s|
      invariant b == Squash(t, s[..i], false)
      invariant lastDash == (i > 0 && !t.alnum(s[i - 1]))
    {
      assert s[..i + 1] == s[..i] + [s[i]];
      SquashSnoc(t, s[..i], s[i], false);
      assert [s[i]][1..] == "";
      if t.alnum(s[i]) {
        b, lastDash := b + [s[i]], false;
      } else if !lastDash {
        b, lastDash := b + "-", true;
      }
    }
    assert s[..|s|] == s;
    out := TrimDashes(b);
    if out == "" {
      out := "unnamed";
    }
  }
}
