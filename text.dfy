/** The pieces of Python's string behaviour the bot relies on: whitespace,
    strip(), split(sep), split(), join, `in`, startswith, lower(), str(int) and
    int(str). Each is written once here and used by every other module. */
module Text {
  import opened Wrappers

  /** str.isspace() for one character: the ASCII controls TAB..CR, the
      separators 0x1C..0x1F, space, and the Unicode spaces Python recognises. */
  predicate IsSpace(c: char)
  {
    c == ' ' || ('\t' <= c <= '\r') || ('\U{1C}' <= c <= '\U{1F}') ||
    c == '\U{85}' || c == '\U{A0}' || c == '\U{1680}' || ('\U{2000}' <= c <= '\U{200A}') ||
    c == '\U{2028}' || c == '\U{2029}' || c == '\U{202F}' || c == '\U{205F}' || c == '\U{3000}'
  }

  predicate NoSpace(s: string)
  {
    forall i :: 0 <= i < |s| ==> !IsSpace(s[i])
  }

  predicate AllSpace(s: string)
  {
    forall i :: 0 <= i < |s| ==> IsSpace(s[i])
  }

  // ---------------------------------------------------------------- strip()

  /** s.lstrip(): s without its leading whitespace. */
  function TrimStart(s: string): string
  {
    if s != [] && IsSpace(s[0]) then TrimStart(s[1..]) else s
  }

  /** s.rstrip(): s without its trailing whitespace. */
  function TrimEnd(s: string): string
  {
    if s != [] && IsSpace(s[|s| - 1]) then TrimEnd(s[..|s| - 1]) else s
  }

  /** lstrip() keeps the longest suffix that does not start with whitespace. */
  lemma {:induction false} TrimStartSpec(s: string)
    ensures var r := TrimStart(s);
      |r| <= |s| && r == s[|s| - |r|..] && AllSpace(s[..|s| - |r|]) && (r == [] || !IsSpace(r[0]))
  {
    if s != [] && IsSpace(s[0]) {
      var t := s[1..];
      TrimStartSpec(t);
      var r := TrimStart(s);
      assert r == TrimStart(t);
      forall i | 0 <= i < |s| - |r|
        ensures IsSpace(s[i])
      {
        if i > 0 {
          assert s[i] == t[..|t| - |r|][i - 1];
        }
      }
    }
  }

  /** rstrip() keeps the longest prefix that does not end with whitespace. */
  lemma {:induction false} TrimEndSpec(s: string)
    ensures var r := TrimEnd(s);
      |r| <= |s| && r == s[..|r|] && AllSpace(s[|r|..]) && (r == [] || !IsSpace(r[|r| - 1]))
  {
    if s != [] && IsSpace(s[|s| - 1]) {
      var t := s[..|s| - 1];
      TrimEndSpec(t);
      var r := TrimEnd(s);
      assert r == TrimEnd(t);
      forall i | |r| <= i < |s|
        ensures IsSpace(s[i])
      {
        if i < |s| - 1 {
          assert s[i] == t[|r|..][i - |r|];
        }
      }
    }
  }

  /** s.strip() */
  function Strip(s: string): string
  {
    TrimEnd(TrimStart(s))
  }

  /** strip() removes only leading and trailing whitespace: what it returns is
      the piece of s that starts at the first non-whitespace character and has
      whitespace only after it. */
  lemma StripIsInnerPiece(s: string)
    ensures var r, k := Strip(s), |s| - |TrimStart(s)|;
      0 <= k && k + |r| <= |s| && s[k..k + |r|] == r && AllSpace(s[..k]) && AllSpace(s[k + |r|..])
    ensures var r := Strip(s); r == [] || (!IsSpace(r[0]) && !IsSpace(r[|r| - 1]))
  {
    var t := TrimStart(s);
    var r := TrimEnd(t);
    var k := |s| - |t|;
    TrimStartSpec(s);
    TrimEndSpec(t);
    assert t == s[k..];
    assert r == t[..|r|];
    assert s[k..k + |r|] == t[..|r|];
    assert AllSpace(t[|r|..]);
    assert s[k + |r|..] == t[|r|..];
  }

  /** Text with no whitespace at either end is left unchanged by strip(). */
  /** A final newline after stripped text is stripped away. */
  lemma StripFinalNewline(s: string)
    requires Strip(s) == s
    ensures Strip(s + "\n") == s
  {
    StripIsInnerPiece(s);
    var t := s + "\n";
    assert t[..|t| - 1] == s;
    if s == [] {
      assert TrimStart(t) == TrimStart(t[1..]) == [];
    } else {
      assert t[0] == s[0];
      assert TrimStart(t) == t;
      assert TrimEnd(t) == TrimEnd(s);
      assert TrimEnd(s) == s;
    }
  }

  lemma StripUnchanged(s: string)
    requires s == [] || (!IsSpace(s[0]) && !IsSpace(s[|s| - 1]))
    ensures Strip(s) == s
  {
  }

  // ----------------------------------------------------------- join / split

  /** sep.join(pieces) */
  function Join(pieces: seq<string>, sep: string): (r: string)
  {
    if pieces == [] then []
    else if |pieces| == 1 then pieces[0]
    else pieces[0] + sep + Join(pieces[1..], sep)
  }

  /** Joining one more piece appends the separator and that piece. */
  lemma {:induction false} JoinSnoc(pieces: seq<string>, x: string, sep: string)
    requires pieces != []
    ensures Join(pieces + [x], sep) == Join(pieces, sep) + sep + x
  {
    if |pieces| > 1 {
      JoinSnoc(pieces[1..], x, sep);
      assert (pieces + [x])[1..] == pieces[1..] + [x];
    }
  }

  /** Joining the first k pieces gives a prefix of joining them all. */
  lemma {:induction false} JoinPrefix(pieces: seq<string>, k: nat, sep: string)
    requires 1 <= k <= |pieces|
    ensures StartsWith(Join(pieces, sep), Join(pieces[..k], sep))
  {
    if k > 1 {
      JoinPrefix(pieces[1..], k - 1, sep);
      assert pieces[..k][1..] == pieces[1..][..k - 1];
      var rest, restK := Join(pieces[1..], sep), Join(pieces[1..][..k - 1], sep);
      assert Join(pieces, sep) == pieces[0] + sep + rest;
      assert Join(pieces[..k], sep) == pieces[0] + sep + restK;
      assert rest[..|restK|] == restK;
      assert (pieces[0] + sep + rest)[..|pieces[0] + sep + restK|] == pieces[0] + sep + restK;
    } else if |pieces| > 1 {
      assert pieces[..k] == [pieces[0]];
      assert Join(pieces, sep) == pieces[0] + (sep + Join(pieces[1..], sep));
    }
  }

  lemma {:induction false} JoinConsHead(c: char, pieces: seq<string>, sep: string)
    requires pieces != []
    ensures Join([[c] + pieces[0]] + pieces[1..], sep) == [c] + Join(pieces, sep)
  {
    var q := [[c] + pieces[0]] + pieces[1..];
    assert q[1..] == pieces[1..];
  }

  /** s.split(sep) for a one-character separator: the pieces between the
      separators, empty pieces included. */
  function SplitOn(s: string, sep: char): (r: seq<string>)
    ensures |r| >= 1
  {
    if s == [] then [[]]
    else
      var rest := SplitOn(s[1..], sep);
      if s[0] == sep then [[]] + rest
      else [[s[0]] + rest[0]] + rest[1..]
  }

  /** No piece holds the separator, and joining the pieces with it gives s back. */
  lemma {:induction false} SplitOnSpec(s: string, sep: char)
    ensures forall k :: 0 <= k < |SplitOn(s, sep)| ==> sep !in SplitOn(s, sep)[k]
    ensures Join(SplitOn(s, sep), [sep]) == s
  {
    if s != [] {
      SplitOnSpec(s[1..], sep);
      var rest := SplitOn(s[1..], sep);
      if s[0] == sep {
        assert ([[]] + rest)[1..] == rest;
      } else {
        JoinConsHead(s[0], rest, [sep]);
        var r := SplitOn(s, sep);
        assert r[1..] == rest[1..];
        forall k | 0 <= k < |r| ensures sep !in r[k] {
          if k == 0 {
            assert r[0] == [s[0]] + rest[0];
          } else {
            assert r[k] == rest[k];
          }
        }
      }
    }
  }

  /** Splitting a join of separator-free pieces gives the pieces back. */
  lemma {:induction false} SplitOnJoin(pieces: seq<string>, sep: char)
    requires pieces != []
    requires forall k :: 0 <= k < |pieces| ==> sep !in pieces[k]
    ensures SplitOn(Join(pieces, [sep]), sep) == pieces
    decreases |pieces|, |pieces[0]|
  {
    var p := pieces[0];
    if p == [] {
      if |pieces| > 1 {
        SplitOnJoin(pieces[1..], sep);
        assert Join(pieces, [sep]) == [sep] + Join(pieces[1..], [sep]);
        assert ([sep] + Join(pieces[1..], [sep]))[1..] == Join(pieces[1..], [sep]);
        assert [[]] + pieces[1..] == pieces;
      }
    } else {
      var tail := [p[1..]] + pieces[1..];
      assert tail[1..] == pieces[1..];
      assert forall k :: 0 <= k < |tail| ==> sep !in tail[k] by {
        assert forall x :: x in p[1..] ==> x in p;
      }
      SplitOnJoin(tail, sep);
      JoinConsHead(p[0], tail, [sep]);
      assert [[p[0]] + tail[0]] + tail[1..] == pieces by {
        assert [p[0]] + p[1..] == p;
      }
      var s := Join(pieces, [sep]);
      assert s[1..] == Join(tail, [sep]);
    }
  }

  /** A word of s.split(): non-empty and free of whitespace. */
  predicate IsWord(w: string)
  {
    w != [] && NoSpace(w)
  }

  /** s.split() with no argument: the maximal runs of non-whitespace, in order. */
  function Words(s: string): (r: seq<string>)
    ensures forall k :: 0 <= k < |r| ==> IsWord(r[k])
    ensures s != [] && !IsSpace(s[0]) ==> r != [] && r[0] != [] && r[0][0] == s[0]
  {
    if s == [] then []
    else
      var rest := Words(s[1..]);
      if IsSpace(s[0]) then rest
      else if |s| > 1 && !IsSpace(s[1]) then [[s[0]] + rest[0]] + rest[1..]
      else [[s[0]]] + rest
  }

  lemma {:induction false} WordsOfWordThen(w: string, t: string)
    requires IsWord(w)
    requires t == [] || IsSpace(t[0])
    ensures Words(w + t) == [w] + Words(t)
    decreases |w|
  {
    var s := w + t;
    assert s[1..] == w[1..] + t;
    if |w| > 1 {
      WordsOfWordThen(w[1..], t);
      assert [w[0]] + w[1..] == w;
    } else {
      assert w == [w[0]];
    }
  }

  /** Leading whitespace is skipped by split(). */
  lemma WordsSkipSpace(c: char, t: string)
    requires IsSpace(c)
    ensures Words([c] + t) == Words(t)
  {
    assert ([c] + t)[1..] == t;
  }

  /** Words separated by single spaces and followed by text that starts
      with whitespace are read as those words, then the words of that text. */
  lemma {:induction false} WordsOfJoinThen(ws: seq<string>, t: string)
    requires ws != []
    requires forall k :: 0 <= k < |ws| ==> IsWord(ws[k])
    requires t == [] || IsSpace(t[0])
    ensures Words(Join(ws, " ") + t) == ws + Words(t)
  {
    if |ws| == 1 {
      WordsOfWordThen(ws[0], t);
      assert [ws[0]] == ws;
    } else {
      var rest := Join(ws[1..], " ");
      var x := ws[0] + ([' '] + (rest + t));
      assert Join(ws, " ") + t == x;
      var tail := Words(t);
      assert Words(x) == [ws[0]] + (ws[1..] + tail) by {
        WordsOfJoinThen(ws[1..], t);
        WordsOfWordSpaceThen(ws[0], rest + t);
      }
      ConsThenAppend(ws, tail);
    }
  }

  lemma ConsThenAppend<T>(a: seq<T>, b: seq<T>)
    requires a != []
    ensures [a[0]] + (a[1..] + b) == a + b
  {
    assert [a[0]] + a[1..] == a;
  }

  lemma WordsOfWordSpaceThen(w: string, t: string)
    requires IsWord(w)
    ensures Words(w + ([' '] + t)) == [w] + Words(t)
  {
    WordsOfWordThen(w, [' '] + t);
    WordsSkipSpace(' ', t);
  }

  /** Words separated by single spaces are recovered exactly by split(). */
  lemma WordsOfJoin(ws: seq<string>)
    requires forall k :: 0 <= k < |ws| ==> IsWord(ws[k])
    ensures Words(Join(ws, " ")) == ws
  {
    if ws != [] {
      WordsOfJoinThen(ws, []);
      assert Join(ws, " ") + [] == Join(ws, " ");
      assert ws + [] == ws;
    }
  }

  // ------------------------------------------------ in, startswith, lower()

  predicate StartsWith(s: string, prefix: string)
  {
    |prefix| <= |s| && s[..|prefix|] == prefix
  }

  /** `sub in s` */
  predicate Contains(s: string, sub: string)
  {
    StartsWith(s, sub) || (s != [] && Contains(s[1..], sub))
  }

  predicate OccursAt(s: string, sub: string, i: int)
  {
    0 <= i <= |s| - |sub| && s[i..i + |sub|] == sub
  }

  /** `sub in s` holds exactly when sub occurs at some position of s. */
  lemma {:induction false} ContainsIff(s: string, sub: string)
    ensures Contains(s, sub) <==> exists i :: OccursAt(s, sub, i)
  {
    if StartsWith(s, sub) {
      assert OccursAt(s, sub, 0);
    } else if s != [] {
      ContainsIff(s[1..], sub);
      if Contains(s[1..], sub) {
        var i :| OccursAt(s[1..], sub, i);
        assert s[1..][i..i + |sub|] == s[i + 1..i + 1 + |sub|];
        assert OccursAt(s, sub, i + 1);
      }
      if exists i :: OccursAt(s, sub, i) {
        var i :| OccursAt(s, sub, i);
        assert i != 0;
        assert s[1..][i - 1..i - 1 + |sub|] == s[i..i + |sub|];
        assert OccursAt(s[1..], sub, i - 1);
      }
    }
  }

  lemma ContainsChar(s: string, c: char)
    ensures Contains(s, [c]) <==> c in s
  {
    ContainsIff(s, [c]);
    if c in s {
      var i :| 0 <= i < |s| && s[i] == c;
      assert s[i..i + 1] == [c];
      assert OccursAt(s, [c], i);
    }
    if Contains(s, [c]) {
      var i :| OccursAt(s, [c], i);
      assert s[i] == s[i..i + 1][0];
    }
  }

  /** str.lower() on one character, for ASCII and the basic Cyrillic block. */
  function LowerChar(c: char): (r: char)
  {
    if 'A' <= c <= 'Z' then (c as int + 32) as char
    else if '\U{0410}' <= c <= '\U{042F}' then (c as int + 32) as char
    else if '\U{0400}' <= c <= '\U{040F}' then (c as int + 80) as char
    else c
  }

  /** str.lower(), character by character. */
  function Lower(s: string): string
  {
    seq(|s|, i requires 0 <= i < |s| => LowerChar(s[i]))
  }

  /** lower() is idempotent: lower-case text stays as it is. */
  lemma LowerIdempotent(s: string)
    ensures Lower(Lower(s)) == Lower(s)
  {
    forall i | 0 <= i < |s| ensures LowerChar(LowerChar(s[i])) == LowerChar(s[i]) {
      var c := s[i];
      if 'A' <= c <= 'Z' {
        assert 'a' <= LowerChar(c) <= 'z';
      } else if '\U{0410}' <= c <= '\U{042F}' {
        assert '\U{0430}' <= LowerChar(c) <= '\U{044F}';
      } else if '\U{0400}' <= c <= '\U{040F}' {
        assert '\U{0450}' <= LowerChar(c) <= '\U{045F}';
      }
    }
  }

  // ------------------------------------------------------ str(n), int(s)

  predicate IsDigit(c: char)
  {
    '0' as int <= c as int <= '9' as int
  }

  function DigitChar(d: nat): (c: char)
    requires d < 10
    ensures IsDigit(c) && c as int - '0' as int == d
  {
    ('0' as int + d) as char
  }

  /** str(n) for n >= 0: decimal digits, most significant first, no leading zero. */
  function NatToString(n: nat): (r: string)
    ensures r != []
    ensures forall i :: 0 <= i < |r| ==> IsDigit(r[i])
    ensures |r| > 1 ==> r[0] != '0'
  {
    if n < 10 then [DigitChar(n)] else NatToString(n / 10) + [DigitChar(n % 10)]
  }

  /** str(n) */
  function IntToString(n: int): (r: string)
  {
    if n < 0 then "-" + NatToString(-n) else NatToString(n)
  }

  /** The value of a string of decimal digits, most significant first. */
  function DigitsValue(ds: string): int
  {
    if ds == [] then 0
    else DigitsValue(ds[..|ds| - 1]) * 10 + (ds[|ds| - 1] as int - '0' as int)
  }

  /** The literal body int() accepts in base 10: digits, with single
      underscores allowed between two digits. */
  predicate IsDigitGroup(b: string)
  {
    b != [] && IsDigit(b[0]) && GroupRest(b[1..])
  }

  /** What may follow the first digit of a digit group. */
  predicate GroupRest(b: string)
  {
    b == [] ||
    (IsDigit(b[0]) && GroupRest(b[1..])) ||
    (|b| >= 2 && b[0] == '_' && IsDigit(b[1]) && GroupRest(b[2..]))
  }

  /** The digits of a literal, underscores dropped. */
  function Digits(b: string): string
  {
    if b == [] then []
    else (if IsDigit(b[0]) then [b[0]] else []) + Digits(b[1..])
  }

  /** int(s) in base 10 over the ASCII digits: None where Python raises
      ValueError, and also for the other Unicode decimal digits, which Python
      accepts. */
  function ParseInt(s: string): (r: Option<int>)
  {
    ParseLiteral(Strip(s))
  }

  /** int() of text already stripped: an optional sign, then a digit group. */
  function ParseLiteral(t: string): (r: Option<int>)
  {
    if t != [] && (t[0] == '-' || t[0] == '+') then
      if IsDigitGroup(t[1..]) then
        var v: int := DigitsValue(Digits(t[1..]));
        Some(if t[0] == '-' then -v else v)
      else None
    else if IsDigitGroup(t) then Some(DigitsValue(Digits(t)))
    else None
  }

  lemma {:induction false} DigitsOfDigitString(ds: string)
    requires forall i :: 0 <= i < |ds| ==> IsDigit(ds[i])
    ensures Digits(ds) == ds
  {
    if ds != [] {
      DigitsOfDigitString(ds[1..]);
      assert [ds[0]] + ds[1..] == ds;
    }
  }

  lemma {:induction false} NatToStringValue(n: nat)
    ensures DigitsValue(NatToString(n)) == n
  {
    if n >= 10 {
      NatToStringValue(n / 10);
      var r := NatToString(n);
      assert r[..|r| - 1] == NatToString(n / 10);
    }
  }

  lemma {:induction false} DigitStringIsGroupRest(ds: string)
    requires forall i :: 0 <= i < |ds| ==> IsDigit(ds[i])
    ensures GroupRest(ds)
  {
    if ds != [] {
      DigitStringIsGroupRest(ds[1..]);
    }
  }

  lemma DigitStringIsGroup(ds: string)
    requires ds != []
    requires forall i :: 0 <= i < |ds| ==> IsDigit(ds[i])
    ensures IsDigitGroup(ds)
  {
    DigitStringIsGroupRest(ds[1..]);
  }

  lemma ParseUnsigned(ds: string)
    requires ds != []
    requires forall i :: 0 <= i < |ds| ==> IsDigit(ds[i])
    ensures ParseInt(ds) == Some(DigitsValue(ds))
  {
    assert !IsSpace(ds[0]) && !IsSpace(ds[|ds| - 1]);
    StripUnchanged(ds);
    assert ParseInt(ds) == ParseLiteral(ds);
    DigitsOfDigitString(ds);
    DigitStringIsGroup(ds);
    assert ds[0] != '-' && ds[0] != '+';
  }

  lemma ParseNegative(s: string)
    requires |s| >= 2 && s[0] == '-'
    requires forall i :: 1 <= i < |s| ==> IsDigit(s[i])
    ensures ParseInt(s) == Some(-DigitsValue(s[1..]))
  {
    var ds := s[1..];
    assert forall i :: 0 <= i < |ds| ==> IsDigit(ds[i]);
    var v: int := DigitsValue(ds);
    assert Strip(s) == s by {
      assert !IsSpace(s[|s| - 1]);
      StripUnchanged(s);
    }
    assert ParseLiteral(s) == Some(-v) by {
      DigitsOfDigitString(ds);
      DigitStringIsGroup(ds);
      assert IsDigitGroup(s[1..]) && Digits(s[1..]) == ds;
    }
  }

  /** int(str(n)) == n: the printed form of any integer parses back to it. */
  lemma ParseIntToString(n: int)
    ensures ParseInt(IntToString(n)) == Some(n)
  {
    var m: nat := if n < 0 then -n else n;
    NatToStringValue(m);
    if n < 0 {
      assert IntToString(n)[1..] == NatToString(m);
      ParseNegative(IntToString(n));
    } else {
      ParseUnsigned(NatToString(m));
    }
  }

  /** A printed integer is never empty and never has whitespace in it. */
  lemma IntToStringIsWord(n: int)
    ensures IsWord(IntToString(n))
  {
  }

  // ------------------------------------------------------ format padding

  /** f"{s:>w}": s right-aligned in a field of width w (never cut). */
  function PadLeft(s: string, w: nat): (r: string)
    ensures |r| == if |s| < w then w else |s|
    ensures r[|r| - |s|..] == s
  {
    if |s| < w then seq(w - |s|, _ => ' ') + s else s
  }

  /** f"{s:<w}": s left-aligned in a field of width w (never cut). */
  function PadRight(s: string, w: nat): (r: string)
    ensures |r| == if |s| < w then w else |s|
    ensures r[..|s|] == s
  {
    if |s| < w then s + seq(w - |s|, _ => ' ') else s
  }
}
