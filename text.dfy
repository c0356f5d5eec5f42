/** The Python string operations the scripts and the speech client rely on
    (`strip`, `lower`, `startswith`, `in`, `split`, `join`, `int(...)`, `str(...)`),
    restricted to the ASCII range. */
module Text {
  import opened Wrappers

  /** The characters `str.isspace` accepts in the ASCII range: blank, tab, the line
      breaks, vertical tab, form feed, and the four separators `\x1c` to `\x1f`. */
  const Whitespace: set<char> := {' ', '\t', '\n', '\r', '\U{000B}', '\U{000C}',
    '\U{001C}', '\U{001D}', '\U{001E}', '\U{001F}'}

  predicate IsSpace(c: char) {
    c in Whitespace
  }

  /** Drops leading characters that belong to `drop` (`str.lstrip(chars)`). */
  function TrimLeft(s: string, drop: set<char>): (r: string)
    ensures |r| <= |s| && r == s[|s| - |r|..]
    ensures forall i :: 0 <= i < |s| - |r| ==> s[i] in drop
    ensures r != [] ==> r[0] !in drop
  {
    if s != [] && s[0] in drop then TrimLeft(s[1..], drop) else s
  }

  /** Drops trailing characters that belong to `drop` (`str.rstrip(chars)`). */
  function TrimRight(s: string, drop: set<char>): (r: string)
    ensures |r| <= |s| && r == s[..|r|]
    ensures forall i :: |r| <= i < |s| ==> s[i] in drop
    ensures r != [] ==> r[|r| - 1] !in drop
  {
    if s != [] && s[|s| - 1] in drop then TrimRight(s[..|s| - 1], drop) else s
  }

  /** `str.strip(chars)`: a piece of `s` that neither starts nor ends with a
      character of `drop`. */
  function StripChars(s: string, drop: set<char>): (r: string)
    ensures forall c :: c in r ==> c in s
    ensures r != [] ==> r[0] !in drop && r[|r| - 1] !in drop
  {
    var t := TrimLeft(s, drop);
    var r := TrimRight(t, drop);
    TrimBothEnds(s, drop, t, r);
    r
  }

  /** What `StripChars` keeps is a slice of `s` with only characters of `drop`
      outside it. */
  lemma StripCharsSlice(s: string, drop: set<char>)
    ensures exists k :: TrimmedAt(s, drop, k, StripChars(s, drop))
  {
    var t := TrimLeft(s, drop);
    TrimBothEnds(s, drop, t, TrimRight(t, drop));
    assert TrimmedAt(s, drop, |s| - |t|, StripChars(s, drop));
  }

  /** `r` is the slice of `s` starting at `k`, and every character of `s` outside
      that slice belongs to `drop`. */
  predicate TrimmedAt(s: string, drop: set<char>, k: int, r: string) {
    0 <= k <= |s| - |r| && r == s[k..k + |r|]
    && (forall i :: 0 <= i < k ==> s[i] in drop)
    && (forall i :: k + |r| <= i < |s| ==> s[i] in drop)
  }

  /** A right trim of a left trim keeps a slice of `s` flanked by dropped characters. */
  lemma TrimBothEnds(s: string, drop: set<char>, t: string, r: string)
    requires |t| <= |s| && t == s[|s| - |t|..]
    requires forall i :: 0 <= i < |s| - |t| ==> s[i] in drop
    requires |r| <= |t| && r == t[..|r|]
    requires forall i :: |r| <= i < |t| ==> t[i] in drop
    ensures TrimmedAt(s, drop, |s| - |t|, r)
    ensures forall c :: c in r ==> c in s
  {
    var k := |s| - |t|;
    assert r == s[k..k + |r|] by {
      assert t == s[k..] && r == t[..|r|];
    }
    forall i | k + |r| <= i < |s|
      ensures s[i] in drop
    {
      assert s[i] == t[i - k];
    }
    forall c | c in r
      ensures c in s
    {
      var j :| 0 <= j < |r| && r[j] == c;
      assert s[k + j] == c;
    }
  }

  /** `str.strip()` with no argument: blanks are removed from both ends until
      neither end is blank. */
  function Strip(s: string): (r: string)
    ensures r != [] ==> !IsSpace(r[0]) && !IsSpace(r[|r| - 1])
    ensures r == [] <==> forall i :: 0 <= i < |s| ==> IsSpace(s[i])
    ensures |r| <= |s|
    decreases |s|
  {
    if s == [] then s
    else if IsSpace(s[0]) then Strip(s[1..])
    else if IsSpace(s[|s| - 1]) then Strip(s[..|s| - 1])
    else s
  }

  /** What `Strip` keeps is a slice of `s` with only blanks outside it. */
  lemma {:induction false} StripSlice(s: string)
    ensures exists k :: TrimmedAt(s, Whitespace, k, Strip(s))
    decreases |s|
  {
    if s == [] || (!IsSpace(s[0]) && !IsSpace(s[|s| - 1])) {
      assert Strip(s) == s;
      assert TrimmedAt(s, Whitespace, 0, s);
    } else if IsSpace(s[0]) {
      assert Strip(s) == Strip(s[1..]);
      StripSlice(s[1..]);
      TrimmedAtDropFirst(s, Whitespace, Strip(s[1..]));
    } else {
      assert Strip(s) == Strip(s[..|s| - 1]);
      StripSlice(s[..|s| - 1]);
      TrimmedAtDropLast(s, Whitespace, s[..|s| - 1], Strip(s[..|s| - 1]));
    }
  }

  lemma TrimmedAtDropFirst(s: string, drop: set<char>, r: string)
    requires s != [] && s[0] in drop && exists k :: TrimmedAt(s[1..], drop, k, r)
    ensures exists k :: TrimmedAt(s, drop, k, r)
  {
    var k :| TrimmedAt(s[1..], drop, k, r);
    assert s[k + 1..k + 1 + |r|] == s[1..][k..k + |r|];
    forall i | 0 < i < k + 1
      ensures s[i] in drop
    {
      assert s[i] == s[1..][i - 1];
    }
    forall i | k + 1 + |r| <= i < |s|
      ensures s[i] in drop
    {
      assert s[i] == s[1..][i - 1];
    }
    assert TrimmedAt(s, drop, k + 1, r);
  }

  lemma TrimmedAtDropLast(s: string, drop: set<char>, t: string, r: string)
    requires s != [] && s[|s| - 1] in drop && t == s[..|s| - 1] && exists k :: TrimmedAt(t, drop, k, r)
    ensures exists k :: TrimmedAt(s, drop, k, r)
  {
    var k :| TrimmedAt(t, drop, k, r);
    assert s[k..k + |r|] == s[..|s| - 1][k..k + |r|];
    forall i | 0 <= i < k
      ensures s[i] in drop
    {
      assert s[i] == s[..|s| - 1][i];
    }
    forall i | k + |r| <= i < |s| - 1
      ensures s[i] in drop
    {
      assert s[i] == s[..|s| - 1][i];
    }
    assert TrimmedAt(s, drop, k, r);
  }

  /** Stripping twice is stripping once. */
  lemma StripIdempotent(s: string)
    ensures Strip(Strip(s)) == Strip(s)
  {
    var r := Strip(s);
    if r != [] {
      assert TrimLeft(r, Whitespace) == r;
      assert TrimRight(r, Whitespace) == r;
    }
  }

  /** A string without surrounding whitespace is its own strip. */
  lemma StripUnchanged(s: string)
    requires s != [] ==> !IsSpace(s[0]) && !IsSpace(s[|s| - 1])
    ensures Strip(s) == s
  {
    if s != [] {
      assert TrimLeft(s, Whitespace) == s;
      assert TrimRight(s, Whitespace) == s;
    }
  }

  /** Leading blanks before a non-blank character are all removed. */
  lemma {:induction false} StripLeading(pre: string, t: string)
    requires forall i :: 0 <= i < |pre| ==> IsSpace(pre[i])
    requires t != [] && !IsSpace(t[0])
    ensures Strip(pre + t) == Strip(t)
  {
    if pre == [] {
      assert pre + t == t;
    } else {
      assert (pre + t)[0] == pre[0];
      assert (pre + t)[1..] == pre[1..] + t;
      StripLeading(pre[1..], t);
    }
  }

  /** Trailing blanks after a word-bounded text are all removed. */
  lemma {:induction false} StripTrailing(t: string, post: string)
    requires forall i :: 0 <= i < |post| ==> IsSpace(post[i])
    requires t != [] && !IsSpace(t[0]) && !IsSpace(t[|t| - 1])
    ensures Strip(t + post) == t
  {
    if post == [] {
      assert t + post == t;
      StripUnchanged(t);
    } else {
      var u := t + post;
      assert u[0] == t[0];
      assert u[|u| - 1] == post[|post| - 1];
      assert u[..|u| - 1] == t + post[..|post| - 1];
      StripTrailing(t, post[..|post| - 1]);
    }
  }

  /** Stripping removes exactly the blanks around a word-bounded text. */
  lemma StripPadded(pre: string, s: string, post: string)
    requires forall i :: 0 <= i < |pre| ==> IsSpace(pre[i])
    requires forall i :: 0 <= i < |post| ==> IsSpace(post[i])
    requires s != [] && !IsSpace(s[0]) && !IsSpace(s[|s| - 1])
    ensures Strip(pre + s + post) == s
  {
    assert pre + s + post == pre + (s + post);
    assert (s + post)[0] == s[0];
    StripLeading(pre, s + post);
    StripTrailing(s, post);
  }

  /** A line read from a file keeps its newline; stripping removes it again. */
  lemma StripNewline(s: string)
    requires s != [] && !IsSpace(s[0]) && !IsSpace(s[|s| - 1])
    ensures Strip(s + "\n") == s
  {
    var t := s + "\n";
    assert TrimLeft(t, Whitespace) == t;
    assert t[..|t| - 1] == s;
    assert TrimRight(t, Whitespace) == TrimRight(s, Whitespace);
    assert TrimRight(s, Whitespace) == s;
  }

  function LowerChar(c: char): char {
    if 'A' <= c <= 'Z' then (c as int + 32) as char else c
  }

  /** `str.lower()` on ASCII letters; every other character is kept. */
  function Lower(s: string): (r: string)
    ensures |r| == |s|
    ensures forall i :: 0 <= i < |s| ==> r[i] == LowerChar(s[i])
  {
    seq(|s|, i requires 0 <= i < |s| => LowerChar(s[i]))
  }

  predicate StartsWith(s: string, prefix: string) {
    |prefix| <= |s| && s[..|prefix|] == prefix
  }

  predicate EndsWith(s: string, suffix: string) {
    |suffix| <= |s| && s[|s| - |suffix|..] == suffix
  }

  /** `t` occurs in `s` starting at index `i`. */
  predicate OccursAt(s: string, t: string, i: int) {
    0 <= i <= |s| - |t| && s[i..i + |t|] == t
  }

  /** Python's `t in s` for strings: `t` occurs in `s` at some position. */
  function Contains(s: string, t: string): (r: bool)
    ensures r <==> exists i :: OccursAt(s, t, i)
  {
    if StartsWith(s, t) then
      assert OccursAt(s, t, 0);
      true
    else if s == [] then
      false
    else
      var r := Contains(s[1..], t);
      assert r ==> exists i :: OccursAt(s, t, i) by {
        if r {
          var i :| OccursAt(s[1..], t, i);
          assert s[1..][i..i + |t|] == s[i + 1..i + 1 + |t|];
          assert OccursAt(s, t, i + 1);
        }
      }
      assert (exists i :: OccursAt(s, t, i)) ==> r by {
        if exists i :: OccursAt(s, t, i) {
          var i :| OccursAt(s, t, i);
          assert i != 0;
          assert s[1..][i - 1..i - 1 + |t|] == s[i..i + |t|];
          assert OccursAt(s[1..], t, i - 1);
        }
      }
      r
  }

  /** A string contains whatever it is built around. */
  lemma ContainsMiddle(p: string, t: string, q: string)
    ensures Contains(p + t + q, t)
  {
    assert OccursAt(p + t + q, t, |p|);
  }

  /** Containment is transitive. */
  lemma ContainsTrans(a: string, b: string, c: string)
    requires Contains(a, b) && Contains(b, c)
    ensures Contains(a, c)
  {
    var i :| OccursAt(a, b, i);
    var j :| OccursAt(b, c, j);
    forall m | 0 <= m < |c|
      ensures a[i + j..i + j + |c|][m] == c[m]
    {
      assert a[i..i + |b|][j + m] == b[j + m];
      assert b[j..j + |c|][m] == c[m];
    }
    assert a[i + j..i + j + |c|] == c;
    assert OccursAt(a, c, i + j);
  }

  /** A joined string contains each of its parts. */
  lemma {:induction false} JoinContainsPart(parts: seq<string>, sep: char, i: int)
    requires 0 <= i < |parts|
    ensures Contains(Join(parts, sep), parts[i])
  {
    if |parts| == 1 {
      assert OccursAt(parts[0], parts[0], 0);
    } else {
      var rest := Join(parts[1..], sep);
      if i == 0 {
        ContainsMiddle([], parts[0], [sep] + rest);
        assert [] + parts[0] + ([sep] + rest) == Join(parts, sep);
      } else {
        JoinContainsPart(parts[1..], sep, i - 1);
        ContainsMiddle(parts[0] + [sep], rest, []);
        assert parts[0] + [sep] + rest + [] == Join(parts, sep);
        ContainsTrans(Join(parts, sep), rest, parts[i]);
      }
    }
  }

  /** The index of the first character of `s` in `cs`, or `|s|` when there is none. */
  function FirstIn(s: string, cs: set<char>): (k: nat)
    ensures k <= |s|
    ensures k < |s| ==> s[k] in cs
    ensures forall i :: 0 <= i < k ==> s[i] !in cs
  {
    if s == [] then 0
    else if s[0] in cs then 0
    else 1 + FirstIn(s[1..], cs)
  }

  /** `str.split(sep)` for a one-character separator: the pieces between separators,
      empty pieces included. */
  function SplitOn(s: string, sep: char): (parts: seq<string>)
    ensures |parts| >= 1
    ensures forall i :: 0 <= i < |parts| ==> sep !in parts[i]
    decreases |s|
  {
    var k := FirstIn(s, {sep});
    if k == |s| then
      [s]
    else
      [s[..k]] + SplitOn(s[k + 1..], sep)
  }

  /** `sep.join(parts)` for a one-character separator. */
  function Join(parts: seq<string>, sep: char): string {
    if parts == [] then ""
    else if |parts| == 1 then parts[0]
    else parts[0] + [sep] + Join(parts[1..], sep)
  }

  /** `''.join(parts)`. */
  function Concat(parts: seq<string>): string {
    if parts == [] then "" else parts[0] + Concat(parts[1..])
  }

  /** Splitting on a separator and joining the pieces with it gives back the string. */
  lemma {:induction false} JoinSplitOn(s: string, sep: char)
    ensures Join(SplitOn(s, sep), sep) == s
    decreases |s|
  {
    var k := FirstIn(s, {sep});
    if k < |s| {
      var rest := SplitOn(s[k + 1..], sep);
      assert SplitOn(s, sep) == [s[..k]] + rest;
      JoinSplitOn(s[k + 1..], sep);
      assert s == s[..k] + [sep] + s[k + 1..];
    }
  }

  /** A field of `str.split(None, ...)`: non-empty and not starting with whitespace. */
  predicate IsField(w: string) {
    w != [] && !IsSpace(w[0])
  }

  /** A string holding no whitespace at all. */
  predicate IsWord(w: string) {
    forall j :: 0 <= j < |w| ==> !IsSpace(w[j])
  }

  /** The first whitespace-free run of `t` and what follows it, for `t` not starting
      with whitespace. */
  function NextWord(t: string): (r: (string, string))
    requires IsField(t)
    ensures IsField(r.0) && IsWord(r.0)
    ensures r.0 + r.1 == t
  {
    var k := FirstIn(t, Whitespace);
    assert t[..k] + t[k..] == t;
    (t[..k], t[k..])
  }

  /** `s` without its leading whitespace. */
  function SkipSpace(s: string): (r: string)
    ensures |r| <= |s|
    ensures r != [] ==> !IsSpace(r[0])
  {
    if s != [] && IsSpace(s[0]) then SkipSpace(s[1..]) else s
  }

  /** `str.split(None, maxsplit)`, a negative `maxsplit` meaning no limit: runs of
      whitespace separate fields, leading and trailing whitespace yield no empty
      field, and once `maxsplit` splits are made the rest of the string (from its
      first non-blank character) is the last field. */
  function SplitFields(s: string, maxsplit: int): (r: seq<string>)
    ensures forall i :: 0 <= i < |r| ==> IsField(r[i])
    ensures maxsplit >= 0 ==> |r| <= maxsplit + 1
    ensures forall i :: 0 <= i < |r| && (maxsplit < 0 || i < maxsplit) ==> IsWord(r[i])
    decreases |s|
  {
    var t := SkipSpace(s);
    if t == [] then
      []
    else if maxsplit == 0 then
      [t]
    else
      var (w, after) := NextWord(t);
      var rest := SplitFields(after, if maxsplit > 0 then maxsplit - 1 else maxsplit);
      assert forall i :: 1 <= i < |rest| + 1 ==> ([w] + rest)[i] == rest[i - 1];
      [w] + rest
  }

  /** The search for a separator skips a prefix that holds none. */
  lemma {:induction false} FirstInPrefix(a: string, b: string, cs: set<char>)
    requires forall i :: 0 <= i < |a| ==> a[i] !in cs
    ensures FirstIn(a + b, cs) == |a| + FirstIn(b, cs)
  {
    if a != [] {
      assert (a + b)[0] == a[0];
      assert (a + b)[1..] == a[1..] + b;
      FirstInPrefix(a[1..], b, cs);
    } else {
      assert a + b == b;
    }
  }

  /** Splitting on whitespace only looks at the string from its first non-blank
      character. */
  lemma SplitFieldsSkipSpace(s: string, maxsplit: int)
    ensures SplitFields(s, maxsplit) == SplitFields(SkipSpace(s), maxsplit)
  {
    var t := SkipSpace(s);
    assert SkipSpace(t) == t;
  }

  /** A word followed by a blank is split off as the first field, using up one split. */
  lemma SplitFieldsCons(w: string, rest: string, maxsplit: int)
    requires IsField(w) && IsWord(w) && maxsplit != 0
    ensures SplitFields(w + " " + rest, maxsplit)
         == [w] + SplitFields(rest, if maxsplit > 0 then maxsplit - 1 else maxsplit)
  {
    var s := w + " " + rest;
    assert SkipSpace(s) == s;
    FirstInPrefix(w, " " + rest, Whitespace);
    assert s[..|w|] == w && s[|w|..] == " " + rest;
    var m := if maxsplit > 0 then maxsplit - 1 else maxsplit;
    assert SkipSpace(" " + rest) == SkipSpace(rest) by {
      assert (" " + rest)[1..] == rest;
    }
    SplitFieldsSkipSpace(" " + rest, m);
    SplitFieldsSkipSpace(rest, m);
  }

  /** A lone word is a single field. */
  lemma SplitFieldsWord(w: string, maxsplit: int)
    requires IsField(w) && IsWord(w)
    ensures SplitFields(w, maxsplit) == [w]
  {
    assert SkipSpace(w) == w;
    if maxsplit != 0 {
      FirstInPrefix(w, "", Whitespace);
      assert w + "" == w;
      assert SkipSpace("") == "";
    }
  }

  /** Words joined by single blanks split back into the same words. */
  lemma {:induction false} SplitFieldsJoin(ws: seq<string>)
    requires forall i :: 0 <= i < |ws| ==> IsField(ws[i]) && IsWord(ws[i])
    ensures SplitFields(Join(ws, ' '), -1) == ws
  {
    if |ws| == 1 {
      SplitFieldsWord(ws[0], -1);
    } else if |ws| > 1 {
      SplitFieldsJoin(ws[1..]);
      assert Join(ws, ' ') == ws[0] + " " + Join(ws[1..], ' ');
      SplitFieldsCons(ws[0], Join(ws[1..], ' '), -1);
    }
  }

  /** The characters of `s` that are not whitespace, in order. */
  function NonSpace(s: string): string {
    if s == [] then ""
    else if IsSpace(s[0]) then NonSpace(s[1..])
    else [s[0]] + NonSpace(s[1..])
  }

  lemma {:induction false} NonSpaceAppend(a: string, b: string)
    ensures NonSpace(a + b) == NonSpace(a) + NonSpace(b)
  {
    if a != [] {
      assert (a + b)[0] == a[0];
      assert (a + b)[1..] == a[1..] + b;
      NonSpaceAppend(a[1..], b);
    } else {
      assert a + b == b;
    }
  }

  lemma {:induction false} NonSpaceOfWord(s: string)
    requires forall i :: 0 <= i < |s| ==> !IsSpace(s[i])
    ensures NonSpace(s) == s
  {
    if s != [] {
      NonSpaceOfWord(s[1..]);
    }
  }

  lemma {:induction false} NonSpaceSkipSpace(s: string)
    ensures NonSpace(SkipSpace(s)) == NonSpace(s)
  {
    if s != [] && IsSpace(s[0]) {
      NonSpaceSkipSpace(s[1..]);
    }
  }

  /** Without a limit, the fields hold exactly the non-blank characters of `s`, in order. */
  lemma {:induction false} SplitFieldsKeepsText(s: string)
    ensures Concat(SplitFields(s, -1)) == NonSpace(s)
    decreases |s|
  {
    var t := SkipSpace(s);
    NonSpaceSkipSpace(s);
    if t != [] {
      var (w, after) := NextWord(t);
      NonSpaceOfWord(w);
      NonSpaceAppend(w, after);
      SplitFieldsKeepsText(after);
      assert SplitFields(s, -1) == [w] + SplitFields(after, -1);
    }
  }

  predicate IsDigit(c: char) {
    '0' <= c <= '9'
  }

  predicate AllDigits(s: string) {
    forall i :: 0 <= i < |s| ==> IsDigit(s[i])
  }

  /** The value of a string of decimal digits, most significant first. */
  function DigitsValue(ds: string): nat
    requires AllDigits(ds)
  {
    if ds == [] then 0
    else DigitsValue(ds[..|ds| - 1]) * 10 + (ds[|ds| - 1] as int - '0' as int)
  }

  /** `int` ignores the whitespace around the number. */
  lemma ParseIntStrip(s: string)
    ensures ParseInt(Strip(s)) == ParseInt(s)
  {
    StripIdempotent(s);
  }

  /** Python's `int(s)` for base 10: surrounding whitespace is ignored and the rest
      is parsed by `ParseNumber`. */
  function ParseInt(s: string): Option<int> {
    ParseNumber(Strip(s))
  }

  /** An optional sign and at least one ASCII digit; anything else is the
      `ValueError` case, `None`. */
  function ParseNumber(t: string): (r: Option<int>)
    ensures r.Some? ==> exists i :: 0 <= i < |t| && IsDigit(t[i])
    ensures r.Some? && t[0] != '-' ==> r.value >= 0
  {
    if t != [] && (t[0] == '+' || t[0] == '-') then
      var body := t[1..];
      if body != [] && AllDigits(body) then
        assert IsDigit(t[1]);
        var v: int := DigitsValue(body);
        Some(if t[0] == '-' then -v else v)
      else
        None
    else if t != [] && AllDigits(t) then
      assert IsDigit(t[0]);
      Some(DigitsValue(t))
    else
      None
  }

  function DigitChar(d: nat): char
    requires d < 10
  {
    ('0' as int + d) as char
  }

  /** Python's `str(n)` for a natural number. */
  function NatToString(n: nat): (s: string)
    ensures s != [] && AllDigits(s)
  {
    if n < 10 then [DigitChar(n)] else NatToString(n / 10) + [DigitChar(n % 10)]
  }

  /** Python's `str(n)` for an integer. */
  function IntToString(n: int): string {
    if n < 0 then "-" + NatToString(-n) else NatToString(n)
  }

  lemma {:induction false} DigitsRoundTrip(n: nat)
    ensures DigitsValue(NatToString(n)) == n
  {
    if n >= 10 {
      var s := NatToString(n);
      assert s[..|s| - 1] == NatToString(n / 10);
      DigitsRoundTrip(n / 10);
    }
  }

  /** A string of digits reads back as its own value. */
  lemma ParseNatString(n: nat)
    ensures ParseNumber(NatToString(n)) == Some(n)
  {
    var d := NatToString(n);
    assert IsDigit(d[0]);
    DigitsRoundTrip(n);
  }

  /** A minus sign and digits read back as the negated value. */
  lemma ParseNegString(m: nat)
    ensures ParseNumber("-" + NatToString(m)) == Some(-(m as int))
  {
    var d := NatToString(m);
    var t := "-" + d;
    assert t[1..] == d;
    DigitsRoundTrip(m);
  }

  /** `str(n)` has no whitespace around it. */
  lemma IntToStringStripped(n: int)
    ensures Strip(IntToString(n)) == IntToString(n)
  {
    var s := IntToString(n);
    var d := NatToString(if n < 0 then -n else n);
    assert IsDigit(d[0]) && IsDigit(d[|d| - 1]);
    assert s[|s| - 1] == d[|d| - 1];
    StripUnchanged(s);
  }

  lemma ParseStripped(n: int)
    ensures ParseInt(IntToString(n)) == ParseNumber(IntToString(n))
  {
    IntToStringStripped(n);
  }

  /** `int(str(n)) == n`. */
  lemma ParseIntRoundTrip(n: int)
    ensures ParseInt(IntToString(n)) == Some(n)
  {
    ParseStripped(n);
    ParseNumberRoundTrip(n);
  }

  /** The digits of `str(n)`, with their sign, read back as `n`. */
  lemma ParseNumberRoundTrip(n: int)
    ensures ParseNumber(IntToString(n)) == Some(n)
  {
    var s := IntToString(n);
    if n < 0 {
      assert s == "-" + NatToString(-n);
      ParseNegString(-n);
    } else {
      assert s == NatToString(n);
      ParseNatString(n);
    }
  }
}
