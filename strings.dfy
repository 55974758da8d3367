/** String operations of the JavaScript runtime that the invoice pipeline relies on:
    `trim`, `indexOf`, `includes`, `split`, `join` and the `/\s+/g` collapse. */
module Strings {

  /** The characters JavaScript's `\s` and `String.prototype.trim` treat as white space. */
  predicate IsSpace(c: char)
  {
    c == ' ' || c == '\t' || c == '\n' || c == '\r' || c == '\U{0B}' || c == '\U{0C}'
    || c == '\U{A0}' || c == '\U{1680}' || ('\U{2000}' <= c <= '\U{200A}')
    || c == '\U{2028}' || c == '\U{2029}' || c == '\U{202F}' || c == '\U{205F}'
    || c == '\U{3000}' || c == '\U{FEFF}'
  }

  predicate AllSpace(s: string)
  {
    forall i :: 0 <= i < |s| ==> IsSpace(s[i])
  }

  predicate IsDigit(c: char)
  {
    '0' <= c <= '9'
  }

  predicate AllDigits(s: string)
  {
    forall i :: 0 <= i < |s| ==> IsDigit(s[i])
  }

  predicate NoChar(s: string, c: char)
  {
    forall i :: 0 <= i < |s| ==> s[i] != c
  }

  /** A string with no white space at either end, as `trim` leaves it. */
  predicate Trimmed(s: string)
  {
    |s| == 0 || (!IsSpace(s[0]) && !IsSpace(s[|s| - 1]))
  }

  function TrimStart(s: string): (r: string)
    ensures |r| <= |s|
    ensures AllSpace(s[..|s| - |r|])
    ensures |r| == 0 || !IsSpace(r[0])
    ensures |s| > 0 && IsSpace(s[0]) ==> |r| < |s|
  {
    if |s| > 0 && IsSpace(s[0]) then TrimStart(s[1..]) else s
  }

  function TrimEnd(s: string): (r: string)
    ensures |r| <= |s|
    ensures AllSpace(s[|r|..])
    ensures |r| == 0 || !IsSpace(r[|r| - 1])
  {
    if |s| > 0 && IsSpace(s[|s| - 1]) then TrimEnd(s[..|s| - 1]) else s
  }

  /** `trimStart` keeps a suffix of its input. */
  lemma {:induction false} TrimStartSuffix(s: string)
    ensures TrimStart(s) == s[|s| - |TrimStart(s)|..]
  {
    if |s| > 0 && IsSpace(s[0]) {
      TrimStartSuffix(s[1..]);
    }
  }

  /** `trimEnd` keeps a prefix of its input. */
  lemma {:induction false} TrimEndPrefix(s: string)
    ensures TrimEnd(s) == s[..|TrimEnd(s)|]
  {
    if |s| > 0 && IsSpace(s[|s| - 1]) {
      TrimEndPrefix(s[..|s| - 1]);
    }
  }

  /** `String.prototype.trim`: the result is the input with its white-space ends cut off. */
  function Trim(s: string): (r: string)
    ensures Trimmed(r) && |r| <= |s|
  {
    TrimEndPrefix(TrimStart(s));
    TrimEnd(TrimStart(s))
  }

  /** What `trim` cuts off is white space at either end. */
  lemma TrimShape(s: string)
    ensures exists a, b :: 0 <= a <= b <= |s| && Trim(s) == s[a..b] && AllSpace(s[..a]) && AllSpace(s[b..])
  {
    var t := TrimStart(s);
    var r := TrimEnd(t);
    TrimStartSuffix(s);
    TrimEndPrefix(t);
    assert r == s[|s| - |t|..|s| - |t| + |r|];
    assert s[|s| - |t| + |r|..] == t[|r|..];
  }

  lemma {:induction false} TrimStartOfTrimmed(s: string)
    requires |s| == 0 || !IsSpace(s[0])
    ensures TrimStart(s) == s
  {
  }

  lemma {:induction false} TrimEndOfTrimmed(s: string)
    requires |s| == 0 || !IsSpace(s[|s| - 1])
    ensures TrimEnd(s) == s
  {
  }

  /** Trimming a trimmed string changes nothing. */
  lemma TrimOfTrimmed(s: string)
    requires Trimmed(s)
    ensures Trim(s) == s
  {
    TrimStartOfTrimmed(s);
    TrimEndOfTrimmed(s);
  }

  /** White space appended to a string disappears again under `trimEnd`. */
  lemma {:induction false} TrimEndAppend(t: string, w: string)
    requires AllSpace(w)
    ensures TrimEnd(t + w) == TrimEnd(t)
  {
    if |w| > 0 {
      var v := w[..|w| - 1];
      assert (t + w)[..|t + w| - 1] == t + v;
      assert (t + w)[|t + w| - 1] == w[|w| - 1];
      TrimEndAppend(t, v);
    } else {
      assert t + w == t;
    }
  }

  /** Once `trimStart` has reached text, what follows is kept as it is. */
  lemma {:induction false} TrimStartAppend(x: string, w: string)
    ensures |TrimStart(x)| > 0 ==> TrimStart(x + w) == TrimStart(x) + w
    ensures |TrimStart(x)| == 0 ==> TrimStart(x + w) == TrimStart(w)
  {
    if |x| > 0 {
      if IsSpace(x[0]) {
        assert (x + w)[1..] == x[1..] + w;
        TrimStartAppend(x[1..], w);
      }
    } else {
      assert x + w == w;
    }
  }

  /** `trim` is idempotent. */
  lemma TrimTwice(s: string)
    ensures Trim(Trim(s)) == Trim(s)
  {
    TrimOfTrimmed(Trim(s));
  }

  /** Trimming a string whose end is cut only at white space gives the same result as trimming
      the whole string. */
  lemma TrimPrefix(s: string, q: nat)
    requires q <= |s| && AllSpace(s[q..])
    ensures Trim(s[..q]) == Trim(s)
  {
    var p, w := s[..q], s[q..];
    assert s == p + w;
    TrimStartAppend(p, w);
    if |TrimStart(p)| > 0 {
      TrimEndAppend(TrimStart(p), w);
    } else {
      TrimStartAppend(w, "");
      assert w + "" == w;
      assert |w| == 0 || IsSpace(w[0]);
      if |w| > 0 {
        AllSpaceTrimStart(w);
      }
    }
  }

  lemma AllSpaceAppend(w: string, v: string)
    requires AllSpace(w) && AllSpace(v)
    ensures AllSpace(w + v)
  {
  }

  lemma {:induction false} AllSpaceTrimStart(w: string)
    requires AllSpace(w)
    ensures TrimStart(w) == ""
  {
    if |w| > 0 {
      assert IsSpace(w[0]);
      AllSpaceTrimStart(w[1..]);
    }
  }





  /** `s` holds `key` at position `i`. */
  predicate IsAt(s: string, key: string, i: nat)
  {
    i + |key| <= |s| && s[i..i + |key|] == key
  }

  /** The first position at or after `from` where `key` occurs, or -1. */
  function IndexFrom(s: string, key: string, from: nat): (r: int)
    decreases |s| - from
    ensures r == -1 || (from <= r && IsAt(s, key, r))
    ensures r == -1 ==> forall i :: from <= i ==> !IsAt(s, key, i)
    ensures r >= 0 ==> forall i :: from <= i < r ==> !IsAt(s, key, i)
  {
    if from + |key| > |s| then -1
    else if IsAt(s, key, from) then from
    else IndexFrom(s, key, from + 1)
  }

  /** `s.indexOf(key, from)`: a start past the end is clamped to the length. */
  function IndexOf(s: string, key: string, from: nat): int
  {
    IndexFrom(s, key, if from <= |s| then from else |s|)
  }

  /** `s.includes(key)`. */
  predicate Contains(s: string, key: string)
  {
    IndexFrom(s, key, 0) >= 0
  }

  lemma ContainsAt(s: string, key: string, i: nat)
    requires IsAt(s, key, i)
    ensures Contains(s, key)
  {
  }

  /** A string contains each of its own substrings. */
  lemma ContainsInfix(a: string, key: string, b: string)
    ensures Contains(a + key + b, key)
  {
    var s := a + key + b;
    assert s[|a|..|a| + |key|] == key;
    ContainsAt(s, key, |a|);
  }

  /** A string that contains `key` still does after text is added on either side. */
  lemma ContainsWiden(a: string, s: string, b: string, key: string)
    requires Contains(s, key)
    ensures Contains(a + s + b, key)
  {
    var i := IndexFrom(s, key, 0);
    var t := a + s + b;
    assert t[|a| + i..|a| + i + |key|] == s[i..i + |key|];
    ContainsAt(t, key, |a| + i);
  }

  /** `s.split(sep)` for a one-character separator: n separators give n + 1 pieces. */
  function Split(s: string, sep: char): (r: seq<string>)
    ensures |r| >= 1
    ensures forall k :: 0 <= k < |r| ==> NoChar(r[k], sep)
  {
    var i := IndexFrom(s, [sep], 0);
    if i < 0 then
      assert NoChar(s, sep) by {
        forall j | 0 <= j < |s| ensures s[j] != sep {
          assert !IsAt(s, [sep], j);
          assert s[j..j + 1] == [s[j]];
        }
      }
      [s]
    else
      assert NoChar(s[..i], sep) by {
        forall j | 0 <= j < i ensures s[j] != sep {
          assert !IsAt(s, [sep], j);
          assert s[j..j + 1] == [s[j]];
        }
      }
      [s[..i]] + Split(s[i + 1..], sep)
  }

  /** `parts.join(sep)`. */
  function Join(parts: seq<string>, sep: string): string
  {
    if |parts| == 0 then ""
    else if |parts| == 1 then parts[0]
    else parts[0] + sep + Join(parts[1..], sep)
  }

  lemma {:induction false} IndexOfSeparator(a: string, sep: char, b: string)
    requires NoChar(a, sep)
    ensures IndexFrom(a + [sep] + b, [sep], 0) == |a|
  {
    var s := a + [sep] + b;
    assert IsAt(s, [sep], |a|) by { assert s[|a|..|a| + 1] == [sep]; }
    forall j | 0 <= j < |a| ensures !IsAt(s, [sep], j) {
      assert s[j..j + 1] == [a[j]];
    }
  }

  lemma {:induction false} IndexOfAbsent(s: string, sep: char)
    requires NoChar(s, sep)
    ensures IndexFrom(s, [sep], 0) == -1
  {
    forall j | 0 <= j < |s| ensures !IsAt(s, [sep], j) {
      assert s[j..j + 1] == [s[j]];
    }
  }

  /** Splitting a join gives the pieces back when no piece holds the separator. */
  lemma {:induction false} SplitJoin(parts: seq<string>, sep: char)
    requires |parts| >= 1
    requires forall k :: 0 <= k < |parts| ==> NoChar(parts[k], sep)
    ensures Split(Join(parts, [sep]), sep) == parts
  {
    if |parts| == 1 {
      IndexOfAbsent(parts[0], sep);
    } else {
      var rest := Join(parts[1..], [sep]);
      assert Join(parts, [sep]) == parts[0] + [sep] + rest;
      IndexOfSeparator(parts[0], sep, rest);
      var s := parts[0] + [sep] + rest;
      assert s[..|parts[0]|] == parts[0];
      assert s[|parts[0]| + 1..] == rest;
      SplitJoin(parts[1..], sep);
    }
  }

  /** `s.replace(/\s+/g, ' ')`: every run of white space becomes one blank. */
  function CollapseSpaces(s: string): (r: string)
    ensures |r| <= |s|
    decreases |s|
  {
    if |s| == 0 then ""
    else if IsSpace(s[0]) then " " + CollapseSpaces(TrimStart(s))
    else [s[0]] + CollapseSpaces(s[1..])
  }

  /** Every white-space character is a blank and no two blanks are adjacent. */
  predicate SingleSpaced(s: string)
  {
    (forall i :: 0 <= i < |s| && IsSpace(s[i]) ==> s[i] == ' ')
    && (forall i :: 0 <= i < |s| - 1 ==> !(s[i] == ' ' && s[i + 1] == ' '))
  }

  lemma {:induction false} CollapseSpacesShape(s: string)
    ensures SingleSpaced(CollapseSpaces(s))
    ensures |s| > 0 && !IsSpace(s[0]) ==> |CollapseSpaces(s)| > 0 && CollapseSpaces(s)[0] == s[0]
    ensures |s| > 0 && IsSpace(s[0]) ==> |CollapseSpaces(s)| > 0 && CollapseSpaces(s)[0] == ' '
    decreases |s|
  {
    if |s| == 0 {
    } else if IsSpace(s[0]) {
      var t := TrimStart(s);
      CollapseSpacesShape(t);
      var c := CollapseSpaces(t);
      assert |t| == 0 || !IsSpace(t[0]);
      assert CollapseSpaces(s) == " " + c;
    } else {
      CollapseSpacesShape(s[1..]);
      assert CollapseSpaces(s) == [s[0]] + CollapseSpaces(s[1..]);
    }
  }

  /** Single-spacing survives cutting white space off the ends. */
  lemma SingleSpacedSlice(s: string, a: nat, b: nat)
    requires SingleSpaced(s) && a <= b <= |s|
    ensures SingleSpaced(s[a..b])
  {
    var t := s[a..b];
    forall i | 0 <= i < |t| - 1 ensures !(t[i] == ' ' && t[i + 1] == ' ') {
      assert t[i] == s[a + i] && t[i + 1] == s[a + i + 1];
    }
  }

  /** `s.replace(/\s+/g, ' ').trim()`: what the merges below leave in a name or spec. */
  function Normalize(s: string): (r: string)
    ensures Trimmed(r) && SingleSpaced(r)
  {
    var c := CollapseSpaces(s);
    CollapseSpacesShape(s);
    var r := Trim(c);
    TrimShape(c);
    var a, b :| 0 <= a <= b <= |c| && r == c[a..b] && AllSpace(c[..a]) && AllSpace(c[b..]);
    SingleSpacedSlice(c, a, b);
    r
  }

  predicate EndsWith(s: string, suffix: string)
  {
    |suffix| <= |s| && s[|s| - |suffix|..] == suffix
  }

  predicate NoSpace(s: string)
  {
    forall k :: 0 <= k < |s| ==> !IsSpace(s[k])
  }

  lemma {:induction false} CollapseNoSpace(v: string)
    requires NoSpace(v)
    ensures CollapseSpaces(v) == v
  {
    if |v| > 0 {
      CollapseNoSpace(v[1..]);
    }
  }

  /** Collapsing white space never touches a word at the end. */
  lemma {:induction false} CollapseAppendWord(x: string, v: string)
    requires |v| > 0 && NoSpace(v)
    ensures CollapseSpaces(x + v) == CollapseSpaces(x) + v
    decreases |x|
  {
    if |x| == 0 {
      assert x + v == v;
      CollapseNoSpace(v);
    } else if IsSpace(x[0]) {
      var t := TrimStart(x);
      assert CollapseSpaces(x + v) == " " + CollapseSpaces(TrimStart(x + v)) by {
        assert (x + v)[0] == x[0];
      }
      TrimStartAppend(x, v);
      if |t| > 0 {
        CollapseAppendWord(t, v);
      } else {
        TrimStartOfTrimmed(v);
        CollapseNoSpace(v);
      }
    } else {
      assert CollapseSpaces(x + v) == [x[0]] + CollapseSpaces(x[1..] + v) by {
        assert (x + v)[0] == x[0];
        assert (x + v)[1..] == x[1..] + v;
      }
      CollapseAppendWord(x[1..], v);
    }
  }

  /** A word appended to a text stays at the end of the normalised text. */
  lemma NormalizeKeepsLastWord(x: string, v: string)
    requires |v| > 0 && NoSpace(v)
    ensures EndsWith(Normalize(x + v), v)
  {
    var c := CollapseSpaces(x);
    CollapseAppendWord(x, v);
    TrimStartAppend(c, v);
    TrimStartOfTrimmed(v);
    var t := TrimStart(c + v);
    assert EndsWith(t, v);
    TrimEndOfTrimmed(t);
  }

  /** The decimal spelling of a natural number, as `String(n)` gives it. */
  function NatToString(n: nat): (r: string)
    ensures |r| >= 1 && AllDigits(r)
    ensures n < 10 ==> r == [DigitChar(n)]
    decreases n
  {
    if n < 10 then [DigitChar(n)] else NatToString(n / 10) + [DigitChar(n % 10)]
  }

  function DigitChar(d: nat): (c: char)
    requires d < 10
    ensures IsDigit(c)
  {
    ['0', '1', '2', '3', '4', '5', '6', '7', '8', '9'][d]
  }

  function DigitValue(c: char): (d: nat)
    requires IsDigit(c)
    ensures d < 10 && DigitChar(d) == c
  {
    (c as int - '0' as int) as nat
  }

  /** Every occurrence of character `c` removed, as `s.replace(/c/g, '')` does. */
  function RemoveChar(s: string, c: char): (r: string)
    ensures NoChar(r, c)
    ensures |r| <= |s|
  {
    if |s| == 0 then ""
    else if s[0] == c then RemoveChar(s[1..], c)
    else [s[0]] + RemoveChar(s[1..], c)
  }

  /** The removal keeps every other character in order: it works part by part, drops `c`
      itself and keeps any other single character. */
  lemma {:induction false} RemoveCharAppend(a: string, b: string, c: char)
    ensures RemoveChar(a + b, c) == RemoveChar(a, c) + RemoveChar(b, c)
  {
    if |a| > 0 {
      assert (a + b)[1..] == a[1..] + b;
      RemoveCharAppend(a[1..], b, c);
    } else {
      assert a + b == b;
    }
  }

  /** A text without `c` is left as it is. */
  lemma {:induction false} RemoveCharNone(s: string, c: char)
    requires NoChar(s, c)
    ensures RemoveChar(s, c) == s
  {
    if |s| > 0 {
      RemoveCharNone(s[1..], c);
      assert s == [s[0]] + s[1..];
    }
  }

  lemma RemoveCharOne(d: char, c: char)
    ensures RemoveChar([d], c) == if d == c then [] else [d]
  {
    assert [d][1..] == [];
  }

  /** Every occurrence of `c` replaced by `d`, as `s.replace(/c/g, d)` does. */
  function ReplaceChar(s: string, c: char, d: char): (r: string)
    ensures |r| == |s|
    ensures forall i :: 0 <= i < |s| ==> r[i] == (if s[i] == c then d else s[i])
  {
    if |s| == 0 then ""
    else [if s[0] == c then d else s[0]] + ReplaceChar(s[1..], c, d)
  }

  /** `keys.some(k => s.includes(k))`. */
  predicate ContainsAny(s: string, keys: seq<string>)
  {
    |keys| > 0 && (Contains(s, keys[0]) || ContainsAny(s, keys[1..]))
  }
}
