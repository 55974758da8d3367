/** Reading labelled values out of an invoice's text: the `extractBetween` scanner of
    InvoiceExtractor.ts with its invoice-number and date post-processing, `cleanValue` and
    `extractField` of ContractService.ts, and `extractProjectName` of ContractGenerator.tsx. */
module Labels {
  import opened Options
  import opened Strings
  import opened Patterns

  /** The trimmed text from `from` up to the first `endKey` at or after it, or to the end. */
  function ValueAt(text: string, from: nat, endKey: string): (r: string)
    requires from <= |text|
    ensures Trimmed(r)
  {
    var e := IndexOf(text, endKey, from);
    if e == -1 then Trim(text[from..]) else Trim(text[from..e])
  }

  /** No occurrence of `key` starts inside `v`, even one running on into the `key` after it. */
  predicate KeyFirstAfter(v: string, key: string)
  {
    forall i :: 0 <= i < |v| ==> !IsAt(v + key, key, i)
  }

  lemma IsAtShift(x: string, y: string, key: string, i: nat)
    ensures IsAt(x + y, key, |x| + i) == IsAt(y, key, i)
  {
    if |x| + i + |key| <= |x + y| {
      assert (x + y)[|x| + i..|x| + i + |key|] == y[i..i + |key|];
    }
  }

  lemma IsAtPrefix(x: string, y: string, key: string, i: nat)
    requires i + |key| <= |x|
    ensures IsAt(x + y, key, i) == IsAt(x, key, i)
  {
    assert (x + y)[i..i + |key|] == x[i..i + |key|];
  }

  /** The first occurrence at or after `from` is the one at `p` when none lies in between. */
  lemma IndexFromIs(s: string, key: string, from: nat, p: nat)
    requires from <= p && IsAt(s, key, p)
    requires forall i :: from <= i < p ==> !IsAt(s, key, i)
    ensures IndexFrom(s, key, from) == p
  {
  }

  /** An occurrence inside a slice is an occurrence in the whole text. */
  lemma InfixOccurrence(s: string, a: nat, b: nat, key: string, i: int)
    requires a <= b <= |s| && |key| > 0
    ensures i >= 0 && IsAt(s[a..b], key, i) ==> a <= a + i < b && IsAt(s, key, a + i)
  {
    if i >= 0 && IsAt(s[a..b], key, i) {
      var t := s[a..b];
      forall j | 0 <= j < |key| ensures s[a + i + j] == key[j] {
        assert t[i..i + |key|][j] == key[j];
      }
      assert s[a + i..a + i + |key|] == key;
    }
  }

  /** A stretch of text where no occurrence of `key` starts holds no `key`. */
  lemma KeyFreeInfix(s: string, a: nat, b: nat, key: string)
    requires a <= b <= |s| && |key| > 0
    requires forall i :: a <= i < b ==> !IsAt(s, key, i)
    ensures !Contains(s[a..b], key)
  {
    InfixOccurrence(s, a, b, key, IndexFrom(s[a..b], key, 0));
  }

  /** Trimming text without `key` leaves none. */
  lemma TrimKeepsNoKey(t: string, key: string)
    requires |key| > 0
    requires forall i :: 0 <= i < |t| ==> !IsAt(t, key, i)
    ensures !Contains(Trim(t), key)
  {
    TrimShape(t);
    var a, b :| 0 <= a <= b <= |t| && Trim(t) == t[a..b] && AllSpace(t[..a]) && AllSpace(t[b..]);
    KeyFreeInfix(t, a, b, key);
  }

  /** When `endKey` follows, the value holds no `endKey`. */
  lemma ValueAtNoKey(text: string, from: nat, key: string)
    requires from <= |text| && |key| > 0 && IndexOf(text, key, from) >= 0
    ensures !Contains(ValueAt(text, from, key), key)
  {
    var e := IndexOf(text, key, from);
    var t := text[from..e];
    forall i | 0 <= i < |t| ensures !IsAt(t, key, i) {
      InfixOccurrence(text, from, e, key, i);
    }
    TrimKeepsNoKey(t, key);
  }

  /** The end key written right after the value is there. */
  lemma KeyAfterValue(x: string, v: string, key: string, post: string)
    ensures IsAt(x + v + key + post, key, |x| + |v|)
  {
    var text := x + v + key + post;
    assert text == (x + v) + (key + post);
    IsAtShift(x + v, key + post, key, 0);
    assert (key + post)[0..|key|] == key;
  }

  /** No end key starts inside the value. */
  lemma NoKeyInValue(x: string, v: string, key: string, post: string)
    requires KeyFirstAfter(v, key)
    ensures forall i :: |x| <= i < |x| + |v| ==> !IsAt(x + v + key + post, key, i)
  {
    var text := x + v + key + post;
    assert text == x + ((v + key) + post);
    forall i | |x| <= i < |x| + |v| ensures !IsAt(text, key, i) {
      IsAtShift(x, (v + key) + post, key, i - |x|);
      IsAtPrefix(v + key, post, key, i - |x|);
    }
  }

  /** The first end key after the label position is the one right after the value. */
  lemma EndAfterValue(x: string, v: string, key: string, post: string)
    requires KeyFirstAfter(v, key)
    ensures IndexOf(x + v + key + post, key, |x|) == |x| + |v|
  {
    KeyAfterValue(x, v, key, post);
    NoKeyInValue(x, v, key, post);
    IndexFromIs(x + v + key + post, key, |x|, |x| + |v|);
  }

  /** A trimmed value written between the label position and the end key reads back. */
  lemma ValueAtRoundTrip(x: string, v: string, key: string, post: string)
    requires Trimmed(v) && KeyFirstAfter(v, key)
    ensures IndexOf(x + v + key + post, key, |x|) == |x| + |v|
    ensures ValueAt(x + v + key + post, |x|, key) == v
  {
    var text := x + v + key + post;
    EndAfterValue(x, v, key, post);
    assert ValueAt(text, |x|, key) == Trim(text[|x|..|x| + |v|]);
    assert text[|x|..|x| + |v|] == v;
    TrimOfTrimmed(v);
  }

  /** `extractBetween`'s end key when the given one does not follow. */
  const DefaultEnd := "\n"

  /** `extractBetween`: nothing without the start key; otherwise the trimmed text after its
      first occurrence, up to the end key if it follows, else up to the next line break. */
  function ExtractBetween(text: string, startKey: string, endKey: string): (r: string)
    ensures !Contains(text, startKey) ==> r == ""
    ensures Trimmed(r)
  {
    var s := IndexOf(text, startKey, 0);
    if s == -1 then ""
    else
      var from := s + |startKey|;
      ValueAt(text, from, if IndexOf(text, endKey, from) != -1 then endKey else DefaultEnd)
  }

  /** `endKey` occurs after the first `startKey`. */
  predicate Follows(text: string, startKey: string, endKey: string)
  {
    var s := IndexOf(text, startKey, 0);
    s >= 0 && IndexOf(text, endKey, s + |startKey|) >= 0
  }

  /** When the end key follows, the value runs up to it. */
  lemma ExtractBetweenFollows(text: string, startKey: string, endKey: string)
    requires Follows(text, startKey, endKey)
    ensures IndexOf(text, startKey, 0) + |startKey| <= |text|
    ensures ExtractBetween(text, startKey, endKey) == ValueAt(text, IndexOf(text, startKey, 0) + |startKey|, endKey)
  {
    var from := IndexOf(text, startKey, 0) + |startKey|;
    assert IndexOf(text, endKey, from) != -1;
  }

  /** When the end key follows, the value holds no end key. */
  lemma ExtractBetweenStops(text: string, startKey: string, endKey: string)
    requires |endKey| > 0 && Follows(text, startKey, endKey)
    ensures !Contains(ExtractBetween(text, startKey, endKey), endKey)
  {
    ExtractBetweenFollows(text, startKey, endKey);
    ValueAtNoKey(text, IndexOf(text, startKey, 0) + |startKey|, endKey);
  }

  /** The position of the first `startKey` in a text that has none before `pre` ends. */
  lemma StartAfter(pre: string, startKey: string, rest: string)
    requires KeyFirstAfter(pre, startKey)
    ensures IndexOf(pre + startKey + rest, startKey, 0) == |pre|
  {
    var text := pre + startKey + rest;
    assert text == pre + (startKey + rest);
    IsAtShift(pre, startKey + rest, startKey, 0);
    assert IsAt(startKey + rest, startKey, 0) by {
      assert (startKey + rest)[0..|startKey|] == startKey;
    }
    forall i | 0 <= i < |pre| ensures !IsAt(text, startKey, i) {
      IsAtPrefix(pre + startKey, rest, startKey, i);
    }
    IndexFromIs(text, startKey, 0, |pre|);
  }

  /** A trimmed value written between the start and end keys reads back. */
  lemma ExtractBetweenRoundTrip(pre: string, startKey: string, v: string, endKey: string, post: string)
    requires KeyFirstAfter(pre, startKey)
    requires Trimmed(v) && KeyFirstAfter(v, endKey)
    ensures ExtractBetween(pre + startKey + v + endKey + post, startKey, endKey) == v
  {
    var text := pre + startKey + v + endKey + post;
    assert text == pre + startKey + (v + endKey + post);
    StartAfter(pre, startKey, v + endKey + post);
    ValueAtRoundTrip(pre + startKey, v, endKey, post);
    assert Follows(text, startKey, endKey);
    ExtractBetweenFollows(text, startKey, endKey);
  }

  predicate NotDigit(c: char)
  {
    !IsDigit(c)
  }

  /** The first maximal run of digits (`/(\d+)/`), if any. */
  function FirstNumber(s: string): (r: Option<string>)
    ensures r.Some? ==> |r.value| > 0 && AllDigits(r.value)
    ensures r.None? <==> forall i :: 0 <= i < |s| ==> !IsDigit(s[i])
  {
    var i := RunEnd(s, 0, NotDigit);
    RunEndFacts(s, 0, NotDigit);
    if i == |s| then None
    else
      var e := RunEnd(s, i, IsDigit);
      RunEndFacts(s, i, IsDigit);
      Some(s[i..e])
  }

  /** A run of digits after digit-free text, ended by a non-digit or the end, is the number. */
  lemma FirstNumberOf(pre: string, d: string, post: string)
    requires forall i :: 0 <= i < |pre| ==> !IsDigit(pre[i])
    requires |d| > 0 && AllDigits(d)
    requires |post| == 0 || !IsDigit(post[0])
    ensures FirstNumber(pre + d + post) == Some(d)
  {
    var s := pre + d + post;
    RunEndAt(s, 0, |pre|, NotDigit);
    RunEndAt(s, |pre|, |pre| + |d|, IsDigit);
    assert s[|pre|..|pre| + |d|] == d;
  }

  /** The invoice number: the first digit run of the text between 发票号码 and 开票日期. */
  function InvoiceNumber(text: string): (r: Option<string>)
    ensures r.Some? ==> |r.value| > 0 && AllDigits(r.value)
  {
    var raw := ExtractBetween(text, "发票号码", "开票日期");
    if raw == "" then None else FirstNumber(raw)
  }

  /** A number written after the 发票号码 label and a colon, before 开票日期, is read back. */
  lemma InvoiceNumberRoundTrip(pre: string, n: string, post: string)
    requires KeyFirstAfter(pre, "发票号码")
    requires |n| > 0 && AllDigits(n)
    ensures InvoiceNumber(pre + "发票号码" + ("：" + n) + "开票日期" + post) == Some(n)
  {
    var v := "：" + n;
    var key := "开票日期";
    forall i | 0 <= i < |v| ensures !IsAt(v + key, key, i) {
      assert (v + key)[i] == v[i];
    }
    ExtractBetweenRoundTrip(pre, "发票号码", v, key, post);
    FirstNumberOf("：", n, "");
    assert "：" + n + "" == v;
  }

  /** Removing a character keeps every other character's absence. */
  lemma {:induction false} RemoveCharKeeps(s: string, c: char, d: char)
    requires NoChar(s, d)
    ensures NoChar(RemoveChar(s, c), d)
  {
    if |s| > 0 {
      RemoveCharKeeps(s[1..], c, d);
    }
  }

  /** Trimming keeps a character's absence. */
  lemma TrimKeepsNoChar(s: string, c: char)
    requires NoChar(s, c)
    ensures NoChar(Trim(s), c)
  {
    TrimShape(s);
    var a, b :| 0 <= a <= b <= |s| && Trim(s) == s[a..b] && AllSpace(s[..a]) && AllSpace(s[b..]);
  }

  /** The invoice date: the text between 开票日期 and 购 without its colons. */
  function InvoiceDate(text: string): (r: Option<string>)
    ensures r.Some? ==> Trimmed(r.value) && NoChar(r.value, ':') && NoChar(r.value, '：')
  {
    var raw := ExtractBetween(text, "开票日期", "购");
    if raw == "" then None
    else
      var stripped := RemoveChar(RemoveChar(raw, '：'), ':');
      RemoveCharKeeps(RemoveChar(raw, '：'), ':', '：');
      TrimKeepsNoChar(stripped, ':');
      TrimKeepsNoChar(stripped, '：');
      Some(Trim(stripped))
  }

  /** A date written after the 开票日期 label and a colon, before 购, is read back: the colon
      goes and nothing else changes. */
  lemma InvoiceDateRoundTrip(pre: string, d: string, post: string)
    requires KeyFirstAfter(pre, "开票日期")
    requires |d| > 0 && Trimmed(d) && NoChar(d, ':') && NoChar(d, '：') && NoChar(d, '购')
    ensures InvoiceDate(pre + "开票日期" + ("：" + d) + "购" + post) == Some(d)
  {
    var v := "：" + d;
    var key := "购";
    forall i | 0 <= i < |v| ensures !IsAt(v + key, key, i) {
      assert (v + key)[i] == v[i];
    }
    assert Trimmed(v);
    ExtractBetweenRoundTrip(pre, "开票日期", v, key, post);
    RemoveCharAppend("：", d, '：');
    RemoveCharOne('：', '：');
    RemoveCharNone(d, '：');
    assert RemoveChar(v, '：') == d;
    RemoveCharNone(d, ':');
    TrimOfTrimmed(d);
  }

  /** The characters `cleanValue` strips from the front. */
  predicate LeadJunk(c: char)
  {
    c == ':' || c == '：' || IsSpace(c)
  }

  /** The characters `cleanValue` strips from the back. */
  predicate TailJunk(c: char)
  {
    c == ':' || c == '：' || c == ';' || IsSpace(c)
  }

  /** `cleanValue`: null and '' give ''; otherwise the trimmed value loses its leading run of
      colons and blanks, then its trailing run of colons, semicolons and blanks. */
  function CleanValue(value: Option<string>): (r: string)
    ensures value == None || value == Some("") ==> r == ""
    ensures r == "" || (!LeadJunk(r[0]) && !TailJunk(r[|r| - 1]))
  {
    match value
    case None => ""
    case Some(v) =>
      if v == "" then ""
      else
        var t := Trim(v);
        var p := RunEnd(t, 0, LeadJunk);
        var u := t[p..];
        var q := RunStart(u, |u|, TailJunk);
        RunEndFacts(t, 0, LeadJunk);
        RunStartFacts(u, |u|, TailJunk);
        u[..q]
  }

  /** Cleaning a cleaned value changes nothing. */
  lemma CleanValueIdempotent(value: Option<string>)
    ensures CleanValue(Some(CleanValue(value))) == CleanValue(value)
  {
    var r := CleanValue(value);
    if r != "" {
      assert Trimmed(r);
      TrimOfTrimmed(r);
      RunEndAt(r, 0, 0, LeadJunk);
      assert r[0..] == r;
      RunStartAt(r, |r|, |r|, TailJunk);
      assert r[..|r|] == r;
    }
  }

  /** A value with no junk at either end comes back unchanged. */
  lemma CleanValueKeeps(v: string)
    requires v != "" && !LeadJunk(v[0]) && !TailJunk(v[|v| - 1])
    ensures CleanValue(Some(v)) == v
  {
    assert Trimmed(v);
    TrimOfTrimmed(v);
    RunEndAt(v, 0, 0, LeadJunk);
    assert v[0..] == v;
    RunStartAt(v, |v|, |v|, TailJunk);
    assert v[..|v|] == v;
  }

  /** `extractField`: null for empty text or a missing start key; otherwise the trimmed text
      after the first start key up to the first end key after it, or to the end. */
  function ExtractField(text: string, startKey: string, endKey: string): (r: Option<string>)
    ensures r.None? <==> text == "" || !Contains(text, startKey)
    ensures r.Some? ==> Trimmed(r.value)
  {
    if text == "" then None
    else
      var s := IndexOf(text, startKey, 0);
      if s == -1 then None else Some(ValueAt(text, s + |startKey|, endKey))
  }

  /** When the end key follows, the field holds no end key. */
  lemma ExtractFieldStops(text: string, startKey: string, endKey: string)
    requires text != "" && |endKey| > 0 && Follows(text, startKey, endKey)
    ensures ExtractField(text, startKey, endKey).Some?
    ensures !Contains(ExtractField(text, startKey, endKey).value, endKey)
  {
    var s := IndexOf(text, startKey, 0);
    var from := s + |startKey|;
    assert ExtractField(text, startKey, endKey) == Some(ValueAt(text, from, endKey));
    ValueAtNoKey(text, from, endKey);
  }

  /** A trimmed value written between the start and end keys reads back. */
  lemma ExtractFieldRoundTrip(pre: string, startKey: string, v: string, endKey: string, post: string)
    requires |startKey| > 0 && KeyFirstAfter(pre, startKey)
    requires Trimmed(v) && KeyFirstAfter(v, endKey)
    ensures ExtractField(pre + startKey + v + endKey + post, startKey, endKey) == Some(v)
  {
    var text := pre + startKey + v + endKey + post;
    assert text == pre + startKey + (v + endKey + post);
    StartAfter(pre, startKey, v + endKey + post);
    ValueAtRoundTrip(pre + startKey, v, endKey, post);
  }

  /** The labels `extractProjectName` looks for, in order. */
  const ProjectKeys: seq<string> := ["项目/工程", "项目名称", "工程名称", "工程项目"]

  const UnknownProject := "未知项目"

  predicate IsColon(c: char)
  {
    c == ':' || c == '：'
  }

  predicate NotColon(c: char)
  {
    !IsColon(c)
  }

  /** No colon of either width. */
  predicate ColonFree(s: string)
  {
    forall i :: 0 <= i < |s| ==> !IsColon(s[i])
  }

  /** `line.split(/[：:]/)[1]` when the line has a colon: the text between its first colon and
      the next one or the end. */
  function SecondPart(line: string): (r: Option<string>)
    ensures r.None? <==> ColonFree(line)
    ensures r.Some? ==> ColonFree(r.value)
  {
    var c := RunEnd(line, 0, NotColon);
    RunEndFacts(line, 0, NotColon);
    if c == |line| then None
    else
      var e := RunEnd(line, c + 1, NotColon);
      RunEndFacts(line, c + 1, NotColon);
      Some(line[c + 1..e])
  }

  /** Every line with a colon has the shape `a + [k] + v + rest`, with `k` its first colon and
      `rest` empty or starting at the next colon; the second part is then `v`. */
  lemma SecondPartRoundTrip(a: string, k: char, v: string, rest: string)
    requires ColonFree(a) && IsColon(k) && ColonFree(v) && (rest == [] || IsColon(rest[0]))
    ensures SecondPart(a + [k] + v + rest) == Some(v)
  {
    var line := a + [k] + v + rest;
    var e := |a| + 1 + |v|;
    forall i | 0 <= i < |a| ensures NotColon(line[i]) {
      assert line[i] == a[i];
    }
    assert line[|a|] == k;
    RunEndAt(line, 0, |a|, NotColon);
    forall i | |a| + 1 <= i < e ensures NotColon(line[i]) {
      assert line[i] == v[i - |a| - 1];
    }
    assert e == |line| || !NotColon(line[e]) by {
      if rest != [] {
        assert line[e] == rest[0];
      }
    }
    RunEndAt(line, |a| + 1, e, NotColon);
    assert line[|a| + 1..e] == v;
  }

  /** The trimmed second part of a line, when it is not empty. */
  function LabelValue(line: string): (r: Option<string>)
    ensures r.Some? ==> r.value != "" && Trimmed(r.value)
  {
    match SecondPart(line)
    case None => None
    case Some(p) => if Trim(p) != "" then Some(Trim(p)) else None
  }

  /** A labelled line gives the trimmed text between its first colon and the next, unless that
      is blank. */
  lemma LabelValueRoundTrip(a: string, k: char, w: string, rest: string)
    requires ColonFree(a) && IsColon(k) && ColonFree(w) && (rest == [] || IsColon(rest[0]))
    ensures LabelValue(a + [k] + w + rest) == if Trim(w) == "" then None else Some(Trim(w))
  {
    SecondPartRoundTrip(a, k, w, rest);
  }

  /** The first line containing `key`. */
  function FirstLineWith(lines: seq<string>, key: string): (r: Option<string>)
    ensures r.Some? ==> r.value in lines && Contains(r.value, key)
    ensures r.None? ==> forall l :: l in lines ==> !Contains(l, key)
  {
    if |lines| == 0 then None
    else if Contains(lines[0], key) then Some(lines[0])
    else FirstLineWith(lines[1..], key)
  }

  /** `filter(line => line.includes(key))[0]`: the line found is the first holding the key. */
  lemma {:induction false} FirstLineWithPicks(lines: seq<string>, key: string, i: nat)
    requires i < |lines| && Contains(lines[i], key)
    requires forall j :: 0 <= j < i ==> !Contains(lines[j], key)
    ensures FirstLineWith(lines, key) == Some(lines[i])
  {
    if i > 0 {
      assert !Contains(lines[0], key);
      FirstLineWithPicks(lines[1..], key, i - 1);
    }
  }

  /** The first search's candidate for one key: the label value of the first line holding it. */
  function ContentLabel(lines: seq<string>, key: string): Option<string>
  {
    match FirstLineWith(lines, key)
    case None => None
    case Some(l) => LabelValue(l)
  }

  /** First search: for each key in turn, the value after the colon of the first content line
      holding the key. */
  function FromContentLabels(lines: seq<string>, keys: seq<string>): (r: Option<string>)
    ensures r.Some? ==> r.value != "" && Trimmed(r.value)
    ensures r.None? <==> forall k :: k in keys ==> ContentLabel(lines, k).None?
  {
    if |keys| == 0 then None
    else if ContentLabel(lines, keys[0]).Some? then ContentLabel(lines, keys[0])
    else
      assert keys == [keys[0]] + keys[1..];
      FromContentLabels(lines, keys[1..])
  }

  /** The first key with a candidate supplies the name. */
  lemma {:induction false} FromContentLabelsPicks(lines: seq<string>, keys: seq<string>, i: nat)
    requires i < |keys| && ContentLabel(lines, keys[i]).Some?
    requires forall j :: 0 <= j < i ==> ContentLabel(lines, keys[j]).None?
    ensures FromContentLabels(lines, keys) == ContentLabel(lines, keys[i])
  {
    if i > 0 {
      assert ContentLabel(lines, keys[0]).None?;
      FromContentLabelsPicks(lines, keys[1..], i - 1);
    }
  }

  /** A line terminator for the `.` of a JavaScript regex. */
  predicate LineBreak(c: char)
  {
    c == '\n' || c == '\r' || c == '\U{2028}' || c == '\U{2029}'
  }

  predicate NotLineBreak(c: char)
  {
    !LineBreak(c)
  }

  /** `key[：:](.*?)(?=\n|$)` matches at `p`: the key, a colon, then a stretch without line
      breaks that ends at a line feed or at the end of the text. */
  predicate MatchesAt(s: string, key: string, p: nat)
  {
    p + |key| < |s| && IsAt(s, key, p) && IsColon(s[p + |key|]) &&
    var e := RunEnd(s, p + |key| + 1, NotLineBreak);
    e == |s| || s[e] == '\n'
  }

  /** What a match at `p` captures: the rest of the line after the colon. */
  function CaptureAt(s: string, key: string, p: nat): string
    requires MatchesAt(s, key, p)
  {
    s[p + |key| + 1..RunEnd(s, p + |key| + 1, NotLineBreak)]
  }

  /** The capture of `key[：:](.*?)(?=\n|$)` searched from position `p`: the capture of the
      first position where the pattern matches, and none when it matches nowhere. */
  function RegexCapture(s: string, key: string, p: nat): (r: Option<string>)
    decreases |s| - p
    ensures r.Some? ==> forall i :: 0 <= i < |r.value| ==> !LineBreak(r.value[i])
    ensures r.None? <==> forall i :: p <= i ==> !MatchesAt(s, key, i)
    ensures r.Some? ==> exists i :: p <= i && MatchesAt(s, key, i) && r.value == CaptureAt(s, key, i) &&
                                    forall j :: p <= j < i ==> !MatchesAt(s, key, j)
  {
    if p + |key| >= |s| then None
    else if MatchesAt(s, key, p) then
      RunEndFacts(s, p + |key| + 1, NotLineBreak);
      Some(CaptureAt(s, key, p))
    else RegexCapture(s, key, p + 1)
  }

  /** The second search's candidate for one key: the trimmed capture, when it is not blank. */
  function TextLabel(text: string, key: string): Option<string>
  {
    var c := RegexCapture(text, key, 0);
    if c.Some? && Trim(c.value) != "" then Some(Trim(c.value)) else None
  }

  /** Second search: for each key in turn, the trimmed capture of the key's pattern in the
      full text. */
  function FromTextLabels(text: string, keys: seq<string>): (r: Option<string>)
    ensures r.Some? ==> r.value != "" && Trimmed(r.value)
    ensures r.None? <==> forall k :: k in keys ==> TextLabel(text, k).None?
  {
    if |keys| == 0 then None
    else if TextLabel(text, keys[0]).Some? then TextLabel(text, keys[0])
    else
      assert keys == [keys[0]] + keys[1..];
      FromTextLabels(text, keys[1..])
  }

  /** The first key whose capture is not blank supplies the name. */
  lemma {:induction false} FromTextLabelsPicks(text: string, keys: seq<string>, i: nat)
    requires i < |keys| && TextLabel(text, keys[i]).Some?
    requires forall j :: 0 <= j < i ==> TextLabel(text, keys[j]).None?
    ensures FromTextLabels(text, keys) == TextLabel(text, keys[i])
  {
    if i > 0 {
      assert TextLabel(text, keys[0]).None?;
      FromTextLabelsPicks(text, keys[1..], i - 1);
    }
  }

  predicate MentionsProject(line: string)
  {
    Contains(line, "项目") || Contains(line, "工程")
  }

  /** Third search: the value after the colon of the first full-text line that mentions a
      project and has one. */
  function FromProjectLines(lines: seq<string>): (r: Option<string>)
    ensures r.Some? ==> r.value != "" && Trimmed(r.value)
    ensures r.None? <==> forall l :: l in lines ==> !(MentionsProject(l) && LabelValue(l).Some?)
  {
    if |lines| == 0 then None
    else if MentionsProject(lines[0]) && LabelValue(lines[0]).Some? then LabelValue(lines[0])
    else
      assert lines == [lines[0]] + lines[1..];
      FromProjectLines(lines[1..])
  }

  /** The first mentioning line with a label value supplies the name. */
  lemma {:induction false} FromProjectLinesPicks(lines: seq<string>, i: nat)
    requires i < |lines| && MentionsProject(lines[i]) && LabelValue(lines[i]).Some?
    requires forall j :: 0 <= j < i ==> !(MentionsProject(lines[j]) && LabelValue(lines[j]).Some?)
    ensures FromProjectLines(lines) == LabelValue(lines[i])
  {
    if i > 0 {
      assert !(MentionsProject(lines[0]) && LabelValue(lines[0]).Some?);
      FromProjectLinesPicks(lines[1..], i - 1);
    }
  }

  /** `/^[^：:]*项目[^：:]*[:：]/`: the line has a colon and 项目 stands before the first one. */
  predicate ProjectLabelLine(line: string)
  {
    var c := RunEnd(line, 0, NotColon);
    c < |line| && Contains(line[..c], "项目")
  }

  /** A line holding a key that starts with a non-blank does not trim to nothing. */
  lemma TrimOfMention(line: string, key: string)
    requires |key| > 0 && !IsSpace(key[0]) && Contains(line, key)
    ensures Trim(line) != ""
  {
    var i := IndexFrom(line, key, 0);
    assert line[i] == line[i..i + |key|][0] == key[0];
    TrimShape(line);
    var a, b :| 0 <= a <= b <= |line| && Trim(line) == line[a..b] && AllSpace(line[..a]) && AllSpace(line[b..]);
    forall k | 0 <= k < a ensures IsSpace(line[k]) {
      assert line[..a][k] == line[k];
    }
    forall k | b <= k < |line| ensures IsSpace(line[k]) {
      assert line[b..][k - b] == line[k];
    }
  }

  lemma TrimOfProjectLine(line: string)
    requires MentionsProject(line)
    ensures Trim(line) != ""
  {
    if Contains(line, "项目") {
      TrimOfMention(line, "项目");
    } else {
      TrimOfMention(line, "工程");
    }
  }

  /** Last search: the first content line that mentions a project without being a 项目 label
      line, trimmed. */
  function FromMentions(lines: seq<string>): (r: Option<string>)
    ensures r.Some? ==> r.value != "" && Trimmed(r.value)
    ensures r.None? <==> forall l :: l in lines ==> !(MentionsProject(l) && !ProjectLabelLine(l))
  {
    if |lines| == 0 then None
    else if MentionsProject(lines[0]) && !ProjectLabelLine(lines[0]) then
      TrimOfProjectLine(lines[0]);
      Some(Trim(lines[0]))
    else
      assert lines == [lines[0]] + lines[1..];
      FromMentions(lines[1..])
  }

  /** The first line that mentions a project outside a 项目 label is the name, trimmed. */
  lemma {:induction false} FromMentionsPicks(lines: seq<string>, i: nat)
    requires i < |lines| && MentionsProject(lines[i]) && !ProjectLabelLine(lines[i])
    requires forall j :: 0 <= j < i ==> !(MentionsProject(lines[j]) && !ProjectLabelLine(lines[j]))
    ensures FromMentions(lines) == Some(Trim(lines[i]))
  {
    if i > 0 {
      assert !(MentionsProject(lines[0]) && !ProjectLabelLine(lines[0]));
      FromMentionsPicks(lines[1..], i - 1);
    }
  }

  /** `extractProjectName`: the four searches in order, the empty content or full text skipping
      its searches, and 未知项目 when all fail. The name is never empty and always trimmed. */
  function ProjectName(content: string, fullText: string): (r: string)
    ensures r != "" && Trimmed(r)
  {
    var contentLines := Split(content, '\n');
    var textLines := Split(fullText, '\n');
    var first := if content != "" then FromContentLabels(contentLines, ProjectKeys) else None;
    var second := if fullText != "" then FromTextLabels(fullText, ProjectKeys) else None;
    var third := if fullText != "" then FromProjectLines(textLines) else None;
    var last := if content != "" then FromMentions(contentLines) else None;
    if first.Some? then first.value
    else if second.Some? then second.value
    else if third.Some? then third.value
    else if last.Some? then last.value
    else UnknownProject
  }

  /** A string that contains `key` contains everything `key` contains. */
  lemma ContainsTrans(s: string, key: string, sub: string)
    requires Contains(s, key) && Contains(key, sub)
    ensures Contains(s, sub)
  {
    var i := IndexFrom(s, key, 0);
    var j := IndexFrom(key, sub, 0);
    assert s[i + j..i + j + |sub|] == s[i..i + |key|][j..j + |sub|];
    ContainsAt(s, sub, i + j);
  }

  /** Every piece of a split is part of the text it came from. */
  lemma {:induction false} SplitPieceContains(s: string, sep: char, key: string)
    ensures forall l :: l in Split(s, sep) && Contains(l, key) ==> Contains(s, key)
  {
    var i := IndexFrom(s, [sep], 0);
    if i >= 0 {
      SplitPieceContains(s[i + 1..], sep, key);
      assert Split(s, sep) == [s[..i]] + Split(s[i + 1..], sep);
      assert s == "" + s[..i] + s[i..];
      assert s == s[..i + 1] + s[i + 1..] + "";
      if Contains(s[..i], key) {
        ContainsWiden("", s[..i], s[i..], key);
      }
      if Contains(s[i + 1..], key) {
        ContainsWiden(s[..i + 1], s[i + 1..], "", key);
      }
    }
  }

  /** Each key of the search names 项目 or 工程. */
  lemma KeyMentions(key: string)
    requires key in ProjectKeys
    ensures MentionsProject(key)
  {
    if key == ProjectKeys[0] || key == ProjectKeys[1] {
      assert IsAt(key, "项目", 0);
      ContainsAt(key, "项目", 0);
    } else {
      assert IsAt(key, "工程", 0);
      ContainsAt(key, "工程", 0);
    }
  }

  /** Text that holds a key of the search mentions a project. */
  lemma KeyWiden(s: string, key: string)
    requires key in ProjectKeys && Contains(s, key)
    ensures MentionsProject(s)
  {
    KeyMentions(key);
    if Contains(key, "项目") {
      ContainsTrans(s, key, "项目");
    } else {
      ContainsTrans(s, key, "工程");
    }
  }

  /** No line of a text that never mentions a project does. */
  lemma LinesUnmentioned(s: string)
    requires !MentionsProject(s)
    ensures forall l :: l in Split(s, '\n') ==> !MentionsProject(l)
  {
    SplitPieceContains(s, '\n', "项目");
    SplitPieceContains(s, '\n', "工程");
  }

  /** With neither the content nor the full text mentioning 项目 or 工程, every search fails
      and the name is 未知项目. */
  lemma ProjectNameUnknown(content: string, fullText: string)
    requires !MentionsProject(content) && !MentionsProject(fullText)
    ensures ProjectName(content, fullText) == UnknownProject
  {
    var contentLines := Split(content, '\n');
    var textLines := Split(fullText, '\n');
    LinesUnmentioned(content);
    LinesUnmentioned(fullText);
    forall k | k in ProjectKeys ensures ContentLabel(contentLines, k).None? {
      var f := FirstLineWith(contentLines, k);
      if f.Some? {
        KeyWiden(f.value, k);
      }
    }
    forall k | k in ProjectKeys ensures TextLabel(fullText, k).None? {
      var c := RegexCapture(fullText, k, 0);
      if c.Some? {
        var i :| 0 <= i && MatchesAt(fullText, k, i);
        ContainsAt(fullText, k, i);
        KeyWiden(fullText, k);
      }
    }
  }

  /** A content line `项目名称：v`, with no content line naming 项目/工程 and no earlier line
      naming 项目名称, gives `v` as the project name, whatever the full text says. */
  lemma ProjectNameFromContent(pre: seq<string>, v: string, post: seq<string>, fullText: string)
    requires v != "" && Trimmed(v) && ColonFree(v)
    requires forall l :: l in pre + ["项目名称：" + v] + post ==> NoChar(l, '\n') && !Contains(l, "项目/工程")
    requires forall l :: l in pre ==> !Contains(l, "项目名称")
    ensures ProjectName(Join(pre + ["项目名称：" + v] + post, "\n"), fullText) == v
  {
    var lines := pre + ["项目名称：" + v] + post;
    var content := Join(lines, "\n");
    JoinedLines(lines, |pre|);
    assert ContentLabel(lines, ProjectKeys[0]).None?;
    LabelLine(pre, v, post);
    SecondKeyPicks(lines, ProjectKeys, v);
    ProjectNameFirst(content, fullText);
  }

  /** When the first key has no candidate, the second key's candidate is the name. */
  lemma SecondKeyPicks(lines: seq<string>, keys: seq<string>, v: string)
    requires |keys| >= 2 && ContentLabel(lines, keys[0]).None? && ContentLabel(lines, keys[1]) == Some(v)
    ensures FromContentLabels(lines, keys) == Some(v)
  {
    FromContentLabelsPicks(lines, keys, 1);
  }

  /** Lines without line feeds, one of them not empty, join into a non-empty text that splits
      back into them. */
  lemma JoinedLines(lines: seq<string>, i: nat)
    requires i < |lines| && lines[i] != ""
    requires forall l :: l in lines ==> NoChar(l, '\n')
    ensures Join(lines, "\n") != "" && Split(Join(lines, "\n"), '\n') == lines
  {
    forall k | 0 <= k < |lines| ensures NoChar(lines[k], '\n') {
      assert lines[k] in lines;
    }
    SplitJoin(lines, '\n');
  }

  /** A name found by the first search is the project name. */
  lemma ProjectNameFirst(content: string, fullText: string)
    requires content != "" && FromContentLabels(Split(content, '\n'), ProjectKeys).Some?
    ensures ProjectName(content, fullText) == FromContentLabels(Split(content, '\n'), ProjectKeys).value
  {
  }

  /** The first line holding 项目名称 in such a content is the label line, and it reads `v`. */
  lemma LabelLine(pre: seq<string>, v: string, post: seq<string>)
    requires v != "" && Trimmed(v) && ColonFree(v)
    requires forall l :: l in pre ==> !Contains(l, "项目名称")
    ensures ContentLabel(pre + ["项目名称：" + v] + post, ProjectKeys[1]) == Some(v)
  {
    var line := "项目名称：" + v;
    var lines := pre + [line] + post;
    assert lines[|pre|] == line;
    assert line == "" + "项目名称" + ("：" + v);
    ContainsInfix("", "项目名称", "：" + v);
    forall j | 0 <= j < |pre| ensures !Contains(lines[j], "项目名称") {
      assert lines[j] == pre[j];
    }
    FirstLineWithPicks(lines, "项目名称", |pre|);
    assert line == "项目名称" + ['：'] + v + "";
    LabelValueRoundTrip("项目名称", '：', v, "");
    TrimOfTrimmed(v);
  }
}
