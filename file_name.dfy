/** The file name of a generated contract (ContractGenerator.tsx): the project name (or
    `unknown`) with the characters Windows refuses in file names replaced by `_`, white-space runs
    collapsed to one blank, white space cut off both ends, and the result cut to 50 characters;
    then `-合同.docx` appended. */
module FileName {
  import opened Strings

  /** One of `\ / : * ? " < > |`. */
  predicate Forbidden(c: char)
  {
    c == '\\' || c == '/' || c == ':' || c == '*' || c == '?' || c == '"' || c == '<' || c == '>' || c == '|'
  }

  predicate Allowed(s: string)
  {
    forall i :: 0 <= i < |s| ==> !Forbidden(s[i])
  }

  /** `s.replace(/[\\/:*?"<>|]/g, '_')`. */
  function ReplaceForbidden(s: string): (r: string)
    ensures |r| == |s| && Allowed(r)
    ensures forall i :: 0 <= i < |s| && !Forbidden(s[i]) ==> r[i] == s[i]
  {
    seq(|s|, i requires 0 <= i < |s| => if Forbidden(s[i]) then '_' else s[i])
  }

  const MaxLength := 50

  /** The sanitiser: the replacement, `/\s+/g` to a blank, `/^\s+|\s+$/g` removed, the first 50
      characters. */
  function Sanitize(raw: string): string
  {
    var t := Normalize(ReplaceForbidden(raw));
    if |t| <= MaxLength then t else t[..MaxLength]
  }

  /** The name the contract is saved under. */
  function ContractFileName(projectName: string): string
  {
    Sanitize(if projectName != "" then projectName else "unknown") + "-合同.docx"
  }

  // ---------------------------------------------------------------- properties

  /** Collapsing white space only brings in blanks. */
  lemma {:induction false} CollapseAllowed(s: string)
    requires Allowed(s)
    ensures Allowed(CollapseSpaces(s))
    decreases |s|
  {
    if |s| > 0 {
      if IsSpace(s[0]) {
        var t := TrimStart(s);
        TrimStartSuffix(s);
        assert Allowed(t) by {
          forall i | 0 <= i < |t| ensures !Forbidden(t[i]) {
            assert t[i] == s[|s| - |t| + i];
          }
        }
        CollapseAllowed(t);
      } else {
        CollapseAllowed(s[1..]);
      }
    }
  }

  lemma SliceAllowed(s: string, a: nat, b: nat)
    requires Allowed(s) && a <= b <= |s|
    ensures Allowed(s[a..b])
  {
    forall i | 0 <= i < b - a ensures !Forbidden(s[a..b][i]) {
      assert s[a..b][i] == s[a + i];
    }
  }

  /** The sanitised name holds no forbidden character, every white-space character in it is a
      single blank between other characters or at its end, it does not start with white space,
      and it is at most 50 characters long. */
  lemma SanitizeFacts(raw: string)
    ensures Allowed(Sanitize(raw))
    ensures SingleSpaced(Sanitize(raw))
    ensures |Sanitize(raw)| == 0 || !IsSpace(Sanitize(raw)[0])
    ensures |Sanitize(raw)| <= MaxLength
  {
    var s := ReplaceForbidden(raw);
    var c := CollapseSpaces(s);
    var t := Normalize(s);
    CollapseAllowed(s);
    TrimShape(c);
    var a, b :| 0 <= a <= b <= |c| && t == c[a..b] && AllSpace(c[..a]) && AllSpace(c[b..]);
    SliceAllowed(c, a, b);
    if |t| > MaxLength {
      SliceAllowed(t, 0, MaxLength);
      SingleSpacedSlice(t, 0, MaxLength);
      assert t[..MaxLength][0] == t[0];
    } else {
      assert Sanitize(raw) == t;
    }
  }

  /** A single-spaced text is left as it is by the collapse. */
  lemma {:induction false} CollapseSingle(s: string)
    requires SingleSpaced(s)
    ensures CollapseSpaces(s) == s
    decreases |s|
  {
    if |s| > 0 {
      SingleSpacedSlice(s, 1, |s|);
      CollapseSingle(s[1..]);
      if IsSpace(s[0]) {
        assert s[0] == ' ';
        assert |s| == 1 || !IsSpace(s[1]);
        TrimStartOfTrimmed(s[1..]);
        assert TrimStart(s) == TrimStart(s[1..]);
        assert s == " " + s[1..];
      } else {
        assert s == [s[0]] + s[1..];
      }
    }
  }

  /** A name that is already clean comes through unchanged. */
  lemma SanitizeClean(name: string)
    requires Allowed(name) && SingleSpaced(name) && Trimmed(name) && |name| <= MaxLength
    ensures Sanitize(name) == name
  {
    assert ReplaceForbidden(name) == name;
    CollapseSingle(name);
    TrimOfTrimmed(name);
  }
}
