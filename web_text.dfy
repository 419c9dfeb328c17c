/**
 * The JavaScript string operations the web tool's parsers rely on:
 * String.prototype.trim, String.prototype.split with a one-character
 * separator, and startsWith, plus their inverses (join, and the text a list
 * of lines makes when every line is followed by a separator).
 */
module WebText {
  /** WhiteSpace and LineTerminator as trim removes them: TAB, VT, FF, SP, NBSP, ZWNBSP, the Zs separators, LF, CR, LS, PS. */
  predicate IsSpace(c: char)
  {
    c == '\t' || c == '\U{000B}' || c == '\U{000C}' || c == ' ' || c == '\U{00A0}' || c == '\U{FEFF}' ||
    c == '\U{1680}' || ('\U{2000}' <= c <= '\U{200A}') || c == '\U{202F}' || c == '\U{205F}' ||
    c == '\U{3000}' || c == '\n' || c == '\r' || c == '\U{2028}' || c == '\U{2029}'
  }

  /** s without its leading white space. */
  function TrimStart(s: string): (r: string)
    ensures |r| <= |s| && r == s[|s| - |r|..]
    ensures |r| > 0 ==> !IsSpace(r[0])
    ensures forall i :: 0 <= i < |s| - |r| ==> IsSpace(s[i])
  {
    if |s| > 0 && IsSpace(s[0]) then TrimStart(s[1..]) else s
  }

  /** s without its trailing white space. */
  function TrimEnd(s: string): (r: string)
    ensures |r| <= |s| && r == s[..|r|]
    ensures |r| > 0 ==> !IsSpace(r[|r| - 1])
    ensures forall i :: |r| <= i < |s| ==> IsSpace(s[i])
  {
    if |s| > 0 && IsSpace(s[|s| - 1]) then TrimEnd(s[..|s| - 1]) else s
  }

  /** String.prototype.trim */
  function Trim(s: string): string
  {
    TrimEnd(TrimStart(s))
  }

  /**
   * trim removes exactly the white space at both ends: the result is a
   * slice of s, empty exactly when s is all white space, and otherwise starts
   * and ends with a non-space character.
   */
  lemma TrimFacts(s: string)
    ensures var r := Trim(s);
      (|r| == 0 <==> forall i :: 0 <= i < |s| ==> IsSpace(s[i])) &&
      (|r| > 0 ==> !IsSpace(r[0]) && !IsSpace(r[|r| - 1])) &&
      r <= TrimStart(s) && TrimStart(s) == s[|s| - |TrimStart(s)|..]
  {
  }

  /** A string with non-space characters at both ends is its own trim. */
  lemma TrimKeeps(s: string)
    requires |s| > 0 && !IsSpace(s[0]) && !IsSpace(s[|s| - 1])
    ensures Trim(s) == s
  {
  }

  /** Trimming twice is trimming once. */
  lemma TrimIdempotent(s: string)
    ensures Trim(Trim(s)) == Trim(s)
  {
    var r := Trim(s);
    if |r| > 0 {
      assert !IsSpace(r[0]) && !IsSpace(r[|r| - 1]) by {
        TrimFacts(s);
      }
      TrimKeeps(r);
    }
  }

  /** A trim that begins with a visible character begins with the first character of the line. */
  lemma TrimFirst(s: string)
    requires |s| > 0 && !IsSpace(s[0])
    ensures |Trim(s)| > 0 && Trim(s)[0] == s[0]
  {
  }

  /** The index of the first occurrence of c in s, or |s|. */
  function IndexOf(s: string, c: char): (r: nat)
    ensures r <= |s|
    ensures r < |s| ==> s[r] == c
    ensures forall i :: 0 <= i < r ==> s[i] != c
  {
    if |s| == 0 || s[0] == c then 0 else 1 + IndexOf(s[1..], c)
  }

  /** String.prototype.split(sep) for a one-character separator. */
  function Split(s: string, sep: char): (r: seq<string>)
    ensures |r| >= 1
    ensures forall p :: p in r ==> sep !in p
    decreases |s|
  {
    var i := IndexOf(s, sep);
    if i == |s| then [s] else [s[..i]] + Split(s[i + 1..], sep)
  }

  /** Array.prototype.join(sep) */
  function Join(parts: seq<string>, sep: char): string
  {
    if |parts| == 0 then "" else if |parts| == 1 then parts[0] else parts[0] + [sep] + Join(parts[1..], sep)
  }

  /** Joining the pieces of a split with the same separator gives back the string. */
  lemma {:induction false} JoinSplit(s: string, sep: char)
    ensures Join(Split(s, sep), sep) == s
    decreases |s|
  {
    var i := IndexOf(s, sep);
    if i < |s| {
      var rest := Split(s[i + 1..], sep);
      var parts := [s[..i]] + rest;
      assert Split(s, sep) == parts;
      assert parts[0] == s[..i] && parts[1..] == rest;
      JoinSplit(s[i + 1..], sep);
      assert Join(parts, sep) == s[..i] + [sep] + s[i + 1..];
      assert s == s[..i] + [sep] + s[i + 1..];
    }
  }

  /** Splitting a join of separator-free pieces gives back the pieces. */
  lemma {:induction false} SplitJoin(parts: seq<string>, sep: char)
    requires |parts| >= 1 && forall p :: p in parts ==> sep !in p
    ensures Split(Join(parts, sep), sep) == parts
  {
    if |parts| > 1 {
      var s := Join(parts, sep);
      var rest := Join(parts[1..], sep);
      assert s == parts[0] + [sep] + rest;
      IndexOfPrefix(parts[0], sep, rest);
      assert s[..|parts[0]|] == parts[0];
      assert s[|parts[0]| + 1..] == rest;
      SplitJoin(parts[1..], sep);
      assert parts == [parts[0]] + parts[1..];
    } else {
      assert parts[0] in parts;
      var i := IndexOf(parts[0], sep);
      assert i == |parts[0]|;
    }
  }

  lemma IndexOfPrefix(p: string, sep: char, rest: string)
    requires sep !in p
    ensures IndexOf(p + [sep] + rest, sep) == |p|
  {
    var s := p + [sep] + rest;
    assert forall j | 0 <= j < |p| :: s[j] == p[j];
    assert s[|p|] == sep;
  }

  /** A non-empty sequence is its front followed by its last element. */
  lemma FrontAndLast<T>(s: seq<T>)
    requires |s| > 0
    ensures s[..|s| - 1] + [s[|s| - 1]] == s
  {
  }

  /** The text of lines each followed by sep ("a\nb\n" for ["a", "b"]). */
  function Terminated(lines: seq<string>, sep: char): string
  {
    if |lines| == 0 then "" else lines[0] + [sep] + Terminated(lines[1..], sep)
  }

  /** Line-terminated text is the join of its lines and one empty last piece. */
  lemma {:induction false} TerminatedIsJoin(lines: seq<string>, sep: char)
    ensures Terminated(lines, sep) == Join(lines + [""], sep)
  {
    if |lines| > 0 {
      TerminatedIsJoin(lines[1..], sep);
      assert (lines + [""])[1..] == lines[1..] + [""];
      if |lines| == 1 {
        assert Join([""], sep) == "";
      }
    }
  }

  /** Splitting line-terminated text gives its lines and one trailing empty string. */
  lemma SplitTerminated(lines: seq<string>, sep: char)
    requires forall l :: l in lines ==> sep !in l
    ensures Split(Terminated(lines, sep), sep) == lines + [""]
  {
    TerminatedIsJoin(lines, sep);
    SplitJoin(lines + [""], sep);
  }

  lemma {:induction false} TerminatedAppend(a: seq<string>, b: seq<string>, sep: char)
    ensures Terminated(a + b, sep) == Terminated(a, sep) + Terminated(b, sep)
  {
    if |a| > 0 {
      assert (a + b)[1..] == a[1..] + b;
      TerminatedAppend(a[1..], b, sep);
    } else {
      assert a + b == b;
    }
  }
}
