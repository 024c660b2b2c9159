/** The string operations the program relies on: strip, startswith, `in`, join and split. */
module Text {

  /** The characters that `str.strip()` removes. */
  predicate IsSpace(c: char) {
    || '\t' <= c <= '\r'
    || '\U{1C}' <= c <= ' '
    || c in "\U{85}\U{A0}\U{1680}\U{2028}\U{2029}\U{202F}\U{205F}\U{3000}"
    || '\U{2000}' <= c <= '\U{200A}'
  }

  function Lstrip(s: string): (r: string)
    ensures |r| <= |s| && r == s[|s| - |r|..]
    ensures r != "" ==> !IsSpace(r[0])
    ensures forall i :: 0 <= i < |s| - |r| ==> IsSpace(s[i])
  {
    if s == "" || !IsSpace(s[0]) then s else Lstrip(s[1..])
  }

  function Rstrip(s: string): (r: string)
    ensures r <= s
    ensures r != "" ==> !IsSpace(r[|r| - 1])
  {
    if s == "" || !IsSpace(s[|s| - 1]) then s else Rstrip(s[..|s| - 1])
  }

  function Strip(s: string): (r: string) {
    Rstrip(Lstrip(s))
  }

  /** Only white space is dropped on the right. */
  lemma {:induction false} RstripDropsSpace(s: string)
    ensures forall i | |Rstrip(s)| <= i < |s| :: IsSpace(s[i])
  {
    if s != "" && IsSpace(s[|s| - 1]) {
      RstripDropsSpace(s[..|s| - 1]);
    }
  }

  /** A string that stripping leaves alone. */
  predicate Trimmed(s: string) {
    s == "" || (!IsSpace(s[0]) && !IsSpace(s[|s| - 1]))
  }

  lemma StripIsTrimmed(s: string)
    ensures Trimmed(Strip(s))
  {}

  lemma StripOfTrimmed(s: string)
    requires Trimmed(s)
    ensures Strip(s) == s
  {}

  lemma StripOfPadded(s: string)
    requires s != "" && Trimmed(s)
    ensures Strip(s + " ") == s
  {
    var padded := s + " ";
    assert padded[0] == s[0] && Lstrip(padded) == padded;
    assert padded[..|s|] == s && Rstrip(padded) == Rstrip(s);
  }

  /** A text that starts with something visible is not blank. */
  lemma VisibleIsNotBlank(s: string)
    requires s != "" && !IsSpace(s[0])
    ensures Strip(s) != ""
  {
    RstripDropsSpace(s);
  }

  /** `sub` occurs in `text` at position `i`. */
  predicate OccursAt(text: string, sub: string, i: nat) {
    i + |sub| <= |text| && text[i..i + |sub|] == sub
  }

  predicate Contains(text: string, sub: string) {
    exists i | 0 <= i <= |text| :: OccursAt(text, sub, i)
  }

  /** Extending a text on the right keeps every occurrence. */
  lemma ContainsExtends(text: string, more: string, sub: string)
    requires Contains(text, sub)
    ensures Contains(text + more, sub)
  {
    var i :| 0 <= i <= |text| && OccursAt(text, sub, i);
    assert (text + more)[i..i + |sub|] == text[i..i + |sub|];
    assert OccursAt(text + more, sub, i);
  }

  lemma ContainsInside(before: string, sub: string, after: string)
    ensures Contains(before + sub + after, sub)
  {
    var text := before + sub + after;
    assert text[|before|..|before| + |sub|] == sub;
    assert OccursAt(text, sub, |before|);
  }

  function Join(sep: string, parts: seq<string>): string {
    if parts == [] then ""
    else if |parts| == 1 then parts[0]
    else Join(sep, parts[..|parts| - 1]) + sep + parts[|parts| - 1]
  }

  /** `s.split(c)`: the pieces between the occurrences of one separator character. */
  function Split(s: string, c: char): (pieces: seq<string>)
    ensures |pieces| >= 1
    ensures forall p | p in pieces :: c !in p
  {
    if s == "" then [""]
    else
      var rest := Split(s[1..], c);
      if s[0] == c then [""] + rest else [[s[0]] + rest[0]] + rest[1..]
  }

  /** `Path(s).name` for a POSIX path: the last component that is neither empty nor a dot. */
  function BaseName(s: string): (name: string)
    ensures '/' !in name
  {
    LastComponent(Split(s, '/'))
  }

  function LastComponent(parts: seq<string>): (name: string)
    ensures name in parts || name == ""
    ensures name == "" <==> forall p | p in parts :: p == "" || p == "."
    ensures name != "."
  {
    if parts == [] then ""
    else
      var last := parts[|parts| - 1];
      assert parts == parts[..|parts| - 1] + [last];
      if last != "" && last != "." then last else LastComponent(parts[..|parts| - 1])
  }

  /** The base name is the last component with a name in it. */
  lemma {:induction false} LastComponentIsLast(parts: seq<string>)
    ensures var name := LastComponent(parts);
            if name == "" then forall p | p in parts :: p == "" || p == "."
            else exists i :: 0 <= i < |parts| && parts[i] == name && name != "."
                             && forall j | i < j < |parts| :: parts[j] == "" || parts[j] == "."
  {
    if parts != [] {
      var n := |parts| - 1;
      assert parts == parts[..n] + [parts[n]];
      LastComponentIsLast(parts[..n]);
      if parts[n] == "" || parts[n] == "." {
        if LastComponent(parts[..n]) != "" {
          var i :| 0 <= i < n && parts[..n][i] == LastComponent(parts[..n])
                   && forall j | i < j < n :: parts[..n][j] == "" || parts[..n][j] == ".";
          assert parts[i] == LastComponent(parts);
          assert forall j | i < j < n :: parts[j] == parts[..n][j];
        }
      } else {
        assert parts[n] == LastComponent(parts);
      }
    }
  }

  lemma {:induction false} JoinOneMore(c: char, first: string, rest: seq<string>)
    requires rest != []
    ensures Join([c], [first] + rest) == first + [c] + Join([c], rest)
  {
    var n := |rest| - 1;
    assert ([first] + rest)[..|rest|] == [first] + rest[..n];
    if n > 0 {
      JoinOneMore(c, first, rest[..n]);
    } else {
      assert Join([c], [first] + rest) == first + [c] + rest[0];
    }
  }

  lemma {:induction false} JoinLonger(c: char, first: string, rest: seq<string>, d: char)
    ensures Join([c], [[d] + first] + rest) == [d] + Join([c], [first] + rest)
  {
    if rest != [] {
      JoinOneMore(c, [d] + first, rest);
      JoinOneMore(c, first, rest);
    }
  }

  /** Joining the pieces with the separator gives the text back, and no piece holds the separator. */
  lemma {:induction false} JoinUndoesSplit(s: string, c: char)
    ensures Join([c], Split(s, c)) == s
    ensures forall p | p in Split(s, c) :: c !in p
  {
    if s != "" {
      var rest := Split(s[1..], c);
      JoinUndoesSplit(s[1..], c);
      if s[0] == c {
        JoinOneMore(c, "", rest);
        assert s == "" + [c] + s[1..];
      } else {
        JoinLonger(c, rest[0], rest[1..], s[0]);
        assert rest == [rest[0]] + rest[1..];
        assert s == [s[0]] + s[1..];
      }
    }
  }

  lemma {:induction false} SplitWhole(s: string, c: char)
    requires c !in s
    ensures Split(s, c) == [s]
  {
    if s != "" {
      SplitWhole(s[1..], c);
      assert s == [s[0]] + s[1..];
    }
  }

  lemma {:induction false} SplitAppends(s: string, c: char, last: string)
    requires c !in last
    ensures Split(s + [c] + last, c) == Split(s, c) + [last]
  {
    if s == "" {
      SplitWhole(last, c);
      assert s + [c] + last == [c] + last;
      assert ([c] + last)[1..] == last;
    } else {
      SplitAppends(s[1..], c, last);
      assert (s + [c] + last)[1..] == s[1..] + [c] + last;
    }
  }

  /** Splitting undoes joining when no part holds the separator. */
  lemma {:induction false} SplitUndoesJoin(parts: seq<string>, c: char)
    requires parts != [] && forall p | p in parts :: c !in p
    ensures Split(Join([c], parts), c) == parts
  {
    var n := |parts| - 1;
    assert parts[n] in parts;
    SplitWhole(parts[n], c);
    if n > 0 {
      SplitUndoesJoin(parts[..n], c);
      SplitAppends(Join([c], parts[..n]), c, parts[n]);
    }
  }
}
