/** The JavaScript string operations the components rely on:
    `String.prototype.trim`, `split` with a string separator and `join`. */
module Text {
  import opened Wrappers

  /** ECMAScript WhiteSpace and LineTerminator code points, the characters
      `trim` removes from both ends of a string. */
  const SpaceChars: set<char> :=
    {' ', '\t', '\n', '\r', '\U{000B}', '\U{000C}', '\U{00A0}', '\U{1680}',
     '\U{2000}', '\U{2001}', '\U{2002}', '\U{2003}', '\U{2004}', '\U{2005}', '\U{2006}',
     '\U{2007}', '\U{2008}', '\U{2009}', '\U{200A}',
     '\U{2028}', '\U{2029}', '\U{202F}', '\U{205F}', '\U{3000}', '\U{FEFF}'}

  predicate IsSpace(c: char) {
    c in SpaceChars
  }

  /** The string is all white space, so that `s.trim()` is the empty,
      falsy string. */
  predicate IsBlank(s: string) {
    forall i :: 0 <= i < |s| ==> IsSpace(s[i])
  }

  /** `trimStart`: drops the leading white space. */
  function TrimStart(s: string): (r: string)
    ensures |r| <= |s|
  {
    if s != [] && IsSpace(s[0]) then TrimStart(s[1..]) else s
  }

  /** What is left is a suffix of `s`, the dropped prefix is all white space
      and the suffix does not start with it. */
  lemma {:induction false} TrimStartSpec(s: string)
    ensures var r := TrimStart(s);
      && r == s[|s| - |r|..] && IsBlank(s[..|s| - |r|])
      && (r == [] || !IsSpace(r[0]))
  {
    if s != [] && IsSpace(s[0]) {
      TrimStartSpec(s[1..]);
      var r := TrimStart(s[1..]);
      assert s[..|s| - |r|] == [s[0]] + s[1..][..|s| - 1 - |r|];
    }
  }

  /** `trimEnd`: drops the trailing white space. */
  function TrimEnd(s: string): (r: string)
    ensures |r| <= |s|
  {
    if s != [] && IsSpace(s[|s| - 1]) then TrimEnd(s[..|s| - 1]) else s
  }

  /** What is left is a prefix of `s`, the dropped suffix is all white
      space and the prefix does not end with it. */
  lemma {:induction false} TrimEndSpec(s: string)
    ensures var r := TrimEnd(s);
      && r == s[..|r|] && IsBlank(s[|r|..])
      && (r == [] || !IsSpace(r[|r| - 1]))
  {
    if s != [] && IsSpace(s[|s| - 1]) {
      TrimEndSpec(s[..|s| - 1]);
      var r := TrimEnd(s[..|s| - 1]);
      assert s[|r|..] == s[..|s| - 1][|r|..] + [s[|s| - 1]];
    }
  }

  /** `s.trim()`. */
  function Trim(s: string): (r: string)
    ensures |r| <= |s|
  {
    TrimEnd(TrimStart(s))
  }

  /** The trim is empty exactly when `s` is all white space, and otherwise
      neither of its ends is white space. */
  lemma TrimSpec(s: string)
    ensures Trimmed(Trim(s))
    ensures Trim(s) == [] <==> IsBlank(s)
  {
    var t := TrimStart(s);
    var r := TrimEnd(t);
    TrimStartSpec(s);
    TrimEndSpec(t);
    if r == [] {
      assert s == s[..|s| - |t|] + t;
      assert t[|r|..] == t;
    }
    if t != [] {
      assert t[0] == s[|s| - |t|];
      assert r[0] == t[0];
    }
  }

  /** Neither end of `s` is white space. */
  predicate Trimmed(s: string) {
    s == [] || (!IsSpace(s[0]) && !IsSpace(s[|s| - 1]))
  }

  /** A string whose ends are not white space is its own trim. */
  lemma TrimOfTrimmed(s: string)
    requires Trimmed(s)
    ensures Trim(s) == s
  {
    assert TrimStart(s) == s;
  }

  /** `trim` is idempotent. */
  lemma TrimIdempotent(s: string)
    ensures Trim(Trim(s)) == Trim(s)
  {
    TrimSpec(s);
    TrimOfTrimmed(Trim(s));
  }

  /** A leading white-space character makes no difference to the trim. */
  lemma TrimLeadingSpace(c: char, s: string)
    requires IsSpace(c)
    ensures Trim([c] + s) == Trim(s)
  {
    assert ([c] + s)[1..] == s;
  }

  /** `sep` occurs in `s` at index `i`. */
  predicate OccursAt(s: string, sep: string, i: nat) {
    i + |sep| <= |s| && s[i..i + |sep|] == sep
  }

  /** `s.indexOf(sep)`: the first occurrence of `sep` in `s`, if any. */
  function IndexOf(s: string, sep: string): (r: Option<nat>)
    requires sep != []
    ensures r.Some? ==> r.value + |sep| <= |s|
    decreases |s|
  {
    if |s| < |sep| then None
    else if s[..|sep|] == sep then Some(0)
    else match IndexOf(s[1..], sep)
      case None => None
      case Some(k) => Some(k + 1)
  }

  /** The index found is an occurrence and no occurrence comes before it;
      None means there is none at all. */
  lemma {:induction false} IndexOfSpec(s: string, sep: string)
    requires sep != []
    ensures IndexOf(s, sep).Some? ==> OccursAt(s, sep, IndexOf(s, sep).value)
    ensures forall k: nat :: (IndexOf(s, sep).None? || k < IndexOf(s, sep).value) ==> !OccursAt(s, sep, k)
    decreases |s|
  {
    if |s| >= |sep| && s[..|sep|] != sep {
      IndexOfSpec(s[1..], sep);
      forall k: nat | 1 <= k && OccursAt(s, sep, k) ensures OccursAt(s[1..], sep, k - 1) {
        assert s[1..][k - 1..k - 1 + |sep|] == s[k..k + |sep|];
      }
      match IndexOf(s[1..], sep)
      case None =>
      case Some(k) =>
        assert s[1..][k..k + |sep|] == s[k + 1..k + 1 + |sep|];
    }
  }

  /** An occurrence with none before it is the one `indexOf` finds. */
  lemma IndexOfFirst(s: string, sep: string, i: nat)
    requires sep != [] && OccursAt(s, sep, i)
    requires forall k: nat :: k < i ==> !OccursAt(s, sep, k)
    ensures IndexOf(s, sep) == Some(i)
  {
    IndexOfSpec(s, sep);
  }

  /** Without an occurrence, `indexOf` finds nothing. */
  lemma IndexOfNone(s: string, sep: string)
    requires sep != []
    requires forall k: nat :: !OccursAt(s, sep, k)
    ensures IndexOf(s, sep) == None
  {
    IndexOfSpec(s, sep);
  }

  /** `s.split(sep)` for a non-empty string separator: the pieces between
      the successive left-most occurrences of `sep`. */
  function Split(s: string, sep: string): (r: seq<string>)
    requires sep != []
    ensures |r| >= 1
    decreases |s|
  {
    match IndexOf(s, sep)
    case None => [s]
    case Some(i) => [s[..i]] + Split(s[i + |sep|..], sep)
  }

  /** `pieces.join(sep)`; the join of no pieces is the empty string. */
  function Join(pieces: seq<string>, sep: string): string {
    if |pieces| == 0 then ""
    else if |pieces| == 1 then pieces[0]
    else pieces[0] + sep + Join(pieces[1..], sep)
  }

  /** Joining the pieces of a split with the same separator gives back the
      original string. */
  lemma {:induction false} JoinSplit(s: string, sep: string)
    requires sep != []
    ensures Join(Split(s, sep), sep) == s
    decreases |s|
  {
    match IndexOf(s, sep)
    case None =>
    case Some(i) =>
      JoinSplit(s[i + |sep|..], sep);
      SplitFirst(s, sep, i);
      assert OccursAt(s, sep, i) by { IndexOfSpec(s, sep); }
      Reassemble(s, sep, i);
  }

  /** The text around an occurrence, put back together with it. */
  lemma Reassemble(s: string, sep: string, i: nat)
    requires OccursAt(s, sep, i)
    ensures s[..i] + sep + s[i + |sep|..] == s
  {
    assert s == s[..i] + s[i..i + |sep|] + s[i + |sep|..];
  }

  /** When `sep` first occurs at `i`, the split consists of the text before
      it followed by the split of the text after it. */
  lemma SplitFirst(s: string, sep: string, i: nat)
    requires sep != [] && IndexOf(s, sep) == Some(i)
    ensures Join(Split(s, sep), sep) == s[..i] + sep + Join(Split(s[i + |sep|..], sep), sep)
  {
    SplitCons(s, sep, i);
    JoinCons([s[..i]] + Split(s[i + |sep|..], sep), sep);
  }

  /** The split at the first occurrence `i` of `sep`. */
  lemma SplitCons(s: string, sep: string, i: nat)
    requires sep != [] && IndexOf(s, sep) == Some(i)
    ensures Split(s, sep) == [s[..i]] + Split(s[i + |sep|..], sep)
  {
  }

  /** Joining two or more pieces puts the separator after the first. */
  lemma JoinCons(pieces: seq<string>, sep: string)
    requires |pieces| >= 2
    ensures Join(pieces, sep) == pieces[0] + sep + Join(pieces[1..], sep)
  {
  }

  /** A join whose first piece is non-empty is non-empty. */
  lemma JoinNonEmpty(pieces: seq<string>, sep: string)
    requires |pieces| >= 1 && pieces[0] != []
    ensures Join(pieces, sep) != []
  {
    if |pieces| >= 2 {
      JoinCons(pieces, sep);
    }
  }

  /** A string with a character other than white space is not blank. */
  lemma VisibleNotBlank(s: string, i: nat)
    requires i < |s| && !IsSpace(s[i])
    ensures !IsBlank(s) && Trim(s) != []
  {
    TrimSpec(s);
  }

  /** With a one-character separator that `a` does not contain, the split of
      `a + sep + b` starts with `a`. */
  lemma SplitAfterFirst(a: string, c: char, b: string)
    requires c !in a
    ensures Split(a + [c] + b, [c]) == [a] + Split(b, [c])
  {
    var s := a + [c] + b;
    assert OccursAt(s, [c], |a|);
    forall k: nat | k < |a| ensures !OccursAt(s, [c], k) {
      assert s[k] == a[k];
    }
    IndexOfFirst(s, [c], |a|);
    assert s[..|a|] == a;
    assert s[|a| + 1..] == b;
  }

  /** A string without the one-character separator splits into itself. */
  lemma SplitWithout(a: string, c: char)
    requires c !in a
    ensures Split(a, [c]) == [a]
  {
    forall k: nat ensures !OccursAt(a, [c], k) {
      if k + 1 <= |a| {
        assert a[k..k + 1] == [a[k]] && a[k] in a;
      }
    }
    IndexOfNone(a, [c]);
  }

  /** Prefixing a character other than the separator only extends the first
      piece of the split. */
  lemma SplitPrefix(d: char, t: string, c: char)
    requires d != c
    ensures Split([d] + t, [c]) == [[d] + Split(t, [c])[0]] + Split(t, [c])[1..]
  {
    var s := [d] + t;
    assert s[1..] == t;
    assert s[..1] != [c];
    match IndexOf(t, [c])
    case None =>
      assert IndexOf(s, [c]) == None;
    case Some(i) =>
      assert IndexOf(s, [c]) == Some(i + 1);
      assert s[..i + 1] == [d] + t[..i];
      assert s[i + 2..] == t[i + 1..];
  }
}
