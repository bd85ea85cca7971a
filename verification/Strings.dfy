/** Strings as the repository uses them: compared by code point, stripped of surrounding
    blanks, and joined with a dot to name child tasks. */
module Strings {
  import opened Order

  predicate CharLess(a: char, b: char) {
    a < b
  }

  predicate LexLe(a: string, b: string) {
    LexBy(CharLess, a, b)
  }

  /** One text is at or before another when it is a prefix of it, or has the smaller code point where they first
      differ. */
  lemma {:induction false} LexMeans(a: string, b: string)
    ensures LexLe(a, b) <==> a <= b || exists i :: 0 <= i < |a| && i < |b| && a[..i] == b[..i] && a[i] < b[i]
  {
    if a == [] || b == [] {
    } else if a[0] != b[0] {
      forall i | 0 < i < |a| && i < |b| ensures a[..i] != b[..i] {
        assert a[..i][0] != b[..i][0];
      }
      assert a[..0] == b[..0];
    } else {
      var s, t := a[1..], b[1..];
      LexMeans(s, t);
      assert a == [a[0]] + s && b == [b[0]] + t;
      forall i | 0 < i < |a| && i < |b| ensures a[..i] == b[..i] <==> s[..i - 1] == t[..i - 1] {
        assert a[..i] == [a[0]] + s[..i - 1] && b[..i] == [b[0]] + t[..i - 1];
        assert s[..i - 1] == a[..i][1..] && t[..i - 1] == b[..i][1..];
      }
      if i :| 0 <= i < |s| && i < |t| && s[..i] == t[..i] && s[i] < t[i] {
        assert a[..i + 1] == b[..i + 1] && a[i + 1] < b[i + 1];
      }
      if i :| 0 <= i < |a| && i < |b| && a[..i] == b[..i] && a[i] < b[i] {
        assert s[..i - 1] == t[..i - 1] && s[i - 1] < t[i - 1];
      }
    }
  }

  lemma LexTotal(a: string, b: string)
    ensures LexLe(a, b) || LexLe(b, a)
    ensures LexLe(a, b) && LexLe(b, a) ==> a == b
  {
    LexByTotal(CharLess, a, b);
  }

  lemma LexTransitive(a: string, b: string, c: string)
    requires LexLe(a, b) && LexLe(b, c)
    ensures LexLe(a, c)
  {
    LexByTransitive(CharLess, a, b, c);
  }

  function Lexicographic(): (string, string) -> bool {
    (a, b) => LexLe(a, b)
  }

  lemma LexicographicIsTotal()
    ensures TotalOrder(Lexicographic())
  {
    forall a: string, b: string
      ensures LexLe(a, b) || LexLe(b, a)
      ensures LexLe(a, b) && LexLe(b, a) ==> a == b
    {
      LexTotal(a, b);
    }
    forall a: string, b: string, c: string | LexLe(a, b) && LexLe(b, c)
      ensures LexLe(a, c)
    {
      LexTransitive(a, b, c);
    }
  }

  /** `sorted(...)` over distinct strings. */
  function SortStrings(s: set<string>): (r: seq<string>)
    ensures Ascending(Lexicographic(), r) && Elements(r) == s
  {
    LexicographicIsTotal();
    SortBy(Lexicographic(), s)
  }

  predicate IsBlank(c: char) {
    c == ' ' || c == '\t' || c == '\n' || c == '\r'
  }

  /** `not text.strip()` */
  predicate Blank(s: string) {
    forall i | 0 <= i < |s| :: IsBlank(s[i])
  }

  function StripLeft(s: string): string {
    if s != [] && IsBlank(s[0]) then StripLeft(s[1..]) else s
  }

  function StripRight(s: string): string {
    if s != [] && IsBlank(s[|s| - 1]) then StripRight(s[..|s| - 1]) else s
  }

  /** `text.strip()` */
  function Strip(s: string): string {
    StripRight(StripLeft(s))
  }

  /** Nonempty, with no blank at either end: what stripping leaves of a text that is not blank. */
  predicate Trimmed(s: string) {
    s != [] && !IsBlank(s[0]) && !IsBlank(s[|s| - 1])
  }

  lemma {:induction false} StripRightKeepsHead(s: string)
    requires s != [] && !IsBlank(s[0])
    ensures Trimmed(StripRight(s)) && StripRight(s)[0] == s[0]
  {
    if !IsBlank(s[|s| - 1]) {
    } else {
      StripRightKeepsHead(s[..|s| - 1]);
    }
  }

  lemma {:induction false} StripTrims(s: string)
    ensures if Blank(s) then Strip(s) == "" else Trimmed(Strip(s))
    ensures Trimmed(s) ==> Strip(s) == s
    decreases |s|
  {
    if s != [] && IsBlank(s[0]) {
      assert Blank(s) <==> Blank(s[1..]) by {
        assert forall i :: 1 <= i < |s| ==> s[i] == s[1..][i - 1];
      }
      StripTrims(s[1..]);
    } else if s != [] {
      StripRightKeepsHead(s);
    }
  }

  /** Stripping takes blanks from both ends, and nothing else. */
  lemma {:induction false} StripTakesBlanks(s: string) returns (left: string, right: string)
    ensures s == left + Strip(s) + right && Blank(left) && Blank(right)
    decreases |s|
  {
    if s != [] && IsBlank(s[0]) {
      left, right := StripTakesBlanks(s[1..]);
      left := [s[0]] + left;
      assert s == [s[0]] + s[1..];
    } else {
      right := StripRightTakesBlanks(s);
      left := [];
    }
  }

  lemma {:induction false} StripRightTakesBlanks(s: string) returns (right: string)
    ensures s == StripRight(s) + right && Blank(right)
  {
    if s != [] && IsBlank(s[|s| - 1]) {
      right := StripRightTakesBlanks(s[..|s| - 1]);
      right := right + [s[|s| - 1]];
      assert s == s[..|s| - 1] + [s[|s| - 1]];
    } else {
      right := [];
    }
  }

  predicate DotFree(s: string) {
    '.' !in s
  }

  /** `id` is `parent + "." + key` for a key without a dot. */
  predicate IsChildId(parent: string, id: string) {
    && |id| > |parent|
    && id[..|parent|] == parent
    && id[|parent|] == '.'
    && DotFree(id[|parent| + 1..])
  }

  function ChildId(parent: string, key: string): (id: string)
    ensures DotFree(key) ==> IsChildId(parent, id)
    ensures !DotFree(id)
  {
    var id := parent + "." + key;
    assert id[|parent|] == '.';
    assert id[|parent| + 1..] == key;
    id
  }

  lemma LastDot(p: string, id: string)
    requires IsChildId(p, id)
    ensures forall j :: |p| < j < |id| ==> id[j] != '.'
  {
    forall j | |p| < j < |id| ensures id[j] != '.' {
      assert id[|p| + 1..][j - |p| - 1] == id[j];
    }
  }

  /** The last dot of an id separates it from its parent, so the parent is unique. */
  lemma ChildIdInjective(p: string, q: string, id: string)
    requires IsChildId(p, id) && IsChildId(q, id)
    ensures p == q
  {
    LastDot(p, id);
    LastDot(q, id);
  }

  lemma ChildIdKey(p: string, a: string, b: string)
    requires ChildId(p, a) == ChildId(p, b)
    ensures a == b
  {
    assert ChildId(p, a)[|p| + 1..] == a;
    assert ChildId(p, b)[|p| + 1..] == b;
  }
}
