/** Exact-text patches of a bounded file: counting and replacing leftmost occurrences that do not overlap,
    and when applying a patch twice is harmless. */
module Patch {
  import opened Options

  /** `text.count(p)`: occurrences found left to right, each search starting after the last one. */
  function Count(s: string, p: string): nat
    requires p != []
  {
    if |s| < |p| then 0
    else if s[..|p|] == p then 1 + Count(s[|p|..], p)
    else Count(s[1..], p)
  }

  /** `text.replace(old, new, n)` */
  function Replace(s: string, from_: string, to_: string, n: nat): string
    requires from_ != []
  {
    if n == 0 || |s| < |from_| then s
    else if s[..|from_|] == from_ then to_ + Replace(s[|from_|..], from_, to_, n - 1)
    else [s[0]] + Replace(s[1..], from_, to_, n)
  }

  /** Bytes a character takes in UTF-8. */
  function CharSize(c: char): nat {
    if c as int < 0x80 then 1 else if c as int < 0x800 then 2 else if c as int < 0x10000 then 3 else 4
  }

  function Size(s: string): nat {
    if s == [] then 0 else Size(s[..|s| - 1]) + CharSize(s[|s| - 1])
  }

  /** How many characters of the text are at or above a code point. */
  function AtLeast(s: string, point: int): nat {
    if s == [] then 0 else AtLeast(s[1..], point) + if s[0] as int >= point then 1 else 0
  }

  lemma {:induction false} AtLeastSnoc(s: string, c: char, point: int)
    ensures AtLeast(s + [c], point) == AtLeast(s, point) + if c as int >= point then 1 else 0
  {
    if s == [] {
    } else {
      assert (s + [c])[1..] == s[1..] + [c];
      AtLeastSnoc(s[1..], c, point);
    }
  }

  /** A text takes one byte for each character, and one more for each that passes one of the bounds of UTF-8. */
  lemma {:induction false} SizeByBounds(s: string)
    ensures Size(s) == |s| + AtLeast(s, 0x80) + AtLeast(s, 0x800) + AtLeast(s, 0x10000)
  {
    if s == [] {
    } else {
      var init, c := s[..|s| - 1], s[|s| - 1];
      SizeByBounds(init);
      assert s == init + [c];
      AtLeastSnoc(init, c, 0x80);
      AtLeastSnoc(init, c, 0x800);
      AtLeastSnoc(init, c, 0x10000);
    }
  }

  // ---- Counting is maximal -----------------------------------------------------------------------

  predicate OccursAt(s: string, p: string, i: nat) {
    i + |p| <= |s| && s[i..i + |p|] == p
  }

  lemma OccursInSuffix(s: string, p: string, k: nat, i: nat)
    requires k <= i && OccursAt(s, p, i)
    ensures OccursAt(s[k..], p, i - k) && s[k..][i - k + |p|..] == s[i + |p|..]
  {
    assert s[k..][i - k..i - k + |p|] == s[i..i + |p|];
  }

  lemma CountUnfolds(s: string, p: string)
    requires p != [] && |p| <= |s|
    ensures Count(s, p) == if OccursAt(s, p, 0) then 1 + Count(s[|p|..], p) else Count(s[1..], p)
  {
    assert s[0..|p|] == s[..|p|];
  }

  lemma DropTwice(s: string, i: nat, j: nat)
    requires i + j <= |s|
    ensures s[i..][j..] == s[i + j..]
  {
  }

  lemma CountShort(s: string, p: string)
    requires p != [] && |s| < |p|
    ensures Count(s, p) == 0
  {
  }

  /** A suffix has no more occurrences, and dropping at most one occurrence's length loses at most one. */
  lemma {:induction false} CountSuffix(s: string, p: string, k: nat)
    requires p != [] && k <= |s|
    ensures Count(s, p) >= Count(s[k..], p)
    decreases |s|, 1
  {
    hide Count, OccursAt;
    if k == 0 {
      assert s[0..] == s;
    } else if |s| < |p| {
      CountShort(s, p);
      CountShort(s[k..], p);
    } else {
      CountUnfolds(s, p);
      if !OccursAt(s, p, 0) {
        CountSuffix(s[1..], p, k - 1);
        DropTwice(s, 1, k - 1);
      } else if k >= |p| {
        CountSuffix(s[|p|..], p, k - |p|);
        DropTwice(s, |p|, k - |p|);
      } else {
        CountDrop(s[k..], p, |p| - k);
        DropTwice(s, k, |p| - k);
      }
    }
  }

  lemma {:induction false} CountDrop(t: string, p: string, j: nat)
    requires p != [] && j <= |p| && j <= |t|
    ensures Count(t, p) <= 1 + Count(t[j..], p)
    decreases |t|, 0
  {
    hide Count, OccursAt;
    if j == 0 {
      assert t[0..] == t;
    } else if |t| < |p| {
      CountShort(t, p);
    } else {
      CountUnfolds(t, p);
      if OccursAt(t, p, 0) {
        CountSuffix(t[j..], p, |p| - j);
        DropTwice(t, j, |p| - j);
      } else {
        CountDrop(t[1..], p, j - 1);
        DropTwice(t, 1, j - 1);
      }
    }
  }

  /** One more than what follows the occurrence at `a`. */
  ghost predicate Counts(s: string, p: string, a: nat)
    requires p != [] && a + |p| <= |s|
  {
    Count(s, p) >= 1 + Count(s[a + |p|..], p)
  }

  lemma CountsAfter(s: string, p: string, k: nat, a: nat)
    requires p != [] && k <= a && a + |p| <= |s| && Counts(s[k..], p, a - k)
    requires Count(s, p) >= Count(s[k..], p)
    ensures Counts(s, p, a)
  {
    hide Count;
    DropTwice(s, k, a - k + |p|);
  }

  lemma CountsOverlapped(s: string, p: string, a: nat)
    requires p != [] && 0 < a < |p| && a + |p| <= |s| && OccursAt(s, p, 0)
    ensures Counts(s, p, a)
  {
    hide Count, OccursAt;
    CountUnfolds(s, p);
    CountSuffix(s[|p|..], p, a);
    DropTwice(s, |p|, a);
  }

  /** Every occurrence, wherever it is, can be counted together with all that follow it. */
  lemma {:induction false} CountFrom(s: string, p: string, a: nat)
    requires p != [] && OccursAt(s, p, a)
    ensures Counts(s, p, a)
    decreases |s|
  {
    assert a + |p| <= |s|;
    hide Count, OccursAt, Counts;
    if a == 0 {
      CountsFirst(s, p);
    } else if !OccursAt(s, p, 0) {
      OccursInSuffix(s, p, 1, a);
      CountFrom(s[1..], p, a - 1);
      CountSuffix(s, p, 1);
      CountsAfter(s, p, 1, a);
    } else if a >= |p| {
      OccursInSuffix(s, p, |p|, a);
      CountFrom(s[|p|..], p, a - |p|);
      CountSuffix(s, p, |p|);
      CountsAfter(s, p, |p|, a);
    } else {
      CountsOverlapped(s, p, a);
    }
  }

  lemma CountsFirst(s: string, p: string)
    requires p != [] && OccursAt(s, p, 0)
    ensures Counts(s, p, 0)
  {
    assert |p| <= |s|;
    hide Count, OccursAt;
    CountUnfolds(s, p);
  }

  /** Occurrences from `from` on that do not overlap, left to right. */
  ghost predicate Disjoint(s: string, p: string, at: seq<nat>, from: nat) {
    && (forall i :: 0 <= i < |at| ==> OccursAt(s, p, at[i]) && at[i] >= from)
    && forall i, j :: 0 <= i < j < |at| ==> at[i] + |p| <= at[j]
  }

  /** Counting leftmost occurrences finds as many as any choice of occurrences that do not overlap. */
  lemma {:induction false} CountIsMaximal(s: string, p: string, at: seq<nat>, from: nat)
    requires p != [] && from <= |s| && Disjoint(s, p, at, from)
    ensures Count(s[from..], p) >= |at|
    decreases |at|
  {
    if at == [] {
    } else {
      var a := at[0];
      forall i | 0 <= i < |at[1..]| ensures OccursAt(s, p, at[1..][i]) && at[1..][i] >= a + |p| {
        assert at[1..][i] == at[i + 1];
      }
      CountIsMaximal(s, p, at[1..], a + |p|);
      OccursInSuffix(s, p, from, a);
      CountFrom(s[from..], p, a - from);
    }
  }

  /** The count is zero exactly when the text occurs nowhere. */
  lemma {:induction false} CountZero(s: string, p: string)
    requires p != []
    ensures Count(s, p) == 0 <==> forall i: nat :: !OccursAt(s, p, i)
  {
    if i: nat :| OccursAt(s, p, i) {
      CountFrom(s, p, i);
    }
    if Count(s, p) > 0 {
      FirstOccurrence(s, p);
    }
  }

  lemma {:induction false} FirstOccurrence(s: string, p: string)
    requires p != [] && Count(s, p) > 0
    ensures exists i: nat :: OccursAt(s, p, i)
  {
    if s[..|p|] == p {
      assert OccursAt(s, p, 0);
    } else {
      FirstOccurrence(s[1..], p);
      var i: nat :| OccursAt(s[1..], p, i);
      assert s[1..][i..i + |p|] == s[i + 1..i + 1 + |p|];
      assert OccursAt(s, p, i + 1);
    }
  }

  // ---- What replacing leaves ---------------------------------------------------------------------

  /** Pieces put together with `p` between them. */
  function Join(pieces: seq<string>, p: string): string
    requires pieces != []
  {
    if |pieces| == 1 then pieces[0] else pieces[0] + p + Join(pieces[1..], p)
  }

  /** The text around its occurrences. */
  function Split(s: string, p: string): (r: seq<string>)
    requires p != []
    ensures r != []
  {
    if |s| < |p| then [s]
    else if s[..|p|] == p then [""] + Split(s[|p|..], p)
    else
      var rest := Split(s[1..], p);
      rest[0 := [s[0]] + rest[0]]
  }

  lemma JoinCons(c: char, pieces: seq<string>, p: string)
    requires pieces != []
    ensures Join(pieces[0 := [c] + pieces[0]], p) == [c] + Join(pieces, p)
  {
    if |pieces| > 1 {
      assert pieces[0 := [c] + pieces[0]][1..] == pieces[1..];
      assert [c] + pieces[0] + p + Join(pieces[1..], p) == [c] + (pieces[0] + p + Join(pieces[1..], p));
    }
  }

  lemma JoinEmpty(pieces: seq<string>, p: string)
    requires pieces != []
    ensures Join([""] + pieces, p) == p + Join(pieces, p)
  {
    assert ([""] + pieces)[1..] == pieces;
    assert "" + p == p;
  }

  lemma {:induction false} SplitParts(s: string, p: string)
    requires p != []
    ensures |Split(s, p)| == Count(s, p) + 1
    ensures Join(Split(s, p), p) == s
  {
    hide Join;
    if |s| < |p| {
      JoinOne(s, p);
    } else if s[..|p|] == p {
      SplitParts(s[|p|..], p);
      JoinEmpty(Split(s[|p|..], p), p);
      assert s == p + s[|p|..];
    } else {
      SplitParts(s[1..], p);
      JoinCons(s[0], Split(s[1..], p), p);
      assert s == [s[0]] + s[1..];
    }
  }

  ghost predicate Nowhere(s: string, p: string) {
    forall k: nat :: !OccursAt(s, p, k)
  }

  /** In the piece with the cut behind it the text occurs only where it was cut. */
  ghost predicate OnlyAtCut(piece: string, p: string) {
    forall k: nat :: OccursAt(piece + p, p, k) ==> k == |piece|
  }

  /** The text is cut at its leftmost occurrences: none begins inside a piece, not even one that ends in the next cut. */
  lemma {:induction false} SplitIsLeftmost(s: string, p: string)
    requires p != []
    ensures var r := Split(s, p);
            (forall i :: 0 <= i < |r| - 1 ==> OnlyAtCut(r[i], p)) && Nowhere(r[|r| - 1], p)
  {
    if |s| < |p| {
    } else if s[..|p|] == p {
      SplitIsLeftmost(s[|p|..], p);
      assert "" + p == p && OnlyAtCut("", p);
    } else {
      hide Join;
      SplitIsLeftmost(s[1..], p);
      SplitParts(s[1..], p);
      HeadIsPrefix(Split(s[1..], p), p);
      PieceGrows(s, Split(s[1..], p)[0], p);
      if |Split(s[1..], p)| == 1 {
        JoinOne(Split(s[1..], p)[0], p);
      }
    }
  }

  /** One character more in front of a piece, where the text does not begin. */
  lemma PieceGrows(s: string, piece: string, p: string)
    requires p != [] && |s| >= |p| && s[..|p|] != p
    ensures piece + p <= s[1..] && OnlyAtCut(piece, p) ==> OnlyAtCut([s[0]] + piece, p)
    ensures piece == s[1..] && Nowhere(piece, p) ==> Nowhere([s[0]] + piece, p)
  {
    if piece + p <= s[1..] && OnlyAtCut(piece, p) {
      var longer := [s[0]] + piece + p;
      assert longer == [s[0]] + (piece + p) && longer == s[..|longer|];
      forall k: nat | OccursAt(longer, p, k) ensures k == |piece| + 1 {
        assert longer[k..k + |p|] == s[k..k + |p|];
        if k > 0 {
          assert longer[k..k + |p|] == (piece + p)[k - 1..k - 1 + |p|];
          assert OccursAt(piece + p, p, k - 1);
        }
      }
    }
    if piece == s[1..] && Nowhere(piece, p) {
      assert [s[0]] + piece == s;
      forall k: nat ensures !OccursAt(s, p, k) {
        if k > 0 && k + |p| <= |s| {
          assert s[k..k + |p|] == piece[k - 1..k - 1 + |p|];
          assert !OccursAt(piece, p, k - 1);
        }
      }
    }
  }

  lemma HeadIsPrefix(pieces: seq<string>, p: string)
    requires pieces != []
    ensures (if |pieces| == 1 then pieces[0] else pieces[0] + p) <= Join(pieces, p)
  {
  }

  lemma JoinOne(s: string, p: string)
    ensures Join([s], p) == s
  {
  }

  lemma {:induction false} ReplaceAllJoins(s: string, p: string, q: string)
    requires p != []
    ensures Replace(s, p, q, Count(s, p)) == Join(Split(s, p), q)
  {
    hide Join;
    if |s| < |p| {
      JoinOne(s, q);
    } else if s[..|p|] == p {
      ReplaceAllJoins(s[|p|..], p, q);
      JoinEmpty(Split(s[|p|..], p), q);
    } else {
      ReplaceAllJoins(s[1..], p, q);
      JoinCons(s[0], Split(s[1..], p), q);
      assert s == [s[0]] + s[1..];
      ReplaceNothing(s[1..], p, q);
    }
  }

  lemma ReplaceNothing(s: string, p: string, q: string)
    requires p != []
    ensures Replace(s, p, q, 0) == s
  {
  }

  /** After replacing `n` occurrences the new text is found at least `n` times. */
  lemma {:induction false} ReplacedAreFound(s: string, p: string, q: string, n: nat)
    requires p != [] && q != [] && n <= Count(s, p)
    ensures Count(Replace(s, p, q, n), q) >= n
  {
    if n == 0 {
    } else {
      if s[..|p|] == p {
        var rest := Replace(s[|p|..], p, q, n - 1);
        ReplacedAreFound(s[|p|..], p, q, n - 1);
        assert (q + rest)[..|q|] == q && (q + rest)[|q|..] == rest;
      } else {
        var rest := Replace(s[1..], p, q, n);
        ReplacedAreFound(s[1..], p, q, n);
        CountSuffix([s[0]] + rest, q, 1);
        assert ([s[0]] + rest)[1..] == rest;
      }
    }
  }

  // ---- The tool ----------------------------------------------------------------------------------

  datatype Request = Request(oldText: string, newText: string, expected: int, digest: Option<string>)

  datatype PatchError = EmptyOldText | NotPositive | TooLarge | DigestMismatch | WrongCount(found: nat)

  datatype Outcome = Applied | AlreadyApplied | Refused(error: PatchError)

  /** The content of the file after the call, and what is reported. Digests are taken to be injective. */
  function Patched(text: string, r: Request, limit: int): (string, Outcome) {
    if r.oldText == "" then (text, Refused(EmptyOldText))
    else if r.expected <= 0 then (text, Refused(NotPositive))
    else if Size(text) > limit then (text, Refused(TooLarge))
    else if r.digest.Some? && r.digest.value != text then (text, Refused(DigestMismatch))
    else
      var found := Count(text, r.oldText);
      if found == 0 && r.newText != "" && Count(text, r.newText) >= r.expected then (text, AlreadyApplied)
      else if found != r.expected then (text, Refused(WrongCount(found)))
      else (Replace(text, r.oldText, r.newText, r.expected), Applied)
  }

  class BoundedFile {
    const maxReadBytes: int
    var text: string

    constructor (maxReadBytes: int, text: string)
      ensures this.maxReadBytes == maxReadBytes && this.text == text
    {
      this.maxReadBytes, this.text := maxReadBytes, text;
    }

    method ApplyPatch(r: Request) returns (outcome: Outcome)
      modifies this
      ensures (text, outcome) == Patched(old(text), r, maxReadBytes)
      ensures !outcome.Applied? ==> text == old(text)
    {
      if r.oldText == "" {
        return Refused(EmptyOldText);
      }
      if r.expected <= 0 {
        return Refused(NotPositive);
      }
      if Size(text) > maxReadBytes {
        return Refused(TooLarge);
      }
      if r.digest.Some? && text != r.digest.value {
        return Refused(DigestMismatch);
      }
      var occurrences := Count(text, r.oldText);
      if occurrences == 0 && r.newText != "" && Count(text, r.newText) >= r.expected {
        return AlreadyApplied;
      }
      if occurrences != r.expected {
        return Refused(WrongCount(occurrences));
      }
      text := Replace(text, r.oldText, r.newText, r.expected);
      return Applied;
    }
  }

  /** A patch is applied exactly when the text occurs as often as expected; then every occurrence, from left to right, is
      exchanged and nothing else. */
  lemma AppliedExchangesAll(text: string, r: Request, limit: int)
    ensures Patched(text, r, limit).1.Applied? <==>
            && r.oldText != "" && r.expected > 0 && Size(text) <= limit
            && (r.digest.Some? ==> r.digest.value == text)
            && Count(text, r.oldText) == r.expected
    ensures Patched(text, r, limit).1.Applied? ==>
              && text == Join(Split(text, r.oldText), r.oldText)
              && Patched(text, r, limit).0 == Join(Split(text, r.oldText), r.newText)
              && |Split(text, r.oldText)| == r.expected + 1
              && var pieces := Split(text, r.oldText);
                 (forall i :: 0 <= i < |pieces| - 1 ==> OnlyAtCut(pieces[i], r.oldText))
                 && Nowhere(pieces[|pieces| - 1], r.oldText)
  {
    if r.oldText != "" {
      SplitIsLeftmost(text, r.oldText);
      SplitParts(text, r.oldText);
      ReplaceAllJoins(text, r.oldText, r.newText);
    }
  }

  /** Every outcome that leaves the file alone: what is refused, in the order of the checks, and what counts as applied
      before. */
  lemma OthersKeepTheFile(text: string, r: Request, limit: int)
    requires !Patched(text, r, limit).1.Applied?
    ensures Patched(text, r, limit).0 == text
    ensures var outcome := Patched(text, r, limit).1;
            if r.oldText == "" then outcome == Refused(EmptyOldText)
            else if r.expected <= 0 then outcome == Refused(NotPositive)
            else if Size(text) > limit then outcome == Refused(TooLarge)
            else if r.digest.Some? && r.digest.value != text then outcome == Refused(DigestMismatch)
            else if Nowhere(text, r.oldText) && r.newText != "" && Count(text, r.newText) >= r.expected then
              outcome == AlreadyApplied
            else outcome == Refused(WrongCount(Count(text, r.oldText)))
  {
    if r.oldText != "" {
      CountZero(text, r.oldText);
    }
  }

  /** Applying an applied patch again reports that it is there already, and leaves the file alone, if and
      only if it inserts something, the old text is gone, the file has not outgrown the size limit, and
      no digest of other content is demanded. */
  lemma SecondApplication(text: string, r: Request, limit: int)
    requires Patched(text, r, limit).1.Applied?
    ensures var patched := Patched(text, r, limit).0;
            (Patched(patched, r, limit) == (patched, AlreadyApplied))
            <==>
            && r.newText != ""
            && (forall i: nat :: !OccursAt(patched, r.oldText, i))
            && Size(patched) <= limit
            && (r.digest.Some? ==> r.digest.value == patched)
  {
    var patched := Patched(text, r, limit).0;
    CountZero(patched, r.oldText);
    if r.newText != "" {
      ReplacedAreFound(text, r.oldText, r.newText, r.expected);
    }
  }

  /** The size limit is checked before the patch, not after: a patch may make its file too large to be
      patched again. */
  lemma PatchCanOutgrowLimit()
    ensures var r := Request("a", "bb", 1, None);
            && Patched("a", r, 1) == ("bb", Applied)
            && Patched("bb", r, 1) == ("bb", Refused(TooLarge))
  {
    var r := Request("a", "bb", 1, None);
    var t, s := "a", "bb";
    assert t[..1] == "a" && t[1..] == "" && |t| == 1;
    assert Count(t[1..], "a") == 0;
    assert Count(t, "a") == 1;
    assert Replace(t, "a", s, 1) == s + Replace(t[1..], "a", s, 0) == s;
    assert s[..1] == "b" && s[1..] == "b";
    assert Size("") == 0 && Size(t) == 1 && Size("b") == 1;
    assert Size(s) == 2;
    assert Patched(t, r, 1) == (s, Applied);
  }
}
