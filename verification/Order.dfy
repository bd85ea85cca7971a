/** Total orders, and sorting a finite set by one. */
module Order {

  function Max(a: int, b: int): int {
    if a < b then b else a
  }

  function Min(a: int, b: int): int {
    if a < b then a else b
  }

  ghost predicate TotalOrder<T(!new)>(le: (T, T) -> bool) {
    && (forall a, b :: le(a, b) || le(b, a))
    && (forall a, b :: le(a, b) && le(b, a) ==> a == b)
    && (forall a, b, c :: le(a, b) && le(b, c) ==> le(a, c))
  }

  /** Strictly increasing: ordered, and no element twice. */
  ghost predicate Ascending<T(!new)>(le: (T, T) -> bool, s: seq<T>) {
    forall i, j :: 0 <= i < j < |s| ==> le(s[i], s[j]) && s[i] != s[j]
  }

  function Elements<T>(s: seq<T>): (r: set<T>) {
    set x | x in s
  }

  lemma Compare<T(!new)>(le: (T, T) -> bool, a: T, b: T)
    requires TotalOrder(le)
    ensures le(a, b) || le(b, a)
  {
  }

  lemma Chain<T(!new)>(le: (T, T) -> bool, a: T, b: T, c: T)
    requires TotalOrder(le) && le(a, b) && le(b, c)
    ensures le(a, c)
  {
  }

  ghost predicate IsLeast<T>(le: (T, T) -> bool, s: set<T>, m: T) {
    m in s && forall x :: x in s ==> le(m, x)
  }

  lemma MinExists<T(!new)>(le: (T, T) -> bool, s: set<T>)
    requires TotalOrder(le) && s != {}
    ensures exists m :: IsLeast(le, s, m)
    decreases s
  {
    hide TotalOrder;
    var a :| a in s;
    Compare(le, a, a);
    var rest := s - {a};
    if rest == {} {
      assert s == {a};
      assert IsLeast(le, s, a);
    } else {
      MinExists(le, rest);
      var b :| IsLeast(le, rest, b);
      Compare(le, a, b);
      if le(a, b) {
        forall x | x in s ensures le(a, x) {
          if x != a { Chain(le, a, b, x); }
        }
        assert IsLeast(le, s, a);
      } else {
        assert IsLeast(le, s, b);
      }
    }
  }

  function MinBy<T(!new)>(le: (T, T) -> bool, s: set<T>): (m: T)
    requires TotalOrder(le) && s != {}
    ensures m in s && forall x :: x in s ==> le(m, x)
  {
    MinExists(le, s);
    assert exists m :: m in s && forall x | x in s :: le(m, x) by {
      var m :| IsLeast(le, s, m);
    }
    var m :| m in s && forall x | x in s :: le(m, x);
    m
  }

  /** The elements of `s` in ascending order. */
  function SortBy<T(!new)>(le: (T, T) -> bool, s: set<T>): (r: seq<T>)
    requires TotalOrder(le)
    ensures Ascending(le, r) && Elements(r) == s
    decreases s
  {
    if s == {} then
      []
    else
      var m := MinBy(le, s);
      var rest := SortBy(le, s - {m});
      assert forall i :: 0 <= i < |rest| ==> rest[i] in Elements(rest);
      assert Elements([m] + rest) == {m} + Elements(rest);
      [m] + rest
  }

  lemma TailElements<T(!new)>(le: (T, T) -> bool, a: seq<T>)
    requires Ascending(le, a) && |a| > 0
    ensures Elements(a[1..]) == Elements(a) - {a[0]}
    ensures Ascending(le, a[1..])
  {
    forall x | x in Elements(a) - {a[0]} ensures x in Elements(a[1..]) {
      var i :| 0 <= i < |a| && a[i] == x;
      assert a[1..][i - 1] == x;
    }
  }

  lemma AscendingLength<T(!new)>(le: (T, T) -> bool, a: seq<T>)
    requires Ascending(le, a)
    ensures |a| == |Elements(a)|
    decreases |a|
  {
    if |a| == 0 {
    } else {
      TailElements(le, a);
      AscendingLength(le, a[1..]);
    }
  }

  // ---- Sequences compared element by element -----------------------------------------------------

  ghost predicate StrictOrder<T(!new)>(less: (T, T) -> bool) {
    && (forall a, b :: less(a, b) || less(b, a) || a == b)
    && (forall a, b :: less(a, b) ==> !less(b, a) && a != b)
    && (forall a, b, c :: less(a, b) && less(b, c) ==> less(a, c))
  }

  predicate LexBy<T(==)>(less: (T, T) -> bool, a: seq<T>, b: seq<T>) {
    a == [] || (b != [] && (less(a[0], b[0]) || (a[0] == b[0] && LexBy(less, a[1..], b[1..]))))
  }

  lemma {:induction false} LexByTotal<T(!new)>(less: (T, T) -> bool, a: seq<T>, b: seq<T>)
    requires StrictOrder(less)
    ensures LexBy(less, a, b) || LexBy(less, b, a)
    ensures LexBy(less, a, b) && LexBy(less, b, a) ==> a == b
    decreases |a|
  {
    if a == [] || b == [] {
    } else if a[0] == b[0] {
      LexByTotal(less, a[1..], b[1..]);
      assert a == [a[0]] + a[1..] && b == [b[0]] + b[1..];
    } else {
      assert less(a[0], b[0]) || less(b[0], a[0]);
    }
  }

  /** Strictly before means smaller at the first place where the two differ. */
  lemma {:induction false} FirstDifferenceDecides<T(!new)>(less: (T, T) -> bool, a: seq<T>, b: seq<T>)
    requires StrictOrder(less) && |a| == |b|
    ensures LexBy(less, a, b) && a != b <==> exists i :: 0 <= i < |a| && less(a[i], b[i]) && a[..i] == b[..i]
  {
    if a == [] {
    } else if a[0] == b[0] {
      var s, t := a[1..], b[1..];
      FirstDifferenceDecides(less, s, t);
      assert a == [a[0]] + s && b == [b[0]] + t;
      if i :| 0 <= i < |s| && less(s[i], t[i]) && s[..i] == t[..i] {
        assert a[..i + 1] == [a[0]] + s[..i] && b[..i + 1] == [b[0]] + t[..i];
        assert less(a[i + 1], b[i + 1]);
      }
      if i :| 0 <= i < |a| && less(a[i], b[i]) && a[..i] == b[..i] {
        assert i > 0 && s[..i - 1] == a[1..i] && t[..i - 1] == b[1..i];
        assert a[1..i] == a[..i][1..] && b[1..i] == b[..i][1..];
        assert less(s[i - 1], t[i - 1]);
      }
    } else if less(a[0], b[0]) {
      assert a[..0] == b[..0];
    } else {
      forall i | 0 <= i < |a| && less(a[i], b[i]) ensures a[..i] != b[..i] {
        assert i > 0 ==> a[..i][0] != b[..i][0];
      }
    }
  }

  lemma {:induction false} LexByTransitive<T(!new)>(less: (T, T) -> bool, a: seq<T>, b: seq<T>, c: seq<T>)
    requires StrictOrder(less) && LexBy(less, a, b) && LexBy(less, b, c)
    ensures LexBy(less, a, c)
    decreases |a|
  {
    if a == [] {
    } else if a[0] == b[0] && b[0] == c[0] {
      LexByTransitive(less, a[1..], b[1..], c[1..]);
    }
  }
}
