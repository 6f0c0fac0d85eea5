/** Orders and arrangements. `ORDER BY` is modelled by the one sequence that holds
    exactly the selected rows and is strictly sorted by the clause's order. */
module Ordering {

  /** Byte-wise order of text, the collation of the id columns. */
  predicate Less(a: string, b: string) {
    b != "" && (a == "" || a[0] < b[0] || (a[0] == b[0] && Less(a[1..], b[1..])))
  }

  lemma {:induction false} LessIsTotal(a: string, b: string)
    ensures a == b || Less(a, b) || Less(b, a)
  {
    if a != "" && b != "" && a[0] == b[0] {
      LessIsTotal(a[1..], b[1..]);
      assert a == [a[0]] + a[1..] && b == [b[0]] + b[1..];
    }
  }

  lemma {:induction false} LessIsIrreflexive(a: string)
    ensures !Less(a, a)
  {
    if a == "" {
    } else {
      LessIsIrreflexive(a[1..]);
    }
  }

  lemma {:induction false} LessIsTransitive(a: string, b: string, c: string)
    requires Less(a, b) && Less(b, c)
    ensures Less(a, c)
  {
    if a != "" && a[0] == b[0] == c[0] { LessIsTransitive(a[1..], b[1..], c[1..]); }
  }

  /** A proper prefix comes first; otherwise the first difference decides. */
  lemma {:induction false} LessIsLexicographic(a: string, b: string)
    ensures Less(a, b) <==> a < b || exists k | 0 <= k < |a| && k < |b| :: a[..k] == b[..k] && a[k] < b[k]
  {
    if a == "" || b == "" {
    } else if a[0] != b[0] {
      assert a[0] < b[0] ==> a[..0] == b[..0];
    } else {
      LessIsLexicographic(a[1..], b[1..]);
      assert a == [a[0]] + a[1..] && b == [b[0]] + b[1..];
      if k :| 0 <= k < |a| - 1 && k < |b| - 1 && a[1..][..k] == b[1..][..k] && a[1..][k] < b[1..][k] {
        assert a[..k + 1] == [a[0]] + a[1..][..k] && b[..k + 1] == [b[0]] + b[1..][..k];
        assert a[k + 1] < b[k + 1];
      }
      if k :| 0 <= k < |a| && k < |b| && a[..k] == b[..k] && a[k] < b[k] {
        assert a[1..][..k - 1] == a[..k][1..] && b[1..][..k - 1] == b[..k][1..];
        assert a[1..][k - 1] < b[1..][k - 1];
      }
    }
  }

  /** `less` is a strict total order on the elements of `rows`. */
  ghost predicate Orders<T(!new)>(less: (T, T) -> bool, rows: set<T>) {
    && (forall a :: a in rows ==> !less(a, a))
    && (forall a, b :: a in rows && b in rows && a != b ==> less(a, b) || less(b, a))
    && (forall a, b, c :: a in rows && b in rows && c in rows && less(a, b) && less(b, c) ==> less(a, c))
  }

  ghost predicate IsFirst<T>(less: (T, T) -> bool, rows: set<T>, m: T) {
    m in rows && forall x :: x in rows && x != m ==> less(m, x)
  }

  lemma {:induction false} FirstExists<T(!new)>(less: (T, T) -> bool, rows: set<T>) returns (m: T)
    requires Orders(less, rows) && rows != {}
    ensures IsFirst(less, rows, m)
    decreases rows
  {
    var x :| x in rows;
    var rest := rows - {x};
    if rest == {} {
      m := x;
      assert forall y :: y in rows ==> y == x || y in rest;
    } else {
      var n := FirstExists(less, rest);
      m := if less(x, n) then x else n;
      forall y | y in rows && y != m ensures less(m, y) {
        assert y == x || y in rest;
        assert y != n ==> y == x || less(n, y);
      }
    }
  }

  /** The sequence is strictly sorted and holds exactly `rows`. */
  ghost predicate IsArrangement<T(!new)>(out: seq<T>, rows: set<T>, less: (T, T) -> bool) {
    && (forall x :: x in out <==> x in rows)
    && (forall i, j :: 0 <= i < j < |out| ==> less(out[i], out[j]))
  }

  /** The rows in order, first element first. */
  ghost function Arrange<T(!new)>(rows: set<T>, less: (T, T) -> bool): (out: seq<T>)
    requires Orders(less, rows)
    ensures IsArrangement(out, rows, less)
  {
    if rows == {} then [] else
      assert exists m :: IsFirst(less, rows, m) by { var w := FirstExists(less, rows); }
      var m :| IsFirst(less, rows, m);
      var rest := Arrange(rows - {m}, less);
      assert forall x :: x in [m] + rest <==> x == m || x in rest;
      [m] + rest
  }

  lemma SameHead<T(!new)>(a: seq<T>, b: seq<T>, rows: set<T>, less: (T, T) -> bool)
    requires Orders(less, rows) && IsArrangement(a, rows, less) && IsArrangement(b, rows, less)
    requires a != [] && b != []
    ensures a[0] == b[0]
  {
    assert a[0] in rows && b[0] in rows;
    var i :| 0 <= i < |a| && a[i] == b[0];
    var j :| 0 <= j < |b| && b[j] == a[0];
  }

  lemma TailArranges<T(!new)>(a: seq<T>, rows: set<T>, less: (T, T) -> bool)
    requires Orders(less, rows) && IsArrangement(a, rows, less) && a != []
    ensures IsArrangement(a[1..], rows - {a[0]}, less)
    ensures Orders(less, rows - {a[0]})
  {
    var t := a[1..];
    forall x ensures x in t <==> x in rows - {a[0]} {
      if x in rows - {a[0]} {
        var i :| 0 <= i < |a| && a[i] == x;
        assert t[i - 1] == x;
      }
      if x in t {
        var i :| 0 <= i < |t| && t[i] == x;
        assert less(a[0], a[i + 1]) && x in a && a[0] in rows;
      }
    }
  }

  /** An order leaves no choice: any two arrangements of the same rows agree. */
  lemma {:induction false} ArrangementIsUnique<T(!new)>(a: seq<T>, b: seq<T>, rows: set<T>, less: (T, T) -> bool)
    requires Orders(less, rows) && IsArrangement(a, rows, less) && IsArrangement(b, rows, less)
    ensures a == b
    decreases |a|
  {
    assert |b| > 0 ==> b[0] in a;
    if a == [] {
    } else {
      assert a[0] in b;
      SameHead(a, b, rows, less);
      var rest := rows - {a[0]};
      TailArranges(a, rows, less);
      TailArranges(b, rows, less);
      ArrangementIsUnique(a[1..], b[1..], rest, less);
      assert a == [a[0]] + a[1..] && b == [b[0]] + b[1..];
    }
  }

  /** Read backwards, an arrangement is the arrangement by the opposite order. */
  lemma ReversalArranges<T(!new)>(out: seq<T>, reversed: seq<T>, rows: set<T>,
                           less: (T, T) -> bool, more: (T, T) -> bool)
    requires IsArrangement(out, rows, less) && |reversed| == |out|
    requires forall i :: 0 <= i < |out| ==> reversed[i] == out[|out| - 1 - i]
    requires forall a, b :: more(a, b) == less(b, a)
    ensures IsArrangement(reversed, rows, more)
  {
    forall x ensures x in reversed <==> x in out {
      if x in out {
        var i :| 0 <= i < |out| && out[i] == x;
        assert reversed[|out| - 1 - i] == x;
      }
    }
    forall i, j | 0 <= i < j < |reversed| ensures more(reversed[i], reversed[j]) {
      assert less(out[|out| - 1 - j], out[|out| - 1 - i]);
    }
  }

  lemma InsertKeepsArrangement<T(!new)>(out: seq<T>, k: nat, x: T, done: set<T>, rows: set<T>, less: (T, T) -> bool)
    requires Orders(less, rows) && done <= rows && x in rows && x !in done
    requires IsArrangement(out, done, less) && k <= |out|
    requires forall i :: 0 <= i < k ==> less(out[i], x)
    requires k < |out| ==> !less(out[k], x)
    ensures IsArrangement(out[..k] + [x] + out[k..], done + {x}, less)
  {
    var next := out[..k] + [x] + out[k..];
    assert forall y :: y in out <==> y in out[..k] || y in out[k..] by {
      assert out == out[..k] + out[k..];
    }
    forall i | k <= i < |out| ensures less(x, out[i]) {
      assert out[i] in rows && out[k] in rows && less(x, out[k]);
    }
    forall i, j | 0 <= i < j < |next| ensures less(next[i], next[j]) {
      if i != k && j != k {
        var a, b := if i < k then i else i - 1, if j < k then j else j - 1;
        assert next[i] == out[a] && next[j] == out[b];
      }
    }
  }

  /** `SELECT ... ORDER BY`: the engine visits the rows in any order it likes. */
  method Select<T(!new,==)>(rows: set<T>, less: (T, T) -> bool) returns (out: seq<T>)
    requires Orders(less, rows)
    ensures out == Arrange(rows, less)
  {
    out := [];
    var left := rows;
    while left != {}
      invariant left <= rows
      invariant IsArrangement(out, rows - left, less)
    {
      var x :| x in left;
      var k := 0;
      while k < |out| && less(out[k], x)
        invariant 0 <= k <= |out|
        invariant forall i :: 0 <= i < k ==> less(out[i], x)
      {
        k := k + 1;
      }
      InsertKeepsArrangement(out, k, x, rows - left, rows, less);
      out := out[..k] + [x] + out[k..];
      left := left - {x};
      assert rows - left == (rows - left - {x}) + {x};
    }
    assert rows - left == rows;
    ArrangementIsUnique(out, Arrange(rows, less), rows, less);
  }
}
