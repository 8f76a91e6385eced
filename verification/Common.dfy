/** Vocabulary shared by every module of the project. */
module Common {

  /** A nullable column or an optional value. */
  datatype Option<+T> = None | Some(value: T)

  /** A value or the error the operation reports instead. */
  datatype Outcome<+T, +E> = Ok(value: T) | Err(error: E)

  function Max(a: int, b: int): int { if a < b then b else a }

  function Min(a: int, b: int): int { if a < b then a else b }

  /** Some element of a non-empty set. */
  lemma Pick<T>(s: set<T>) returns (x: T)
    requires s != {}
    ensures x in s
  {
    x :| x in s;
  }

  /** A subset of a finite set has at most as many elements. */
  lemma {:induction false} SubsetSize<T>(a: set<T>, b: set<T>)
    requires a <= b
    ensures |a| <= |b|
    ensures |a| == |b| ==> a == b
  {
    assert b == a + (b - a);
    assert a !! (b - a);
    assert |b| == |a| + |b - a|;
  }

  /** A set covered by two others is no larger than both together. */
  lemma CoverSize<T>(d: set<T>, x: set<T>, y: set<T>)
    requires d <= x + y
    ensures |d| <= |x| + |y|
  {
    SubsetSize(d, x + (y - x));
    assert |x + (y - x)| == |x| + |y - x|;
    SubsetSize(y - x, y);
  }

  /** A set splits into the part outside another and the part inside it. */
  lemma SplitSize<T>(a: set<T>, m: set<T>)
    ensures |a| == |a - m| + |a * m|
  {
    assert a == (a - m) + (a * m);
    assert (a - m) !! (a * m);
  }
}
