/** SQL conditions over nullable columns: three-valued logic, with None for NULL. */
module Sql {
  import opened Basics

  datatype Truth = Yes | No | Null

  function Of(b: bool): Truth {
    if b then Yes else No
  }

  function Not(a: Truth): Truth {
    match a
    case Yes => No
    case No => Yes
    case Null => Null
  }

  /** AND over a list. */
  function All(conditions: seq<Truth>): Truth {
    if No in conditions then No else if Null in conditions then Null else Yes
  }

  /** OR over a list. */
  function Any(conditions: seq<Truth>): Truth {
    if Yes in conditions then Yes else if Null in conditions then Null else No
  }

  function Eq<T(==)>(a: Option<T>, b: Option<T>): Truth {
    if a.None? || b.None? then Null else Of(a.value == b.value)
  }

  function Ne<T(==)>(a: Option<T>, b: Option<T>): Truth {
    Not(Eq(a, b))
  }

  function Lt(a: Option<int>, b: Option<int>): Truth {
    if a.None? || b.None? then Null else Of(a.value < b.value)
  }

  function Le(a: Option<int>, b: Option<int>): Truth {
    if a.None? || b.None? then Null else Of(a.value <= b.value)
  }

  function IsNull<T(==)>(a: Option<T>): Truth {
    Of(a.None?)
  }

  /** IS NOT, or IS DISTINCT FROM. */
  function Distinct<T(==)>(a: T, b: T): Truth {
    Of(a != b)
  }

  /** A CASE WHEN, a WHEN or a WHERE takes the row only when the condition is true. */
  predicate Holds(condition: Truth) {
    condition.Yes?
  }

  /** A CHECK passes unless the condition is false. */
  predicate Passes(condition: Truth) {
    !condition.No?
  }

  ghost predicate IsMin(values: set<int>, m: int) {
    m in values && forall x :: x in values ==> m <= x
  }

  ghost predicate IsMax(values: set<int>, m: int) {
    m in values && forall x :: x in values ==> x <= m
  }

  /** min(column) over rows with these values, NULL over no rows. */
  ghost function Min(values: set<int>): Option<int> {
    if exists m :: IsMin(values, m) then
      var m :| IsMin(values, m);
      Some(m)
    else None
  }

  /** max(column) over rows with these values, NULL over no rows. */
  ghost function Max(values: set<int>): Option<int> {
    if exists m :: IsMax(values, m) then
      var m :| IsMax(values, m);
      Some(m)
    else None
  }

  lemma MinAndMaxExist(values: set<int>, one: int)
    requires one in values
    ensures Min(values).Some? && IsMin(values, Min(values).value)
    ensures Max(values).Some? && IsMax(values, Max(values).value)
  {
    LeastBelow(values, one);
    GreatestAbove(values, one);
  }

  lemma {:induction false} LeastBelow(values: set<int>, one: int)
    requires one in values
    ensures exists m :: IsMin(values, m)
    decreases |set x | x in values && x < one|
  {
    if x :| x in values && x < one {
      var below, rest := set v | v in values && v < one, set v | v in values && v < x;
      assert x in below - rest && rest <= below;
      SubsetIsSmaller(rest, below - {x});
      LeastBelow(values, x);
    } else {
      assert IsMin(values, one);
    }
  }

  lemma {:induction false} GreatestAbove(values: set<int>, one: int)
    requires one in values
    ensures exists m :: IsMax(values, m)
    decreases |set x | x in values && x > one|
  {
    if x :| x in values && x > one {
      var above, rest := set v | v in values && v > one, set v | v in values && v > x;
      assert x in above - rest && rest <= above;
      SubsetIsSmaller(rest, above - {x});
      GreatestAbove(values, x);
    } else {
      assert IsMax(values, one);
    }
  }
}
