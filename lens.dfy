/**
 * The lens category shown for a full-frame equivalent focal: a six-way
 * threshold table with boundaries 20, 35, 60, 90 and 300 mm.
 */
module Lens {

  datatype LensType = UltraWide | Wide | Standard | ShortTele | Tele | SuperTele
  {
    /** Position of the category, from the widest (0) to the longest (5). */
    function Rank(): (n: nat)
      ensures n <= 5
    {
      match this
      case UltraWide => 0
      case Wide => 1
      case Standard => 2
      case ShortTele => 3
      case Tele => 4
      case SuperTele => 5
    }

    /** The label shown in the badge. */
    function Label(): (s: string)
      ensures s != []
    {
      match this
      case UltraWide => "Ultra grand-angle"
      case Wide => "Grand-angle"
      case Standard => "Standard"
      case ShortTele => "Petit téléobjectif"
      case Tele => "Téléobjectif"
      case SuperTele => "Super téléobjectif"
    }
  }

  /** Lower bounds of the categories after the first, in increasing order. */
  const Boundaries: seq<int> := [20, 35, 60, 90, 300]

  /**
   * Category of a full-frame equivalent focal (mm). Its rank is the number
   * of boundaries the focal has reached: the threshold table agrees with an
   * independent count over `Boundaries`.
   */
  function Classify(equivalent: int): (t: LensType)
    ensures t.Rank() == CountReached(Boundaries, equivalent)
  {
    BoundariesReached(equivalent);
    if equivalent < 20 then UltraWide
    else if equivalent < 35 then Wide
    else if equivalent < 60 then Standard
    else if equivalent < 90 then ShortTele
    else if equivalent < 300 then Tele
    else SuperTele
  }

  /** Number of boundaries a focal has reached. */
  function CountReached(bounds: seq<int>, equivalent: int): (n: nat)
    ensures n <= |bounds|
  {
    if bounds == [] then 0
    else (if bounds[0] <= equivalent then 1 else 0) + CountReached(bounds[1..], equivalent)
  }

  /** Reaching a larger focal never reaches fewer boundaries. */
  lemma {:induction false} CountReachedMonotone(bounds: seq<int>, e1: int, e2: int)
    requires e1 <= e2
    ensures CountReached(bounds, e1) <= CountReached(bounds, e2)
  {
    if bounds != [] {
      CountReachedMonotone(bounds[1..], e1, e2);
    }
  }

  /** The count over `Boundaries`, one boundary at a time. */
  lemma BoundariesReached(equivalent: int)
    ensures CountReached(Boundaries, equivalent) ==
      (if 20 <= equivalent then 1 else 0) + (if 35 <= equivalent then 1 else 0) +
      (if 60 <= equivalent then 1 else 0) + (if 90 <= equivalent then 1 else 0) +
      (if 300 <= equivalent then 1 else 0)
  {
    var b := Boundaries;
    var e := equivalent;
    assert b[5..] == [];
    assert b[4..] == [300] && b[4..][1..] == b[5..];
    assert CountReached(b[4..], e) == (if 300 <= e then 1 else 0);
    assert b[3..] == [90, 300] && b[3..][1..] == b[4..];
    assert CountReached(b[3..], e) == (if 90 <= e then 1 else 0) + CountReached(b[4..], e);
    assert b[2..] == [60, 90, 300] && b[2..][1..] == b[3..];
    assert CountReached(b[2..], e) == (if 60 <= e then 1 else 0) + CountReached(b[3..], e);
    assert b[1..] == [35, 60, 90, 300] && b[1..][1..] == b[2..];
    assert CountReached(b[1..], e) == (if 35 <= e then 1 else 0) + CountReached(b[2..], e);
    assert CountReached(b, e) == (if 20 <= e then 1 else 0) + CountReached(b[1..], e);
  }

  /** The category never moves back towards the wide end as the focal grows. */
  lemma ClassifyMonotone(e1: int, e2: int)
    requires e1 <= e2
    ensures Classify(e1).Rank() <= Classify(e2).Rank()
  {
    CountReachedMonotone(Boundaries, e1, e2);
  }

  /**
   * Every focal gets exactly one category and each category is reached on
   * one interval: the table in both directions.
   */
  lemma ClassifyIntervals(equivalent: int)
    ensures Classify(equivalent) == UltraWide <==> equivalent < 20
    ensures Classify(equivalent) == Wide <==> 20 <= equivalent < 35
    ensures Classify(equivalent) == Standard <==> 35 <= equivalent < 60
    ensures Classify(equivalent) == ShortTele <==> 60 <= equivalent < 90
    ensures Classify(equivalent) == Tele <==> 90 <= equivalent < 300
    ensures Classify(equivalent) == SuperTele <==> 300 <= equivalent
  {
  }

  /** The six categories have six different labels. */
  lemma LabelsDistinct(t1: LensType, t2: LensType)
    ensures t1.Label() == t2.Label() <==> t1 == t2
  {
  }
}
