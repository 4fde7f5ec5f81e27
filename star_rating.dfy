/** The five-star input: which stars are drawn filled, and the hover and
    click handlers. `value`, `onChange` and `disabled` are the widget's
    props; the model passes them as parameters and returns what `onChange`
    would be called with. */
module StarRatingWidget {
  import opened Base

  /** The star values, left to right. */
  const Stars: seq<int> := [1, 2, 3, 4, 5]

  /** The fill of the five stars when `shown` is the displayed value. */
  function FillFor(shown: int): (r: seq<bool>)
    ensures |r| == |Stars|
    ensures forall k | 0 <= k < |r| :: r[k] <==> shown >= Stars[k]
    ensures forall j, k | 0 <= j < k < |r| :: r[k] ==> r[j]
  {
    seq(|Stars|, k requires 0 <= k < |Stars| => shown >= Stars[k])
  }

  function Clamp(n: int): nat
  {
    if n < 0 then 0 else if n > 5 then 5 else n
  }

  /** The number of filled stars is the displayed value, clamped to 0..5. */
  lemma FilledCount(shown: int)
    ensures Count(FillFor(shown), true) == Clamp(shown)
  {
    var r := FillFor(shown);
    assert r == [shown >= 1, shown >= 2, shown >= 3, shown >= 4, shown >= 5];
    assert r[1..] == [shown >= 2, shown >= 3, shown >= 4, shown >= 5];
    assert r[1..][1..] == [shown >= 3, shown >= 4, shown >= 5];
    assert r[1..][1..][1..] == [shown >= 4, shown >= 5];
    assert r[1..][1..][1..][1..] == [shown >= 5];
    assert r[1..][1..][1..][1..][1..] == [];
    var n5 := if shown >= 5 then 1 else 0;
    var n4 := if shown >= 4 then 1 else 0;
    var n3 := if shown >= 3 then 1 else 0;
    var n2 := if shown >= 2 then 1 else 0;
    var n1 := if shown >= 1 then 1 else 0;
    assert Count(r[1..][1..][1..][1..], true) == n5;
    assert Count(r[1..][1..][1..], true) == n4 + n5;
    assert Count(r[1..][1..], true) == n3 + n4 + n5;
    assert Count(r[1..], true) == n2 + n3 + n4 + n5;
    assert Count(r, true) == n1 + n2 + n3 + n4 + n5;
  }

  class StarRating {
    var hoverValue: Option<int>

    constructor()
      ensures hoverValue.None?
    {
      hoverValue := None;
    }

    /** `hoverValue ?? value`. */
    function Displayed(value: int): int
      reads this
    {
      hoverValue.GetOr(value)
    }

    /** The stars drawn filled: a hovered star and those left of it, or
        otherwise the stars up to `value`. */
    function Filled(value: int): (r: seq<bool>)
      reads this
      ensures hoverValue.Some? ==> r == FillFor(hoverValue.value)
      ensures hoverValue.None? ==> r == FillFor(value)
    {
      FillFor(Displayed(value))
    }

    method MouseEnter(star: int, disabled: bool)
      modifies this
      ensures !disabled ==> hoverValue == Some(star)
      ensures disabled ==> hoverValue == old(hoverValue)
    {
      if !disabled {
        hoverValue := Some(star);
      }
    }

    method MouseLeave(disabled: bool)
      modifies this
      ensures !disabled ==> hoverValue.None?
      ensures disabled ==> hoverValue == old(hoverValue)
    {
      if !disabled {
        hoverValue := None;
      }
    }

    /** A click reports the star's own value; a disabled button gets no
        click. */
    method Click(star: int, disabled: bool) returns (reported: Option<int>)
      ensures !disabled ==> reported == Some(star)
      ensures disabled ==> reported.None?
    {
      if disabled {
        reported := None;
      } else {
        reported := Some(star);
      }
    }
  }

  /** Hovering star `k` fills exactly the first `k` stars, whatever the
      current value. */
  lemma HoverFillsPrefix(s: StarRating, value: int, k: int)
    requires 1 <= k <= 5 && s.hoverValue == Some(k)
    ensures forall j | 0 <= j < |Stars| :: s.Filled(value)[j] <==> j < k
    ensures Count(s.Filled(value), true) == k
  {
    FilledCount(k);
  }
}
