/**
 * The effective weight of each eligible pair of shorts for the chosen shirt:
 * the weight of the first preference row naming that colour, or the default
 * weight when no row does; and the weight vector built over the shorts.
 */
module Weights {
  import opened Closet

  /** The weight a shorts colour gets when the shirt has no row for it. */
  const DefaultWeight: real := 1.0

  /** No preference row names `color`. */
  ghost predicate NoRowFor(rows: seq<WeightedShort>, color: I32) {
    forall i :: 0 <= i < |rows| ==> rows[i].shortColor != color
  }

  /** Row `i` names `color` and no earlier row does. */
  ghost predicate FirstMatchAt(rows: seq<WeightedShort>, color: I32, i: int) {
    && 0 <= i < |rows|
    && rows[i].shortColor == color
    && forall j :: 0 <= j < i ==> rows[j].shortColor != color
  }

  /** The linear search over the preference rows: the first row whose colour is `color`. */
  function FindRow(rows: seq<WeightedShort>, color: I32): (r: Option<WeightedShort>)
    ensures r.None? <==> NoRowFor(rows, color)
    ensures r.Some? ==> exists i :: FirstMatchAt(rows, color, i) && rows[i] == r.value
  {
    if rows == [] then None
    else if rows[0].shortColor == color then
      assert FirstMatchAt(rows, color, 0);
      Some(rows[0])
    else
      var r := FindRow(rows[1..], color);
      assert r.Some? ==> exists i :: FirstMatchAt(rows, color, i) && rows[i] == r.value by {
        if r.Some? {
          var k :| FirstMatchAt(rows[1..], color, k) && rows[1..][k] == r.value;
          assert FirstMatchAt(rows, color, k + 1);
        }
      }
      r
  }

  /**
   * The weighting closure: pairs a shorts colour with its effective weight,
   * the first matching row's weight, else the default.
   */
  function ApplyWeight(rows: seq<WeightedShort>, color: I32): (r: WeightedShort)
    ensures r.shortColor == color
    ensures NoRowFor(rows, color) ==> r.weight == DefaultWeight
    ensures forall i :: FirstMatchAt(rows, color, i) ==> r.weight == rows[i].weight
  {
    var w := match FindRow(rows, color)
      case Some(row) => row.weight
      case None => DefaultWeight;
    WeightedShort(color, w)
  }

  /** The weights handed to the sampler: one per eligible short, in the order of `shorts`. */
  function WeightVector(rows: seq<WeightedShort>, shorts: seq<ClotheColor>): (ws: seq<real>)
    ensures |ws| == |shorts|
    ensures forall i :: 0 <= i < |shorts| ==> ws[i] == ApplyWeight(rows, shorts[i].color).weight
  {
    if shorts == [] then []
    else [ApplyWeight(rows, shorts[0].color).weight] + WeightVector(rows, shorts[1..])
  }

  /** Rows after the first match for a colour never change its weight. */
  lemma {:induction false} LaterRowsIgnored(rows: seq<WeightedShort>, extra: seq<WeightedShort>, color: I32)
    requires !NoRowFor(rows, color)
    ensures ApplyWeight(rows + extra, color) == ApplyWeight(rows, color)
  {
    FindRowIgnoresLaterRows(rows, extra, color);
  }

  lemma {:induction false} FindRowIgnoresLaterRows(rows: seq<WeightedShort>, extra: seq<WeightedShort>, color: I32)
    requires !NoRowFor(rows, color)
    ensures FindRow(rows + extra, color) == FindRow(rows, color)
  {
    assert (rows + extra)[0] == rows[0];
    if rows[0].shortColor != color {
      assert !NoRowFor(rows[1..], color) by {
        var i :| 0 <= i < |rows| && rows[i].shortColor == color;
        assert rows[1..][i - 1].shortColor == color;
      }
      FindRowIgnoresLaterRows(rows[1..], extra, color);
      assert (rows + extra)[1..] == rows[1..] + extra;
    }
  }

  /**
   * The default weight is used for a colour no row names, however many rows
   * there are: a corollary of `ApplyWeight`'s contract, stated on its own.
   */
  lemma UnmatchedColorGetsDefault(rows: seq<WeightedShort>, color: I32)
    requires NoRowFor(rows, color)
    ensures ApplyWeight(rows, color).weight == 1.0
  {
  }

  /**
   * A lookup table keyed by shorts colour in which the first row for a colour
   * wins, the direct-lookup alternative to the linear search.
   */
  function PreferenceMap(rows: seq<WeightedShort>): (m: map<I32, real>)
    ensures forall c :: c in m <==> !NoRowFor(rows, c)
  {
    if rows == [] then map[]
    else
      var m := PreferenceMap(rows[1..]);
      assert forall c :: !NoRowFor(rows, c) <==> c == rows[0].shortColor || !NoRowFor(rows[1..], c) by {
        forall c ensures !NoRowFor(rows, c) <==> c == rows[0].shortColor || !NoRowFor(rows[1..], c) {
          if !NoRowFor(rows, c) && c != rows[0].shortColor {
            var i :| 0 <= i < |rows| && rows[i].shortColor == c;
            assert rows[1..][i - 1].shortColor == c;
          }
        }
      }
      m[rows[0].shortColor := rows[0].weight]
  }

  /** Looking a colour up in the first-wins table gives exactly the weight the linear search gives. */
  lemma {:induction false} MapLookupAgrees(rows: seq<WeightedShort>, color: I32)
    ensures ApplyWeight(rows, color).weight
         == if color in PreferenceMap(rows) then PreferenceMap(rows)[color] else DefaultWeight
  {
    if rows != [] && rows[0].shortColor != color {
      MapLookupAgrees(rows[1..], color);
    }
  }

  /** With no row for any eligible short, every weight is the default one. */
  lemma NoPreferencesAllDefault(rows: seq<WeightedShort>, shorts: seq<ClotheColor>)
    requires forall i :: 0 <= i < |shorts| ==> NoRowFor(rows, shorts[i].color)
    ensures forall i :: 0 <= i < |shorts| ==> WeightVector(rows, shorts)[i] == DefaultWeight
  {
  }
}
