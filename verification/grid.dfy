/** The spatial grid's resolution: the cell-count heuristic run by the first
    constructor and the total cell count computed when the buffers are sized. */
module Grid {
  import opened Geometry

  /** C's `ceil` on the reals: the least integer not below `x`. */
  function Ceil(x: real): (r: int)
    ensures r as real - 1.0 < x <= r as real
  {
    -((-x).Floor)
  }

  /** C's `static_cast<int>` of a floating-point value: truncation toward zero. */
  function Trunc(x: real): (r: int)
    ensures 0.0 <= x ==> 0 <= r && r as real <= x < r as real + 1.0
    ensures x < 0.0 ==> r <= 0 && r as real - 1.0 < x <= r as real
  {
    if 0.0 <= x then x.Floor else -((-x).Floor)
  }

  /** Cells along one axis: the extent measured in particle radii, divided by
      the target particles per cell on that axis, rounded up. */
  function CellCount(extent: real, radius: real, subDiv: real): (r: int)
    requires radius != 0.0 && subDiv != 0.0
    ensures r as real - 1.0 < (extent / radius) / subDiv <= r as real
    ensures 0.0 < extent && 0.0 < radius && 0.0 < subDiv ==> 1 <= r
  {
    Ceil((extent / radius) / subDiv)
  }

  /** `findIdealParticleCount`: the per-axis cell counts for a box, a particle
      radius and the per-axis targets `perCell`, returned as a float vector. */
  function FindIdealParticleCount(bounds: AABB, radius: real, perCell: Vec3): (cells: Vec3)
    requires radius != 0.0 && perCell.x != 0.0 && perCell.y != 0.0 && perCell.z != 0.0
    ensures Whole(cells.x) && Whole(cells.y) && Whole(cells.z)
    ensures cells.x - 1.0 < (bounds.Width() / radius) / perCell.x <= cells.x
    ensures cells.y - 1.0 < (bounds.Height() / radius) / perCell.y <= cells.y
    ensures cells.z - 1.0 < (bounds.Depth() / radius) / perCell.z <= cells.z
    ensures 0.0 < radius && 0.0 < perCell.x && 0.0 < perCell.y && 0.0 < perCell.z
            && 0.0 < bounds.Width() && 0.0 < bounds.Height() && 0.0 < bounds.Depth() ==>
              1.0 <= cells.x && 1.0 <= cells.y && 1.0 <= cells.z
  {
    Vec3(CellCount(bounds.Width(), radius, perCell.x) as real,
         CellCount(bounds.Height(), radius, perCell.y) as real,
         CellCount(bounds.Depth(), radius, perCell.z) as real)
  }

  /** The real has no fractional part. */
  predicate Whole(x: real) {
    x.Floor as real == x
  }

  /** `numCells`: the product of the per-axis counts, each truncated to int. */
  function NumCells(cellsPerAxis: Vec3): (n: int)
    ensures 1.0 <= cellsPerAxis.x && 1.0 <= cellsPerAxis.y && 1.0 <= cellsPerAxis.z ==> 1 <= n
    ensures 1.0 <= cellsPerAxis.x && 1.0 <= cellsPerAxis.y && 1.0 <= cellsPerAxis.z ==>
              Trunc(cellsPerAxis.x) <= n && Trunc(cellsPerAxis.y) <= n && Trunc(cellsPerAxis.z) <= n
  {
    var a, b, c := Trunc(cellsPerAxis.x), Trunc(cellsPerAxis.y), Trunc(cellsPerAxis.z);
    ProductCoversFactors(a, b, c);
    a * b * c
  }

  /** A product of three integers none below 1 is at least each of them. */
  lemma ProductCoversFactors(a: int, b: int, c: int)
    ensures 1 <= a && 1 <= b && 1 <= c ==> a <= a * b * c && b <= a * b * c && c <= a * b * c
  {
    if 1 <= a && 1 <= b && 1 <= c {
      ProductCoversPair(a, b);
      ProductCoversPair(a * b, c);
    }
  }

  lemma ProductCoversPair(a: int, b: int)
    requires 1 <= a && 1 <= b
    ensures a <= a * b && b <= a * b
  {
    assert a * b - a == a * (b - 1);
    assert a * b - b == (a - 1) * b;
  }

  lemma TruncOfInt(i: int)
    ensures Trunc(i as real) == i
  {
  }

  /** For a box with positive extents, a positive radius and positive targets,
      the heuristic gives every axis at least one cell, and the total cell
      count is exactly the product of the three per-axis counts. */
  lemma IdealGridHasCells(bounds: AABB, radius: real, perCell: Vec3)
    requires 0.0 < radius && 0.0 < perCell.x && 0.0 < perCell.y && 0.0 < perCell.z
    requires 0.0 < bounds.Width() && 0.0 < bounds.Height() && 0.0 < bounds.Depth()
    ensures var cells := FindIdealParticleCount(bounds, radius, perCell);
      && NumCells(cells) == CellCount(bounds.Width(), radius, perCell.x)
                          * CellCount(bounds.Height(), radius, perCell.y)
                          * CellCount(bounds.Depth(), radius, perCell.z)
      && 1 <= NumCells(cells)
  {
    var cells := FindIdealParticleCount(bounds, radius, perCell);
    TruncOfInt(CellCount(bounds.Width(), radius, perCell.x));
    TruncOfInt(CellCount(bounds.Height(), radius, perCell.y));
    TruncOfInt(CellCount(bounds.Depth(), radius, perCell.z));
  }
}
