/** The bounded, non-wrapping grid the agents walk on: cells, bounds and the
    Moore neighbourhood (the eight surrounding cells, centre excluded, clipped
    at the edges) from which an agent picks its next cell. */
module Grid {

  /** A cell, as (x, y). */
  type Pos = (int, int)

  predicate InBounds(p: Pos, width: int, height: int) {
    0 <= p.0 < width && 0 <= p.1 < height
  }

  /** p is one of the eight cells touching c (c itself excluded). */
  predicate Adjacent(p: Pos, c: Pos) {
    p != c && -1 <= p.0 - c.0 <= 1 && -1 <= p.1 - c.1 <= 1
  }

  /** The eight cells around c, before clipping. */
  function Around(c: Pos): (r: seq<Pos>)
    ensures forall p :: p in r <==> Adjacent(p, c)
  {
    var (x, y) := c;
    var r := [(x - 1, y - 1), (x - 1, y), (x - 1, y + 1),
              (x, y - 1), (x, y + 1),
              (x + 1, y - 1), (x + 1, y), (x + 1, y + 1)];
    assert forall p :: Adjacent(p, c) ==> p in r by {
      forall p | Adjacent(p, c) ensures p in r {
        var dx, dy := p.0 - x, p.1 - y;
        if dx == -1 {
          if dy == -1 { assert p == r[0]; } else if dy == 0 { assert p == r[1]; } else { assert p == r[2]; }
        } else if dx == 0 {
          if dy == -1 { assert p == r[3]; } else { assert p == r[4]; }
        } else {
          if dy == -1 { assert p == r[5]; } else if dy == 0 { assert p == r[6]; } else { assert p == r[7]; }
        }
      }
    }
    r
  }

  /** The cells of s that lie on the grid, in their order in s. */
  function Clip(s: seq<Pos>, width: int, height: int): (r: seq<Pos>)
    ensures forall p :: p in r <==> p in s && InBounds(p, width, height)
  {
    if s == [] then []
    else
      var rest := Clip(s[1..], width, height);
      assert forall p :: p in s <==> p == s[0] || p in s[1..];
      if InBounds(s[0], width, height) then [s[0]] + rest else rest
  }

  /** The Moore neighbourhood of c on a width x height grid without wrap-around:
      exactly the on-grid cells adjacent to c. */
  function Neighborhood(c: Pos, width: int, height: int): (r: seq<Pos>)
    ensures forall p :: p in r <==> Adjacent(p, c) && InBounds(p, width, height)
  {
    Clip(Around(c), width, height)
  }

  /** On any grid larger than one cell, every on-grid cell has a neighbour, so a
      random move always has somewhere to go. */
  lemma NeighborhoodNonEmpty(c: Pos, width: int, height: int)
    requires InBounds(c, width, height) && (width > 1 || height > 1)
    ensures |Neighborhood(c, width, height)| > 0
  {
    var (x, y) := c;
    var p: Pos;
    if width > 1 {
      p := if x + 1 < width then (x + 1, y) else (x - 1, y);
    } else {
      p := if y + 1 < height then (x, y + 1) else (x, y - 1);
    }
    assert p in Neighborhood(c, width, height);
  }

  /** On a 1 x 1 grid the only cell has no neighbour: the degenerate case that
      is outside the model. */
  lemma SingleCellHasNoNeighbour(c: Pos)
    requires InBounds(c, 1, 1)
    ensures Neighborhood(c, 1, 1) == []
  {
  }
}
