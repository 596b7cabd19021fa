/** The repository records handed to the canvas and the initial 5-column
    grid they are placed on after a successful fetch. */
module GridLayout {
  import opened Geometry

  /** A repository record as fetched (the fields the cards display). */
  datatype Repo = Repo(id: int, name: string, description: string, stars: int, language: string)

  /** A fetched record together with the position the layout gives it
      (`{ ...repo, position }`). */
  datatype PlacedRepo = PlacedRepo(repo: Repo, position: Point)

  const Columns: nat := 5
  const Left: int := 50
  const Top: int := 50
  const ColumnWidth: int := 300
  const RowHeight: int := 200

  /** Column and row pixel coordinates of the index-th grid cell. */
  function GridX(index: nat): (x: int)
    ensures x in {50, 350, 650, 950, 1250}
  {
    Left + (index % Columns) * ColumnWidth
  }

  function GridY(index: nat): (y: int)
    ensures y >= Top
    ensures index < Columns <==> y == Top
  {
    Top + (index / Columns) * RowHeight
  }

  function GridPosition(index: nat): Point {
    Point(GridX(index) as real, GridY(index) as real)
  }

  /** The grid index shown at pixel (x, y): the inverse of GridX/GridY. */
  function GridIndex(x: int, y: int): int {
    ((y - Top) / RowHeight) * Columns + (x - Left) / ColumnWidth
  }

  /** Each fetched record keeps its place in the list and all of its own
      fields, and the record at index i is put on grid cell i. */
  function Layout(repos: seq<Repo>): (placed: seq<PlacedRepo>)
    ensures |placed| == |repos|
    ensures forall i :: 0 <= i < |repos| ==> placed[i].repo == repos[i]
    ensures forall i :: 0 <= i < |repos| ==> placed[i].position == GridPosition(i)
  {
    seq(|repos|, i requires 0 <= i < |repos| => PlacedRepo(repos[i], GridPosition(i)))
  }

  /** The grid cell determines the index it was computed from. */
  lemma GridIndexInverts(index: nat)
    ensures GridIndex(GridX(index), GridY(index)) == index
  {
  }

  /** Distinct indices are placed on distinct grid cells. */
  lemma GridPositionInjective(i: nat, j: nat)
    requires i != j
    ensures GridPosition(i) != GridPosition(j)
  {
  }

  /** After layout no two cards share a starting position. */
  lemma LayoutPositionsDistinct(repos: seq<Repo>, i: nat, j: nat)
    requires i < |repos| && j < |repos| && i != j
    ensures Layout(repos)[i].position != Layout(repos)[j].position
  {
  }

  /** Seven records fill the first row and the first two cells of the second. */
  lemma SevenReposExample(repos: seq<Repo>)
    requires |repos| == 7
    ensures var placed := Layout(repos);
      && placed[0].position == Point(50.0, 50.0)
      && placed[1].position == Point(350.0, 50.0)
      && placed[2].position == Point(650.0, 50.0)
      && placed[3].position == Point(950.0, 50.0)
      && placed[4].position == Point(1250.0, 50.0)
      && placed[5].position == Point(50.0, 250.0)
      && placed[6].position == Point(350.0, 250.0)
  {
  }
}
