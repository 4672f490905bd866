/** The result screen's photo strip: the photos in list order, each shown
    with the CSS class of the filter it was taken under, arranged as a 2x3
    grid for six-photo sessions and as a vertical strip otherwise. */
module Strip {
  import Filters
  import opened Capture

  datatype Layout = Vertical | Grid

  /** One `<img>` of the strip: its source and its filter class. */
  datatype Cell = Cell(src: Image, cssClass: string)

  /** The strip as rendered, without the date caption. */
  datatype Composition = Composition(layout: Layout, cells: seq<Cell>)

  function CellOf(p: Photo): Cell {
    Cell(p.src, Filters.FilterClass(p.filter))
  }

  /** `photos.map(...)`: the cells of the strip, one per photo. */
  function Cells(photos: seq<Photo>): (cells: seq<Cell>)
    ensures |cells| == |photos|
    ensures forall i :: 0 <= i < |photos| ==> cells[i] == CellOf(photos[i])
  {
    if photos == [] then [] else [CellOf(photos[0])] + Cells(photos[1..])
  }

  /** The strip for the photo list and the photo count chosen: the grid is
      used exactly when six photos were asked for, and either way the cells
      follow the list order, with no photo added, dropped or re-encoded. */
  function Compose(photos: seq<Photo>, count: int): (c: Composition)
    ensures c.layout == Grid <==> count == 6
    ensures |c.cells| == |photos|
    ensures forall i :: 0 <= i < |photos| ==>
              c.cells[i].src == photos[i].src && c.cells[i].cssClass == Filters.FilterClass(photos[i].filter)
  {
    Composition(if count == 6 then Grid else Vertical, Cells(photos))
  }
}
