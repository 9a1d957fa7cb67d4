// The pheromone map of pheromone.c: a grid of deposit times, the two disk
// stencils, deposits, the column-major split into sectors for sending, and
// the merge of a received sector.
//
// `time(NULL) / lifetime`, the quantised clock the grid stores, is passed
// in as `stamp`. The grid sizes are computed with `float` division and
// `ceil`/`floor` in the source; they are computed exactly here.

module PheromoneMap {
  import opened General
  import opened Records

  // ---------------------------------------------------------------------
  // Arithmetic
  // ---------------------------------------------------------------------

  /** `ceil((float)a / (float)b)` for a positive b: the least r with a <= r * b. */
  function CeilDiv(a: int, b: int): (r: int)
    requires b > 0
    ensures (r - 1) * b < a <= r * b
  {
    var q := (-a) / b;
    assert -a == q * b + (-a) % b;
    -q
  }

  /** An even count is made odd by adding one. */
  function Odd(n: int): (r: int)
    requires n >= 0
    ensures r % 2 == 1 && (r == n || r == n + 1) && r >= 1
  {
    if n % 2 == 0 then n + 1 else n
  }

  lemma MulLeft(a: int, b: int, c: int)
    requires c > 0
    ensures a <= b <==> a * c <= b * c
  {
    if a <= b {
      assert b * c - a * c == (b - a) * c;
    } else {
      assert a * c - b * c == (a - b) * c;
    }
  }

  /** Cell n of a column-major grid with `rows` cells per column lies at column n / rows, row n % rows. */
  lemma ColumnMajor(i: int, j: int, rows: int)
    requires rows > 0 && 0 <= j < rows
    ensures (i * rows + j) / rows == i && (i * rows + j) % rows == j
  {
    var n := i * rows + j;
    var q := n / rows;
    var r := n % rows;
    assert n == q * rows + r && 0 <= r < rows;
    assert (q - i) * rows == j - r;
    if q - i >= 1 {
      MulLeft(1, q - i, rows);
    } else if q - i <= -1 {
      MulLeft(q - i, -1, rows);
    }
  }

  /** A cell inside a grid of `cols` columns has a column-major number below cols * rows. */
  lemma CellInGrid(i: int, j: int, cols: int, rows: int)
    requires 0 <= i < cols && 0 <= j < rows
    ensures 0 <= i * rows + j < cols * rows
  {
    MulLeft(i + 1, cols, rows);
  }

  /** ceil(a / b) columns of `rows` cells each bracket the a * rows cells the same way. */
  lemma CeilScaled(a: int, b: int, rows: int, c: int)
    requires b > 0 && rows > 0 && (c - 1) * b < a <= c * b
    ensures (c - 1) * (rows * b) < a * rows <= c * (rows * b)
  {
    MulLeft(a, c * b, rows);
    MulLeft(a, (c - 1) * b, rows);
  }

  /** While cells remain, the sector being written is one of the c sectors. */
  lemma CurrentSector(x: int, y: int, size: int, n: int, total: int, c: int)
    requires size > 0 && 0 <= x && 0 <= y < size && n == x * size + y && n < total <= c * size
    ensures x < c
  {
    if x >= c {
      MulLeft(c, x, size);
    }
  }

  /** Once all cells are written, the count of full sectors and the bytes of the last one match the sector count. */
  lemma LastSector(x: int, y: int, size: int, total: int, c: int)
    requires size > 0 && 0 <= x && 0 <= y < size && x * size + y == total
    requires (c - 1) * size < total <= c * size
    ensures x == c || (x + 1 == c && y > 0)
  {
    if x > c {
      MulLeft(c + 1, x, size);
    }
    if x + 1 < c {
      MulLeft(x + 2, c, size);
    }
  }

  // ---------------------------------------------------------------------
  // Stencils
  // ---------------------------------------------------------------------

  /**
   * A stencil as pheromone_make_stencil draws it: a square of 0s and 1s
   * holding a disk centred in the middle cell, which fills the centre
   * row and is symmetric about the centre row and the centre column.
   */
  ghost predicate Disk(s: array2<int>)
    reads s
  {
    var n := s.Length0;
    s.Length1 == n && n % 2 == 1 &&
    (forall i, j :: 0 <= i < n && 0 <= j < n ==> s[i, j] == 0 || s[i, j] == 1) &&
    (forall i, j :: 0 <= i < n && 0 <= j < n && 2 * j == n - 1 ==> s[i, j] == 1) &&
    (forall i, j :: 0 <= i < n && 0 <= j < n && s[i, j] == 1 ==> s[n - 1 - i, j] == 1 && s[i, n - 1 - j] == 1)
  }

  /**
   * pheromone_make_stencil: a size x size array cleared to 0 with
   * general_circle's disk of radius (size - 1) / 2 drawn round its centre
   * cell. The cells set are exactly the ones the circle fill wrote.
   */
  method MakeStencil(size: int) returns (s: array2<int>, ghost steps: seq<(int, int)>)
    requires size >= 1 && size % 2 == 1
    ensures fresh(s) && s.Length0 == size && s.Length1 == size
    ensures forall i, j :: 0 <= i < size && 0 <= j < size ==>
              s[i, j] == if Drawn(i, j, (size - 1) / 2, (size - 1) / 2, steps) then 1 else 0
    ensures Disk(s)
  {
    s := new int[size, size];
    for i := 0 to size
      invariant forall a, b :: 0 <= a < i && 0 <= b < size ==> s[a, b] == 0
    {
      for j := 0 to size
        invariant forall a, b :: 0 <= a < size && 0 <= b < size && (a < i || (a == i && b < j)) ==> s[a, b] == 0
      {
        s[i, j] := 0;
      }
    }
    var c := (size - 1) / 2;
    steps := Circle(s, c, c, c);
    assert 2 * c == size - 1;
  }

  // ---------------------------------------------------------------------
  // The map
  // ---------------------------------------------------------------------

  /** A deposit-time age as pheromone_map_extract stores it in one byte: clamped to [1, 255], with 44 (a comma) sent as 45. */
  function CellByte(t: int): (b: byte)
    ensures 1 <= b <= 255 && b != 44
    ensures 1 <= t <= 255 && t != 44 ==> b == t
    ensures t > 255 ==> b == 255
    ensures t < 1 ==> b == 1
    ensures t == 44 ==> b == 45
  {
    if t > 255 then 255
    else if t < 1 then 1
    else if t == ',' as int then ',' as int + 1
    else t
  }

  function Max(a: int, b: int): (m: int)
    ensures m >= a && m >= b && (m == a || m == b)
  {
    if a < b then b else a
  }

  /** pheromone_t. */
  class Pheromones {
    const grid: array2<int>
    const evalStencil: array2<int>
    const pheromoneStencil: array2<int>
    const width: int
    const xCells: int
    const yCells: int
    const evalCells: int
    const pheromoneCells: int
    const lifetime: int
    const pheromoneRadius: int
    const evalRadius: int
    const evalDist: int
    const sectorMaxSize: int
    const sectorCount: int
    const sectorSize: int
    const sectorSizeLast: int

    /**
     * The grid is x_cells by y_cells, the stencils are disks of their
     * sizes, and the sectors are whole columns that fit the
     * `SectorMaxSize`-byte buffer.
     */
    ghost predicate Valid()
      reads this, evalStencil, pheromoneStencil
    {
      width > 0 &&
      grid.Length0 == xCells >= 0 && grid.Length1 == yCells > 0 &&
      grid != evalStencil && grid != pheromoneStencil &&
      evalStencil.Length0 == evalCells && Disk(evalStencil) &&
      pheromoneStencil.Length0 == pheromoneCells && Disk(pheromoneStencil) &&
      pheromoneRadius >= 0 &&
      yCells <= sectorMaxSize <= SectorMaxSize &&
      sectorSize == sectorMaxSize / yCells > 0 &&
      yCells * sectorSize <= sectorMaxSize &&
      sectorCount == CeilDiv(xCells, sectorSize) &&
      sectorSizeLast == xCells % sectorSize
    }

    /**
     * pheromone_init: the grid covers the room in cells of `width` mm
     * (x_cells = ceil(room width / width), y_cells likewise) and starts
     * at 0 everywhere; the stencil sizes are ceil(2 * radius / width)
     * made odd; a sector is floor(sector_max_size / y_cells) columns and
     * ceil(x_cells / sector_size) sectors cover the grid.
     */
    constructor (roomMaxWidth: int, roomMaxHeight: int, width: int, lifetime: int,
                 pheromoneRadius: int, evalRadius: int, evalDist: int, sectorMaxSize: int)
      requires width > 0 && pheromoneRadius >= 0 && evalRadius >= 0
      requires CeilDiv(roomMaxWidth, width) >= 0
      requires 0 < CeilDiv(roomMaxHeight, width) <= sectorMaxSize <= SectorMaxSize
      ensures Valid()
      ensures fresh(grid) && fresh(evalStencil) && fresh(pheromoneStencil)
      ensures this.width == width && this.lifetime == lifetime && this.pheromoneRadius == pheromoneRadius
      ensures this.evalRadius == evalRadius && this.evalDist == evalDist && this.sectorMaxSize == sectorMaxSize
      ensures xCells == CeilDiv(roomMaxWidth, width) && yCells == CeilDiv(roomMaxHeight, width)
      ensures forall i, j :: 0 <= i < xCells && 0 <= j < yCells ==> grid[i, j] == 0
      ensures evalCells == Odd(CeilDiv(evalRadius * 2, width))
      ensures pheromoneCells == Odd(CeilDiv(pheromoneRadius * 2, width))
      ensures sectorSize == sectorMaxSize / yCells && sectorCount == CeilDiv(xCells, sectorSize)
      ensures sectorSizeLast == xCells % sectorSize
    {
      this.width := width;
      this.lifetime := lifetime;
      this.pheromoneRadius := pheromoneRadius;
      this.evalRadius := evalRadius;
      this.evalDist := evalDist;
      var xc := CeilDiv(roomMaxWidth, width);
      var yc := CeilDiv(roomMaxHeight, width);
      xCells := xc;
      yCells := yc;
      var m := new int[xc, yc];
      for i := 0 to xc
        invariant forall a, b :: 0 <= a < i && 0 <= b < yc ==> m[a, b] == 0
      {
        for j := 0 to yc
          invariant forall a, b :: 0 <= a < xc && 0 <= b < yc && (a < i || (a == i && b < j)) ==> m[a, b] == 0
        {
          m[i, j] := 0;
        }
      }
      grid := m;
      var ec := Odd(CeilDiv(evalRadius * 2, width));
      evalCells := ec;
      var es, _ := MakeStencil(ec);
      evalStencil := es;
      var pc := Odd(CeilDiv(pheromoneRadius * 2, width));
      pheromoneCells := pc;
      var ps, _ := MakeStencil(pc);
      pheromoneStencil := ps;
      this.sectorMaxSize := sectorMaxSize;
      var ss := sectorMaxSize / yc;
      assert sectorMaxSize == yc * ss + sectorMaxSize % yc;
      MulLeft(1, ss, yc);
      sectorSize := ss;
      sectorCount := CeilDiv(xc, ss);
      sectorSizeLast := xc % ss;
    }

    /** Grid cell (a, b) lies under a set cell of the pheromone stencil placed with its corner at (cx, cy). */
    predicate UnderStencil(cx: int, cy: int, a: int, b: int)
      reads this, pheromoneStencil
    {
      cx <= a < cx + pheromoneStencil.Length0 && cy <= b < cy + pheromoneStencil.Length1 &&
      pheromoneStencil[a - cx, b - cy] != 0
    }

    /**
     * A deposit at (x, y) mm covers grid cell (a, b): the stencil's corner
     * goes at cell ((x - r) / width, (y - r) / width) for the pheromone
     * radius r, and nothing is deposited when x - r or y - r is negative.
     */
    predicate Covered(x: int, y: int, a: int, b: int)
      reads this, pheromoneStencil
    {
      width > 0 && x - pheromoneRadius >= 0 && y - pheromoneRadius >= 0 &&
      UnderStencil((x - pheromoneRadius) / width, (y - pheromoneRadius) / width, a, b)
    }

    /**
     * pheromone_put: every grid cell under a set stencil cell gets the
     * current stamp; stencil cells that fall outside the grid are skipped
     * and every other grid cell keeps its value.
     */
    method Put(x: int, y: int, stamp: int)
      requires Valid()
      modifies grid
      ensures Valid()
      ensures forall a, b :: 0 <= a < xCells && 0 <= b < yCells ==>
                grid[a, b] == if Covered(x, y, a, b) then stamp else old(grid[a, b])
    {
      var cx := x - pheromoneRadius;
      var cy := y - pheromoneRadius;
      if cx >= 0 && cy >= 0 {
        cx := cx / width;
        cy := cy / width;
      } else {
        return;
      }
      for i := 0 to pheromoneCells
        invariant forall a, b :: 0 <= a < xCells && 0 <= b < yCells ==>
                    grid[a, b] == if UnderStencil(cx, cy, a, b) && a - cx < i then stamp else old(grid[a, b])
      {
        for j := 0 to pheromoneCells
          invariant forall a, b :: 0 <= a < xCells && 0 <= b < yCells ==>
                      grid[a, b] == if UnderStencil(cx, cy, a, b) && (a - cx < i || (a - cx == i && b - cy < j))
                                    then stamp else old(grid[a, b])
        {
          if pheromoneStencil[i, j] != 0 {
            if cx + i >= 0 && cy + j >= 0 && cx + i < xCells && cy + j < yCells {
              grid[cx + i, cy + j] := stamp;
            }
          }
        }
      }
    }

    /** The deposit covers the cell under the middle of the stencil, when that cell is in the grid. */
    lemma PutCoversCentre(x: int, y: int)
      requires Valid() && x >= pheromoneRadius && y >= pheromoneRadius
      ensures var c := (pheromoneCells - 1) / 2;
              Covered(x, y, (x - pheromoneRadius) / width + c, (y - pheromoneRadius) / width + c)
    {
      var c := (pheromoneCells - 1) / 2;
      assert pheromoneStencil[c, c] == 1;
    }

    /** The number of bytes a full sector uses: whole columns of y_cells cells. */
    function Span(): (n: int)
      reads this, grid, evalStencil, pheromoneStencil
      requires Valid()
      ensures 0 < n <= sectorMaxSize
    {
      MulLeft(1, sectorSize, yCells);
      yCells * sectorSize
    }

    /** The byte of a sector that holds row j of the sector's column col. */
    function SectorIndex(col: int, j: int): (k: nat)
      reads this, grid, evalStencil, pheromoneStencil
      requires Valid() && 0 <= col < sectorSize && 0 <= j < yCells
      ensures k < Span() && k == col * yCells + j
    {
      CellInGrid(col, j, sectorSize, yCells);
      col * yCells + j
    }

    /** Grid column a belongs to sector num. */
    predicate InSector(num: int, a: int)
      reads this
    {
      num * sectorSize <= a < num * sectorSize + sectorSize
    }

    /**
     * The columns pheromone_map_update as written visits for a sector
     * whose first column is `start`: from `start` on, while inside the
     * grid's width, at most sector_size of them. Nothing bounds `start`
     * from below.
     */
    function VisitedColumns(start: int): (cols: seq<int>)
      reads this
      ensures forall k :: 0 <= k < |cols| ==> cols[k] == start + k && cols[k] < xCells
      ensures |cols| <= Max(sectorSize, 0)
    {
      var n := if xCells - start < sectorSize then xCells - start else sectorSize;
      if n <= 0 then [] else seq(n, k requires 0 <= k < n => start + k)
    }

    /**
     * A received sector numbered -1 makes the loop as written visit, and
     * write, column -sector_size, which is outside the grid.
     */
    lemma NegativeSectorVisitsOutside()
      requires Valid() && xCells > 0
      ensures |VisitedColumns(-1 * sectorSize)| > 0 && VisitedColumns(-1 * sectorSize)[0] < 0
    {
      assert xCells - (-1 * sectorSize) > sectorSize;
    }

    /**
     * pheromone_map_update with a lower bound on the sector number: a
     * sector numbered below 0 is ignored. Otherwise the cells of sector
     * num's columns (those that exist) become the later of their own time
     * and `timestamp - age`, the ages read column by column from byte 0;
     * all other cells are kept. A cell never gets an earlier time.
     */
    method MapUpdate(sector: Sector)
      requires Valid() && |sector.data| == SectorMaxSize
      modifies grid
      ensures Valid()
      ensures forall a, b :: 0 <= a < xCells && 0 <= b < yCells ==>
                grid[a, b] == if InSector(sector.num, a)
                              then Max(old(grid[a, b]), sector.timestamp - sector.data[SectorIndex(a - sector.num * sectorSize, b)])
                              else old(grid[a, b])
      ensures forall a, b :: 0 <= a < xCells && 0 <= b < yCells ==> grid[a, b] >= old(grid[a, b])
    {
      if sector.num < 0 {
        NegativeSectorMissesGrid(sector.num);
      } else {
        MergeSector(sector);
      }
    }

    /** No column of the grid belongs to a sector numbered below 0. */
    lemma NegativeSectorMissesGrid(num: int)
      requires Valid() && num < 0
      ensures forall a :: 0 <= a < xCells ==> !InSector(num, a)
    {
      MulLeft(num + 1, 0, sectorSize);
    }

    /** The loop of pheromone_map_update, for a sector numbered 0 or more. */
    method MergeSector(sector: Sector)
      requires Valid() && sector.num >= 0 && |sector.data| == SectorMaxSize
      modifies grid
      ensures Valid()
      ensures forall a, b :: 0 <= a < xCells && 0 <= b < yCells ==>
                grid[a, b] == if InSector(sector.num, a)
                              then Max(old(grid[a, b]), sector.timestamp - sector.data[SectorIndex(a - sector.num * sectorSize, b)])
                              else old(grid[a, b])
    {
      var start := sector.num * sectorSize;
      MulLeft(0, sector.num, sectorSize);
      var y := 0;
      var i := start;
      while i < xCells
        invariant start <= i && i - start < sectorSize
        invariant y == (i - start) * yCells
        invariant forall a, b :: 0 <= a < xCells && 0 <= b < yCells ==>
                    grid[a, b] == if start <= a < i
                                  then Max(old(grid[a, b]), sector.timestamp - sector.data[SectorIndex(a - start, b)])
                                  else old(grid[a, b])
      {
        for j := 0 to yCells
          invariant y == (i - start) * yCells + j
          invariant forall a, b :: 0 <= a < xCells && 0 <= b < yCells ==>
                      grid[a, b] == if start <= a < i || (a == i && b < j)
                                    then Max(old(grid[a, b]), sector.timestamp - sector.data[SectorIndex(a - start, b)])
                                    else old(grid[a, b])
        {
          assert y == SectorIndex(i - start, j);
          if grid[i, j] < sector.timestamp - sector.data[y] {
            grid[i, j] := sector.timestamp - sector.data[y];
          }
          y := y + 1;
        }
        assert y == (i - start + 1) * yCells;
        MulLeft(sectorSize, i - start + 1, yCells);
        if y >= yCells * sectorSize {
          break;
        }
        i := i + 1;
      }
    }

    /** The time in cell number n, counting column by column. */
    function CellAt(n: int): int
      reads this, grid, evalStencil, pheromoneStencil
      requires Valid() && 0 <= n < xCells * yCells
    {
      var a, b := n / yCells, n % yCells;
      assert n == a * yCells + b;
      MulLeft(xCells, a, yCells);
      grid[a, b]
    }

    /**
     * A sector byte that holds no cell: pheromone_map_extract fills the
     * first sector_max_size bytes with 0xFF; the rest of the buffer is
     * never written and is taken to be 0 here.
     */
    function Pad(k: int): (b: byte)
      reads this
    {
      if k < sectorMaxSize then 0xFF else 0
    }

    /**
     * Byte k of sector s as pheromone_map_extract fills it: the age of
     * cell number s * Span() + k (as CellByte) while k < Span() and that
     * cell exists; padding otherwise.
     */
    function SectorByte(s: int, k: int, stamp: int): byte
      reads this, grid, evalStencil, pheromoneStencil
      requires Valid() && s >= 0 && k >= 0
    {
      var size := Span();
      MulLeft(0, s, size);
      if k < size && s * size + k < xCells * yCells then CellByte(stamp - CellAt(s * size + k)) else Pad(k)
    }

    /** Sector s as pheromone_map_extract builds it at time `stamp`. */
    ghost function ExtractedSector(s: int, stamp: int): (sector: Sector)
      reads this, grid, evalStencil, pheromoneStencil
      requires Valid() && s >= 0
      ensures sector.num == s && sector.size == Span() && sector.timestamp == stamp
      ensures |sector.data| == SectorMaxSize && forall k :: 0 <= k < SectorMaxSize ==> sector.data[k] == SectorByte(s, k, stamp)
    {
      Sector(s, Span(), stamp,
             seq(SectorMaxSize, k requires 0 <= k && Valid() reads this, grid, evalStencil, pheromoneStencil => SectorByte(s, k, stamp)))
    }

    /** A sector numbered s, stamped, whose first y bytes hold its cells and whose other bytes are padding. */
    ghost predicate Filled(sector: Sector, s: int, y: int, stamp: int)
      reads this, grid, evalStencil, pheromoneStencil
      requires Valid() && s >= 0
    {
      sector.num == s && sector.size == Span() && sector.timestamp == stamp && |sector.data| == SectorMaxSize &&
      forall k :: 0 <= k < SectorMaxSize ==> sector.data[k] == if k < y then SectorByte(s, k, stamp) else Pad(k)
    }

    /** Writing the next cell's byte into a partly filled sector fills one more byte. */
    lemma FilledStep(sector: Sector, s: int, y: int, stamp: int, cell: byte)
      requires Valid() && s >= 0 && 0 <= y < SectorMaxSize
      requires Filled(sector, s, y, stamp) && cell == SectorByte(s, y, stamp)
      ensures Filled(sector.(data := sector.data[y := cell]), s, y + 1, stamp)
    {
    }

    /**
     * The inner loop of pheromone_map_extract for grid column i: its cells'
     * bytes go into the sectors from byte y of sector x on.
     */
    method ExtractColumn(phms: array<Sector>, i: int, x0: int, y0: int, stamp: int, ghost n: int)
      returns (x: int, y: int)
      requires Valid() && phms.Length == sectorCount && 0 <= i < xCells
      requires n == i * yCells && n == x0 * Span() + y0 && 0 <= y0 < Span() && 0 <= x0
      requires x0 < sectorCount || (x0 == sectorCount && y0 == 0)
      requires forall s :: 0 <= s < x0 ==> Filled(phms[s], s, Span(), stamp)
      requires x0 < sectorCount ==> Filled(phms[x0], x0, y0, stamp)
      modifies phms
      ensures n + yCells == x * Span() + y && 0 <= y < Span() && 0 <= x
      ensures x < sectorCount || (x == sectorCount && y == 0)
      ensures forall s :: 0 <= s < x ==> Filled(phms[s], s, Span(), stamp)
      ensures x < sectorCount ==> Filled(phms[x], x, y, stamp)
    {
      var size := yCells * sectorSize;
      var count := sectorCount;
      CeilScaled(xCells, sectorSize, yCells, count);
      x, y := x0, y0;
      ghost var m := n;
      for j := 0 to yCells
        invariant m == i * yCells + j && m == x * size + y && 0 <= y < size && 0 <= x
        invariant x < count || (x == count && y == 0)
        invariant forall s :: 0 <= s < x ==> Filled(phms[s], s, size, stamp)
        invariant x < count ==> Filled(phms[x], x, y, stamp)
      {
        CellInGrid(i, j, xCells, yCells);
        ColumnMajor(i, j, yCells);
        CurrentSector(x, y, size, m, xCells * yCells, count);
        var t := stamp - grid[i, j];
        var cell := CellByte(t);
        FilledStep(phms[x], x, y, stamp, cell);
        phms[x] := phms[x].(data := phms[x].data[y := cell]);
        y := y + 1;
        m := m + 1;
        if y >= size {
          assert m == (x + 1) * size;
          x := x + 1;
          y := 0;
          if x < count {
            phms[x] := Sector(x, size, stamp, seq(SectorMaxSize, k => if k < sectorMaxSize then 0xFF else 0));
          }
        }
      }
    }

    /**
     * pheromone_map_extract: walks the grid column by column, writing each
     * cell's age into the current sector and opening the next sector when
     * the current one is full. Requires a non-empty grid, since the source
     * writes sector 0 unconditionally.
     */
    method Extract(stamp: int) returns (sectors: seq<Sector>)
      requires Valid() && xCells > 0
      ensures |sectors| == sectorCount
      ensures forall s :: 0 <= s < sectorCount ==>
                sectors[s].num == s && sectors[s].size == Span() && sectors[s].timestamp == stamp &&
                |sectors[s].data| == SectorMaxSize
      ensures forall s, k :: 0 <= s < sectorCount && 0 <= k < SectorMaxSize ==>
                sectors[s].data[k] == SectorByte(s, k, stamp)
    {
      var size := yCells * sectorSize;
      var count := sectorCount;
      CeilScaled(xCells, sectorSize, yCells, count);
      MulLeft(1, count, sectorSize);
      var phms := new Sector[count](_ => Sector(0, 0, 0, seq(SectorMaxSize, _ => 0)));
      var x, y := 0, 0;
      phms[x] := Sector(x, size, stamp, seq(SectorMaxSize, k => if k < sectorMaxSize then 0xFF else 0));
      ghost var n := 0;
      for i := 0 to xCells
        invariant phms.Length == count
        invariant n == i * yCells && n == x * size + y && 0 <= y < size && 0 <= x
        invariant x < count || (x == count && y == 0)
        invariant forall s :: 0 <= s < x ==> Filled(phms[s], s, size, stamp)
        invariant x < count ==> Filled(phms[x], x, y, stamp)
      {
        x, y := ExtractColumn(phms, i, x, y, stamp, n);
        n := n + yCells;
        assert n == (i + 1) * yCells;
      }
      LastSector(x, y, size, xCells * yCells, count);
      if x < count {
        forall k | 0 <= k < SectorMaxSize
          ensures phms[x].data[k] == SectorByte(x, k, stamp)
        {
          if y <= k < size {
            MulLeft(0, x, size);
          }
        }
      }
      sectors := phms[..];
    }

    /**
     * Extraction and merge agree on where each cell goes: the byte that
     * pheromone_map_update reads for cell (a, b) of sector s is the byte
     * pheromone_map_extract wrote for that cell. So merging a freshly
     * extracted sector sets a cell whose age is in [1, 255] (and not 44)
     * back to its own time.
     */
    lemma {:induction false} MergeExtracted(s: int, a: int, b: int, stamp: int)
      requires Valid() && s >= 0 && InSector(s, a) && 0 <= a < xCells && 0 <= b < yCells
      ensures SectorByte(s, SectorIndex(a - s * sectorSize, b), stamp) == CellByte(stamp - grid[a, b])
      ensures 1 <= stamp - grid[a, b] <= 255 && stamp - grid[a, b] != 44 ==>
                stamp - SectorByte(s, SectorIndex(a - s * sectorSize, b), stamp) == grid[a, b]
    {
      var k := SectorIndex(a - s * sectorSize, b);
      assert s * Span() + k == a * yCells + b;
      CellInGrid(a, b, xCells, yCells);
      ColumnMajor(a, b, yCells);
    }
  }
}
