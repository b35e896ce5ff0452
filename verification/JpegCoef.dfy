/**
 Marshalling between JPEG blocks and column-major matrices: the coefficient arrays of a
 component, moved by pointers that advance block by block, and the quantisation tables.
*/
module JpegCoef {
  import opened Common
  import opened Arithmetic

  const DCTSIZE := 8
  const NUM_QUANT_TBLS := 4

  // --- C conversions -----------------------------------------------------------------

  lemma TruncateWhole(k: int)
    ensures Truncate(k as real) == k
  {
  }

  predicate InJcoef(t: int) { -32768 <= t <= 32767 }
  predicate InInt(t: int) { -0x8000_0000 <= t <= 0x7fff_ffff }

  // --- Column-major positions ---------------------------------------------------------

  function Row(height: nat, p: nat): (r: nat)
    requires height > 0
  {
    p % height
  }

  function Column(height: nat, p: nat): (c: nat)
    requires height > 0
  {
    p / height
  }

  lemma Located(height: nat, row: nat, column: nat)
    requires row < height
    ensures Row(height, row + height * column) == row && Column(height, row + height * column) == column
  {
    var p := row + height * column;
    QuotientUnique(height, column, row, Column(height, p), Row(height, p));
  }

  lemma InBounds(height: nat, width: nat, row: nat, column: nat)
    requires row < height && column < width
    ensures row + height * column < height * width
  {
    assert height * width == height * column + height * (width - column);
    AtLeastOnce(height, width - column);
  }

  lemma InBoundsBack(height: nat, width: nat, p: nat)
    requires p < height * width
    ensures height > 0 && Row(height, p) < height && Column(height, p) < width
    ensures p == Row(height, p) + height * Column(height, p)
  {
    if height > 0 && Column(height, p) >= width {
      AtMost(height, width, Column(height, p));
    }
  }

  lemma AtMost(height: nat, width: nat, column: nat)
    requires width <= column
    ensures height * width <= height * column
  {
    assert height * column == height * width + height * (column - width);
  }

  // --- Where a coefficient lives ---------------------------------------------------------

  /** The matrix position of coefficient k of block (y, x). */
  function Place(height: nat, y: nat, x: nat, k: nat): nat
  {
    y * DCTSIZE + k / DCTSIZE + height * (DCTSIZE * x + k % DCTSIZE)
  }

  /** Block row, block column and coefficient of a position. */
  datatype Home = Home(y: nat, x: nat, k: nat)

  function HomeOf(height: nat, p: nat): (home: Home)
    requires height > 0
  {
    var r, c := Row(height, p), Column(height, p);
    Home(r / DCTSIZE, c / DCTSIZE, DCTSIZE * (r % DCTSIZE) + c % DCTSIZE)
  }

  lemma HomeOfPlace(height: nat, y: nat, x: nat, k: nat)
    requires DCTSIZE * y + DCTSIZE <= height && k < DCTSIZE * DCTSIZE
    ensures HomeOf(height, Place(height, y, x, k)) == Home(y, x, k)
  {
    hide Row, Column;
    Located(height, DCTSIZE * y + k / DCTSIZE, DCTSIZE * x + k % DCTSIZE);
  }

  lemma PlaceOfHome(height: nat, width: nat, p: nat)
    requires p < height * width
    ensures height > 0
    ensures var h := HomeOf(height, p);
            && p == Place(height, h.y, h.x, h.k) && h.k < DCTSIZE * DCTSIZE
            && DCTSIZE * h.y < height && DCTSIZE * h.x < width
  {
    hide Row, Column;
    InBoundsBack(height, width, p);
  }

  lemma PlaceInBounds(height: nat, width: nat, y: nat, x: nat, k: nat)
    requires DCTSIZE * y + DCTSIZE <= height && DCTSIZE * x + DCTSIZE <= width && k < DCTSIZE * DCTSIZE
    ensures Place(height, y, x, k) < height * width
  {
    InBounds(height, width, DCTSIZE * y + k / DCTSIZE, DCTSIZE * x + k % DCTSIZE);
  }

  /** The positions of a whole number of blocks and the coefficients of those blocks are in bijection. */
  lemma PlacesAreABijection(hb: nat, wb: nat)
    ensures var height, size := DCTSIZE * hb, DCTSIZE * hb * (DCTSIZE * wb);
            && (forall y: nat, x: nat, k: nat :: y < hb && x < wb && k < DCTSIZE * DCTSIZE ==>
                  Place(height, y, x, k) < size && HomeOf(height, Place(height, y, x, k)) == Home(y, x, k))
            && (forall p: nat :: p < size ==>
                  var h := HomeOf(height, p);
                  h.y < hb && h.x < wb && h.k < DCTSIZE * DCTSIZE && Place(height, h.y, h.x, h.k) == p)
  {
    hide HomeOf, Place;
    var height := DCTSIZE * hb;
    forall y: nat, x: nat, k: nat | y < hb && x < wb && k < DCTSIZE * DCTSIZE
      ensures Place(height, y, x, k) < height * (DCTSIZE * wb)
      ensures HomeOf(height, Place(height, y, x, k)) == Home(y, x, k)
    {
      PlaceInBounds(height, DCTSIZE * wb, y, x, k);
      HomeOfPlace(height, y, x, k);
    }
    forall p: nat | p < height * (DCTSIZE * wb)
      ensures var h := HomeOf(height, p);
              h.y < hb && h.x < wb && h.k < DCTSIZE * DCTSIZE && Place(height, h.y, h.x, h.k) == p
    {
      PlaceOfHome(height, DCTSIZE * wb, p);
    }
  }

  /** Entry (i, j) of block (y, x) lies in matrix row 8y + i and column 8x + j, and entries are stored by columns. */
  lemma PlaceIs(height: nat, y: nat, x: nat, i: nat, j: nat)
    requires i < 8 && j < 8
    ensures Place(height, y, x, 8 * i + j) == (8 * y + i) + height * (8 * x + j)
  {
    assert (8 * i + j) / DCTSIZE == i && (8 * i + j) % DCTSIZE == j;
  }

  /** The block pointer: mptop moves down 8 rows per block row, mp moves right 8 columns per block. */
  function Pointer(height: nat, y: nat, x: nat): nat
  {
    DCTSIZE * y + height * (DCTSIZE * x)
  }

  lemma PointerMoves(height: nat, y: nat, x: nat)
    ensures Pointer(height, y, 0) == DCTSIZE * y
    ensures Pointer(height, y, x + 1) == Pointer(height, y, x) + DCTSIZE * height
  {
    assert height * (DCTSIZE * (x + 1)) == height * (DCTSIZE * x) + height * DCTSIZE;
  }

  lemma PointerReaches(height: nat, y: nat, x: nat, i: nat, j: nat)
    requires i < DCTSIZE && j < DCTSIZE
    ensures Pointer(height, y, x) + j * height + i == Place(height, y, x, i * DCTSIZE + j)
  {
    assert height * (DCTSIZE * x + j) == height * (DCTSIZE * x) + height * j;
  }

  // --- Reading -------------------------------------------------------------------------

  predicate Shaped(blocks: array3<int>)
  {
    blocks.Length2 == DCTSIZE * DCTSIZE
  }

  ghost predicate Copied(blocks: array3<int>, m: array<real>, height: nat, p: nat)
    requires Shaped(blocks) && height == DCTSIZE * blocks.Length0 && m.Length == height * (DCTSIZE * blocks.Length1)
    requires p < m.Length
    reads blocks, m
  {
    && height > 0
    && var h := HomeOf(height, p);
       h.y < blocks.Length0 && h.x < blocks.Length1 && h.k < blocks.Length2 && m[p] == blocks[h.y, h.x, h.k] as real
  }

  method ReadBlock(blocks: array3<int>, y: nat, x: nat, m: array<real>, mp: nat, height: nat)
    requires Shaped(blocks) && y < blocks.Length0 && x < blocks.Length1
    requires height == DCTSIZE * blocks.Length0 && m.Length == height * (DCTSIZE * blocks.Length1)
    requires mp == Pointer(height, y, x)
    modifies m
    ensures forall p :: 0 <= p < m.Length && HomeOf(height, p).y == y && HomeOf(height, p).x == x ==>
              Copied(blocks, m, height, p)
    ensures forall p :: 0 <= p < m.Length && !(HomeOf(height, p).y == y && HomeOf(height, p).x == x) ==>
              m[p] == old(m[p])
  {
    hide HomeOf, Place, Pointer;
    PlacesAreABijection(blocks.Length0, blocks.Length1);
    for i := 0 to DCTSIZE
      invariant forall p :: 0 <= p < m.Length ==>
                  var h := HomeOf(height, p);
                  if h.y == y && h.x == x then h.k < DCTSIZE * i ==> Copied(blocks, m, height, p) else m[p] == old(m[p])
    {
      for j := 0 to DCTSIZE
        invariant forall p :: 0 <= p < m.Length ==>
                    var h := HomeOf(height, p);
                    if h.y == y && h.x == x then h.k < DCTSIZE * i + j ==> Copied(blocks, m, height, p)
                    else m[p] == old(m[p])
      {
        PointerReaches(height, y, x, i, j);
        m[mp + j * height + i] := blocks[y, x, i * DCTSIZE + j] as real;
      }
    }
  }

  method ReadComponent(blocks: array3<int>) returns (m: array<real>, height: nat, width: nat)
    requires Shaped(blocks)
    ensures height == DCTSIZE * blocks.Length0 && width == DCTSIZE * blocks.Length1
    ensures fresh(m) && m.Length == height * width
    ensures forall p :: 0 <= p < m.Length ==> Copied(blocks, m, height, p)
  {
    hide HomeOf, Pointer;
    height, width := blocks.Length0 * DCTSIZE, blocks.Length1 * DCTSIZE;
    m := new real[height * width];
    PlacesAreABijection(blocks.Length0, blocks.Length1);
    var mp, mptop := 0, 0;
    PointerMoves(height, 0, 0);
    for y := 0 to blocks.Length0
      invariant mp == mptop == Pointer(height, y, 0)
      invariant forall p :: 0 <= p < m.Length && HomeOf(height, p).y < y ==> Copied(blocks, m, height, p)
    {
      for x := 0 to blocks.Length1
        invariant mptop == Pointer(height, y, 0) && mp == Pointer(height, y, x)
        invariant forall p :: 0 <= p < m.Length && HomeOf(height, p).y < y ==> Copied(blocks, m, height, p)
        invariant forall p :: 0 <= p < m.Length && HomeOf(height, p).y == y && HomeOf(height, p).x < x ==>
                    Copied(blocks, m, height, p)
      {
        ReadBlock(blocks, y, x, m, mp, height);
        PointerMoves(height, y, x);
        mp := mp + DCTSIZE * height;
      }
      PointerMoves(height, y, 0);
      PointerMoves(height, y + 1, 0);
      mptop := mptop + DCTSIZE;
      mp := mptop;
    }
  }

  // --- Writing -------------------------------------------------------------------------

  /** The cast to JCOEF is defined for every entry. */
  ghost predicate Castable(m: array<real>)
    reads m
  {
    forall p :: 0 <= p < m.Length ==> InJcoef(Truncate(m[p]))
  }

  ghost predicate Restored(blocks: array3<int>, m: array<real>, height: nat, y: nat, x: nat, k: nat)
    requires y < blocks.Length0 && x < blocks.Length1 && k < blocks.Length2
    reads blocks, m
  {
    var p := Place(height, y, x, k);
    p < m.Length && blocks[y, x, k] == Truncate(m[p])
  }

  method WriteBlock(blocks: array3<int>, y: nat, x: nat, m: array<real>, mp: nat, height: nat, width: nat)
    requires Shaped(blocks) && y < blocks.Length0 == height / DCTSIZE && x < blocks.Length1 == width / DCTSIZE
    requires m.Length == height * width && mp == Pointer(height, y, x) && Castable(m)
    modifies blocks
    ensures forall k: nat :: k < DCTSIZE * DCTSIZE ==> Restored(blocks, m, height, y, x, k)
    ensures forall y': nat, x': nat, k: nat
      | y' < blocks.Length0 && x' < blocks.Length1 && k < DCTSIZE * DCTSIZE && (y' != y || x' != x)
      :: blocks[y', x', k] == old(blocks[y', x', k])
  {
    hide Place, Pointer, Truncate;
    for i := 0 to DCTSIZE
      invariant forall k: nat :: k < DCTSIZE * i ==> Restored(blocks, m, height, y, x, k)
      invariant forall y': nat, x': nat, k: nat
        | y' < blocks.Length0 && x' < blocks.Length1 && k < DCTSIZE * DCTSIZE && (y' != y || x' != x)
        :: blocks[y', x', k] == old(blocks[y', x', k])
    {
      for j := 0 to DCTSIZE
        invariant forall k: nat :: k < DCTSIZE * i + j ==> Restored(blocks, m, height, y, x, k)
        invariant forall y': nat, x': nat, k: nat
          | y' < blocks.Length0 && x' < blocks.Length1 && k < DCTSIZE * DCTSIZE && (y' != y || x' != x)
          :: blocks[y', x', k] == old(blocks[y', x', k])
      {
        PointerReaches(height, y, x, i, j);
        PlaceInBounds(height, width, y, x, i * DCTSIZE + j);
        label Before:
        blocks[y, x, i * DCTSIZE + j] := Truncate(m[mp + j * height + i]);
        forall k: nat | k < DCTSIZE * i + j ensures Restored(blocks, m, height, y, x, k) {
          assert old@Before(Restored(blocks, m, height, y, x, k));
        }
      }
    }
  }

  /** Rows and columns beyond the last whole block are ignored. */
  method WriteComponent(m: array<real>, height: nat, width: nat) returns (blocks: array3<int>)
    requires m.Length == height * width && Castable(m)
    ensures fresh(blocks) && Shaped(blocks) && blocks.Length0 == height / DCTSIZE && blocks.Length1 == width / DCTSIZE
    ensures forall y: nat, x: nat, k: nat :: y < blocks.Length0 && x < blocks.Length1 && k < DCTSIZE * DCTSIZE ==>
              Restored(blocks, m, height, y, x, k)
  {
    hide Place, Pointer, Truncate;
    blocks := new int[height / DCTSIZE, width / DCTSIZE, DCTSIZE * DCTSIZE];
    var mp, mptop := 0, 0;
    PointerMoves(height, 0, 0);
    for y := 0 to blocks.Length0
      invariant mp == mptop == Pointer(height, y, 0)
      invariant forall y': nat, x: nat, k: nat :: y' < y && x < blocks.Length1 && k < DCTSIZE * DCTSIZE ==>
                  Restored(blocks, m, height, y', x, k)
    {
      for x := 0 to blocks.Length1
        invariant mptop == Pointer(height, y, 0) && mp == Pointer(height, y, x)
        invariant forall y': nat, x': nat, k: nat
          | y' <= y && x' < blocks.Length1 && (y' < y || x' < x) && k < DCTSIZE * DCTSIZE
          :: Restored(blocks, m, height, y', x', k)
      {
        label Before:
        WriteBlock(blocks, y, x, m, mp, height, width);
        forall y': nat, x': nat, k: nat
          | y' <= y && x' < blocks.Length1 && (y' < y || x' < x) && k < DCTSIZE * DCTSIZE
          ensures Restored(blocks, m, height, y', x', k)
        {
          assert old@Before(Restored(blocks, m, height, y', x', k));
        }
        PointerMoves(height, y, x);
        mp := mp + DCTSIZE * height;
      }
      PointerMoves(height, y, 0);
      PointerMoves(height, y + 1, 0);
      mptop := mptop + DCTSIZE;
      mp := mptop;
    }
  }

  // --- Round trips -----------------------------------------------------------------------

  /** Writing what was read restores every coefficient of every block. */
  method ReadThenWrite(blocks: array3<int>) returns (copy: array3<int>)
    requires Shaped(blocks)
    requires forall y, x, k :: 0 <= y < blocks.Length0 && 0 <= x < blocks.Length1 && 0 <= k < blocks.Length2 ==>
               InJcoef(blocks[y, x, k])
    ensures fresh(copy) && copy.Length0 == blocks.Length0
    ensures copy.Length1 == blocks.Length1 && copy.Length2 == blocks.Length2
    ensures forall y, x, k :: 0 <= y < blocks.Length0 && 0 <= x < blocks.Length1 && 0 <= k < blocks.Length2 ==>
              copy[y, x, k] == blocks[y, x, k]
  {
    hide Place, HomeOf, Truncate;
    var m, height, width := ReadComponent(blocks);
    forall p | 0 <= p < m.Length ensures InJcoef(Truncate(m[p])) {
      var h := HomeOf(height, p);
      assert Copied(blocks, m, height, p);
      TruncateWhole(blocks[h.y, h.x, h.k]);
    }
    copy := WriteComponent(m, height, width);
    PlacesAreABijection(blocks.Length0, blocks.Length1);
    forall y, x, k | 0 <= y < blocks.Length0 && 0 <= x < blocks.Length1 && 0 <= k < blocks.Length2
      ensures copy[y, x, k] == blocks[y, x, k]
    {
      assert Restored(copy, m, height, y, x, k);
      assert Copied(blocks, m, height, Place(height, y, x, k));
      TruncateWhole(blocks[y, x, k]);
    }
  }

  ghost predicate SameBlocks(a: array3<int>, b: array3<int>)
    reads a, b
  {
    && a.Length0 == b.Length0 && a.Length1 == b.Length1 && a.Length2 == b.Length2
    && forall y, x, k :: 0 <= y < a.Length0 && 0 <= x < a.Length1 && 0 <= k < a.Length2 ==> a[y, x, k] == b[y, x, k]
  }

  ghost predicate Coefficients(blocks: array3<int>)
    reads blocks
  {
    && Shaped(blocks)
    && forall y, x, k :: 0 <= y < blocks.Length0 && 0 <= x < blocks.Length1 && 0 <= k < blocks.Length2 ==>
         InJcoef(blocks[y, x, k])
  }

  /** Identifier, sampling factors and table numbers of a component, as the library holds them. */
  datatype Info = Info(id: int, h: int, v: int, quantTable: int, acTable: int, dcTable: int)

  /** The same as numbers of the object; table numbers start from 1 there. */
  datatype Fields = Fields(id: real, h: real, v: real, quantTable: real, acTable: real, dcTable: real)

  function FieldsOf(info: Info): Fields
  {
    Fields(info.id as real, info.h as real, info.v as real,
           (info.quantTable + 1) as real, (info.acTable + 1) as real, (info.dcTable + 1) as real)
  }

  function InfoOf(f: Fields): Info
  {
    Info(Truncate(f.id), Truncate(f.h), Truncate(f.v),
         Truncate(f.quantTable) - 1, Truncate(f.acTable) - 1, Truncate(f.dcTable) - 1)
  }

  lemma InfoRoundTrip(info: Info)
    ensures InfoOf(FieldsOf(info)) == info
    ensures var f := FieldsOf(info);
            && f.id == info.id as real && f.h == info.h as real && f.v == info.v as real
            && f.quantTable == info.quantTable as real + 1.0 && f.acTable == info.acTable as real + 1.0
            && f.dcTable == info.dcTable as real + 1.0
  {
    TruncateWhole(info.id);
    TruncateWhole(info.h);
    TruncateWhole(info.v);
    TruncateWhole(info.quantTable + 1);
    TruncateWhole(info.acTable + 1);
    TruncateWhole(info.dcTable + 1);
  }

  /** All components of an image: every block and every table number comes back. */
  method ReadThenWriteAll(components: seq<array3<int>>, infos: seq<Info>)
    returns (copies: seq<array3<int>>, copiedInfos: seq<Info>)
    requires |infos| == |components|
    requires forall ci :: 0 <= ci < |components| ==> Coefficients(components[ci])
    ensures |copies| == |components| && copiedInfos == infos
    ensures forall ci :: 0 <= ci < |components| ==> fresh(copies[ci]) && SameBlocks(copies[ci], components[ci])
  {
    copies, copiedInfos := [], [];
    for ci := 0 to |components|
      invariant |copies| == ci && copiedInfos == infos[..ci]
      invariant forall c :: 0 <= c < ci ==> fresh(copies[c]) && SameBlocks(copies[c], components[c])
    {
      InfoRoundTrip(infos[ci]);
      copiedInfos := copiedInfos + [InfoOf(FieldsOf(infos[ci]))];
      var copy := ReadThenWrite(components[ci]);
      copies := copies + [copy];
    }
  }

  /** Reading what was written restores every matrix of whole blocks whose entries are coefficients. */
  method WriteThenRead(m: array<real>, hb: nat, wb: nat) returns (copy: array<real>)
    requires m.Length == DCTSIZE * hb * (DCTSIZE * wb) && Castable(m)
    requires forall p :: 0 <= p < m.Length ==> m[p] == Truncate(m[p]) as real
    ensures fresh(copy) && copy[..] == m[..]
  {
    hide Place, HomeOf, Truncate;
    var blocks := WriteComponent(m, DCTSIZE * hb, DCTSIZE * wb);
    var height, width;
    copy, height, width := ReadComponent(blocks);
    PlacesAreABijection(hb, wb);
    forall p | 0 <= p < m.Length ensures copy[p] == m[p] {
      var h := HomeOf(height, p);
      assert Copied(blocks, copy, height, p);
      assert Restored(blocks, m, height, h.y, h.x, h.k);
    }
  }

  // --- Quantisation tables -----------------------------------------------------------------

  /** 64 unsigned 16-bit entries, row by row. */
  predicate IsTable(t: seq<int>)
  {
    |t| == DCTSIZE * DCTSIZE && forall k :: 0 <= k < |t| ==> 0 <= t[k] <= 65535
  }

  predicate AreSlots(slots: seq<Option<seq<int>>>)
  {
    |slots| == NUM_QUANT_TBLS && forall n :: 0 <= n < |slots| && slots[n].Some? ==> IsTable(slots[n].value)
  }

  /** A cell may be empty. */
  predicate AreCells(cells: seq<Option<seq<real>>>)
  {
    forall n :: 0 <= n < |cells| && cells[n].Some? ==>
      |cells[n].value| == DCTSIZE * DCTSIZE && forall k :: 0 <= k < DCTSIZE * DCTSIZE ==>
        InInt(Truncate(cells[n].value[k]))
  }

  function Swap(k: nat): (s: nat)
    requires k < DCTSIZE * DCTSIZE
    ensures s < DCTSIZE * DCTSIZE
  {
    k % DCTSIZE * DCTSIZE + k / DCTSIZE
  }

  lemma SwapTwice(k: nat)
    requires k < DCTSIZE * DCTSIZE
    ensures Swap(Swap(k)) == k
  {
  }

  lemma SwapIs(i: nat, j: nat)
    requires i < DCTSIZE && j < DCTSIZE
    ensures Swap(j * DCTSIZE + i) == i * DCTSIZE + j
  {
    assert (j * DCTSIZE + i) / DCTSIZE == j && (j * DCTSIZE + i) % DCTSIZE == i;
  }

  /** The table as a column-major matrix. */
  function CellOf(t: seq<int>): (cell: seq<real>)
    requires |t| == DCTSIZE * DCTSIZE
  {
    seq(DCTSIZE * DCTSIZE, k requires 0 <= k < DCTSIZE * DCTSIZE => t[Swap(k)] as real)
  }

  function TableOf(cell: seq<real>): (t: seq<int>)
    requires |cell| == DCTSIZE * DCTSIZE
    ensures |t| == DCTSIZE * DCTSIZE
  {
    seq(DCTSIZE * DCTSIZE, k requires 0 <= k < DCTSIZE * DCTSIZE => Truncate(cell[Swap(k)]))
  }

  method ReadTable(quantval: seq<int>) returns (mp: array<real>)
    requires IsTable(quantval)
    ensures fresh(mp) && mp[..] == CellOf(quantval)
  {
    hide Swap;
    forall k: nat {:trigger Swap(k)} | k < DCTSIZE * DCTSIZE ensures Swap(Swap(k)) == k { SwapTwice(k); }
    mp := new real[DCTSIZE * DCTSIZE];
    for i := 0 to DCTSIZE
      invariant forall k :: 0 <= k < DCTSIZE * DCTSIZE && Swap(k) < DCTSIZE * i ==> mp[k] == quantval[Swap(k)] as real
    {
      for j := 0 to DCTSIZE
        invariant forall k :: 0 <= k < DCTSIZE * DCTSIZE && Swap(k) < DCTSIZE * i + j ==>
                    mp[k] == quantval[Swap(k)] as real
      {
        SwapIs(i, j);
        mp[j * DCTSIZE + i] := quantval[i * DCTSIZE + j] as real;
      }
    }
  }

  lemma TableEntry(mp: seq<real>, i: nat, j: nat)
    requires |mp| == DCTSIZE * DCTSIZE && i < DCTSIZE && j < DCTSIZE
    ensures TableOf(mp)[i * DCTSIZE + j] == Truncate(mp[j * DCTSIZE + i])
  {
    assert (i * DCTSIZE + j) / DCTSIZE == i && (i * DCTSIZE + j) % DCTSIZE == j;
  }

  /** False when an entry is out of range; the table then keeps the entries already filled. */
  method WriteTable(mp: seq<real>, quantval: array<int>) returns (ok: bool)
    requires |mp| == DCTSIZE * DCTSIZE == quantval.Length
    modifies quantval
    ensures ok <==> forall k :: 0 <= k < DCTSIZE * DCTSIZE ==> 1 <= TableOf(mp)[k] <= 65535
    ensures ok ==> quantval[..] == TableOf(mp)
  {
    hide TableOf, Truncate;
    for i := 0 to DCTSIZE
      invariant forall k :: 0 <= k < DCTSIZE * i ==> quantval[k] == TableOf(mp)[k] && 1 <= TableOf(mp)[k] <= 65535
    {
      for j := 0 to DCTSIZE
        invariant forall k :: 0 <= k < DCTSIZE * i + j ==> quantval[k] == TableOf(mp)[k] && 1 <= TableOf(mp)[k] <= 65535
      {
        var t := Truncate(mp[j * DCTSIZE + i]);
        TableEntry(mp, i, j);
        if t < 1 || t > 65535 {
          return false;
        }
        quantval[i * DCTSIZE + j] := t;
      }
    }
    return true;
  }

  /** The matrix of a table has the table's rows as rows, stored by columns, and is written back the same way. */
  lemma TablesAreTransposed(t: seq<int>, cell: seq<real>, i: nat, j: nat)
    requires |t| == |cell| == 64 && i < 8 && j < 8
    ensures CellOf(t)[8 * j + i] == t[8 * i + j] as real
    ensures TableOf(cell)[8 * i + j] == Truncate(cell[8 * j + i])
  {
    hide Truncate;
    SwapIs(i, j);
    TableEntry(cell, i, j);
  }

  predicate AreFull(slots: seq<Option<seq<int>>>)
  {
    forall n :: 0 <= n < |slots| && slots[n].Some? ==> |slots[n].value| == DCTSIZE * DCTSIZE
  }

  function Cell(slot: Option<seq<int>>): (cell: Option<seq<real>>)
    requires slot.Some? ==> |slot.value| == DCTSIZE * DCTSIZE
  {
    if slot.Some? then Some(CellOf(slot.value)) else None
  }

  /** The cell array is widened by empty cells. */
  function Widened(cells: seq<Option<seq<real>>>, n: nat): (wide: seq<Option<seq<real>>>)
    requires |cells| <= n
    ensures |wide| == n && cells <= wide && forall k :: |cells| <= k < n ==> wide[k].None?
  {
    cells + seq(n - |cells|, k => None)
  }

  /** As many cells as the last slot in use; unused slots below it leave empty cells. */
  function CellsOf(slots: seq<Option<seq<int>>>): (cells: seq<Option<seq<real>>>)
    requires AreFull(slots)
    ensures |cells| <= |slots|
    ensures forall n :: 0 <= n < |cells| ==> cells[n] == Cell(slots[n])
    ensures forall n :: |cells| <= n < |slots| ==> slots[n].None?
    ensures cells != [] ==> cells[|cells| - 1].Some?
  {
    if slots == [] then []
    else
      var last := |slots| - 1;
      var cells := CellsOf(slots[..last]);
      if slots[last].None? then cells else Widened(cells, last) + [Cell(slots[last])]
  }

  /**
   OutOfRange is the mex error; an empty cell has no data to read, and a cell too many has
   no slot to go to: what happens then is undefined.
  */
  datatype Written = Written(slots: seq<Option<seq<int>>>) | OutOfRange | EmptyCell | PastTheSlots

  function SlotsOf(cells: seq<Option<seq<real>>>, n: nat): (w: Written)
    requires AreCells(cells) && n <= |cells|
    ensures w.Written? ==> |w.slots| == NUM_QUANT_TBLS
    ensures w.Written? <==> n <= NUM_QUANT_TBLS && forall k :: 0 <= k < n ==>
              cells[k].Some? && Fits(TableOf(cells[k].value))
    ensures w.Written? ==> forall k :: 0 <= k < NUM_QUANT_TBLS ==>
              w.slots[k] == if k < n then Some(TableOf(cells[k].value)) else None
  {
    if n == 0 then Written(seq(NUM_QUANT_TBLS, k => None))
    else
      var w := SlotsOf(cells, n - 1);
      if !w.Written? then w
      else if n > NUM_QUANT_TBLS then PastTheSlots
      else if cells[n - 1].None? then EmptyCell
      else if !Fits(TableOf(cells[n - 1].value)) then OutOfRange
      else Written(w.slots[n - 1 := Some(TableOf(cells[n - 1].value))])
  }

  predicate Fits(t: seq<int>)
  {
    forall k :: 0 <= k < |t| ==> 1 <= t[k] <= 65535
  }

  method ReadTables(slots: seq<Option<seq<int>>>) returns (cells: seq<Option<seq<real>>>)
    requires AreSlots(slots)
    ensures AreFull(slots) && cells == CellsOf(slots)
  {
    cells := [];
    for n := 0 to NUM_QUANT_TBLS
      invariant AreFull(slots[..n]) && cells == CellsOf(slots[..n])
    {
      assert slots[..n + 1][..n] == slots[..n];
      if slots[n].Some? {
        var mp := ReadTable(slots[n].value);
        cells := Widened(cells, n) + [Some(mp[..])];
      }
    }
    assert slots[..NUM_QUANT_TBLS] == slots;
  }

  method WriteTables(cells: seq<Option<seq<real>>>) returns (w: Written)
    requires AreCells(cells)
    ensures w == SlotsOf(cells, |cells|)
  {
    var slots: seq<Option<seq<int>>> := seq(NUM_QUANT_TBLS, k => None);
    for n := 0 to |cells|
      invariant SlotsOf(cells, n) == Written(slots)
    {
      if n >= NUM_QUANT_TBLS {
        SlotsStay(cells, n + 1, |cells|);
        return PastTheSlots;
      }
      if cells[n].None? {
        SlotsStay(cells, n + 1, |cells|);
        return EmptyCell;
      }
      var quantval := new int[DCTSIZE * DCTSIZE];
      var ok := WriteTable(cells[n].value, quantval);
      if !ok {
        SlotsStay(cells, n + 1, |cells|);
        return OutOfRange;
      }
      slots := slots[n := Some(quantval[..])];
    }
    return Written(slots);
  }

  lemma {:induction false} SlotsStay(cells: seq<Option<seq<real>>>, m: nat, n: nat)
    requires AreCells(cells) && m <= n <= |cells| && !SlotsOf(cells, m).Written?
    ensures SlotsOf(cells, n) == SlotsOf(cells, m)
  {
    if m < n {
      SlotsStay(cells, m, n - 1);
    }
  }

  /** The first cell that cannot be written decides how the loop ends. */
  lemma FirstBadCell(cells: seq<Option<seq<real>>>, n: nat)
    requires AreCells(cells) && n < |cells| && n <= 4
    requires forall m :: 0 <= m < n ==> cells[m].Some? && forall k :: 0 <= k < 64 ==>
               1 <= TableOf(cells[m].value)[k] <= 65535
    ensures var w := SlotsOf(cells, |cells|);
            && (n == 4 ==> w == PastTheSlots)
            && (n < 4 && cells[n].None? ==> w == EmptyCell)
            && (n < 4 && cells[n].Some? && (exists k :: 0 <= k < 64 && !(1 <= TableOf(cells[n].value)[k] <= 65535)) ==>
                 w == OutOfRange)
  {
    hide TableOf;
    var next := SlotsOf(cells, n + 1);
    assert forall m :: 0 <= m < n ==> Fits(TableOf(cells[m].value));
    assert SlotsOf(cells, n).Written?;
    if !next.Written? {
      SlotsStay(cells, n + 1, |cells|);
    }
  }

  lemma TableRoundTrip(t: seq<int>)
    requires IsTable(t)
    ensures TableOf(CellOf(t)) == t
  {
    forall k: nat | k < DCTSIZE * DCTSIZE ensures TableOf(CellOf(t))[k] == t[k] {
      SwapTwice(k);
      TruncateWhole(t[k]);
    }
  }

  lemma CellsAreCells(slots: seq<Option<seq<int>>>)
    requires AreSlots(slots)
    ensures AreFull(slots) && AreCells(CellsOf(slots))
  {
    var cells := CellsOf(slots);
    forall n, k | 0 <= n < |cells| && cells[n].Some? && 0 <= k < DCTSIZE * DCTSIZE
      ensures InInt(Truncate(cells[n].value[k]))
    {
      TruncateWhole(slots[n].value[Swap(k)]);
    }
  }

  /** Read tables can be written back exactly when they fill the first slots and have no zero entry. */
  lemma TablesRoundTripIff(slots: seq<Option<seq<int>>>)
    requires AreSlots(slots)
    ensures AreFull(slots) && AreCells(CellsOf(slots))
    ensures SlotsOf(CellsOf(slots), |CellsOf(slots)|) == Written(slots) <==>
            && (forall m, n :: 0 <= m < n < NUM_QUANT_TBLS && slots[n].Some? ==> slots[m].Some?)
            && (forall n, k :: 0 <= n < NUM_QUANT_TBLS && slots[n].Some? && 0 <= k < DCTSIZE * DCTSIZE ==>
                 slots[n].value[k] != 0)
  {
    CellsAreCells(slots);
    hide SlotsOf, CellsOf, TableOf, CellOf, InInt, Truncate, AreCells;
    var cells := CellsOf(slots);
    var w := SlotsOf(cells, |cells|);
    forall n | 0 <= n < NUM_QUANT_TBLS && slots[n].Some?
      ensures n < |cells| && cells[n].Some? && TableOf(cells[n].value) == slots[n].value
    {
      TableRoundTrip(slots[n].value);
    }
    if w.Written? {
      assert w.slots == slots;
    }
  }
}
