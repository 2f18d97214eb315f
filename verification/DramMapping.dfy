/** The address mapping of src/dram_controller.cc: contiguous fields of the address, with the channel, bank group
  * and bank permuted by bits of the row. Addresses and fields are lists of bits, lowest first. */
module DramMapping {
  import opened Bits

  const WIDTH: nat := 64

  /** [lower, upper) */
  datatype Extent = Extent(upper: nat, lower: nat)

  /** Field sizes in bits. */
  datatype Mapping = Mapping(offset: nat, channel: nat, bankgroup: nat, bank: nat, column: nat, rank: nat, row: nat)

  type Address = a: seq<bool> | |a| == WIDTH witness Zeros(WIDTH)

  function Sum(sizes: seq<nat>): nat {
    if sizes == [] then 0 else Sum(sizes[..|sizes| - 1]) + sizes[|sizes| - 1]
  }

  function Sizes(m: Mapping): seq<nat> { [m.offset, m.channel, m.bankgroup, m.bank, m.column, m.rank, m.row] }

  /** A mapping whose fields fit the address. */
  predicate Fits(m: Mapping) { Sum(Sizes(m)) < WIDTH }

  function Lowers(sizes: seq<nat>): (r: seq<Extent>)
    ensures |r| == |sizes|
  {
    seq(|sizes|, k requires 0 <= k < |sizes| => Extent(Sum(sizes[..k + 1]), Sum(sizes[..k])))
  }

  /** The partial sums of make_contiguous_extent_set give each field the place after the ones before it. */
  method MakeContiguousExtentSet(start: nat, sizes: seq<nat>) returns (extents: seq<Extent>)
    ensures |extents| == |sizes|
    ensures forall k :: 0 <= k < |sizes| ==>
      extents[k] == Extent(start + Sum(sizes[..k + 1]), start + Sum(sizes[..k]))
  {
    var lowers := [start];
    for k := 0 to |sizes|
      invariant |lowers| == k + 1 && forall j :: 0 <= j <= k ==> lowers[j] == start + Sum(sizes[..j])
    {
      assert sizes[..k + 1][..k] == sizes[..k];
      lowers := lowers + [lowers[k] + sizes[k]];
    }
    extents := [];
    for k := 0 to |sizes|
      invariant |extents| == k
      invariant forall j :: 0 <= j < k ==> extents[j] == Extent(lowers[j + 1], lowers[j])
    {
      extents := extents + [Extent(lowers[k + 1], lowers[k])];
    }
  }

  /** The fields for the given numbers of channels, banks and so on, each rounded down to a power of two. */
  method MakeSlicer(params: seq<nat>) returns (extents: seq<Extent>, ghost sizes: seq<nat>)
    requires forall k :: 0 <= k < |params| ==> params[k] > 0
    ensures |sizes| == |params| && extents == Lowers(sizes)
    ensures forall k :: 0 <= k < |params| ==> Pow2(sizes[k]) <= params[k] < Pow2(sizes[k] + 1)
  {
    var logs: seq<nat> := [];
    for k := 0 to |params|
      invariant |logs| == k && forall j :: 0 <= j < k ==> Pow2(logs[j]) <= params[j] < Pow2(logs[j] + 1)
    {
      var r := Lg2(params[k]);
      logs := logs + [r];
    }
    extents := MakeContiguousExtentSet(0, logs);
    sizes := logs;
  }

  lemma SumPrefix(sizes: seq<nat>, k: nat)
    requires k < |sizes|
    ensures Sum(sizes[..k + 1]) == Sum(sizes[..k]) + sizes[k]
  {
    assert sizes[..k + 1][..k] == sizes[..k];
  }

  // Slices.

  function Min(a: nat, b: nat): nat { if b < a then b else a }

  /** A slice of an address. */
  function Cut(a: Address, e: Extent): (r: seq<bool>)
    requires e.lower <= e.upper <= WIDTH
    ensures |r| == e.upper - e.lower
  {
    a[e.lower..e.upper]
  }

  /** A slice of a slice: the extent is relative, and cut off at the slice's size. */
  function Slice(s: seq<bool>, e: Extent): (r: seq<bool>)
    requires e.lower <= e.upper
    ensures |r| == Min(e.upper, |s|) - Min(e.lower, |s|)
  {
    s[Min(e.lower, |s|)..Min(e.upper, |s|)]
  }

  // The fields.

  lemma {:induction false} SumOrder(sizes: seq<nat>, j: nat, k: nat)
    requires j <= k <= |sizes|
    ensures Sum(sizes[..j]) <= Sum(sizes[..k])
  {
    if j < k {
      SumPrefix(sizes, k - 1);
      SumOrder(sizes, j, k - 1);
    }
  }

  /** The k-th field as it lies in the address. */
  function Raw(m: Mapping, a: Address, k: nat): (r: seq<bool>)
    requires Fits(m) && k < 7
    ensures |r| == Sizes(m)[k]
  {
    SumOrder(Sizes(m), k, k + 1);
    SumOrder(Sizes(m), k + 1, 7);
    assert Sizes(m)[..7] == Sizes(m);
    SumPrefix(Sizes(m), k);
    Cut(a, Lowers(Sizes(m))[k])
  }

  function RowSlice(m: Mapping, a: Address): seq<bool>
    requires Fits(m)
  {
    Raw(m, a, 6)
  }

  /** Where the row ends in the address; the swizzling loop compares with it. */
  function RowUpper(m: Mapping): nat { Sum(Sizes(m)) }

  function Segment(row: seq<bool>, segment: Extent, offset: nat, fieldBits: nat): (r: seq<bool>)
    requires segment.lower <= segment.upper
    ensures |r| <= fieldBits
  {
    Slice(Slice(row, segment), Extent(offset + fieldBits, offset))
  }

  /** The rest of the swizzling loop from the segment starting at lower. */
  function Swizzle(row: seq<bool>, rowUpper: nat, size: nat, offset: nat, lower: nat, field: seq<bool>): (r: seq<bool>)
    requires size > 0
    ensures |r| == |field|
    decreases rowUpper - lower
  {
    if lower + size > rowUpper then field
    else
      Swizzle(row, rowUpper, size, offset, lower + size,
              Xor(field, Segment(row, Extent(lower + size, lower), offset, |field|)))
  }

  method SwizzleBits(row: seq<bool>, rowUpper: nat, size: nat, offset: nat, field: seq<bool>) returns (r: seq<bool>)
    requires size > 0
    ensures r == Swizzle(row, rowUpper, size, offset, 0, field)
  {
    r := field;
    var lower := 0;
    while lower + size <= rowUpper
      invariant |r| == |field| && Swizzle(row, rowUpper, size, offset, lower, r)
          == Swizzle(row, rowUpper, size, offset, 0, field)
      decreases rowUpper - lower
    {
      r := Xor(r, Segment(row, Extent(lower + size, lower), offset, |field|));
      lower := lower + size;
    }
  }

  /** With segments of no bits at all the loop would stay where it is: its condition holds after any number of
    * rounds. With one bit or more it ends. */
  function LowerAfter(size: nat, rounds: nat): nat { if rounds == 0 then 0 else LowerAfter(size, rounds - 1) + size }

  lemma {:induction false} LoopEnds(size: nat, rowUpper: nat)
    ensures (forall rounds: nat :: LowerAfter(size, rounds) + size <= rowUpper) <==> size == 0
  {
    if size == 0 {
      forall rounds: nat ensures LowerAfter(size, rounds) == 0 { NeverMoves(rounds); }
    } else {
      Advances(size, rowUpper + 1);
      assert LowerAfter(size, rowUpper + 1) + size > rowUpper;
    }
  }

  lemma {:induction false} NeverMoves(rounds: nat)
    ensures LowerAfter(0, rounds) == 0
  {
    if rounds > 0 { NeverMoves(rounds - 1); }
  }

  lemma {:induction false} Advances(size: nat, rounds: nat)
    requires size > 0
    ensures LowerAfter(size, rounds) >= rounds
  {
    if rounds > 0 { Advances(size, rounds - 1); }
  }

  // Which bits of the row flip which bit of a field.

  /** The number of ones among the first n bits at positions congruent to r. */
  function Ones(row: seq<bool>, size: nat, r: nat, n: nat): nat
    requires size > 0 && n <= |row|
  {
    if n == 0 then 0 else Ones(row, size, r, n - 1) + if row[n - 1] && (n - 1) % size == r then 1 else 0
  }

  predicate Odd(n: nat) { n % 2 == 1 }

  lemma Remainder(j: nat, size: nat, d: nat)
    requires d < size
    ensures (j * size + d) % size == d && (j * size + d) / size == j
  {
    var n := j * size + d;
    var q, r := n / size, n % size;
    assert n == q * size + r;
    MixedRadixInjective(j, d, q, r, size);
  }

  /** A segment has one position of each remainder. */
  lemma {:induction false} SegmentOnes(row: seq<bool>, size: nat, r: nat, j: nat, d: nat)
    requires r < size && d <= size
    ensures Ones(row, size, r, Min(j * size + d, |row|)) == Ones(row, size, r, Min(j * size, |row|))
      + if r < d && j * size + r < |row| && row[j * size + r] then 1 else 0
  {
    if d > 0 {
      SegmentOnes(row, size, r, j, d - 1);
      Remainder(j, size, d - 1);
    }
  }

  /** Bit k of a segment's slice. */
  lemma SegmentBit(row: seq<bool>, lower: nat, size: nat, offset: nat, fieldBits: nat, k: nat)
    requires k < fieldBits
    ensures var s, p := Segment(row, Extent(lower + size, lower), offset, fieldBits), lower + offset + k;
            (k < |s| && s[k]) <==> (offset + k < size && p < |row| && row[p])
  {
    var segment := Slice(row, Extent(lower + size, lower));
    var s := Segment(row, Extent(lower + size, lower), offset, fieldBits);
    assert k < |s| <==> offset + k < |segment|;
    assert offset + k < |segment| <==> offset + k < size && lower + offset + k < |row|;
    if k < |s| { assert s[k] == segment[offset + k] == row[lower + offset + k]; }
  }

  /** Where the loop stops. */
  lemma Reached(j: nat, size: nat, rowUpper: nat)
    requires size > 0
    ensures j * size + size <= rowUpper <==> j < rowUpper / size
  {
    var q, r := rowUpper / size, rowUpper % size;
    assert rowUpper == q * size + r;
    assert j < q ==> (q - 1 - j) * size >= 0;
    assert j >= q ==> (j - q) * size >= 0;
    assert (j - q) * size == j * size - q * size;
    assert (q - 1 - j) * size == q * size - size - j * size;
  }

  /** One turn of the loop, seen at bit k. */
  lemma SwizzleTurn(row: seq<bool>, rowUpper: nat, size: nat, offset: nat, lower: nat, field: seq<bool>, k: nat)
      returns (next: seq<bool>)
    requires size > 0 && k < |field| && lower + size <= rowUpper
    ensures |next| == |field|
    ensures next[k] == (field[k] != (offset + k < size && lower + offset + k < |row| && row[lower + offset + k]))
    ensures Swizzle(row, rowUpper, size, offset, lower, field)
            == Swizzle(row, rowUpper, size, offset, lower + size, next)
  {
    SegmentBit(row, lower, size, offset, |field|, k);
    next := Xor(field, Segment(row, Extent(lower + size, lower), offset, |field|));
    hide Segment;
  }

  /** The parity of the row bits at positions congruent to r in the first j segments. */
  predicate Flips(row: seq<bool>, size: nat, r: nat, j: nat)
    requires size > 0
  {
    Odd(Ones(row, size, r, Min(j * size, |row|)))
  }

  /** The j-th segment starts at `lower`, and `reached` whole segments lie below the bound. */
  predicate Segmented(rowUpper: nat, size: nat, reached: nat, j: nat, lower: nat)
    requires size > 0
  {
    lower == j * size && reached == rowUpper / size
  }

  lemma FlipsMore(row: seq<bool>, rowUpper: nat, size: nat, r: nat, reached: nat, j: nat, lower: nat)
    requires r < size && Segmented(rowUpper, size, reached, j, lower)
    ensures Flips(row, size, r, j + 1) == (Flips(row, size, r, j) != (lower + r < |row| && row[lower + r]))
    ensures Segmented(rowUpper, size, reached, j + 1, lower + size)
    ensures lower + size <= rowUpper <==> j < reached
  {
    hide Flips, Ones;
    Reached(j, size, rowUpper);
    NextSegment(j, size);
    NextFlip(row, size, r, j);
  }

  lemma NextSegment(j: nat, size: nat)
    ensures (j + 1) * size == j * size + size
  {
  }

  lemma NextFlip(row: seq<bool>, size: nat, r: nat, j: nat)
    requires r < size
    ensures Flips(row, size, r, j + 1) == (Flips(row, size, r, j) != (j * size + r < |row| && row[j * size + r]))
  {
    hide Ones, Odd;
    SegmentOnes(row, size, r, j, size);
    NextSegment(j, size);
    OddMore(Ones(row, size, r, Min(j * size, |row|)));
  }

  /** The loop from the j-th segment on flips bit k once for each one at its positions in the segments reached. */
  lemma {:induction false} SwizzleFrom(row: seq<bool>, rowUpper: nat, size: nat, offset: nat, j: nat, lower: nat,
                                       reached: nat, field: seq<bool>, k: nat)
    requires size > 0 && k < |field| && offset + k < size && Segmented(rowUpper, size, reached, j, lower)
    requires j <= reached
    ensures Swizzle(row, rowUpper, size, offset, lower, field)[k]
      == (field[k] != (Flips(row, size, offset + k, reached) != Flips(row, size, offset + k, j)))
    decreases reached - j
  {
    hide Flips, Segmented, Swizzle;
    FlipsMore(row, rowUpper, size, offset + k, reached, j, lower);
    if j < reached {
      var next := SwizzleTurn(row, rowUpper, size, offset, lower, field, k);
      SwizzleFrom(row, rowUpper, size, offset, j + 1, lower + size, reached, next, k);
    } else {
      SwizzleStops(row, rowUpper, size, offset, lower, field);
    }
  }

  lemma SwizzleStops(row: seq<bool>, rowUpper: nat, size: nat, offset: nat, lower: nat, field: seq<bool>)
    requires size > 0 && lower + size > rowUpper
    ensures Swizzle(row, rowUpper, size, offset, lower, field) == field
  {
  }

  lemma OddMore(n: nat)
    ensures Odd(n + 1) == !Odd(n)
  {
  }

  /** Bits of the field beyond the segment stay as they are. */
  lemma {:induction false} SwizzleBeyond(row: seq<bool>, rowUpper: nat, size: nat, offset: nat, lower: nat,
                                         field: seq<bool>, k: nat)
    requires size > 0 && k < |field| && offset + k >= size
    ensures Swizzle(row, rowUpper, size, offset, lower, field)[k] == field[k]
    decreases rowUpper - lower
  {
    if lower + size <= rowUpper {
      var next := SwizzleTurn(row, rowUpper, size, offset, lower, field, k);
      hide Swizzle;
      SwizzleBeyond(row, rowUpper, size, offset, lower + size, next, k);
    }
  }

  /** Bit k of the swizzled field is its own bit, flipped once for each one of the row at the positions congruent to
    * offset + k modulo the segment size, among the whole segments below the bound. */
  lemma SwizzleBit(row: seq<bool>, rowUpper: nat, size: nat, offset: nat, field: seq<bool>, k: nat)
    requires size > 0 && k < |field|
    ensures Swizzle(row, rowUpper, size, offset, 0, field)[k] == (field[k] !=
      (offset + k < size && Flips(row, size, offset + k, rowUpper / size)))
  {
    if offset + k < size {
      assert !Flips(row, size, offset + k, 0);
      assert Segmented(rowUpper, size, rowUpper / size, 0, 0);
      SwizzleFrom(row, rowUpper, size, offset, 0, 0, rowUpper / size, field, k);
    } else {
      SwizzleBeyond(row, rowUpper, size, offset, 0, field, k);
    }
  }

  /** What a row does to a field is to flip some of its bits, whatever the field is. */
  function Mask(row: seq<bool>, rowUpper: nat, size: nat, offset: nat, fieldBits: nat): (r: seq<bool>)
    requires size > 0
    ensures |r| == fieldBits
  {
    Swizzle(row, rowUpper, size, offset, 0, Zeros(fieldBits))
  }

  lemma {:induction false} SwizzleFlips(row: seq<bool>, rowUpper: nat, size: nat, offset: nat, lower: nat,
                                        field: seq<bool>, more: seq<bool>)
    requires size > 0 && |more| == |field|
    ensures Swizzle(row, rowUpper, size, offset, lower, Xor(field, more))
            == Xor(field, Swizzle(row, rowUpper, size, offset, lower, more))
    decreases rowUpper - lower
  {
    if lower + size <= rowUpper {
      var segment := Segment(row, Extent(lower + size, lower), offset, |field|);
      XorAssoc(field, more, segment);
      SwizzleFlips(row, rowUpper, size, offset, lower + size, field, Xor(more, segment));
    }
  }

  lemma SwizzleIsMask(row: seq<bool>, rowUpper: nat, size: nat, offset: nat, field: seq<bool>)
    requires size > 0
    ensures Swizzle(row, rowUpper, size, offset, 0, field) == Xor(field, Mask(row, rowUpper, size, offset, |field|))
  {
    SwizzleFlips(row, rowUpper, size, offset, 0, field, Zeros(|field|));
    assert Xor(field, Zeros(|field|)) == field;
  }

  /** Where an address lies in the memory. */
  datatype Place = Place(offset: seq<bool>, channel: seq<bool>, bankgroup: seq<bool>, bank: seq<bool>,
                         column: seq<bool>, rank: seq<bool>, row: seq<bool>)

  /** The bank and bank group are permuted together, by segments of that many row bits. */
  function BankSegment(m: Mapping): nat { m.bankgroup + m.bank }

  predicate Usable(m: Mapping) { Fits(m) && BankSegment(m) > 0 }

  function Locate(m: Mapping, a: Address): Place
    requires Usable(m)
  {
    var row, up := RowSlice(m, a), RowUpper(m);
    Place(Raw(m, a, 0),
          Swizzle(row, up, 1, 0, 0, Raw(m, a, 1)),
          Swizzle(row, up, BankSegment(m), 0, 0, Raw(m, a, 2)),
          Swizzle(row, up, BankSegment(m), m.bankgroup, 0, Raw(m, a, 3)),
          Raw(m, a, 4), Raw(m, a, 5), row)
  }

  /** Bit k of the bank is flipped by the row bits at positions congruent to k above the bank group's, modulo the bits
    * of both; bit k of the bank group by those congruent to k; the lowest channel bit by all row bits; and nothing
    * else is flipped: every bit of the row counts. */
  lemma LocateBits(m: Mapping, a: Address, k: nat)
    requires Usable(m)
    ensures var p, row, size := Locate(m, a), RowSlice(m, a), m.bankgroup + m.bank;
            && |row| == m.row && |p.bank| == m.bank && |p.bankgroup| == m.bankgroup && |p.channel| == m.channel
            && (k < m.bank ==> p.bank[k] == (Raw(m, a, 3)[k] != Odd(Ones(row, size, m.bankgroup + k, m.row))))
            && (k < m.bankgroup ==> p.bankgroup[k] == (Raw(m, a, 2)[k] != Odd(Ones(row, size, k, m.row))))
            && (k < m.channel ==> p.channel[k] == (Raw(m, a, 1)[k] != (k == 0 && Odd(Ones(row, 1, 0, m.row)))))
  {
    SizesSum(m);
    hide Raw, Swizzle, Ones, Odd;
    if k < m.bank { BankBit(m, a, k); }
    if k < m.bankgroup { BankgroupBit(m, a, k); }
    if k < m.channel { ChannelBit(m, a, k); }
  }

  lemma BankBit(m: Mapping, a: Address, k: nat)
    requires Usable(m) && k < m.bank
    ensures |RowSlice(m, a)| == m.row
    ensures Locate(m, a).bank[k]
         == (Raw(m, a, 3)[k] != Odd(Ones(RowSlice(m, a), m.bankgroup + m.bank, m.bankgroup + k, m.row)))
  {
    SizesSum(m);
    hide Raw, Swizzle, Ones, Odd, Flips;
    SwizzleBit(RowSlice(m, a), RowUpper(m), m.bankgroup + m.bank, m.bankgroup, Raw(m, a, 3), k);
    AllReached(RowSlice(m, a), RowUpper(m), m.bankgroup + m.bank, m.bankgroup + k);
  }

  lemma BankgroupBit(m: Mapping, a: Address, k: nat)
    requires Usable(m) && k < m.bankgroup
    ensures |RowSlice(m, a)| == m.row
    ensures Locate(m, a).bankgroup[k]
         == (Raw(m, a, 2)[k] != Odd(Ones(RowSlice(m, a), m.bankgroup + m.bank, k, m.row)))
  {
    SizesSum(m);
    hide Raw, Swizzle, Ones, Odd, Flips;
    SwizzleBit(RowSlice(m, a), RowUpper(m), m.bankgroup + m.bank, 0, Raw(m, a, 2), k);
    AllReached(RowSlice(m, a), RowUpper(m), m.bankgroup + m.bank, k);
  }

  lemma ChannelBit(m: Mapping, a: Address, k: nat)
    requires Usable(m) && k < m.channel
    ensures |RowSlice(m, a)| == m.row
    ensures Locate(m, a).channel[k] == (Raw(m, a, 1)[k] != (k == 0 && Odd(Ones(RowSlice(m, a), 1, 0, m.row))))
  {
    SizesSum(m);
    hide Raw, Swizzle, Ones, Odd, Flips;
    SwizzleBit(RowSlice(m, a), RowUpper(m), 1, 0, Raw(m, a, 1), k);
    AllReached(RowSlice(m, a), RowUpper(m), 1, k);
  }

  /** The bound is that of the row in the address, so that the loop reaches every bit of the row. */
  lemma AllReached(row: seq<bool>, rowUpper: nat, size: nat, r: nat)
    requires size > 0 && |row| + size - 1 <= rowUpper
    ensures Flips(row, size, r, rowUpper / size) == Odd(Ones(row, size, r, |row|))
  {
    assert rowUpper == (rowUpper / size) * size + rowUpper % size;
    hide Ones, Odd;
  }

  predicate PlaceFits(m: Mapping, p: Place) {
    && |p.offset| == m.offset && |p.channel| == m.channel && |p.bankgroup| == m.bankgroup && |p.bank| == m.bank
    && |p.column| == m.column && |p.rank| == m.rank && |p.row| == m.row
  }

  function Unlocate(m: Mapping, p: Place): Address
    requires Usable(m) && PlaceFits(m, p)
  {
    var up := RowUpper(m);
    SizesSum(m);
    p.offset + Xor(p.channel, Mask(p.row, up, 1, 0, m.channel))
    + Xor(p.bankgroup, Mask(p.row, up, BankSegment(m), 0, m.bankgroup))
    + Xor(p.bank, Mask(p.row, up, BankSegment(m), m.bankgroup, m.bank))
    + p.column + p.rank + p.row + Zeros(WIDTH - up)
  }

  /** Within the memory's capacity. */
  predicate InCapacity(m: Mapping, a: Address)
    requires Fits(m)
  {
    a[RowUpper(m)..] == Zeros(WIDTH - RowUpper(m))
  }

  lemma SizesSum(m: Mapping)
    ensures Sum(Sizes(m)) == m.offset + m.channel + m.bankgroup + m.bank + m.column + m.rank + m.row
    ensures Sum(Sizes(m)[..0]) == 0 && Sum(Sizes(m)[..1]) == m.offset
    ensures Sum(Sizes(m)[..2]) == m.offset + m.channel
    ensures Sum(Sizes(m)[..3]) == m.offset + m.channel + m.bankgroup
    ensures Sum(Sizes(m)[..4]) == m.offset + m.channel + m.bankgroup + m.bank
    ensures Sum(Sizes(m)[..5]) == m.offset + m.channel + m.bankgroup + m.bank + m.column
    ensures Sum(Sizes(m)[..6]) == m.offset + m.channel + m.bankgroup + m.bank + m.column + m.rank
    ensures Sum(Sizes(m)[..7]) == Sum(Sizes(m))
  {
    var s := Sizes(m);
    SumPrefix(s, 0); SumPrefix(s, 1); SumPrefix(s, 2); SumPrefix(s, 3); SumPrefix(s, 4);
    SumPrefix(s, 5); SumPrefix(s, 6);
    assert s[..7] == s;
  }

  /** The fields tile the address: it is its fields one after another, and what lies above them. */
  lemma FieldsTile(m: Mapping, a: Address)
    requires Fits(m)
    ensures a == Raw(m, a, 0) + Raw(m, a, 1) + Raw(m, a, 2) + Raw(m, a, 3) + Raw(m, a, 4) + Raw(m, a, 5) + Raw(m, a, 6)
                 + a[RowUpper(m)..]
  {
    SizesSum(m);
    hide Sum;
  }

  lemma FieldsOf(m: Mapping, a: Address, f: seq<seq<bool>>, rest: seq<bool>)
    requires Fits(m) && |f| == 7 && (forall k :: 0 <= k < 7 ==> |f[k]| == Sizes(m)[k])
    requires a == f[0] + f[1] + f[2] + f[3] + f[4] + f[5] + f[6] + rest
    ensures forall k :: 0 <= k < 7 ==> Raw(m, a, k) == f[k]
    ensures a[RowUpper(m)..] == rest
  {
    SizesSum(m);
    hide Sum;
  }

  /** Addresses within the capacity and places correspond one to one. */
  lemma LocateUnlocate(m: Mapping, a: Address)
    requires Usable(m) && InCapacity(m, a)
    ensures PlaceFits(m, Locate(m, a)) && Unlocate(m, Locate(m, a)) == a
  {
    var p, up := Locate(m, a), RowUpper(m);
    SwizzleIsMask(p.row, up, 1, 0, Raw(m, a, 1));
    SwizzleIsMask(p.row, up, BankSegment(m), 0, Raw(m, a, 2));
    SwizzleIsMask(p.row, up, BankSegment(m), m.bankgroup, Raw(m, a, 3));
    XorTwice(Raw(m, a, 1), Mask(p.row, up, 1, 0, m.channel));
    XorTwice(Raw(m, a, 2), Mask(p.row, up, BankSegment(m), 0, m.bankgroup));
    XorTwice(Raw(m, a, 3), Mask(p.row, up, BankSegment(m), m.bankgroup, m.bank));
    FieldsTile(m, a);
    hide Raw, Swizzle, Mask, Xor, Zeros;
  }

  lemma UnlocateLocate(m: Mapping, p: Place)
    requires Usable(m) && PlaceFits(m, p)
    ensures InCapacity(m, Unlocate(m, p)) && Locate(m, Unlocate(m, p)) == p
  {
    var a, up := Unlocate(m, p), RowUpper(m);
    var c := Xor(p.channel, Mask(p.row, up, 1, 0, m.channel));
    var g := Xor(p.bankgroup, Mask(p.row, up, BankSegment(m), 0, m.bankgroup));
    var b := Xor(p.bank, Mask(p.row, up, BankSegment(m), m.bankgroup, m.bank));
    FieldsOf(m, a, [p.offset, c, g, b, p.column, p.rank, p.row], Zeros(WIDTH - up));
    SwizzleIsMask(p.row, up, 1, 0, c);
    SwizzleIsMask(p.row, up, BankSegment(m), 0, g);
    SwizzleIsMask(p.row, up, BankSegment(m), m.bankgroup, b);
    XorTwice(p.channel, Mask(p.row, up, 1, 0, m.channel));
    XorTwice(p.bankgroup, Mask(p.row, up, BankSegment(m), 0, m.bankgroup));
    XorTwice(p.bank, Mask(p.row, up, BankSegment(m), m.bankgroup, m.bank));
    hide Raw, Swizzle, Mask, Xor;
  }

  // Bank numbers.

  function BankgroupIndex(m: Mapping, p: Place): nat
    requires PlaceFits(m, p)
  {
    Value(p.rank) * Pow2(m.bankgroup) + Value(p.bankgroup)
  }

  function BankIndex(m: Mapping, p: Place): nat
    requires PlaceFits(m, p)
  {
    BankgroupIndex(m, p) * Pow2(m.bank) + Value(p.bank)
  }

  /** Digits of a number with mixed bases: in range, and different digits give different numbers. */
  lemma MixedRadix(hi: int, lo: int, base: int, top: int)
    requires 0 <= lo < base && 0 <= hi < top
    ensures hi * base + lo < top * base
  {
    assert (top - 1 - hi) * base >= 0;
    assert (top - 1 - hi) * base == top * base - base - hi * base;
  }

  lemma MixedRadixInjective(hi: int, lo: int, hi': int, lo': int, base: int)
    requires 0 <= lo < base && 0 <= lo' < base && hi * base + lo == hi' * base + lo'
    ensures hi == hi' && lo == lo'
  {
    assert (hi - hi') * base == lo' - lo;
    assert hi - hi' >= 1 ==> (hi - hi') * base >= base;
    assert hi - hi' <= -1 ==> (hi - hi') * base <= -base;
  }

  /** Every place has a bank of its own number among ranks, bank groups and banks; no two banks share one. */
  lemma BankIndexInRange(m: Mapping, p: Place)
    requires PlaceFits(m, p)
    ensures BankgroupIndex(m, p) < Pow2(m.rank) * Pow2(m.bankgroup)
    ensures BankIndex(m, p) < Pow2(m.rank) * Pow2(m.bankgroup) * Pow2(m.bank)
  {
    MixedRadix(Value(p.rank), Value(p.bankgroup), Pow2(m.bankgroup), Pow2(m.rank));
    MixedRadix(BankgroupIndex(m, p), Value(p.bank), Pow2(m.bank), Pow2(m.rank) * Pow2(m.bankgroup));
  }

  /** Banks are numbered group by group. */
  lemma BankIndexGroup(m: Mapping, p: Place)
    requires PlaceFits(m, p)
    ensures BankIndex(m, p) / Pow2(m.bank) == BankgroupIndex(m, p)
  {
    Remainder(BankgroupIndex(m, p), Pow2(m.bank), Value(p.bank));
  }

  lemma BankIndexInjective(m: Mapping, p: Place, q: Place)
    requires PlaceFits(m, p) && PlaceFits(m, q) && BankIndex(m, p) == BankIndex(m, q)
    ensures p.rank == q.rank && p.bankgroup == q.bankgroup && p.bank == q.bank
  {
    MixedRadixInjective(BankgroupIndex(m, p), Value(p.bank), BankgroupIndex(m, q), Value(q.bank), Pow2(m.bank));
    MixedRadixInjective(Value(p.rank), Value(p.bankgroup), Value(q.rank), Value(q.bankgroup), Pow2(m.bankgroup));
    ValueInjective(p.rank, q.rank);
    ValueInjective(p.bankgroup, q.bankgroup);
    ValueInjective(p.bank, q.bank);
  }

  predicate IsCollision(m: Mapping, a: Address, b: Address)
    requires Fits(m)
  {
    SumOrder(Sizes(m), 1, 7);
    SizesSum(m);
    a[m.offset..] == b[m.offset..]
  }

  /** Two addresses within the capacity collide exactly when they share channel, bank number, row and column. */
  lemma CollisionIsSamePlace(m: Mapping, a: Address, b: Address)
    requires Usable(m) && InCapacity(m, a) && InCapacity(m, b)
    ensures var p, q := Locate(m, a), Locate(m, b);
            && PlaceFits(m, p) && PlaceFits(m, q)
            && (IsCollision(m, a, b) <==>
                p.channel == q.channel && BankIndex(m, p) == BankIndex(m, q) && p.row == q.row && p.column == q.column)
  {
    hide Locate, Unlocate, Raw, Sum, InCapacity, IsCollision, Lowers;
    var p, q := Locate(m, a), Locate(m, b);
    LocateUnlocate(m, a);
    LocateUnlocate(m, b);
    if IsCollision(m, a, b) {
      SamePlace(m, a, b);
    } else if p.channel == q.channel && BankIndex(m, p) == BankIndex(m, q) && p.row == q.row && p.column == q.column {
      BankIndexInjective(m, p, q);
      SameAbove(m, p, q);
      assert false;
    }
  }

  lemma SamePlace(m: Mapping, a: Address, b: Address)
    requires Usable(m) && IsCollision(m, a, b)
    ensures Locate(m, a) == Locate(m, b).(offset := Locate(m, a).offset)
  {
    hide Raw, Sum, IsCollision, Swizzle;
    forall k | 1 <= k < 7 ensures Raw(m, a, k) == Raw(m, b, k) { SameRaw(m, a, b, k); }
  }

  lemma SameRaw(m: Mapping, a: Address, b: Address, k: nat)
    requires Fits(m) && IsCollision(m, a, b) && 1 <= k < 7
    ensures Raw(m, a, k) == Raw(m, b, k)
  {
    SumOrder(Sizes(m), 1, k);
    SizesSum(m);
    var e := Lowers(Sizes(m))[k];
    SumOrder(Sizes(m), k, k + 1);
    forall i | e.lower <= i < e.upper ensures a[i] == b[i] {
      assert a[i] == a[m.offset..][i - m.offset] && b[i] == b[m.offset..][i - m.offset];
    }
  }

  lemma SameAbove(m: Mapping, p: Place, q: Place)
    requires Usable(m) && PlaceFits(m, p) && PlaceFits(m, q) && q == p.(offset := q.offset)
    ensures IsCollision(m, Unlocate(m, p), Unlocate(m, q))
  {
    SizesSum(m);
    hide Xor, Mask;
  }
}
