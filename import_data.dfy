/** The bulk import script: it empties both tables, loads one product per
    code, then loads the history rows that have a product id, in chunks of
    10000 rows, committing after each phase and rolling back the open
    transaction when anything raises. Frames are sequences of rows; the
    spreadsheet read, the CSV buffers and the database are reduced to their
    logical effect. */
module ImportData {
  import opened Wrappers
  import opened Seqs

  /** One spreadsheet row; any cell may be empty (NaN). */
  datatype Row = Row(
    productCode: Option<string>,
    productName: Option<string>,
    date: int,
    openingStock: Option<int>,
    inboundQuantity: Option<int>,
    soldQuantity: Option<int>,
    closingStock: Option<int>)

  /** A row of `df[['product_code', 'product_name']]`. */
  datatype Candidate = Candidate(code: Option<string>, name: Option<string>)

  /** A row of the `products` table as the script inserts it. */
  datatype ProductRow = ProductRow(code: string, name: string)

  /** A row of the `product_history` table as the script inserts it. */
  datatype HistoryRow = HistoryRow(
    productId: int,
    date: int,
    openingStock: Option<int>,
    inboundQuantity: Option<int>,
    soldQuantity: Option<int>,
    closingStock: Option<int>)

  const ChunkSize: nat := 10000

  function CandidateOf(r: Row): Candidate {
    Candidate(r.productCode, r.productName)
  }

  predicate DistinctCandidateCodes(cs: seq<Candidate>) {
    forall i, j :: 0 <= i < j < |cs| ==> cs[i].code != cs[j].code
  }

  predicate DistinctCodes(ps: seq<ProductRow>) {
    forall i, j :: 0 <= i < j < |ps| ==> ps[i].code != ps[j].code
  }

  /** `drop_duplicates(subset=['product_code'], keep='first')` over the rows
      not yet seen, with `seen` the codes already kept. Empty codes count
      as one value, as they do for `drop_duplicates`. */
  function DedupFrom(df: seq<Row>, seen: set<Option<string>>): (r: seq<Candidate>)
    ensures |r| <= |df|
  {
    if df == [] then []
    else if df[0].productCode in seen then DedupFrom(df[1..], seen)
    else [CandidateOf(df[0])] + DedupFrom(df[1..], seen + {df[0].productCode})
  }

  function Dedup(df: seq<Row>): (r: seq<Candidate>)
    ensures |r| <= |df|
  {
    DedupFrom(df, {})
  }

  /** The deduplicated rows carry distinct codes, none of them already
      seen. */
  lemma {:induction false} DedupFromDistinct(df: seq<Row>, seen: set<Option<string>>)
    ensures forall c :: c in DedupFrom(df, seen) ==> c.code !in seen
    ensures DistinctCandidateCodes(DedupFrom(df, seen))
  {
    if df != [] {
      if df[0].productCode in seen {
        DedupFromDistinct(df[1..], seen);
      } else {
        var h := CandidateOf(df[0]);
        var rest := DedupFrom(df[1..], seen + {df[0].productCode});
        DedupFromDistinct(df[1..], seen + {df[0].productCode});
        var r := [h] + rest;
        assert r == DedupFrom(df, seen);
        forall i, j | 0 <= i < j < |r| ensures r[i].code != r[j].code {
          assert r[j] == rest[j - 1] && r[j] in rest;
          if i > 0 { assert r[i] == rest[i - 1]; }
        }
      }
    }
  }

  /** `.dropna()`: candidates with both cells present. */
  function DropNa(cs: seq<Candidate>): (r: seq<ProductRow>)
    ensures |r| <= |cs|
  {
    if cs == [] then []
    else if cs[0].code.Some? && cs[0].name.Some? then [ProductRow(cs[0].code.value, cs[0].name.value)] + DropNa(cs[1..])
    else DropNa(cs[1..])
  }

  /** A product row survives `dropna` exactly when a candidate with both
      cells present carries it. */
  lemma {:induction false} DropNaMember(cs: seq<Candidate>, p: ProductRow)
    ensures p in DropNa(cs) <==> Candidate(Some(p.code), Some(p.name)) in cs
  {
    if cs != [] {
      DropNaMember(cs[1..], p);
      assert Candidate(Some(p.code), Some(p.name)) in cs <==>
        cs[0] == Candidate(Some(p.code), Some(p.name)) || Candidate(Some(p.code), Some(p.name)) in cs[1..];
    }
  }

  /** The frame copied into `products`. */
  function ProductLoad(df: seq<Row>): (p: seq<ProductRow>)
    ensures |p| <= |df|
  {
    DropNa(Dedup(df))
  }

  /** The index of the first row carrying `code`, or -1. */
  function FirstIndexOf(df: seq<Row>, code: Option<string>): (i: int)
    ensures -1 <= i < |df|
    ensures i == -1 <==> forall k :: 0 <= k < |df| ==> df[k].productCode != code
    ensures i >= 0 ==> df[i].productCode == code && forall k :: 0 <= k < i ==> df[k].productCode != code
  {
    if df == [] then -1
    else if df[0].productCode == code then 0
    else
      var j := FirstIndexOf(df[1..], code);
      if j == -1 then -1 else j + 1
  }

  /** The deduplicated frame holds, for each code not yet seen, exactly the
      cells of the first row with that code. */
  lemma {:induction false} DedupFromFirstOccurrence(df: seq<Row>, seen: set<Option<string>>, code: Option<string>)
    requires code !in seen
    ensures var i := FirstIndexOf(df, code);
      (exists c :: c in DedupFrom(df, seen) && c.code == code) <==> i >= 0
    ensures var i := FirstIndexOf(df, code);
      i >= 0 ==> CandidateOf(df[i]) in DedupFrom(df, seen)
  {
    if df != [] {
      var r := DedupFrom(df, seen);
      if df[0].productCode == code {
        assert r[0] == CandidateOf(df[0]);
      } else if df[0].productCode in seen {
        DedupFromFirstOccurrence(df[1..], seen, code);
        var j := FirstIndexOf(df[1..], code);
        if j >= 0 { assert df[1..][j] == df[j + 1]; }
      } else {
        var rest := DedupFrom(df[1..], seen + {df[0].productCode});
        DedupFromFirstOccurrence(df[1..], seen + {df[0].productCode}, code);
        assert r == [CandidateOf(df[0])] + rest;
        var j := FirstIndexOf(df[1..], code);
        if j >= 0 { assert df[1..][j] == df[j + 1]; }
        if exists c :: c in r && c.code == code {
          var c :| c in r && c.code == code;
          assert c in rest;
        }
      }
    }
  }

  /** Each code is loaded at most once. */
  lemma ProductCodesUnique(df: seq<Row>)
    ensures DistinctCodes(ProductLoad(df))
  {
    DedupFromDistinct(df, {});
    DropNaKeepsDistinctCodes(Dedup(df));
  }

  lemma {:induction false} DropNaKeepsDistinctCodes(cs: seq<Candidate>)
    requires DistinctCandidateCodes(cs)
    ensures DistinctCodes(DropNa(cs))
  {
    if cs != [] {
      var tail := cs[1..];
      assert DistinctCandidateCodes(tail) by {
        forall i, j | 0 <= i < j < |tail| ensures tail[i].code != tail[j].code {
          assert tail[i] == cs[i + 1] && tail[j] == cs[j + 1];
        }
      }
      DropNaKeepsDistinctCodes(tail);
      var rest := DropNa(tail);
      if cs[0].code.Some? && cs[0].name.Some? {
        var h := ProductRow(cs[0].code.value, cs[0].name.value);
        var p := [h] + rest;
        assert p == DropNa(cs);
        forall j | 0 <= j < |rest| ensures rest[j].code != h.code {
          assert rest[j] in rest;
          DropNaMember(tail, rest[j]);
          var m :| 0 <= m < |tail| && tail[m] == Candidate(Some(rest[j].code), Some(rest[j].name));
          assert cs[m + 1] == tail[m];
        }
        forall i, j | 0 <= i < j < |p| ensures p[i].code != p[j].code {
          assert p[j] == rest[j - 1];
          if i > 0 { assert p[i] == rest[i - 1]; }
        }
      }
    }
  }

  /** Past the first row, the first index of another code is one more
      than in the rest. */
  lemma FirstIndexOfTail(df: seq<Row>, code: Option<string>)
    requires df != [] && df[0].productCode != code && FirstIndexOf(df[1..], code) >= 0
    ensures FirstIndexOf(df, code) == FirstIndexOf(df[1..], code) + 1
  {
  }

  /** Every kept code occurs in the frame. */
  lemma {:induction false} DedupFromCodesOccur(df: seq<Row>, seen: set<Option<string>>)
    ensures forall c :: c in DedupFrom(df, seen) ==> FirstIndexOf(df, c.code) >= 0
  {
    if df != [] {
      var c0 := df[0].productCode;
      var seen' := if c0 in seen then seen else seen + {c0};
      DedupFromCodesOccur(df[1..], seen');
    }
  }

  /** Once the first row's code is seen, the codes kept from the rest lie
      one row further in the whole frame. */
  lemma DedupTailShift(df: seq<Row>, seen: set<Option<string>>)
    requires df != [] && df[0].productCode in seen
    ensures forall c :: c in DedupFrom(df[1..], seen) ==> FirstIndexOf(df, c.code) == FirstIndexOf(df[1..], c.code) + 1 >= 1
  {
    DedupFromCodesOccur(df[1..], seen);
    DedupFromDistinct(df[1..], seen);
    forall c | c in DedupFrom(df[1..], seen) ensures FirstIndexOf(df, c.code) == FirstIndexOf(df[1..], c.code) + 1 >= 1 {
      FirstIndexOfTail(df, c.code);
    }
  }

  /** Candidates whose codes increase under `key`. */
  ghost predicate OrderedBy(cs: seq<Candidate>, key: Option<string> -> int) {
    forall i, j :: 0 <= i < j < |cs| ==> key(cs[i].code) < key(cs[j].code)
  }

  /** Shifting every key by one keeps the order. */
  lemma ShiftOrdered(cs: seq<Candidate>, f: Option<string> -> int, g: Option<string> -> int)
    requires OrderedBy(cs, g)
    requires forall c :: c in cs ==> f(c.code) == g(c.code) + 1
    ensures OrderedBy(cs, f)
  {
    forall i, j | 0 <= i < j < |cs| ensures f(cs[i].code) < f(cs[j].code) {
      assert cs[i] in cs && cs[j] in cs;
    }
  }

  /** A head whose key is below every key of an ordered tail keeps it ordered. */
  lemma ConsOrdered(h: Candidate, cs: seq<Candidate>, key: Option<string> -> int)
    requires OrderedBy(cs, key)
    requires forall c :: c in cs ==> key(h.code) < key(c.code)
    ensures OrderedBy([h] + cs, key)
  {
    var out := [h] + cs;
    forall i, j | 0 <= i < j < |out| ensures key(out[i].code) < key(out[j].code) {
      assert out[j] == cs[j - 1] && out[j] in cs;
      if i > 0 { assert out[i] == cs[i - 1]; }
    }
  }

  /** `keep='first'` keeps the codes in the order of their first
      occurrences in the frame. */
  lemma {:induction false} DedupFromInFirstOccurrenceOrder(df: seq<Row>, seen: set<Option<string>>)
    ensures forall i, j :: 0 <= i < j < |DedupFrom(df, seen)| ==>
      FirstIndexOf(df, DedupFrom(df, seen)[i].code) < FirstIndexOf(df, DedupFrom(df, seen)[j].code)
  {
    if df != [] {
      var c0 := df[0].productCode;
      var seen' := if c0 in seen then seen else seen + {c0};
      var rest := DedupFrom(df[1..], seen');
      var f := (c: Option<string>) => FirstIndexOf(df, c);
      var g := (c: Option<string>) => FirstIndexOf(df[1..], c);
      DedupFromInFirstOccurrenceOrder(df[1..], seen');
      assert OrderedBy(rest, g);
      DedupTailShift(df, seen');
      ShiftOrdered(rest, f, g);
      if c0 !in seen {
        assert f(c0) == 0;
        ConsOrdered(CandidateOf(df[0]), rest, f);
        assert DedupFrom(df, seen) == [CandidateOf(df[0])] + rest;
      }
      assert OrderedBy(DedupFrom(df, seen), f);
    }
  }

  /** `dropna` keeps the order of the rows it keeps: codes increasing
      under any key stay increasing. */
  lemma {:induction false} DropNaKeepsOrder(cs: seq<Candidate>, key: Option<string> -> int)
    requires forall i, j :: 0 <= i < j < |cs| ==> key(cs[i].code) < key(cs[j].code)
    ensures forall i, j :: 0 <= i < j < |DropNa(cs)| ==> key(Some(DropNa(cs)[i].code)) < key(Some(DropNa(cs)[j].code))
  {
    if cs != [] {
      var tail := cs[1..];
      assert forall i, j :: 0 <= i < j < |tail| ==> key(tail[i].code) < key(tail[j].code) by {
        forall i, j | 0 <= i < j < |tail| ensures key(tail[i].code) < key(tail[j].code) {
          assert tail[i] == cs[i + 1] && tail[j] == cs[j + 1];
        }
      }
      DropNaKeepsOrder(tail, key);
      var rest := DropNa(tail);
      if cs[0].code.Some? && cs[0].name.Some? {
        var h := ProductRow(cs[0].code.value, cs[0].name.value);
        var out := [h] + rest;
        assert out == DropNa(cs);
        forall j | 0 <= j < |rest| ensures key(Some(h.code)) < key(Some(rest[j].code)) {
          assert rest[j] in rest;
          DropNaMember(tail, rest[j]);
          var m :| 0 <= m < |tail| && tail[m] == Candidate(Some(rest[j].code), Some(rest[j].name));
          assert cs[m + 1] == tail[m];
        }
        forall i, j | 0 <= i < j < |out|
          ensures key(Some(out[i].code)) < key(Some(out[j].code))
        {
          assert out[j] == rest[j - 1];
          if i > 0 { assert out[i] == rest[i - 1]; }
        }
      }
    }
  }

  /** The products are copied in the order in which their codes first
      appear in the frame; with `RESTART IDENTITY`, ids therefore follow
      that order (`LoadedProductId`). */
  lemma ProductsInFirstOccurrenceOrder(df: seq<Row>)
    ensures forall p :: p in ProductLoad(df) ==> FirstIndexOf(df, Some(p.code)) >= 0
    ensures forall i, j :: 0 <= i < j < |ProductLoad(df)| ==>
      FirstIndexOf(df, Some(ProductLoad(df)[i].code)) < FirstIndexOf(df, Some(ProductLoad(df)[j].code))
  {
    var d := Dedup(df);
    DedupFromInFirstOccurrenceOrder(df, {});
    DedupFromCodesOccur(df, {});
    var key := (c: Option<string>) => FirstIndexOf(df, c);
    DropNaKeepsOrder(d, key);
    forall p | p in ProductLoad(df) ensures FirstIndexOf(df, Some(p.code)) >= 0 {
      DropNaMember(d, p);
    }
  }

  /** A product is loaded, with the name of the first row carrying its
      code, exactly when that first row has a name. A code whose first row
      lacks a name is not loaded at all, even if a later row has one,
      because the duplicates are dropped before the empty cells. */
  lemma ProductLoadedIffFirstRowNamed(df: seq<Row>, code: string)
    ensures var i := FirstIndexOf(df, Some(code));
      (exists p :: p in ProductLoad(df) && p.code == code)
      <==> (i >= 0 && df[i].productName.Some?)
    ensures var i := FirstIndexOf(df, Some(code));
      i >= 0 && df[i].productName.Some? ==> ProductRow(code, df[i].productName.value) in ProductLoad(df)
  {
    var d := Dedup(df);
    var i := FirstIndexOf(df, Some(code));
    DedupFromFirstOccurrence(df, {}, Some(code));
    DedupFromDistinct(df, {});
    if exists p :: p in ProductLoad(df) && p.code == code {
      var p :| p in ProductLoad(df) && p.code == code;
      DropNaMember(d, p);
      var c := Candidate(Some(p.code), Some(p.name));
      assert c in d;
      assert i >= 0;
      var k :| 0 <= k < |d| && d[k] == c;
      var k' :| 0 <= k' < |d| && d[k'] == CandidateOf(df[i]);
      assert k == k';
    }
    if i >= 0 && df[i].productName.Some? {
      DropNaMember(d, ProductRow(code, df[i].productName.value));
    }
  }

  /** The ids the `products` table gives the loaded rows: after `RESTART
      IDENTITY` the serial id counts from 1 in insertion order. */
  function IdMap(products: seq<ProductRow>): (ids: map<string, int>)
    ensures forall c :: c in ids ==> 1 <= ids[c] <= |products|
  {
    if products == [] then map[]
    else IdMap(products[..|products| - 1])[products[|products| - 1].code := |products|]
  }

  /** Every loaded product gets an id, and nothing else does. */
  lemma {:induction false} IdMapKeys(products: seq<ProductRow>)
    ensures IdMap(products).Keys == set p | p in products :: p.code
  {
    if products != [] {
      var prefix := products[..|products| - 1];
      IdMapKeys(prefix);
      assert products == prefix + [products[|products| - 1]];
    }
  }

  /** With distinct codes, the id of the `k`-th product is `k + 1`. */
  lemma {:induction false} IdMapPositions(products: seq<ProductRow>, k: int)
    requires DistinctCodes(products)
    requires 0 <= k < |products|
    ensures products[k].code in IdMap(products) && IdMap(products)[products[k].code] == k + 1
  {
    var prefix := products[..|products| - 1];
    if k < |products| - 1 {
      IdMapPositions(prefix, k);
      assert products[k] == prefix[k];
    }
  }

  /** The history rows of a loaded product carry the product's position in
      the load plus one. */
  lemma LoadedProductId(df: seq<Row>, k: int)
    requires 0 <= k < |ProductLoad(df)|
    ensures ProductLoad(df)[k].code in IdMap(ProductLoad(df))
    ensures IdMap(ProductLoad(df))[ProductLoad(df)[k].code] == k + 1
  {
    ProductCodesUnique(df);
    IdMapPositions(ProductLoad(df), k);
  }

  /** `df['product_code'].map(product_id_map)` followed by
      `dropna(subset=['product_id'])` and the column selection. */
  function HistoryRows(df: seq<Row>, ids: map<string, int>): (h: seq<HistoryRow>)
    ensures |h| <= |df|
  {
    if df == [] then []
    else
      (if HasProductId(df[0], ids) then [HistoryRowOf(df[0], ids)] else [])
      + HistoryRows(df[1..], ids)
  }

  predicate HasProductId(r: Row, ids: map<string, int>) {
    r.productCode.Some? && r.productCode.value in ids
  }

  /** The history row a spreadsheet row becomes: the id its code maps to,
      and the row's own date and quantities. */
  function HistoryRowOf(r: Row, ids: map<string, int>): HistoryRow
    requires HasProductId(r, ids)
  {
    HistoryRow(ids[r.productCode.value], r.date, r.openingStock, r.inboundQuantity, r.soldQuantity, r.closingStock)
  }

  /** The spreadsheet rows whose code has an id, in frame order. */
  function KeptRows(df: seq<Row>, ids: map<string, int>): seq<Row> {
    Filter(df, (r: Row) => HasProductId(r, ids))
  }

  /** The `i`-th history row is made from the `i`-th spreadsheet row that
      has an id: nothing is reordered, and no row takes another row's id
      or quantities. */
  lemma {:induction false} HistoryRowsCorrespond(df: seq<Row>, ids: map<string, int>)
    ensures |HistoryRows(df, ids)| == |KeptRows(df, ids)|
    ensures forall i :: 0 <= i < |KeptRows(df, ids)| ==>
      HasProductId(KeptRows(df, ids)[i], ids) && HistoryRows(df, ids)[i] == HistoryRowOf(KeptRows(df, ids)[i], ids)
  {
    if df != [] {
      HistoryRowsCorrespond(df[1..], ids);
      var h, k := HistoryRows(df, ids), KeptRows(df, ids);
      var h', k' := HistoryRows(df[1..], ids), KeptRows(df[1..], ids);
      if HasProductId(df[0], ids) {
        assert h == [HistoryRowOf(df[0], ids)] + h';
        assert k == [df[0]] + k';
        forall i | 0 <= i < |k| ensures HasProductId(k[i], ids) && h[i] == HistoryRowOf(k[i], ids) {
          if i > 0 {
            assert k[i] == k'[i - 1] && h[i] == h'[i - 1];
          }
        }
      } else {
        assert h == h' && k == k';
      }
    }
  }

  /** Each copied history row carries the id of its own spreadsheet row's
      product: the product loaded at position `productId - 1` has that
      row's code, and the date and quantities are the row's own. */
  lemma ToCopyRowNamesItsProduct(df: seq<Row>, i: int)
    requires 0 <= i < |ToCopy(df)|
    ensures |KeptRows(df, IdMap(ProductLoad(df)))| == |ToCopy(df)|
    ensures var r := KeptRows(df, IdMap(ProductLoad(df)))[i];
      var h := ToCopy(df)[i];
      && 1 <= h.productId <= |ProductLoad(df)|
      && r.productCode == Some(ProductLoad(df)[h.productId - 1].code)
      && h.date == r.date && h.openingStock == r.openingStock && h.inboundQuantity == r.inboundQuantity
      && h.soldQuantity == r.soldQuantity && h.closingStock == r.closingStock
  {
    var products := ProductLoad(df);
    var ids := IdMap(products);
    HistoryRowsCorrespond(df, ids);
    var r := KeptRows(df, ids)[i];
    var c := r.productCode.value;
    IdMapKeys(products);
    assert c in set p | p in products :: p.code;
    var p :| p in products && p.code == c;
    var k :| 0 <= k < |products| && products[k] == p;
    LoadedProductId(df, k);
  }

  /** History rows without a product id are dropped; the others are kept
      in their order. */
  lemma {:induction false} HistoryRowsKeepOrder(a: seq<Row>, b: seq<Row>, ids: map<string, int>)
    ensures HistoryRows(a + b, ids) == HistoryRows(a, ids) + HistoryRows(b, ids)
  {
    if a == [] {
      assert a + b == b;
    } else {
      assert (a + b)[1..] == a[1..] + b;
      HistoryRowsKeepOrder(a[1..], b, ids);
    }
  }

  lemma {:induction false} HistoryRowsCount(df: seq<Row>, ids: map<string, int>)
    ensures (forall i :: 0 <= i < |df| ==> HasProductId(df[i], ids)) ==> |HistoryRows(df, ids)| == |df|
    ensures (forall i :: 0 <= i < |df| ==> !HasProductId(df[i], ids)) ==> HistoryRows(df, ids) == []
  {
    if df != [] {
      HistoryRowsCount(df[1..], ids);
      assert forall i :: 1 <= i < |df| ==> df[1..][i - 1] == df[i];
    }
  }

  /** The history of a code whose first row has no name is not loaded:
      the product is missing, so its rows find no id. */
  lemma UnnamedProductHasNoHistory(df: seq<Row>, code: string)
    requires var i := FirstIndexOf(df, Some(code)); i >= 0 && df[i].productName.None?
    ensures code !in IdMap(ProductLoad(df))
  {
    ProductLoadedIffFirstRowNamed(df, code);
    IdMapKeys(ProductLoad(df));
  }

  /** The chunks of the copy loop, `df[i:i + chunk_size]` for `i` in
      `range(0, len(df), chunk_size)`. */
  function Chunks<T>(rows: seq<T>): (cs: seq<seq<T>>)
    ensures |cs| <= |rows|
    decreases |rows|
  {
    if rows == [] then []
    else
      var n := if |rows| < ChunkSize then |rows| else ChunkSize;
      [rows[..n]] + Chunks(rows[n..])
  }

  /** The chunks are non-empty, hold at most `chunk_size` rows each and
      together are the whole frame, in order. */
  lemma {:induction false} ChunksPartition<T>(rows: seq<T>)
    ensures forall k :: 0 <= k < |Chunks(rows)| ==> 0 < |Chunks(rows)[k]| <= ChunkSize
    ensures Flatten(Chunks(rows)) == rows
    decreases |rows|
  {
    if rows != [] {
      var n := if |rows| < ChunkSize then |rows| else ChunkSize;
      ChunksPartition(rows[n..]);
      assert rows == rows[..n] + rows[n..];
    }
  }

  /** Chunk `k` is the slice starting at `k * chunk_size`, clipped at the
      end of the frame. */
  lemma {:induction false} ChunkIsSlice<T>(rows: seq<T>, k: nat)
    requires k < |Chunks(rows)|
    ensures k * ChunkSize < |rows|
    ensures Chunks(rows)[k] == rows[k * ChunkSize .. if (k + 1) * ChunkSize < |rows| then (k + 1) * ChunkSize else |rows|]
    decreases k
  {
    if k > 0 {
      var n := if |rows| < ChunkSize then |rows| else ChunkSize;
      assert n == ChunkSize;
      ChunkIsSlice(rows[ChunkSize..], k - 1);
      assert rows[ChunkSize..][(k - 1) * ChunkSize ..] == rows[k * ChunkSize ..];
    }
  }

  /** Where the chunk starting at `i` ends. */
  function ChunkEnd(i: nat, n: nat): (e: nat)
    requires i < n
    ensures i < e <= n && e - i <= ChunkSize
    ensures e < n ==> e == i + ChunkSize
  {
    if i + ChunkSize < n then i + ChunkSize else n
  }

  /** One turn of the copy loop takes the first chunk of what is left. */
  lemma ChunksUnfold<T>(rows: seq<T>, i: nat)
    requires i < |rows|
    ensures Chunks(rows[i..]) == [rows[i..ChunkEnd(i, |rows|)]] + Chunks(rows[ChunkEnd(i, |rows|)..])
  {
    var e := ChunkEnd(i, |rows|);
    assert rows[i..][..e - i] == rows[i..e];
    assert rows[i..][e - i..] == rows[e..];
  }

  /** One turn of the copy loop keeps the chunks split into those sent
      and those of the rows left, and extends the copied prefix. */
  lemma CopyStep<T>(rows: seq<T>, i: nat, sent: seq<seq<T>>)
    requires i < |rows| && Chunks(rows) == sent + Chunks(rows[i..])
    ensures Chunks(rows) == (sent + [rows[i..ChunkEnd(i, |rows|)]]) + Chunks(rows[ChunkEnd(i, |rows|)..])
    ensures rows[..ChunkEnd(i, |rows|)] == rows[..i] + rows[i..ChunkEnd(i, |rows|)]
  {
    var e := ChunkEnd(i, |rows|);
    var rest := Chunks(rows[e..]);
    ChunksUnfold(rows, i);
    assert sent + ([rows[i..e]] + rest) == (sent + [rows[i..e]]) + rest;
    assert rows[..e] == rows[..i] + rows[i..e];
  }

  /** The loop runs `ceil(len(df) / chunk_size)` times. */
  lemma {:induction false} ChunkCount<T>(rows: seq<T>)
    ensures |Chunks(rows)| == (|rows| + ChunkSize - 1) / ChunkSize
    decreases |rows|
  {
    if rows != [] && |rows| > ChunkSize {
      ChunkCount(rows[ChunkSize..]);
    }
  }

  /** The copy loop. `failingChunk` is the chunk whose COPY raises, if
      any; `progress` is the progress bar's count. Nothing is written here:
      the copied rows and the statements are returned. */
  method CopyChunks(toCopy: seq<HistoryRow>, failingChunk: Option<nat>)
    returns (copied: seq<HistoryRow>, events: seq<Event>, progress: nat, raised: bool)
    ensures raised <==> failingChunk.Some? && failingChunk.value < |Chunks(toCopy)|
    ensures !raised ==> copied == toCopy && progress == |toCopy| && |events| == |Chunks(toCopy)|
    ensures raised ==> progress == failingChunk.value * ChunkSize && |events| == failingChunk.value
    ensures progress <= |toCopy| && copied == toCopy[..progress]
    ensures forall j :: 0 <= j < |events| ==> events[j] == CopiedHistory(Chunks(toCopy)[j])
  {
    ghost var chunks := Chunks(toCopy);
    ghost var sent: seq<seq<HistoryRow>> := [];
    copied, events, progress, raised := [], [], 0, false;
    var k := 0;
    var i := 0;
    while i < |toCopy|
      invariant 0 <= i <= |toCopy| && progress == i
      invariant copied == toCopy[..i]
      invariant chunks == sent + Chunks(toCopy[i..]) && |sent| == k
      invariant i < |toCopy| ==> i == k * ChunkSize
      invariant |events| == k && forall j :: 0 <= j < k ==> events[j] == CopiedHistory(sent[j])
      invariant failingChunk.Some? ==> k <= failingChunk.value
    {
      if failingChunk == Some(k) {
        assert |Chunks(toCopy[i..])| > 0;
        raised := true;
        return;
      }
      var end := ChunkEnd(i, |toCopy|);
      var chunk := toCopy[i..end];
      CopyStep(toCopy, i, sent);
      copied := copied + chunk;
      events := events + [CopiedHistory(chunk)];
      progress := progress + |chunk|;
      sent := sent + [chunk];
      i, k := end, k + 1;
    }
    assert toCopy[..i] == toCopy;
    assert Chunks(toCopy[i..]) == [];
  }

  /** The tables the script writes, as the other sessions see them (the
      last committed state). */
  class Database {
    var products: seq<ProductRow>
    var history: seq<HistoryRow>

    constructor (products: seq<ProductRow>, history: seq<HistoryRow>)
      ensures this.products == products && this.history == history
    {
      this.products := products;
      this.history := history;
    }
  }

  datatype Tables = Tables(products: seq<ProductRow>, history: seq<HistoryRow>)

  /** The statements of the script, in the order it issues them. */
  datatype Step =
    | Connect | TruncateHistory | TruncateProducts | CommitTruncate
    | CopyProducts | CommitProducts | SelectIds | CopyChunk(index: nat) | CommitHistory

  /** What the database saw. */
  datatype Event =
    | Connected
    | Truncated(table: string)
    | Committed
    | CopiedProducts(productRows: seq<ProductRow>)
    | CopiedHistory(historyRows: seq<HistoryRow>)
    | RolledBack
    | Closed

  const TruncatePrefix: seq<Event> := [Connected, Truncated("product_history"), Truncated("products"), Committed]

  /** `df_to_copy`: the history rows of the loaded products. */
  function ToCopy(df: seq<Row>): seq<HistoryRow> {
    HistoryRows(df, IdMap(ProductLoad(df)))
  }

  /** The step that raises, if any, is one that the script reaches. */
  predicate Raises(df: seq<Row>, failing: Option<Step>) {
    failing.Some? &&
    (failing.value.CopyChunk? ==> failing.value.index < |Chunks(ToCopy(df))|)
  }

  predicate FailsBeforeProductCommit(failing: Option<Step>) {
    failing == Some(TruncateHistory) || failing == Some(TruncateProducts) || failing == Some(CommitTruncate)
  }

  predicate FailsInProducts(failing: Option<Step>) {
    failing == Some(CopyProducts) || failing == Some(CommitProducts)
  }

  /** The script reaches the copy loop. */
  predicate ReachesHistory(failing: Option<Step>) {
    failing != Some(Connect) && !FailsBeforeProductCommit(failing) && !FailsInProducts(failing)
    && failing != Some(SelectIds)
  }

  /** How many chunks are copied before the loop ends or raises. */
  function ChunksCopied(df: seq<Row>, failing: Option<Step>): (n: nat)
    ensures n <= |Chunks(ToCopy(df))|
  {
    if Raises(df, failing) && failing.value.CopyChunk? then failing.value.index else |Chunks(ToCopy(df))|
  }

  function ChunkEvents(cs: seq<seq<HistoryRow>>): (es: seq<Event>)
    ensures |es| == |cs| && forall j :: 0 <= j < |cs| ==> es[j] == CopiedHistory(cs[j])
  {
    seq(|cs|, j requires 0 <= j < |cs| => CopiedHistory(cs[j]))
  }

  /** The truncation commits. */
  predicate TruncationCommits(failing: Option<Step>) {
    failing != Some(Connect) && !FailsBeforeProductCommit(failing)
  }

  /** The connection and the truncation, up to the statement that raises. */
  function TruncatePhase(failing: Option<Step>): (es: seq<Event>)
    requires failing != Some(Connect)
  {
    if failing == Some(TruncateHistory) then [Connected]
    else if failing == Some(TruncateProducts) then [Connected, Truncated("product_history")]
    else if failing == Some(CommitTruncate) then [Connected, Truncated("product_history"), Truncated("products")]
    else TruncatePrefix
  }

  /** The product load, up to the statement that raises. */
  function ProductPhase(df: seq<Row>, failing: Option<Step>): seq<Event> {
    if failing == Some(CopyProducts) then []
    else if failing == Some(CommitProducts) then [CopiedProducts(ProductLoad(df))]
    else [CopiedProducts(ProductLoad(df)), Committed]
  }

  /** The history load, up to the statement that raises. */
  function HistoryPhase(df: seq<Row>, failing: Option<Step>): seq<Event> {
    if failing == Some(SelectIds) then []
    else
      ChunkEvents(Chunks(ToCopy(df))[..ChunksCopied(df, failing)])
      + if Raises(df, failing) then [] else [Committed]
  }

  /** The statements of the session, up to the one that raises. */
  function SessionLog(df: seq<Row>, failing: Option<Step>): seq<Event>
    requires failing != Some(Connect)
  {
    if !TruncationCommits(failing) then TruncatePhase(failing)
    else if FailsInProducts(failing) then TruncatePhase(failing) + ProductPhase(df, failing)
    else TruncatePhase(failing) + ProductPhase(df, failing) + HistoryPhase(df, failing)
  }

  /** Everything the database sees during `load_data_to_db`. */
  function LoadLog(df: seq<Row>, failing: Option<Step>): seq<Event> {
    if failing == Some(Connect) then []
    else SessionLog(df, failing) + (if Raises(df, failing) then [RolledBack] else []) + [Closed]
  }

  /** The committed tables after `load_data_to_db`. */
  function TablesAfter(before: Tables, df: seq<Row>, failing: Option<Step>): Tables {
    if failing == Some(Connect) || FailsBeforeProductCommit(failing) then before
    else if FailsInProducts(failing) then Tables([], [])
    else if Raises(df, failing) then Tables(ProductLoad(df), [])
    else Tables(ProductLoad(df), ToCopy(df))
  }

  /** The progress bar's final count. */
  function ProgressAfter(df: seq<Row>, failing: Option<Step>): nat {
    if !ReachesHistory(failing) then 0
    else if Raises(df, failing) && failing.value.CopyChunk? then failing.value.index * ChunkSize
    else |ToCopy(df)|
  }

  /** The part of `load_data_to_db` after the products are committed:
      the id lookup, the copy loop and the final commit. */
  method LoadHistory(db: Database, df: seq<Row>, failing: Option<Step>)
    returns (events: seq<Event>, progress: nat, raised: bool)
    requires ReachesHistory(failing) || failing == Some(SelectIds)
    requires db.products == ProductLoad(df) && db.history == []
    modifies db
    ensures events == HistoryPhase(df, failing)
    ensures raised == Raises(df, failing)
    ensures db.products == ProductLoad(df)
    ensures db.history == if raised then [] else ToCopy(df)
    ensures progress == ProgressAfter(df, failing)
  {
    if failing == Some(SelectIds) {
      return [], 0, true;
    }
    var ids := IdMap(db.products);
    var toCopy := HistoryRows(df, ids);
    var failingChunk := if failing.Some? && failing.value.CopyChunk? then Some(failing.value.index) else None;
    var copied;
    copied, events, progress, raised := CopyChunks(toCopy, failingChunk);
    assert events == ChunkEvents(Chunks(toCopy)[..ChunksCopied(df, failing)]);
    if raised || failing == Some(CommitHistory) {
      raised := true;
      return;
    }
    db.history := copied;
    events := events + [Committed];
  }

  /** `load_data_to_db`. `failing` names the statement that raises (a lost
      connection, a rejected COPY, ...). Returns what the database saw and
      the final value of the progress counter. */
  method LoadDataToDb(db: Database, df: seq<Row>, failing: Option<Step>) returns (log: seq<Event>, progress: nat)
    modifies db
    ensures log == LoadLog(df, failing)
    ensures Tables(db.products, db.history) == TablesAfter(old(Tables(db.products, db.history)), df, failing)
    ensures progress == ProgressAfter(df, failing)
  {
    log, progress := [], 0;
    if failing == Some(Connect) {
      return;
    }
    log := [Connected];
    var raised := true;
    label body: {
      if failing == Some(TruncateHistory) { break body; }
      log := log + [Truncated("product_history")];
      if failing == Some(TruncateProducts) { break body; }
      log := log + [Truncated("products")];
      if failing == Some(CommitTruncate) { break body; }
      db.products, db.history := [], [];
      log := log + [Committed];
      assert log == TruncatePhase(failing);

      var products := ProductLoad(df);
      if failing == Some(CopyProducts) { break body; }
      log := log + [CopiedProducts(products)];
      if failing == Some(CommitProducts) { break body; }
      db.products := products;
      log := log + [Committed];
      assert log == TruncatePhase(failing) + ProductPhase(df, failing);

      var events;
      events, progress, raised := LoadHistory(db, df, failing);
      log := log + events;
    }
    if raised {
      log := log + [RolledBack];
    }
    log := log + [Closed];
  }

  /** The history rows a log sends, in order. */
  function HistorySent(log: seq<Event>): (h: seq<HistoryRow>)
  {
    if log == [] then []
    else (if log[0].CopiedHistory? then log[0].historyRows else []) + HistorySent(log[1..])
  }

  lemma {:induction false} HistorySentAppend(a: seq<Event>, b: seq<Event>)
    ensures HistorySent(a + b) == HistorySent(a) + HistorySent(b)
  {
    if a == [] {
      assert a + b == b;
    } else {
      assert (a + b)[1..] == a[1..] + b;
      HistorySentAppend(a[1..], b);
    }
  }

  lemma {:induction false} HistorySentChunks(cs: seq<seq<HistoryRow>>)
    ensures HistorySent(ChunkEvents(cs)) == Flatten(cs)
  {
    if cs != [] {
      HistorySentChunks(cs[1..]);
      assert ChunkEvents(cs)[1..] == ChunkEvents(cs[1..]);
    }
  }

  /** Where the first `k` chunks end: `k * chunk_size`, clipped at `n`. */
  function PrefixEnd(k: nat, n: nat): (e: nat)
    ensures e <= n && (e < n ==> e == k * ChunkSize)
  {
    if k * ChunkSize < n then k * ChunkSize else n
  }

  /** The first `k` chunks are the frame's first `k * chunk_size` rows
      (or all of it). */
  lemma {:induction false} ChunksPrefix<T>(rows: seq<T>, k: nat)
    requires k <= |Chunks(rows)|
    ensures Flatten(Chunks(rows)[..k]) == rows[..PrefixEnd(k, |rows|)]
    decreases k
  {
    if k == 0 {
      assert Chunks(rows)[..k] == [];
    } else {
      var n := if |rows| < ChunkSize then |rows| else ChunkSize;
      ChunksConsPrefix(rows, n, k);
      ChunksPrefix(rows[n..], k - 1);
      var e := PrefixEnd(k - 1, |rows| - n);
      SliceJoin(rows, n, e);
      assert n + e == PrefixEnd(k, |rows|);
    }
  }

  /** One step of the prefix: the first `k` chunks are the first slice
      followed by the first `k - 1` chunks of the rest. */
  lemma ChunksConsPrefix<T>(rows: seq<T>, n: nat, k: nat)
    requires rows != [] && n == (if |rows| < ChunkSize then |rows| else ChunkSize)
    requires 0 < k <= |Chunks(rows)|
    ensures k - 1 <= |Chunks(rows[n..])|
    ensures Flatten(Chunks(rows)[..k]) == rows[..n] + Flatten(Chunks(rows[n..])[..k - 1])
  {
    var front := Chunks(rows)[..k];
    assert front[0] == rows[..n];
    assert front[1..] == Chunks(rows[n..])[..k - 1];
  }

  lemma SliceJoin<T>(rows: seq<T>, n: nat, e: nat)
    requires n + e <= |rows|
    ensures rows[..n] + rows[n..][..e] == rows[..n + e]
  {
  }

  lemma {:induction false} HistorySentNone(log: seq<Event>)
    requires forall i :: 0 <= i < |log| ==> !log[i].CopiedHistory?
    ensures HistorySent(log) == []
  {
    if log != [] {
      HistorySentNone(log[1..]);
    }
  }

  /** The rollback and the close send no rows. */
  lemma LoadLogSendsSessionRows(df: seq<Row>, failing: Option<Step>)
    requires failing != Some(Connect)
    ensures HistorySent(LoadLog(df, failing)) == HistorySent(SessionLog(df, failing))
  {
    var session := SessionLog(df, failing);
    var tail := (if Raises(df, failing) then [RolledBack] else []) + [Closed];
    HistorySentNone(tail);
    assert LoadLog(df, failing) == session + tail;
    HistorySentAppend(session, tail);
  }

  /** Before the copy loop no history row is sent. */
  lemma SessionBeforeHistorySendsNothing(df: seq<Row>, failing: Option<Step>)
    requires failing != Some(Connect) && !ReachesHistory(failing)
    ensures HistorySent(SessionLog(df, failing)) == []
  {
    var front := TruncatePhase(failing) + ProductPhase(df, failing);
    HistorySentNone(TruncatePhase(failing));
    HistorySentNone(front);
    if failing == Some(SelectIds) {
      assert HistoryPhase(df, failing) == [];
      assert SessionLog(df, failing) == front;
    }
  }

  /** The copy loop sends the chunks it copies. */
  lemma SessionInHistorySendsChunks(df: seq<Row>, failing: Option<Step>)
    requires ReachesHistory(failing)
    ensures HistorySent(SessionLog(df, failing)) == Flatten(Chunks(ToCopy(df))[..ChunksCopied(df, failing)])
  {
    var front := TruncatePhase(failing) + ProductPhase(df, failing);
    HistorySentNone(front);
    var cs := Chunks(ToCopy(df))[..ChunksCopied(df, failing)];
    var rest := if Raises(df, failing) then [] else [Committed];
    HistorySentNone(rest);
    HistorySentAppend(ChunkEvents(cs), rest);
    HistorySentChunks(cs);
    assert HistoryPhase(df, failing) == ChunkEvents(cs) + rest;
    assert SessionLog(df, failing) == front + HistoryPhase(df, failing);
    HistorySentAppend(front, HistoryPhase(df, failing));
  }

  /** The progress bar counts exactly the history rows sent, and a load
      that does not raise sends every row of `df_to_copy` once, in order. */
  lemma ProgressCountsRowsSent(df: seq<Row>, failing: Option<Step>)
    ensures |HistorySent(LoadLog(df, failing))| == ProgressAfter(df, failing)
    ensures !Raises(df, failing) ==> HistorySent(LoadLog(df, failing)) == ToCopy(df)
  {
    if failing != Some(Connect) {
      LoadLogSendsSessionRows(df, failing);
      if !ReachesHistory(failing) {
        SessionBeforeHistorySendsNothing(df, failing);
      } else {
        SessionInHistorySendsChunks(df, failing);
        var rows := ToCopy(df);
        var n := ChunksCopied(df, failing);
        ChunksPrefix(rows, n);
        if Raises(df, failing) && failing.value.CopyChunk? {
          ChunkIsSlice(rows, n);
        } else {
          ChunkCount(rows);
          assert Chunks(rows)[..n] == Chunks(rows);
          ChunksPartition(rows);
        }
      }
    }
  }

  /** The connection, once opened, is closed exactly once, as the last
      thing the database sees. */
  lemma ConnectionClosedOnce(df: seq<Row>, failing: Option<Step>)
    ensures failing == Some(Connect) ==> LoadLog(df, failing) == []
    ensures failing != Some(Connect) ==> var log := LoadLog(df, failing);
      |log| >= 2 && log[0] == Connected && log[|log| - 1] == Closed && Closed !in log[..|log| - 1]
  {
    if failing != Some(Connect) {
      var log := LoadLog(df, failing);
      var s := SessionLog(df, failing);
      assert Closed !in s by {
        var cs := Chunks(ToCopy(df))[..ChunksCopied(df, failing)];
        assert Closed !in ChunkEvents(cs);
      }
      var r := if Raises(df, failing) then [RolledBack] else [];
      assert log[..|log| - 1] == s + r;
      assert s[0] == Connected;
    }
  }

  /** The transaction is rolled back exactly when a statement raises. */
  lemma RollbackIffRaises(df: seq<Row>, failing: Option<Step>)
    requires failing != Some(Connect)
    ensures RolledBack in LoadLog(df, failing) <==> Raises(df, failing)
  {
    var s := SessionLog(df, failing);
    assert RolledBack !in s by {
      var cs := Chunks(ToCopy(df))[..ChunksCopied(df, failing)];
      assert RolledBack !in ChunkEvents(cs);
    }
    if Raises(df, failing) {
      assert LoadLog(df, failing)[|s|] == RolledBack;
    } else {
      assert LoadLog(df, failing) == s + [Closed];
    }
  }

  /** Both truncations are committed before any row is copied. */
  lemma TruncationCommittedBeforeCopies(df: seq<Row>, failing: Option<Step>)
    ensures var log := LoadLog(df, failing);
      forall i :: 0 <= i < |log| && (log[i].CopiedProducts? || log[i].CopiedHistory?) ==>
        4 <= i && log[..4] == TruncatePrefix
  {
    if failing != Some(Connect) {
      var log := LoadLog(df, failing);
      var t := TruncatePhase(failing);
      var r := if Raises(df, failing) then [RolledBack] else [];
      forall i | 0 <= i < |log| && (log[i].CopiedProducts? || log[i].CopiedHistory?)
        ensures 4 <= i && log[..4] == TruncatePrefix
      {
        assert log[..4] == t;
      }
    }
  }

  /** Every history row the script inserts comes from a spreadsheet row
      whose code has an id, and every such row gives one; so each refers to
      a product the script inserted. */
  lemma {:induction false} HistoryRowsReferToIds(df: seq<Row>, ids: map<string, int>)
    ensures forall h :: h in HistoryRows(df, ids) <==>
      exists r :: r in df && HasProductId(r, ids) && h == HistoryRowOf(r, ids)
    ensures forall h :: h in HistoryRows(df, ids) ==> h.productId in ids.Values
  {
    if df != [] {
      HistoryRowsReferToIds(df[1..], ids);
      var out := HistoryRows(df, ids);
      var rest := HistoryRows(df[1..], ids);
      assert out == (if HasProductId(df[0], ids) then [HistoryRowOf(df[0], ids)] else []) + rest;
      forall h ensures h in out <==> exists r :: r in df && HasProductId(r, ids) && h == HistoryRowOf(r, ids) {
        if h in out && h !in rest {
          assert df[0] in df;
        }
        if h in out && h in rest {
          var r :| r in df[1..] && HasProductId(r, ids) && h == HistoryRowOf(r, ids);
          assert r in df;
        }
        if exists r :: r in df && HasProductId(r, ids) && h == HistoryRowOf(r, ids) {
          var r :| r in df && HasProductId(r, ids) && h == HistoryRowOf(r, ids);
          if r != df[0] {
            assert df == [df[0]] + df[1..];
            assert r in df[1..];
          }
        }
      }
      forall h | h in out ensures h.productId in ids.Values {
        var r :| r in df && HasProductId(r, ids) && h == HistoryRowOf(r, ids);
        assert ids[r.productCode.value] in ids.Values;
      }
    }
  }

  lemma HistoryReferencesProducts(before: Tables, df: seq<Row>, failing: Option<Step>)
    requires forall h :: h in before.history ==> 1 <= h.productId <= |before.products|
    ensures var t := TablesAfter(before, df, failing);
      forall h :: h in t.history ==> 1 <= h.productId <= |t.products|
  {
    var ids := IdMap(ProductLoad(df));
    HistoryRowsReferToIds(df, ids);
    forall h | h in ToCopy(df) ensures 1 <= h.productId <= |ProductLoad(df)| {
      var c :| c in ids && ids[c] == h.productId;
    }
  }

  /** The `__main__` guard: the frame is loaded only when the spreadsheet
      could be read. */
  method RunImport(db: Database, read: Option<seq<Row>>, failing: Option<Step>) returns (log: seq<Event>)
    modifies db
    ensures read.None? ==> log == [] && db.products == old(db.products) && db.history == old(db.history)
    ensures read.Some? ==> log == LoadLog(read.value, failing)
    ensures read.Some? ==> Tables(db.products, db.history) == TablesAfter(old(Tables(db.products, db.history)), read.value, failing)
  {
    log := [];
    if read.Some? {
      var progress;
      log, progress := LoadDataToDb(db, read.value, failing);
    }
  }
}
