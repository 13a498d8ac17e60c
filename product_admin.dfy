/**
 * The list helpers of the product editor (client/src/components/admin/ProductForm.tsx): the
 * variant list (add, remove, update, the colour-by-size grid and the filter applied on submit),
 * the colour table, the highlight and specification rows, the fold of the specification rows
 * into a record, and the paisa/rupee conversion of prices.
 *
 * React state setters are modelled by returning the new value; `hasVariants` travels with the
 * variant list it is computed from.
 */
module ProductAdmin {
  import opened Wrappers
  import opened JsBuiltins

  /** A product variant as the form holds it; an absent `price` is `undefined`. */
  datatype Variant = Variant(colorName: string, colorValue: string, sizeName: string, stock: int,
                             sku: string, images: seq<string>, price: Option<real>)

  /** The variant list together with the `hasVariants` flag the helpers set beside it. */
  datatype VariantState = VariantState(variants: seq<Variant>, hasVariants: bool)

  /** A specification row: a key and a value, both as typed. */
  datatype Spec = Spec(key: string, value: string)

  /** The variant that `addVariant` appends. */
  const BlankVariant: Variant := Variant("", "#000000", "", 0, "", [], None)

  // ---------------------------------------------------------------------------------------------
  // Removing one position

  /**
   * `list.filter((_, i) => i !== index)`: the list without the element at `index`; a list without
   * such a position comes back unchanged.
   */
  function WithoutIndex<T>(s: seq<T>, index: int): (r: seq<T>)
    ensures 0 <= index < |s| ==> r == s[..index] + s[index + 1..]
    ensures !(0 <= index < |s|) ==> r == s
  {
    if s == [] then []
    else
      var n := |s| - 1;
      WithoutIndex(s[..n], index) + (if n == index then [] else [s[n]])
  }

  /** Removing a position shortens the list by one and keeps every other element, in order. */
  lemma WithoutIndexPositions<T>(s: seq<T>, index: int)
    requires 0 <= index < |s|
    ensures var r := WithoutIndex(s, index);
      |r| == |s| - 1
      && (forall i :: 0 <= i < index ==> r[i] == s[i])
      && (forall i :: index <= i < |r| ==> r[i] == s[i + 1])
  {
  }

  // ---------------------------------------------------------------------------------------------
  // The variant list

  /** `addVariant`: a blank variant at the end; the list is then not empty. */
  function AddVariant(variants: seq<Variant>): (st: VariantState)
    ensures st.variants == variants + [BlankVariant] && st.hasVariants
  {
    var newVariants := variants + [BlankVariant];
    VariantState(newVariants, |newVariants| > 0)
  }

  /** `removeVariant`: the list without position `index`; `hasVariants` says whether any are left. */
  function RemoveVariant(variants: seq<Variant>, index: int): (st: VariantState)
    ensures st.variants == WithoutIndex(variants, index)
    ensures st.hasVariants <==> st.variants != []
    ensures 0 <= index < |variants| ==> |st.variants| == |variants| - 1
    ensures !(0 <= index < |variants|) ==> st.variants == variants
  {
    var newVariants := WithoutIndex(variants, index);
    VariantState(newVariants, |newVariants| > 0)
  }

  /** The fields `updateVariant` is called with, each carrying a value of that field's type. */
  datatype VariantEdit =
    | SetColorName(name: string)
    | SetColorValue(hex: string)
    | SetSizeName(size: string)
    | SetStock(stock: int)
    | SetSku(sku: string)
    | SetPrice(price: Option<real>)

  /** `{ ...variant, [field]: value }`. */
  function ApplyEdit(v: Variant, e: VariantEdit): (r: Variant)
    ensures e.SetColorName? ==> r == v.(colorName := e.name)
    ensures e.SetColorValue? ==> r == v.(colorValue := e.hex)
    ensures e.SetSizeName? ==> r == v.(sizeName := e.size)
    ensures e.SetStock? ==> r == v.(stock := e.stock)
    ensures e.SetSku? ==> r == v.(sku := e.sku)
    ensures e.SetPrice? ==> r == v.(price := e.price)
    ensures r.images == v.images
  {
    match e
    case SetColorName(n) => v.(colorName := n)
    case SetColorValue(h) => v.(colorValue := h)
    case SetSizeName(s) => v.(sizeName := s)
    case SetStock(k) => v.(stock := k)
    case SetSku(k) => v.(sku := k)
    case SetPrice(p) => v.(price := p)
  }

  /** `variants.map((variant, i) => i === index ? { ...variant, [field]: value } : variant)`. */
  function MapAt(variants: seq<Variant>, index: int, e: VariantEdit): (r: seq<Variant>)
    ensures |r| == |variants|
    ensures forall i :: 0 <= i < |variants| ==>
      r[i] == if i == index then ApplyEdit(variants[i], e) else variants[i]
  {
    if variants == [] then []
    else
      var n := |variants| - 1;
      MapAt(variants[..n], index, e) + [if n == index then ApplyEdit(variants[n], e) else variants[n]]
  }

  /**
   * `updateVariant`: the list keeps its length, the variant at `index` changes only in the edited
   * field, and every other variant stays as it was.
   */
  function UpdateVariant(variants: seq<Variant>, index: int, e: VariantEdit): (st: VariantState)
    ensures st.variants == MapAt(variants, index, e)
    ensures st.hasVariants <==> variants != []
  {
    var updated := MapAt(variants, index, e);
    VariantState(updated, |updated| > 0)
  }

  /** An update at a position the list does not have changes nothing. */
  lemma UpdateOutOfRange(variants: seq<Variant>, index: int, e: VariantEdit)
    requires !(0 <= index < |variants|)
    ensures UpdateVariant(variants, index, e).variants == variants
  {
  }

  // ---------------------------------------------------------------------------------------------
  // Colours

  /** `colorMap[colorName]`: the hex value of the ten named colours. */
  function KnownColorValue(name: string): Option<string> {
    if name == "Red" then Some("#FF0000")
    else if name == "Blue" then Some("#0000FF")
    else if name == "Green" then Some("#008000")
    else if name == "Black" then Some("#000000")
    else if name == "White" then Some("#FFFFFF")
    else if name == "Yellow" then Some("#FFFF00")
    else if name == "Orange" then Some("#FFA500")
    else if name == "Purple" then Some("#800080")
    else if name == "Pink" then Some("#FFC0CB")
    else if name == "Gray" then Some("#808080")
    else None
  }

  predicate IsHexDigit(c: char) {
    '0' <= c <= '9' || 'A' <= c <= 'F'
  }

  /** `#` followed by six upper-case hex digits. */
  predicate IsHexColour(s: string) {
    |s| == 7 && s[0] == '#' && forall k :: 1 <= k < 7 ==> IsHexDigit(s[k])
  }

  /** `getColorValue`: the table's value for a named colour, black for any other name. */
  function GetColorValue(name: string): (hex: string)
    ensures KnownColorValue(name).Some? ==> hex == KnownColorValue(name).value
    ensures KnownColorValue(name).None? ==> hex == "#000000"
  {
    KnownColorValue(name).GetOr("#000000")
  }

  /** Every value the table holds, and the default, is a hex colour. */
  lemma ColorValueIsHex(name: string)
    ensures IsHexColour(GetColorValue(name))
  {
  }

  // ---------------------------------------------------------------------------------------------
  // The colour-by-size grid

  /**
   * The product name as the SKU prefix: every run of whitespace becomes one hyphen
   * (`replace(/\s+/g, '-')`).
   */
  function HyphenateWhitespace(s: string): (r: string)
    ensures forall k :: 0 <= k < |r| ==> !IsWhitespace(r[k])
    decreases |s|
  {
    if s == [] then []
    else if IsWhitespace(s[0]) then "-" + HyphenateWhitespace(TrimStart(s[1..]))
    else [s[0]] + HyphenateWhitespace(s[1..])
  }

  /** `product?.name?.replace(/\s+/g, '-').toUpperCase() || 'PROD'`. */
  function SkuPrefix(productName: Option<string>): (p: string)
    ensures p != []
    ensures forall k :: 0 <= k < |p| ==> !IsWhitespace(p[k])
    ensures productName.None? || productName.value == [] ==> p == "PROD"
  {
    match productName
    case None => "PROD"
    case Some(name) =>
      var h := HyphenateWhitespace(name);
      var upper := UpperCase(h);
      assert forall k :: 0 <= k < |upper| ==> !IsWhitespace(upper[k]) by {
        forall k | 0 <= k < |upper| ensures !IsWhitespace(upper[k]) {
          UpperCaseAt(h, k);
        }
      }
      if upper == [] then "PROD" else upper
  }

  /** One row of a grid: `cell(x, y)` for every `y`, in order. */
  function Row<A, B, C>(x: A, ys: seq<B>, cell: (A, B) -> C): (row: seq<C>)
    ensures |row| == |ys|
  {
    if ys == [] then [] else Row(x, ys[..|ys| - 1], cell) + [cell(x, ys[|ys| - 1])]
  }

  /** The rows of all `xs`, one after the other. */
  function Grid<A, B, C>(xs: seq<A>, ys: seq<B>, cell: (A, B) -> C): seq<C> {
    if xs == [] then [] else Grid(xs[..|xs| - 1], ys, cell) + Row(xs[|xs| - 1], ys, cell)
  }

  /** Entry `j` of a row is the cell of `ys[j]`. */
  lemma {:induction false} RowAt<A, B, C>(x: A, ys: seq<B>, cell: (A, B) -> C, j: int)
    requires 0 <= j < |ys|
    ensures Row(x, ys, cell)[j] == cell(x, ys[j])
  {
    var n := |ys| - 1;
    if j < n {
      RowAt(x, ys[..n], cell, j);
      assert ys[..n][j] == ys[j];
    }
  }

  /** A grid has one entry per pair. */
  lemma {:induction false} GridLength<A, B, C>(xs: seq<A>, ys: seq<B>, cell: (A, B) -> C)
    ensures |Grid(xs, ys, cell)| == |xs| * |ys|
  {
    if xs != [] {
      var n, m := |xs| - 1, |ys|;
      GridLength(xs[..n], ys, cell);
      assert (n + 1) * m == n * m + m;
    }
  }

  /** Where row `i` of a grid whose rows have `m` entries starts: `i * m`, counted row by row. */
  function RowStart(i: nat, m: nat): nat {
    if i == 0 then 0 else RowStart(i - 1, m) + m
  }

  lemma {:induction false} RowStartIsProduct(i: nat, m: nat)
    ensures RowStart(i, m) == i * m
  {
    if i > 0 {
      RowStartIsProduct(i - 1, m);
      assert i * m == (i - 1) * m + m;
    }
  }

  /** The rows before `xs[i]` fill the first `RowStart(i, |ys|)` entries. */
  lemma {:induction false} GridPrefixLength<A, B, C>(xs: seq<A>, ys: seq<B>, cell: (A, B) -> C)
    ensures |Grid(xs, ys, cell)| == RowStart(|xs|, |ys|)
  {
    if xs != [] {
      GridPrefixLength(xs[..|xs| - 1], ys, cell);
    }
  }

  /** Entry `i * |ys| + j` of a grid is the cell of `xs[i]` and `ys[j]`. */
  lemma GridAt<A, B, C>(xs: seq<A>, ys: seq<B>, cell: (A, B) -> C, i: int, j: int)
    requires 0 <= i < |xs| && 0 <= j < |ys|
    ensures i * |ys| + j < |Grid(xs, ys, cell)|
    ensures Grid(xs, ys, cell)[i * |ys| + j] == cell(xs[i], ys[j])
  {
    RowStartIsProduct(i, |ys|);
    GridRowAt(xs, ys, cell, i, j);
  }

  lemma {:induction false} GridRowAt<A, B, C>(xs: seq<A>, ys: seq<B>, cell: (A, B) -> C, i: int, j: int)
    requires 0 <= i < |xs| && 0 <= j < |ys|
    ensures RowStart(i, |ys|) + j < |Grid(xs, ys, cell)|
    ensures Grid(xs, ys, cell)[RowStart(i, |ys|) + j] == cell(xs[i], ys[j])
  {
    var n := |xs| - 1;
    var front := Grid(xs[..n], ys, cell);
    var row := Row(xs[n], ys, cell);
    GridPrefixLength(xs[..n], ys, cell);
    assert Grid(xs, ys, cell) == front + row;
    if i < n {
      GridRowAt(xs[..n], ys, cell, i, j);
      RowStartMono(i, n, |ys|);
      assert xs[..n][i] == xs[i];
    } else {
      RowAt(xs[n], ys, cell, j);
    }
  }

  lemma {:induction false} RowStartMono(i: nat, n: nat, m: nat)
    requires i < n
    ensures RowStart(i, m) + m <= RowStart(n, m)
  {
    if i < n - 1 {
      RowStartMono(i, n - 1, m);
    }
  }

  /** One more `y` extends a row by its cell. */
  lemma RowSnoc<A, B, C>(x: A, ys: seq<B>, cell: (A, B) -> C, j: int)
    requires 0 <= j < |ys|
    ensures Row(x, ys[..j + 1], cell) == Row(x, ys[..j], cell) + [cell(x, ys[j])]
  {
    assert ys[..j + 1][..j] == ys[..j];
  }

  /** One more `x` extends a grid by its row. */
  lemma GridSnoc<A, B, C>(xs: seq<A>, ys: seq<B>, cell: (A, B) -> C, i: int)
    requires 0 <= i < |xs|
    ensures Grid(xs[..i + 1], ys, cell) == Grid(xs[..i], ys, cell) + Row(xs[i], ys, cell)
  {
    assert xs[..i + 1][..i] == xs[..i];
  }

  /**
   * The variant the grid creates for one colour and one size; `skuPrefix` is the SKU prefix the
   * product name gives.
   */
  function GridVariant(color: string, size: string, skuPrefix: string): Variant {
    Variant(color, GetColorValue(color), size, 0,
            skuPrefix + "-" + UpperCase(color) + "-" + size, [], None)
  }

  /** `GridVariant` for one SKU prefix, as the cell of the colour-by-size grid. */
  function GridCell(skuPrefix: string): (string, string) -> Variant {
    (color, size) => GridVariant(color, size, skuPrefix)
  }

  /** All colour-size pairs, colour-major. */
  function Combinations(colors: seq<string>, sizes: seq<string>, skuPrefix: string): seq<Variant> {
    Grid(colors, sizes, GridCell(skuPrefix))
  }

  /**
   * The grid has one entry per colour and size; entry `i * |sizes| + j` is colour `i` in size `j`,
   * with stock 0, the colour's hex value and the SKU `prefix-COLOUR-size`.
   */
  lemma CombinationsLayout(colors: seq<string>, sizes: seq<string>, skuPrefix: string, i: int, j: int)
    requires 0 <= i < |colors| && 0 <= j < |sizes|
    ensures |Combinations(colors, sizes, skuPrefix)| == |colors| * |sizes|
    ensures i * |sizes| + j < |Combinations(colors, sizes, skuPrefix)|
    ensures Combinations(colors, sizes, skuPrefix)[i * |sizes| + j]
      == Variant(colors[i], GetColorValue(colors[i]), sizes[j], 0,
                 skuPrefix + "-" + UpperCase(colors[i]) + "-" + sizes[j], [], None)
  {
    GridLength(colors, sizes, GridCell(skuPrefix));
    GridAt(colors, sizes, GridCell(skuPrefix), i, j);
  }

  /**
   * `generateVariantCombinations`: the nested `forEach` pushes one variant per colour and size,
   * colour by colour; the grid replaces the variant list.
   */
  method GenerateVariantCombinations(availableColors: seq<string>, availableSizes: seq<string>,
                                     productName: Option<string>)
    returns (st: VariantState)
    ensures st.variants == Combinations(availableColors, availableSizes, SkuPrefix(productName))
    ensures st.hasVariants <==> |availableColors| > 0 && |availableSizes| > 0
  {
    ghost var cell := GridCell(SkuPrefix(productName));
    var combinations: seq<Variant> := [];
    var i := 0;
    while i < |availableColors|
      invariant 0 <= i <= |availableColors|
      invariant combinations == Grid(availableColors[..i], availableSizes, cell)
    {
      combinations := PushSizeRow(combinations, availableColors[i], availableSizes, productName);
      GridSnoc(availableColors, availableSizes, cell, i);
      i := i + 1;
    }
    assert availableColors[..i] == availableColors;
    GridLength(availableColors, availableSizes, cell);
    GridSize(|availableColors|, |availableSizes|);
    st := VariantState(combinations, |combinations| > 0);
  }

  /** The inner `forEach` of the grid: one variant per size for one colour, pushed in size order. */
  method PushSizeRow(combinations: seq<Variant>, color: string, availableSizes: seq<string>,
                     productName: Option<string>)
    returns (r: seq<Variant>)
    ensures r == combinations + Row(color, availableSizes, GridCell(SkuPrefix(productName)))
  {
    ghost var cell := GridCell(SkuPrefix(productName));
    r := combinations;
    var j := 0;
    while j < |availableSizes|
      invariant 0 <= j <= |availableSizes|
      invariant r == combinations + Row(color, availableSizes[..j], cell)
    {
      var size := availableSizes[j];
      var colorValue := GetColorValue(color);
      var sku := SkuPrefix(productName) + "-" + UpperCase(color) + "-" + size;
      r := r + [Variant(color, colorValue, size, 0, sku, [], None)];
      assert cell(color, size) == Variant(color, colorValue, size, 0, sku, [], None);
      RowSnoc(color, availableSizes, cell, j);
      j := j + 1;
    }
    assert availableSizes[..j] == availableSizes;
  }

  lemma GridSize(n: nat, m: nat)
    ensures n * m > 0 <==> n > 0 && m > 0
  {
    if n > 0 && m > 0 {
      assert n * m >= m;
    }
  }

  // ---------------------------------------------------------------------------------------------
  // Submitting the variants

  /** A variant the submit handler keeps: colour and size are not blank and the stock is not negative. */
  predicate IsCompleteVariant(v: Variant) {
    Trim(v.colorName) != "" && Trim(v.sizeName) != "" && v.stock >= 0
  }

  /** `s.filter(keep)`: the elements `keep` accepts, in their order. */
  function Filter<T>(s: seq<T>, keep: T -> bool): (r: seq<T>)
    ensures |r| <= |s|
    ensures forall k :: 0 <= k < |r| ==> keep(r[k])
  {
    if s == [] then []
    else
      var n := |s| - 1;
      Filter(s[..n], keep) + (if keep(s[n]) then [s[n]] else [])
  }

  /** A filter keeps every accepted element and nothing else. */
  lemma {:induction false} FilterMembers<T>(s: seq<T>, keep: T -> bool, v: T)
    ensures v in Filter(s, keep) <==> v in s && keep(v)
  {
    if s != [] {
      var n := |s| - 1;
      FilterMembers(s[..n], keep, v);
      assert s == s[..n] + [s[n]];
      assert v in s <==> v in s[..n] || v == s[n];
    }
  }

  /** Filtering a concatenation concatenates the filtered parts. */
  lemma {:induction false} FilterAppend<T>(a: seq<T>, b: seq<T>, keep: T -> bool)
    ensures Filter(a + b, keep) == Filter(a, keep) + Filter(b, keep)
    decreases |b|
  {
    if b == [] {
      assert a + b == a;
    } else {
      var n := |b| - 1;
      var ab := a + b;
      assert ab[..|ab| - 1] == a + b[..n];
      assert ab[|ab| - 1] == b[n];
      FilterAppend(a, b[..n], keep);
    }
  }

  /** `variants.filter(...)` of `onSubmit`. */
  function CompleteVariants(variants: seq<Variant>): (r: seq<Variant>)
    ensures |r| <= |variants|
    ensures forall k :: 0 <= k < |r| ==> IsCompleteVariant(r[k])
  {
    Filter(variants, IsCompleteVariant)
  }

  /** The filter keeps every complete variant and drops nothing else. */
  lemma CompleteVariantsMembers(variants: seq<Variant>, v: Variant)
    ensures v in CompleteVariants(variants) <==> v in variants && IsCompleteVariant(v)
  {
    FilterMembers(variants, IsCompleteVariant, v);
  }

  /** The filter works piecewise, so the kept variants stay in their original order. */
  lemma CompleteVariantsAppend(a: seq<Variant>, b: seq<Variant>)
    ensures CompleteVariants(a + b) == CompleteVariants(a) + CompleteVariants(b)
  {
    FilterAppend(a, b, IsCompleteVariant);
  }

  /**
   * The variant part of `onSubmit`: the complete variants, with `hasVariants` set exactly when
   * there are any; an empty list gives no variants and `hasVariants` false.
   */
  function SubmitVariants(variants: seq<Variant>): (st: VariantState)
    ensures st.variants == CompleteVariants(variants)
    ensures st.hasVariants <==> st.variants != []
    ensures variants == [] ==> st == VariantState([], false)
  {
    if |variants| > 0 then
      var validVariants := CompleteVariants(variants);
      if |validVariants| > 0 then VariantState(validVariants, true) else VariantState([], false)
    else VariantState([], false)
  }

  /** `variants: data.hasVariants ? data.variants : []` when the product is saved. */
  function SavedVariants(st: VariantState): (r: seq<Variant>)
    ensures st.hasVariants ==> r == st.variants
    ensures !st.hasVariants ==> r == []
  {
    if st.hasVariants then st.variants else []
  }

  /** What is saved after submitting is exactly the complete variants, in their original order. */
  lemma SavedAfterSubmit(variants: seq<Variant>)
    ensures SavedVariants(SubmitVariants(variants)) == CompleteVariants(variants)
  {
  }

  // ---------------------------------------------------------------------------------------------
  // Highlight and specification rows

  /** `removeHighlightField` and `removeSpecificationField`: a row is removed only while more than one is left. */
  function RemoveRow<T>(rows: seq<T>, index: int): (r: seq<T>)
    ensures |rows| <= 1 ==> r == rows
    ensures |rows| > 1 ==> r == WithoutIndex(rows, index)
    ensures rows != [] ==> r != []
  {
    if |rows| > 1 then WithoutIndex(rows, index) else rows
  }

  /** `addHighlightField`: an empty highlight at the end. */
  function AddHighlight(highlights: seq<string>): (r: seq<string>)
    ensures r == highlights + [""]
  {
    highlights + [""]
  }

  /** `addSpecificationField`: an empty row at the end. */
  function AddSpecification(specs: seq<Spec>): (r: seq<Spec>)
    ensures r == specs + [Spec("", "")]
  {
    specs + [Spec("", "")]
  }

  /**
   * `updateSpecificationKey`: the key of row `index` changes and nothing else. At a position the
   * list does not have, `newSpecifications[index]` is `undefined` and the assignment throws: `None`.
   */
  function UpdateSpecificationKey(specs: seq<Spec>, index: int, key: string): (r: Option<seq<Spec>>)
    ensures r.Some? <==> 0 <= index < |specs|
    ensures r.Some? ==> (|r.value| == |specs| && r.value[index] == Spec(key, specs[index].value)
      && forall i :: 0 <= i < |specs| && i != index ==> r.value[i] == specs[i])
  {
    if 0 <= index < |specs| then Some(specs[index := specs[index].(key := key)]) else None
  }

  /** `updateSpecificationValue`: as `updateSpecificationKey`, for the value. */
  function UpdateSpecificationValue(specs: seq<Spec>, index: int, value: string): (r: Option<seq<Spec>>)
    ensures r.Some? <==> 0 <= index < |specs|
    ensures r.Some? ==> (|r.value| == |specs| && r.value[index] == Spec(specs[index].key, value)
      && forall i :: 0 <= i < |specs| && i != index ==> r.value[i] == specs[i])
  {
    if 0 <= index < |specs| then Some(specs[index := specs[index].(value := value)]) else None
  }

  // ---------------------------------------------------------------------------------------------
  // Folding the specification rows into a record

  /** A row the fold keeps: `key && value`, both non-empty. */
  predicate IsFilled(s: Spec) {
    s.key != "" && s.value != ""
  }

  /** The record built from the first rows: each filled row sets its key, a later row overriding an earlier one. */
  function SpecMap(specs: seq<Spec>): map<string, string> {
    if specs == [] then map[]
    else
      var n := |specs| - 1;
      var acc := SpecMap(specs[..n]);
      if IsFilled(specs[n]) then acc[specs[n].key := specs[n].value] else acc
  }

  /** The `specifications.reduce(...)` of the save: `acc[key] = value` for every filled row. */
  method FoldSpecifications(specs: seq<Spec>) returns (acc: map<string, string>)
    ensures acc == SpecMap(specs)
  {
    acc := map[];
    var i := 0;
    while i < |specs|
      invariant 0 <= i <= |specs|
      invariant acc == SpecMap(specs[..i])
    {
      var key, value := specs[i].key, specs[i].value;
      if key != "" && value != "" {
        acc := acc[key := value];
      }
      assert specs[..i + 1][..i] == specs[..i];
      i := i + 1;
    }
    assert specs[..i] == specs;
  }

  /** The record's keys are exactly the keys of the filled rows. */
  lemma {:induction false} SpecMapKeys(specs: seq<Spec>, key: string)
    ensures key in SpecMap(specs) <==> exists i :: 0 <= i < |specs| && IsFilled(specs[i]) && specs[i].key == key
  {
    if specs != [] {
      var n := |specs| - 1;
      SpecMapKeys(specs[..n], key);
      if key in SpecMap(specs) && !(IsFilled(specs[n]) && specs[n].key == key) {
        var i :| 0 <= i < n && IsFilled(specs[..n][i]) && specs[..n][i].key == key;
        assert specs[i] == specs[..n][i];
      }
      if exists i :: 0 <= i < |specs| && IsFilled(specs[i]) && specs[i].key == key {
        var i :| 0 <= i < |specs| && IsFilled(specs[i]) && specs[i].key == key;
        if i < n {
          assert specs[..n][i] == specs[i];
        }
      }
    }
  }

  /** The last filled row with a given key decides its value: a later duplicate overwrites an earlier one. */
  lemma {:induction false} SpecMapLastWins(specs: seq<Spec>, i: int)
    requires 0 <= i < |specs| && IsFilled(specs[i])
    requires forall j :: i < j < |specs| && IsFilled(specs[j]) ==> specs[j].key != specs[i].key
    ensures specs[i].key in SpecMap(specs) && SpecMap(specs)[specs[i].key] == specs[i].value
  {
    var n := |specs| - 1;
    if i < n {
      forall j | i < j < n && IsFilled(specs[..n][j]) ensures specs[..n][j].key != specs[..n][i].key {
        assert specs[..n][j] == specs[j];
      }
      SpecMapLastWins(specs[..n], i);
      assert specs[..n][i] == specs[i];
    }
  }

  // ---------------------------------------------------------------------------------------------
  // Prices

  /** `product.price / 100`: the stored paisa shown as rupees. */
  function PaisaToRupees(paisa: int): (rupees: real)
    ensures rupees * 100.0 == paisa as real
  {
    paisa as real / 100.0
  }

  /** `product ? product.price / 100 : 0`: the price field of the form, zero for a new product. */
  function PriceShown(storedPrice: Option<int>): (rupees: real)
    ensures storedPrice.None? ==> rupees == 0.0
    ensures storedPrice.Some? ==> rupees * 100.0 == storedPrice.value as real
  {
    match storedPrice
    case Some(p) => PaisaToRupees(p)
    case None => 0.0
  }

  /** `Math.round(price * 100)`: the typed rupees saved as paisa. */
  function RupeesToPaisa(rupees: real): (paisa: int)
    ensures paisa as real - 0.5 <= rupees * 100.0 < paisa as real + 0.5
  {
    Round(rupees * 100.0)
  }

  /** A price loaded into the form and saved unchanged keeps its paisa value. */
  lemma PriceRoundTrip(paisa: int)
    ensures RupeesToPaisa(PaisaToRupees(paisa)) == paisa
  {
  }

  /** Saving a typed price moves it by at most half a paisa. */
  lemma SavedPriceIsClosest(rupees: real)
    ensures var shown := PaisaToRupees(RupeesToPaisa(rupees));
      shown - 0.005 <= rupees < shown + 0.005
  {
    var p := RupeesToPaisa(rupees);
    assert p as real - 0.5 <= rupees * 100.0 < p as real + 0.5;
  }

  /** `product?.originalPrice ? product.originalPrice / 100 : undefined`. */
  function OriginalPriceShown(originalPrice: Option<int>): (r: Option<real>)
    ensures r.Some? <==> originalPrice.Some? && originalPrice.value != 0
    ensures r.Some? ==> r.value * 100.0 == originalPrice.value as real
  {
    match originalPrice
    case Some(p) => if p != 0 then Some(PaisaToRupees(p)) else None
    case None => None
  }

  /** `data.originalPrice ? Math.round(data.originalPrice * 100) : undefined`. */
  function OriginalPriceSaved(originalPrice: Option<real>): (r: Option<int>)
    ensures r.Some? <==> originalPrice.Some? && originalPrice.value != 0.0
    ensures r.Some? ==> r.value as real - 0.5 <= originalPrice.value * 100.0 < r.value as real + 0.5
  {
    match originalPrice
    case Some(p) => if p != 0.0 then Some(RupeesToPaisa(p)) else None
    case None => None
  }

  /** An original price survives loading and saving, except that zero, being falsy, is dropped. */
  lemma OriginalPriceRoundTrip(originalPrice: Option<int>)
    ensures OriginalPriceSaved(OriginalPriceShown(originalPrice))
      == if originalPrice.Some? && originalPrice.value != 0 then originalPrice else None
  {
    if originalPrice.Some? && originalPrice.value != 0 {
      PriceRoundTrip(originalPrice.value);
    }
  }

  // ---------------------------------------------------------------------------------------------
  // Picking a colour in a variant row

  /**
   * The colour select's handler as written: it calls `updateVariant` twice, and both calls map
   * over the same `variants` of the current render. The second call's list, which carries only
   * the new colour value, replaces the first, so the chosen name is lost.
   */
  function SelectColorAsWritten(variants: seq<Variant>, index: int, color: string): (st: VariantState)
    ensures |st.variants| == |variants| && (st.hasVariants <==> variants != [])
    ensures 0 <= index < |variants| ==>
      st.variants[index] == variants[index].(colorValue := GetColorValue(color))
    ensures forall i :: 0 <= i < |variants| && i != index ==> st.variants[i] == variants[i]
  {
    var first := UpdateVariant(variants, index, SetColorName(color));
    var second := UpdateVariant(variants, index, SetColorValue(GetColorValue(color)));
    second
  }

  /** Picking "Red" for a freshly added variant leaves its name blank while its value turns red. */
  lemma SelectColorLosesName()
    ensures var st := SelectColorAsWritten([BlankVariant], 0, "Red");
      st.variants[0].colorName == "" && st.variants[0].colorValue == "#FF0000"
  {
    var st := SelectColorAsWritten([BlankVariant], 0, "Red");
    assert st.variants[0] == ApplyEdit(BlankVariant, SetColorValue("#FF0000"));
  }

  /** The handler as intended: the second update starts from the list the first one produced. */
  function SelectColor(variants: seq<Variant>, index: int, color: string): (st: VariantState)
    ensures |st.variants| == |variants| && (st.hasVariants <==> variants != [])
    ensures 0 <= index < |variants| ==>
      st.variants[index] == variants[index].(colorName := color, colorValue := GetColorValue(color))
    ensures forall i :: 0 <= i < |variants| && i != index ==> st.variants[i] == variants[i]
  {
    var named := UpdateVariant(variants, index, SetColorName(color));
    UpdateVariant(named.variants, index, SetColorValue(GetColorValue(color)))
  }
}
