/**
 * The catalogue generator of the seed script: 54 product templates over seven
 * categories, four variants of each, a running index for slugs and SKUs, and random
 * draws for brand, discount, stock, rating, review count and the featured flag. The
 * draws are a stream `random(0), random(1), ...` of reals in [0, 1), read in the order
 * the script calls `Math.random()`.
 */
module Seed {
  import opened Common
  import opened Money
  import opened Strings
  import opened ProductModel

  datatype Template = Template(name: string, basePrice: nat)  // whole dollars

  /** The categories in the order the templates are listed. */
  const SeedCategories: seq<Category> := [Electronics, Clothing, Books, HomeAndGarden, Sports, Beauty, Toys]

  function Brands(c: Category): seq<string>
  {
    match c
    case Electronics => ["Sony", "Samsung", "Apple", "LG", "Bose", "Dell", "Logitech"]
    case Clothing => ["Nike", "Adidas", "Zara", "H&M", "Levi's", "Gap"]
    case Books => ["Penguin", "Random House", "HarperCollins", "Scholastic"]
    case HomeAndGarden => ["IKEA", "Dyson", "KitchenAid", "Cuisinart"]
    case Sports => ["Nike", "Under Armour", "Wilson", "Callaway"]
    case Beauty => ["L'Oréal", "Maybelline", "Neutrogena", "CeraVe"]
    case Toys => ["LEGO", "Hasbro", "Mattel", "Fisher-Price"]
    case Food => []
    case Other => []
  }

  /** The templates of each seed category, listed in the order of `SeedCategories`. */
  const TemplateTable: seq<seq<Template>> := [
    [
      Template("Wireless Noise-Canceling Headphones", 299), Template("4K Smart TV 55\"", 799),
      Template("Mechanical Gaming Keyboard", 149), Template("USB-C Docking Station", 89),
      Template("Portable Bluetooth Speaker", 59), Template("Wireless Charging Pad", 39),
      Template("Gaming Mouse RGB", 79), Template("27\" 4K Monitor", 499)],
    [
      Template("Classic Fit Jeans", 59), Template("Performance Running Shoes", 129),
      Template("Casual Hoodie", 49), Template("Slim Fit Chinos", 69),
      Template("Athletic T-Shirt Pack", 39), Template("Winter Puffer Jacket", 179),
      Template("Yoga Leggings", 55), Template("Canvas Sneakers", 45)],
    [
      Template("The Art of Clean Code", 35), Template("Design Patterns in Practice", 45),
      Template("Modern JavaScript Essentials", 29), Template("Machine Learning Fundamentals", 55),
      Template("System Design Interview Guide", 39), Template("Clean Architecture", 42)],
    [
      Template("Robot Vacuum Cleaner", 299), Template("Air Purifier HEPA", 199),
      Template("Stand Mixer 5-Quart", 349), Template("Coffee Maker with Grinder", 149),
      Template("Smart Thermostat", 249), Template("Indoor Herb Garden Kit", 49),
      Template("Cordless Vacuum", 179), Template("Instant Pot 6-Quart", 99)],
    [
      Template("Yoga Mat Premium", 69), Template("Adjustable Dumbbells Set", 299),
      Template("Road Cycling Helmet", 119), Template("Tennis Racket Pro", 149),
      Template("Resistance Bands Set", 35), Template("Foam Roller Recovery", 29),
      Template("Jump Rope Speed", 19), Template("Pull-Up Bar Doorframe", 39)],
    [
      Template("Vitamin C Serum", 45), Template("Hyaluronic Acid Moisturizer", 35),
      Template("Electric Face Cleansing Brush", 79), Template("SPF 50 Sunscreen", 25),
      Template("Retinol Night Cream", 55), Template("Micellar Cleansing Water", 15),
      Template("Hair Repair Mask", 29), Template("Lip Care Set", 22)],
    [
      Template("STEM Building Blocks 500pc", 49), Template("Remote Control Car", 69),
      Template("Classic Board Game Set", 39), Template("Art Supply Kit Kids", 35),
      Template("Wooden Puzzle Set", 29), Template("Stuffed Animal Collection", 25),
      Template("Science Experiment Kit", 45), Template("Musical Instrument Starter Set", 59)]
  ]

  const Variants: seq<string> := ["Standard", "Pro", "Premium", "Lite"]

  /** The price of variant vi in cents: the base price in dollars times 1, 1.4, 1.8 or 0.7. */
  function VariantPrice(basePrice: nat, vi: nat): nat
    requires vi < 4
  {
    if vi == 0 then 100 * basePrice
    else if vi == 1 then 140 * basePrice
    else if vi == 2 then 180 * basePrice
    else 70 * basePrice
  }

  // ---------------------------------------------------------------- slugs

  predicate IsAlnum(c: char) { 'a' <= c <= 'z' || '0' <= c <= '9' }

  predicate SlugChar(c: char) { IsAlnum(c) || c == '-' }

  /** The letters and digits of `s`, in order. */
  function Alnums(s: string): seq<char>
  {
    if s == [] then []
    else Alnums(s[..|s| - 1]) + (if IsAlnum(s[|s| - 1]) then [s[|s| - 1]] else [])
  }

  lemma AlnumsSnoc(s: string, c: char)
    ensures Alnums(s + [c]) == Alnums(s) + (if IsAlnum(c) then [c] else [])
  {
    assert (s + [c])[..|s + [c]| - 1] == s;
  }

  /** `replace(/[^a-z0-9]+/g, '-')`: every maximal run of other characters becomes one dash. */
  function CollapseRuns(s: string): (r: string)
    ensures forall i :: 0 <= i < |r| ==> SlugChar(r[i])
    ensures forall i :: 0 <= i < |r| - 1 ==> !(r[i] == '-' && r[i + 1] == '-')
    ensures r == [] <==> s == []
    ensures r != [] ==> (r[|r| - 1] == '-' <==> !IsAlnum(s[|s| - 1]))
    ensures r != [] ==> (r[0] == '-' <==> !IsAlnum(s[0]))
  {
    if s == [] then []
    else
      var init := s[..|s| - 1];
      var c := s[|s| - 1];
      var prev := CollapseRuns(init);
      assert init != [] ==> init[0] == s[0];
      if IsAlnum(c) then prev + [c]
      else if init != [] && !IsAlnum(init[|init| - 1]) then prev
      else prev + ['-']
  }

  /** Collapsing runs keeps every letter and digit, in order: only the separators change. */
  lemma {:induction false} CollapseRunsKeepsAlnums(s: string)
    ensures Alnums(CollapseRuns(s)) == Alnums(s)
    decreases |s|
  {
    if s != [] {
      var init := s[..|s| - 1];
      var c := s[|s| - 1];
      CollapseRunsKeepsAlnums(init);
      AlnumsSnoc(CollapseRuns(init), c);
      AlnumsSnoc(CollapseRuns(init), '-');
    }
  }

  /** One character becomes itself when it is a letter or digit, and a dash otherwise. */
  lemma CollapseRunsSingle(c: char)
    ensures CollapseRuns([c]) == if IsAlnum(c) then [c] else "-"
  {
    assert [c][..0] == [];
  }

  /** One step of collapsing: the next character `c` after text ending in `last`. */
  function CollapseStep(prev: string, last: char, c: char): string
  {
    if IsAlnum(c) then prev + [c] else if !IsAlnum(last) then prev else prev + "-"
  }

  lemma CollapseRunsSnoc(s: string, c: char)
    requires s != []
    ensures CollapseRuns(s + [c]) == CollapseStep(CollapseRuns(s), s[|s| - 1], c)
  {
    assert (s + [c])[..|s + [c]| - 1] == s;
  }

  lemma CollapseStepShift(p: string, t: string, last: char, c: char)
    ensures CollapseStep(p + t, last, c) == p + CollapseStep(t, last, c)
    ensures t != [] ==> CollapseStep(t, last, c)[1..] == CollapseStep(t[1..], last, c)
  {
  }

  /**
   * Collapsing works piece by piece: the pieces' results are joined, and when a run of
   * separators spans the join its two dashes merge into one.
   */
  lemma {:induction false} CollapseRunsAppend(a: string, b: string)
    requires a != [] && b != []
    ensures CollapseRuns(a + b) ==
      if !IsAlnum(a[|a| - 1]) && !IsAlnum(b[0]) then CollapseRuns(a) + CollapseRuns(b)[1..]
      else CollapseRuns(a) + CollapseRuns(b)
    decreases |b|
  {
    var x := b[|b| - 1];
    var b' := b[..|b| - 1];
    assert a + b == (a + b') + [x];
    if b' == [] {
      assert a + b' == a;
      CollapseRunsSnoc(a, x);
      CollapseRunsSingle(x);
    } else {
      var l := b'[|b'| - 1];
      assert (a + b')[|a + b'| - 1] == l;
      assert b == b' + [x];
      assert b'[0] == b[0];
      CollapseRunsAppend(a, b');
      CollapseRunsSnoc(a + b', x);
      CollapseRunsSnoc(b', x);
      var t := CollapseRuns(b');
      CollapseStepShift(CollapseRuns(a), t, l, x);
      if t != [] {
        CollapseStepShift(CollapseRuns(a), t[1..], l, x);
      }
    }
  }

  /** `replace(/(^-|-$)/g, '')`: one leading and one trailing dash removed. */
  function StripDashes(s: string): string
  {
    var a := if s != [] && s[0] == '-' then s[1..] else s;
    if a != [] && a[|a| - 1] == '-' then a[..|a| - 1] else a
  }

  /** The sanitised part of a slug. */
  function SlugBody(name: string): string
  {
    StripDashes(CollapseRuns(ToLower(name)))
  }

  /** Only lower-case letters, digits and dashes, and never two dashes in a row. */
  predicate SlugShape(s: string)
  {
    && (forall i :: 0 <= i < |s| ==> SlugChar(s[i]))
    && (forall i :: 0 <= i < |s| - 1 ==> !(s[i] == '-' && s[i + 1] == '-'))
  }

  lemma DropLeadingDash(s: string)
    requires SlugShape(s)
    ensures var a := if s != [] && s[0] == '-' then s[1..] else s;
      SlugShape(a) && (a != [] ==> a[0] != '-')
  {
    if s != [] && s[0] == '-' && |s| > 1 {
      assert s[1..][0] == s[1];
    }
  }

  lemma DropTrailingDash(a: string)
    requires SlugShape(a) && (a != [] ==> a[0] != '-')
    ensures var b := if a != [] && a[|a| - 1] == '-' then a[..|a| - 1] else a;
      SlugShape(b) && (b != [] ==> b[0] != '-' && b[|b| - 1] != '-')
  {
    if a != [] && a[|a| - 1] == '-' && |a| > 1 {
      var b := a[..|a| - 1];
      assert b[0] == a[0] && b[|b| - 1] == a[|a| - 2];
    }
  }

  lemma StripDashesShape(s: string)
    requires SlugShape(s)
    ensures var b := StripDashes(s);
      SlugShape(b) && (b != [] ==> b[0] != '-' && b[|b| - 1] != '-')
  {
    DropLeadingDash(s);
    DropTrailingDash(if s != [] && s[0] == '-' then s[1..] else s);
  }

  /** The body holds only lower-case letters, digits and single dashes, and neither starts nor ends with a dash. */
  lemma SlugBodyWellFormed(name: string)
    ensures var b := SlugBody(name);
      && (forall i :: 0 <= i < |b| ==> SlugChar(b[i]))
      && (forall i :: 0 <= i < |b| - 1 ==> !(b[i] == '-' && b[i + 1] == '-'))
      && (b != [] ==> b[0] != '-' && b[|b| - 1] != '-')
  {
    var s := CollapseRuns(ToLower(name));
    assert SlugShape(s);
    StripDashesShape(s);
  }

  /** `generateSlug(name, index)`. */
  function Slug(name: string, index: nat): string
  {
    SlugBody(name) + "-" + NatToString(index)
  }

  /** In `x + "-" + d` with d all digits, d is everything after the last dash. */
  lemma DigitsAfterDash(x: string, d: string, y: string, e: string)
    requires x + "-" + d == y + "-" + e && AllDigits(d) && AllDigits(e)
    ensures d == e
  {
    var s := x + "-" + d;
    assert forall i :: |s| - |d| <= i < |s| ==> s[i] != '-';
    assert forall i :: |s| - |e| <= i < |s| ==> s[i] != '-';
    assert s[|s| - |d| - 1] == '-' && s[|s| - |e| - 1] == '-';
    assert d == s[|s| - |d|..];
  }

  /** The numeral after the last dash determines the index: distinct indices give distinct slugs. */
  lemma SlugIndexInjective(n1: string, i1: nat, n2: string, i2: nat)
    requires Slug(n1, i1) == Slug(n2, i2)
    ensures i1 == i2
  {
    DigitsAfterDash(SlugBody(n1), NatToString(i1), SlugBody(n2), NatToString(i2));
    NatToStringInjective(i1, i2);
  }

  // ---------------------------------------------------------------- SKUs

  /** `SKU-${category.slice(0, 3).toUpperCase()}-${String(index).padStart(5, '0')}`. */
  function Sku(c: Category, index: nat): string
  {
    "SKU-" + ToUpper(First(CategoryName(c), 3)) + "-" + PadStart(NatToString(index), 5, '0')
  }

  lemma SkuLayout(code: string, digits: string)
    requires |code| == 3 && |digits| == 5
    ensures var s := "SKU-" + code + "-" + digits;
      |s| == 13 && s[..4] == "SKU-" && s[4..7] == code && s[7] == '-' && s[8..] == digits
  {
  }

  /** The first three characters of a string that starts with three letters, upper-cased. */
  lemma UpperCode(s: string)
    requires |s| >= 3 && forall i :: 0 <= i < 3 ==> IsUpper(s[i]) || IsLower(s[i])
    ensures |ToUpper(First(s, 3))| == 3
    ensures forall i :: 0 <= i < 3 ==> IsUpper(ToUpper(First(s, 3))[i])
  {
    assert First(s, 3) == s[..3];
  }

  /** The category code is three letters, upper-cased. */
  lemma CategoryCode(c: Category)
    requires c in SeedCategories
    ensures |ToUpper(First(CategoryName(c), 3))| == 3
    ensures forall i :: 0 <= i < 3 ==> IsUpper(ToUpper(First(CategoryName(c), 3))[i])
  {
    var name := CategoryName(c);
    assert |name| >= 3 && IsUpper(name[0]) && IsLower(name[1]) && IsLower(name[2]);
    UpperCode(name);
  }

  /** An SKU is "SKU-", three upper-case letters, "-", and five digits that read back as the index. */
  lemma SkuFormat(c: Category, index: nat)
    requires c in SeedCategories && index < 100000
    ensures var s := Sku(c, index);
      && |s| == 13 && s[..4] == "SKU-" && s[7] == '-'
      && (forall i :: 4 <= i < 7 ==> IsUpper(s[i]))
      && AllDigits(s[8..]) && DigitsValue(s[8..]) == index
  {
    var code := ToUpper(First(CategoryName(c), 3));
    var d := PadStart(NatToString(index), 5, '0');
    CategoryCode(c);
    assert Pow10(5) == 100000 by {
      assert Pow10(3) == 1000;
    }
    NatToStringLength(index, 5);
    PaddedValue(index, 5);
    SkuLayout(code, d);
    var s := Sku(c, index);
    assert s == "SKU-" + code + "-" + d;
    assert forall i :: 4 <= i < 7 ==> s[i] == code[i - 4];
  }

  // ---------------------------------------------------------------- one product

  /** `Math.floor(draw * n)` for a draw in [0, 1). */
  function Pick(draw: real, n: nat): (k: nat)
    requires 0.0 <= draw < 1.0 && n >= 1
    ensures k < n
  {
    assert draw * (n as real) < n as real;
    (draw * (n as real)).Floor
  }

  /** The draws one product uses; `discountValue` is drawn only when `discountGate > 0.7`. */
  datatype Draws = Draws(brand: real, discountGate: real, discountValue: real, stock: real, rating: real,
                         reviews: real, featured: real)

  predicate DrawsInRange(d: Draws)
  {
    && 0.0 <= d.brand < 1.0 && 0.0 <= d.discountGate < 1.0 && 0.0 <= d.discountValue < 1.0
    && 0.0 <= d.stock < 1.0 && 0.0 <= d.rating < 1.0 && 0.0 <= d.reviews < 1.0 && 0.0 <= d.featured < 1.0
  }

  function DiscountOf(d: Draws): (r: int)
    requires DrawsInRange(d)
    ensures r == 0 || 5 <= r <= 34
  {
    if d.discountGate > 0.7 then Pick(d.discountValue, 30) + 5 else 0
  }

  /** `+(Math.random() * 2 + 3).toFixed(1)`, in tenths. */
  function RatingOf(draw: real): (r: int)
    requires 0.0 <= draw < 1.0
    ensures 30 <= r <= 50
  {
    (20.0 * draw + 30.5).Floor
  }

  /** The fixed end of every generated description. */
  const DescriptionTail: string :=
    " edition offers excellent performance and reliability for everyday use. Perfect for professionals and enthusiasts alike."

  /** `price / (1 - discount / 100)` rounded to the cent, set only for a discount. */
  function ComparePrice(price: nat, discount: int): Option<int>
    requires discount < 100
  {
    if discount > 0 then Some(RoundHalfUp(price * 100, 100 - discount) as int) else None
  }

  /** The record pushed for one template, variant and index. */
  function MakeProduct(c: Category, t: Template, vi: nat, index: nat, d: Draws): (p: Product)
    requires vi < 4 && DrawsInRange(d) && |Brands(c)| >= 1
  {
    var variant := Variants[vi];
    var price := VariantPrice(t.basePrice, vi);
    var brand := Brands(c)[Pick(d.brand, |Brands(c)|)];
    var discount := DiscountOf(d);
    var name := brand + " " + t.name + " " + variant;
    Product(
      name,
      Slug(brand + "-" + t.name + "-" + variant, index),
      "High-quality " + ToLower(t.name) + " from " + brand + ". The " + variant + DescriptionTail,
      brand + " " + t.name + " - " + variant + " Edition",
      price,
      ComparePrice(price, discount),
      [Image("https://picsum.photos/seed/" + NatToString(index + 1) + "/600/600", name)],
      c,
      brand,
      Sku(c, index + 1),
      Pick(d.stock, 200) + 5,
      [ToLower(CategoryName(c)), ToLower(brand), ToLower(variant)],
      [],
      RatingOf(d.rating),
      Pick(d.reviews, 500),
      d.featured > 0.85,
      true,
      discount)
  }

  /** What the generator promises about the product at position i, made from template `t` of category `c`. */
  predicate Generated(p: Product, i: nat, c: Category, t: Template)
  {
    && p.category == c
    && p.price == VariantPrice(t.basePrice, i % 4)
    && p.brand in Brands(c)
    && p.name == p.brand + " " + t.name + " " + Variants[i % 4]
    && p.slug == Slug(p.brand + "-" + t.name + "-" + Variants[i % 4], i + 1)
    && p.sku == Sku(c, i + 2)
    && (p.discount == 0 || 5 <= p.discount <= 34)
    && p.comparePrice == ComparePrice(p.price, p.discount)
    && 5 <= p.stock <= 204
    && 30 <= p.rating <= 50
    && 0 <= p.numReviews < 500
    && p.isActive && p.reviews == []
  }

  lemma MakeProductGenerated(c: Category, t: Template, i: nat, d: Draws)
    requires DrawsInRange(d) && |Brands(c)| >= 1
    ensures Generated(MakeProduct(c, t, i % 4, i + 1, d), i, c, t)
  {
  }

  /** A discounted product's compare-at price is at least its price. */
  lemma ComparePriceCoversPrice(price: nat, discount: int)
    requires 5 <= discount <= 34
    ensures RoundHalfUp(price * 100, 100 - discount) >= price
  {
    RoundHalfUpMonotone(price * (100 - discount), price * 100, 100 - discount);
    RoundHalfUpExact(price, 100 - discount);
  }

  /** Every generated product satisfies the product schema, and a compare-at price is at least the price. */
  lemma GeneratedIsValid(p: Product, i: nat, c: Category, t: Template)
    requires Generated(p, i, c, t)
    ensures ValidProduct(p)
    ensures p.comparePrice.Some? ==> p.comparePrice.value >= p.price
  {
    if p.comparePrice.Some? {
      ComparePriceCoversPrice(p.price, p.discount);
    }
  }

  /** Every product of a generated catalogue satisfies the product schema. */
  lemma AllGeneratedValid(products: seq<Product>, rows: seq<(Category, Template)>)
    requires AllGenerated(products, rows)
    ensures forall i :: 0 <= i < |products| ==> ValidProduct(products[i])
  {
    forall i | 0 <= i < |products|
      ensures ValidProduct(products[i])
    {
      assert GeneratedAt(products[i], i, rows);
      GeneratedIsValid(products[i], i, rows[i / 4].0, rows[i / 4].1);
    }
  }

  // ---------------------------------------------------------------- the generator

  /** The templates of the category at position ci, each paired with the category. */
  function Tagged(cats: seq<Category>, table: seq<seq<Template>>, ci: nat): (r: seq<(Category, Template)>)
    requires |cats| == |table| && ci < |cats|
    ensures |r| == |table[ci]|
    ensures forall k :: 0 <= k < |r| ==> r[k] == (cats[ci], table[ci][k])
  {
    seq(|table[ci]|, k requires 0 <= k < |table[ci]| => (cats[ci], table[ci][k]))
  }

  /** The templates of the first n categories in generation order, each with its category. */
  function Rows(cats: seq<Category>, table: seq<seq<Template>>, n: nat): seq<(Category, Template)>
    requires |cats| == |table| && n <= |cats|
  {
    if n == 0 then [] else Rows(cats, table, n - 1) + Tagged(cats, table, n - 1)
  }

  /** The rows of fewer categories are a prefix of the rows of more. */
  lemma {:induction false} RowsPrefix(cats: seq<Category>, table: seq<seq<Template>>, c: nat, d: nat)
    requires |cats| == |table| && c <= d <= |cats|
    ensures |Rows(cats, table, c)| <= |Rows(cats, table, d)|
    ensures Rows(cats, table, d)[..|Rows(cats, table, c)|] == Rows(cats, table, c)
    decreases d
  {
    if c < d {
      RowsPrefix(cats, table, c, d - 1);
      assert Rows(cats, table, d)[..|Rows(cats, table, d - 1)|] == Rows(cats, table, d - 1);
    }
  }

  /** Row `|Rows(c)| + t` of the whole table is template t of category c. */
  lemma RowAt(cats: seq<Category>, table: seq<seq<Template>>, c: nat, t: nat)
    requires |cats| == |table| && c < |cats| && t < |table[c]|
    ensures |Rows(cats, table, c)| + t < |Rows(cats, table, |cats|)|
    ensures Rows(cats, table, |cats|)[|Rows(cats, table, c)| + t] == (cats[c], table[c][t])
  {
    RowsPrefix(cats, table, c + 1, |cats|);
    assert Rows(cats, table, c + 1)[|Rows(cats, table, c)| + t] == (cats[c], table[c][t]);
  }

  /** The seed table has 54 templates. */
  lemma RowCount()
    ensures |Rows(SeedCategories, TemplateTable, |SeedCategories|)| == 54
  {
    var cats, table := SeedCategories, TemplateTable;
    assert |Rows(cats, table, 1)| == 8;
    assert |Rows(cats, table, 2)| == 16;
    assert |Rows(cats, table, 3)| == 22;
    assert |Rows(cats, table, 4)| == 30;
    assert |Rows(cats, table, 5)| == 38;
    assert |Rows(cats, table, 6)| == 46;
  }

  ghost predicate DrawStream(random: nat -> real)
  {
    forall k: nat :: 0.0 <= random(k) < 1.0
  }

  /** The draws from position `cursor` on, and how many were read (7 with a discount, 6 without). */
  function ReadDraws(random: nat -> real, cursor: nat): (r: (Draws, nat))
    requires DrawStream(random)
    ensures DrawsInRange(r.0)
    ensures r.1 == if r.0.discountGate > 0.7 then 7 else 6
  {
    var gate := random(cursor + 1);
    if gate > 0.7 then
      (Draws(random(cursor), gate, random(cursor + 2), random(cursor + 3), random(cursor + 4), random(cursor + 5), random(cursor + 6)), 7)
    else
      (Draws(random(cursor), gate, 0.0, random(cursor + 2), random(cursor + 3), random(cursor + 4), random(cursor + 5)), 6)
  }

  /** Product i comes from row i / 4 of the table. */
  predicate GeneratedAt(p: Product, i: nat, rows: seq<(Category, Template)>)
    requires i / 4 < |rows|
  {
    Generated(p, i, rows[i / 4].0, rows[i / 4].1)
  }

  /** Every product so far is the one the generator promises for its position. */
  predicate AllGenerated(products: seq<Product>, rows: seq<(Category, Template)>)
  {
    && |products| <= 4 * |rows|
    && forall i {:trigger GeneratedAt(products[i], i, rows)} :: 0 <= i < |products| ==> GeneratedAt(products[i], i, rows)
  }

  lemma ExtendGenerated(products: seq<Product>, p: Product, rows: seq<(Category, Template)>, row: nat)
    requires |products| < 4 * |rows| && row < |rows| && |products| / 4 == row
    requires AllGenerated(products, rows) && Generated(p, |products|, rows[row].0, rows[row].1)
    ensures AllGenerated(products + [p], rows)
  {
    var ps := products + [p];
    forall i | 0 <= i < |ps|
      ensures GeneratedAt(ps[i], i, rows)
    {
      if i < |products| {
        assert GeneratedAt(products[i], i, rows);
        assert ps[i] == products[i];
      } else {
        assert i == |products| && ps[i] == p && i / 4 == row;
      }
    }
  }

  lemma DivMod4(row: nat, vi: nat)
    requires vi < 4
    ensures (4 * row + vi) / 4 == row && (4 * row + vi) % 4 == vi
  {
  }

  /** One pass of the variant loop: read the draws from the cursor and build product i. */
  method MakeVariant(random: nat -> real, cursor: nat, c: Category, t: Template, i: nat) returns (p: Product, next: nat)
    requires DrawStream(random) && |Brands(c)| >= 1
    ensures Generated(p, i, c, t)
    ensures next == cursor + ReadDraws(random, cursor).1
  {
    var drawn := ReadDraws(random, cursor);
    MakeProductGenerated(c, t, i, drawn.0);
    p := MakeProduct(c, t, i % 4, i + 1, drawn.0);
    next := cursor + drawn.1;
  }

  /** The four variants of template t of category c, which is row `row` of the table. */
  method GenerateVariants(random: nat -> real, cursor: nat, products: seq<Product>,
                          rows: seq<(Category, Template)>, row: nat)
    returns (cursor': nat, products': seq<Product>)
    requires DrawStream(random) && row < |rows| && |Brands(rows[row].0)| >= 1
    requires |products| == 4 * row && AllGenerated(products, rows)
    ensures |products'| == 4 * row + 4 && AllGenerated(products', rows)
  {
    cursor', products' := cursor, products;
    for vi := 0 to 4
      invariant |products'| == 4 * row + vi && AllGenerated(products', rows)
    {
      var p;
      p, cursor' := MakeVariant(random, cursor', rows[row].0, rows[row].1, |products'|);
      DivMod4(row, vi);
      ExtendGenerated(products', p, rows, row);
      products' := products' + [p];
    }
  }

  /** The templates of category c, each in its four variants. */
  method GenerateCategory(random: nat -> real, cursor: nat, products: seq<Product>,
                          cats: seq<Category>, table: seq<seq<Template>>, c: nat)
    returns (cursor': nat, products': seq<Product>)
    requires DrawStream(random) && |cats| == |table| && c < |cats| && |Brands(cats[c])| >= 1
    requires |products| == 4 * |Rows(cats, table, c)|
    requires AllGenerated(products, Rows(cats, table, |cats|))
    ensures |products'| == 4 * |Rows(cats, table, c + 1)|
    ensures AllGenerated(products', Rows(cats, table, |cats|))
  {
    var rows := Rows(cats, table, |cats|);
    var start := |Rows(cats, table, c)|;
    RowsPrefix(cats, table, c + 1, |cats|);
    cursor', products' := cursor, products;
    for t := 0 to |table[c]|
      invariant |products'| == 4 * (start + t) && start + t <= |rows|
      invariant AllGenerated(products', rows)
    {
      RowAt(cats, table, c, t);
      cursor', products' := GenerateVariants(random, cursor', products', rows, start + t);
    }
  }

  /** The nested loops of `generateProducts` over a table of categories and their templates. */
  method GenerateFrom(random: nat -> real, cats: seq<Category>, table: seq<seq<Template>>)
    returns (products: seq<Product>)
    requires DrawStream(random) && |cats| == |table|
    requires forall c :: 0 <= c < |cats| ==> |Brands(cats[c])| >= 1
    ensures |products| == 4 * |Rows(cats, table, |cats|)|
    ensures AllGenerated(products, Rows(cats, table, |cats|))
  {
    var rows := Rows(cats, table, |cats|);
    products := [];
    var cursor: nat := 0;
    for c := 0 to |cats|
      invariant |products| == 4 * |Rows(cats, table, c)|
      invariant AllGenerated(products, rows)
    {
      assert |Brands(cats[c])| >= 1;
      cursor, products := GenerateCategory(random, cursor, products, cats, table, c);
    }
  }

  /**
   * `generateProducts`: for each category, for each of its templates, the four variants;
   * the index starts at 1 and is incremented inside the slug call, so the SKU and the
   * image use the next number.
   */
  method GenerateProducts(random: nat -> real) returns (products: seq<Product>)
    requires DrawStream(random)
    ensures |products| == 4 * |Rows(SeedCategories, TemplateTable, |SeedCategories|)| == 216
    ensures AllGenerated(products, Rows(SeedCategories, TemplateTable, |SeedCategories|))
    ensures forall i :: 0 <= i < |products| ==> ValidProduct(products[i])
  {
    RowCount();
    assert forall c :: 0 <= c < |SeedCategories| ==> |Brands(SeedCategories[c])| >= 1;
    products := GenerateFrom(random, SeedCategories, TemplateTable);
    AllGeneratedValid(products, Rows(SeedCategories, TemplateTable, |SeedCategories|));
  }
}
