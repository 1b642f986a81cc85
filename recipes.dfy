/** The pure part of the order proxy (verger-odoo-proxy/server.js): how the
    `/order` route turns a request into normalised order lines, and how the
    `/baskets-with-products` route describes one kit. */
module Recipes {
  import opened Wrappers
  import opened Odoo

  /** One product of an ad-hoc order, as the client sends it. */
  datatype OrderProduct = OrderProduct(id: int, quantity: int, price: int)

  /** A sale-order line (product_id, product_uom_qty, price_unit). */
  datatype OrderLine = OrderLine(productId: int, qty: int, priceUnit: int)

  /** How line resolution ends: with lines, with a 400 answer, or with an
      exception nobody catches (the route then never answers). */
  datatype LineOutcome = Resolved(lines: seq<OrderLine>) | Rejected(error: string) | Thrown

  const BasketNotFound: string := "Panier introuvable"
  const BasketWithoutBom: string := "Panier sans BOM"
  const BomNotFound: string := "Nomenclature introuvable"
  const NothingToOrder: string := "Aucun panier ni produits fournis"

  // ---------------------------------------------------------------------
  // Order lines

  /** `products.map(...)`: one line per requested product. */
  function AdHocLines(products: seq<OrderProduct>): seq<OrderLine>
  {
    if products == [] then []
    else [OrderLine(products[0].id, products[0].quantity, products[0].price)] + AdHocLines(products[1..])
  }

  /** Ad-hoc lines copy each product unchanged, in input order. */
  lemma {:induction false} AdHocLinesCopy(products: seq<OrderProduct>)
    ensures |AdHocLines(products)| == |products|
    ensures forall i :: 0 <= i < |products| ==>
      AdHocLines(products)[i] == OrderLine(products[i].id, products[i].quantity, products[i].price)
  {
    if products != [] {
      AdHocLinesCopy(products[1..]);
    }
  }

  /** `bomLines.map((l) => l.product_id[0])`. */
  function ProductIds(lines: seq<BomLine>): seq<int>
  {
    if lines == [] then [] else [lines[0].productId] + ProductIds(lines[1..])
  }

  lemma {:induction false} ProductIdsAt(lines: seq<BomLine>)
    ensures |ProductIds(lines)| == |lines|
    ensures forall i :: 0 <= i < |lines| ==> ProductIds(lines)[i] == lines[i].productId
  {
    if lines != [] {
      ProductIdsAt(lines[1..]);
    }
  }

  /** The unit price of a kit component: its catalogue price when the search
      found the product, 0 otherwise. */
  function PriceOrZero(found: map<int, Product>, productId: int): int
  {
    if productId in found then found[productId].listPrice else 0
  }

  /** `bomLines.map(...)` with `productsData.find(...)`: one line per BOM line. */
  function KitLines(lines: seq<BomLine>, found: map<int, Product>): seq<OrderLine>
  {
    if lines == [] then []
    else [OrderLine(lines[0].productId, lines[0].qty, PriceOrZero(found, lines[0].productId))]
         + KitLines(lines[1..], found)
  }

  /** Kit expansion keeps the BOM-line order: line i orders the product of BOM
      line i, in its quantity, at the price the search found (or 0). */
  lemma {:induction false} KitLinesAt(lines: seq<BomLine>, found: map<int, Product>)
    ensures |KitLines(lines, found)| == |lines|
    ensures forall i :: 0 <= i < |lines| ==>
      KitLines(lines, found)[i] == OrderLine(lines[i].productId, lines[i].qty, PriceOrZero(found, lines[i].productId))
  {
    if lines != [] {
      KitLinesAt(lines[1..], found);
    }
  }

  /** The outcome of resolving a kit id (server.js:141-184): "basket not
      found" exactly when no template has the id, "basket without BOM"
      exactly when the template has no BOM, and no other refusal than the
      unreadable or empty first BOM. */
  function KitResolution(cat: Catalogue, basketId: int): (r: LineOutcome)
    ensures r == Rejected(BasketNotFound) <==> FindTemplate(cat.templates, basketId).None?
    ensures r == Rejected(BasketWithoutBom) <==>
      FindTemplate(cat.templates, basketId).Some? && |FindTemplate(cat.templates, basketId).value.bomIds| == 0
    ensures r.Rejected? ==> r.error == BasketNotFound || r.error == BasketWithoutBom || r.error == BomNotFound
  {
    match FindTemplate(cat.templates, basketId)
    case None => Rejected(BasketNotFound)
    case Some(t) =>
      if |t.bomIds| == 0 then Rejected(BasketWithoutBom)
      else
        var boms := ReadAll(cat.boms, t.bomIds);
        if boms.None? || |boms.value[0].lineIds| == 0 then Rejected(BomNotFound)
        else
          match ReadAll(cat.bomLines, boms.value[0].lineIds)
          case None => Thrown
          case Some(lines) => Resolved(KitLines(lines, SearchActive(cat.products, ProductIds(lines))))
  }

  /** The branch on `products` and `basketId` (server.js:121-187): a
      non-empty product list wins over a kit id, and with neither the
      request is refused. */
  function ResolveLines(cat: Catalogue, basketId: Option<int>, products: seq<OrderProduct>): (r: LineOutcome)
    ensures |products| > 0 ==> r == Resolved(AdHocLines(products))
    ensures |products| == 0 && !(basketId.Some? && basketId.value > 0) ==> r == Rejected(NothingToOrder)
    ensures |products| == 0 && basketId.Some? && basketId.value > 0 ==> r == KitResolution(cat, basketId.value)
  {
    if |products| > 0 then Resolved(AdHocLines(products))
    else if basketId.Some? && basketId.value > 0 then KitResolution(cat, basketId.value)
    else Rejected(NothingToOrder)
  }

  /** A resolved order never has an empty line list: ad-hoc lines need a
      non-empty product list, and a kit needs a BOM with lines. */
  lemma ResolvedLinesNonEmpty(cat: Catalogue, basketId: Option<int>, products: seq<OrderProduct>)
    ensures ResolveLines(cat, basketId, products).Resolved? ==>
      |ResolveLines(cat, basketId, products).lines| > 0
  {
    var r := ResolveLines(cat, basketId, products);
    if r.Resolved? {
      if |products| > 0 {
        AdHocLinesCopy(products);
      } else {
        var t := FindTemplate(cat.templates, basketId.value).value;
        var lineIds := ReadAll(cat.boms, t.bomIds).value[0].lineIds;
        var lines := ReadAll(cat.bomLines, lineIds).value;
        KitLinesAt(lines, SearchActive(cat.products, ProductIds(lines)));
      }
    }
  }

  /** The kit case of the `/order` route, end to end: a resolved kit orders,
      line by line, the components of the first BOM of the kit, each in its
      BOM quantity and at its catalogue list price, or at 0 when the product
      is archived. */
  lemma KitResolutionLines(cat: Catalogue, basketId: int)
    requires KitResolution(cat, basketId).Resolved?
    ensures var t := FindTemplate(cat.templates, basketId).value;
            var lineIds := cat.boms[t.bomIds[0]].lineIds;
            var lines := KitResolution(cat, basketId).lines;
            |lines| == |lineIds| > 0 &&
            forall i :: 0 <= i < |lineIds| ==>
              var bl := cat.bomLines[lineIds[i]];
              && lines[i].productId == bl.productId
              && lines[i].qty == bl.qty
              && lines[i].priceUnit ==
                   (if bl.productId in cat.products && cat.products[bl.productId].active
                    then cat.products[bl.productId].listPrice else 0)
  {
    var t := FindTemplate(cat.templates, basketId).value;
    var lineIds := ReadAll(cat.boms, t.bomIds).value[0].lineIds;
    var bomLines := ReadAll(cat.bomLines, lineIds).value;
    var ids := ProductIds(bomLines);
    ProductIdsAt(bomLines);
    KitLinesAt(bomLines, SearchActive(cat.products, ids));
    forall i | 0 <= i < |lineIds|
      ensures bomLines[i].productId in ids
    {
      assert ids[i] == bomLines[i].productId;
    }
  }

  /** The three ways a kit request is refused with 400 before any order
      exists, in the order the route tests them. */
  lemma KitRejections(cat: Catalogue, basketId: int)
    ensures FindTemplate(cat.templates, basketId).None? ==>
      KitResolution(cat, basketId) == Rejected(BasketNotFound)
    ensures FindTemplate(cat.templates, basketId).Some? &&
            |FindTemplate(cat.templates, basketId).value.bomIds| == 0 ==>
      KitResolution(cat, basketId) == Rejected(BasketWithoutBom)
    ensures FindTemplate(cat.templates, basketId).Some? ==>
      var t := FindTemplate(cat.templates, basketId).value;
      |t.bomIds| > 0 && (ReadAll(cat.boms, t.bomIds).None? || |cat.boms[t.bomIds[0]].lineIds| == 0) ==>
        KitResolution(cat, basketId) == Rejected(BomNotFound)
  {
  }

  // ---------------------------------------------------------------------
  // Kit listing

  /** One component of a listed kit. */
  datatype KitProduct = KitProduct(id: int, name: string, category: string, quantity: int)

  /** One kit of the listing, with its composition. */
  datatype KitEntry = KitEntry(id: int, name: string, price: int, image: Option<string>, products: seq<KitProduct>)

  /** `categ_id ? categ_id[1] : ""`. */
  function CategoryLabel(p: Product): string
  {
    match p.category
    case Some(c) => c
    case None => ""
  }

  function ToKitProduct(line: BomLine, found: map<int, Product>): KitProduct
    requires line.productId in found
  {
    var p := found[line.productId];
    KitProduct(line.productId, p.name, CategoryLabel(p), line.qty)
  }

  /** `bomLines.map(...).filter(Boolean)`: one entry per BOM line whose
      product the search found. */
  function KitProducts(lines: seq<BomLine>, found: map<int, Product>): seq<KitProduct>
  {
    if lines == [] then []
    else (if lines[0].productId in found then [ToKitProduct(lines[0], found)] else [])
         + KitProducts(lines[1..], found)
  }

  /** The composition of a concatenation is the concatenation of the
      compositions: entries keep the order of the BOM lines. */
  lemma {:induction false} KitProductsAppend(a: seq<BomLine>, b: seq<BomLine>, found: map<int, Product>)
    ensures KitProducts(a + b, found) == KitProducts(a, found) + KitProducts(b, found)
  {
    if a == [] {
      assert a + b == b;
    } else {
      assert (a + b)[1..] == a[1..] + b;
      KitProductsAppend(a[1..], b, found);
    }
  }

  /** A BOM line whose product the search did not find leaves no entry. */
  lemma KitProductsDropsMissing(a: seq<BomLine>, line: BomLine, b: seq<BomLine>, found: map<int, Product>)
    requires line.productId !in found
    ensures KitProducts(a + [line] + b, found) == KitProducts(a + b, found)
  {
    KitProductsAppend(a + [line], b, found);
    KitProductsAppend(a, [line], found);
    KitProductsAppend(a, b, found);
    assert KitProducts([line], found) == [] by {
      assert [line][1..] == [];
    }
  }

  /** When every product was found, entry i describes BOM line i: same
      product id and quantity, the product's name, and its category or "". */
  lemma {:induction false} KitProductsAllFound(lines: seq<BomLine>, found: map<int, Product>)
    requires forall i :: 0 <= i < |lines| ==> lines[i].productId in found
    ensures |KitProducts(lines, found)| == |lines|
    ensures forall i :: 0 <= i < |lines| ==>
      var p := found[lines[i].productId];
      KitProducts(lines, found)[i] == KitProduct(lines[i].productId, p.name, CategoryLabel(p), lines[i].qty)
  {
    if lines != [] {
      KitProductsAllFound(lines[1..], found);
    }
  }

  /** The image becomes a data URL, or is left out when the kit has none. */
  function ImageUrl(image: Option<string>): (r: Option<string>)
    ensures r.Some? <==> image.Some? && image.value != ""
    ensures r.Some? ==> r.value == "data:image/png;base64," + image.value
  {
    if image.Some? && image.value != "" then Some("data:image/png;base64," + image.value) else None
  }

  /** One iteration of the listing loop (server.js:285-328): the entry for a
      kit template, or nothing when the loop `continue`s. */
  function KitEntryOf(cat: Catalogue, t: Template): (r: Option<KitEntry>)
    ensures |t.bomIds| == 0 ==> r.None?
    ensures r.Some? ==>
      r.value.id == t.id && r.value.name == t.name && r.value.price == t.listPrice && r.value.image == ImageUrl(t.image)
  {
    if |t.bomIds| == 0 then None
    else
      var boms := ReadAll(cat.boms, t.bomIds);
      if boms.None? || |boms.value[0].lineIds| == 0 then None
      else
        match ReadAll(cat.bomLines, boms.value[0].lineIds)
        case None => None
        case Some(lines) =>
          Some(KitEntry(t.id, t.name, t.listPrice, ImageUrl(t.image),
                        KitProducts(lines, SearchActive(cat.products, ProductIds(lines)))))
  }

  /** Which templates the listing skips, and what it keeps of the others:
      a template appears iff it has a BOM, its first BOM has lines and those
      lines can be read; its entry carries the template's id, name and price
      and the composition of that first BOM. */
  lemma KitEntryOfCases(cat: Catalogue, t: Template)
    ensures KitEntryOf(cat, t).Some? <==>
      && |t.bomIds| > 0
      && ReadAll(cat.boms, t.bomIds).Some?
      && |cat.boms[t.bomIds[0]].lineIds| > 0
      && ReadAll(cat.bomLines, cat.boms[t.bomIds[0]].lineIds).Some?
    ensures KitEntryOf(cat, t).Some? ==>
      var e := KitEntryOf(cat, t).value;
      var lines := ReadAll(cat.bomLines, cat.boms[t.bomIds[0]].lineIds).value;
      && e.id == t.id && e.name == t.name && e.price == t.listPrice
      && e.products == KitProducts(lines, SearchActive(cat.products, ProductIds(lines)))
  {
  }

  /** `search_read` with `is_kits = true`: the kit templates, in order,
      without the archived ones, which a search skips by default. */
  function Kits(templates: seq<Template>): seq<Template>
  {
    if templates == [] then []
    else (if templates[0].isKit && templates[0].active then [templates[0]] else []) + Kits(templates[1..])
  }

  lemma {:induction false} KitsAreKits(templates: seq<Template>)
    ensures forall t :: t in Kits(templates) <==> t in templates && t.isKit && t.active
  {
    if templates != [] {
      KitsAreKits(templates[1..]);
    }
  }

  /** The listing loop over a run of kits (`finalBaskets.push`), defined
      from its last iteration backwards. */
  function ListKits(cat: Catalogue, kits: seq<Template>): (r: seq<KitEntry>)
    ensures |r| <= |kits|
  {
    if kits == [] then []
    else
      var e := KitEntryOf(cat, kits[|kits| - 1]);
      ListKits(cat, kits[..|kits| - 1]) + (if e.Some? then [e.value] else [])
  }

  /** One more iteration of the listing loop. */
  lemma ListKitsSnoc(cat: Catalogue, kits: seq<Template>, t: Template)
    ensures ListKits(cat, kits + [t]) ==
      ListKits(cat, kits) + (if KitEntryOf(cat, t).Some? then [KitEntryOf(cat, t).value] else [])
  {
    assert (kits + [t])[..|kits|] == kits;
  }

  /** Entries appear in the order of the kits: listing two runs of kits is
      listing the first and then the second. */
  lemma {:induction false} ListKitsAppend(cat: Catalogue, a: seq<Template>, b: seq<Template>)
    ensures ListKits(cat, a + b) == ListKits(cat, a) + ListKits(cat, b)
    decreases |b|
  {
    if b == [] {
      assert a + b == a;
    } else {
      var b' := b[..|b| - 1];
      assert (a + b)[..|a + b| - 1] == a + b';
      assert (a + b)[|a + b| - 1] == b[|b| - 1];
      ListKitsAppend(cat, a, b');
    }
  }

  /** Every listed entry is the entry of some kit template. */
  lemma {:induction false} ListedEntriesComeFromKits(cat: Catalogue, kits: seq<Template>)
    ensures forall e :: e in ListKits(cat, kits) ==> exists t :: t in kits && KitEntryOf(cat, t) == Some(e)
  {
    if kits != [] {
      var init := kits[..|kits| - 1];
      ListedEntriesComeFromKits(cat, init);
      var last := kits[|kits| - 1];
      forall e | e in ListKits(cat, kits)
        ensures exists t :: t in kits && KitEntryOf(cat, t) == Some(e)
      {
        if e in ListKits(cat, init) {
          var t :| t in init && KitEntryOf(cat, t) == Some(e);
          assert t in kits;
        } else {
          assert KitEntryOf(cat, last) == Some(e);
        }
      }
    }
  }

  /** Conversely, no kit with an entry is left out of the listing. */
  lemma {:induction false} KitsWithEntriesAreListed(cat: Catalogue, kits: seq<Template>)
    ensures forall t :: t in kits && KitEntryOf(cat, t).Some? ==> KitEntryOf(cat, t).value in ListKits(cat, kits)
  {
    forall t | t in kits && KitEntryOf(cat, t).Some?
      ensures KitEntryOf(cat, t).value in ListKits(cat, kits)
    {
      var i :| 0 <= i < |kits| && kits[i] == t;
      assert kits == kits[..i] + [t] + kits[i + 1..];
      ListKitsAppend(cat, kits[..i] + [t], kits[i + 1..]);
      ListKitsAppend(cat, kits[..i], [t]);
      assert ListKits(cat, [t]) == ListKits(cat, []) + [KitEntryOf(cat, t).value];
    }
  }

  /** The order route and the listing agree on active kits: a kit id
      resolves to order lines exactly when its template has an entry, and
      for an active template flagged as a kit, exactly when that entry is
      in the listing. The route reads the template by id, so it also
      resolves archived templates and templates not flagged as kits, which
      the listing never shows. */
  lemma KitResolvesIffListed(cat: Catalogue, basketId: int)
    ensures KitResolution(cat, basketId).Resolved? <==>
      FindTemplate(cat.templates, basketId).Some? && KitEntryOf(cat, FindTemplate(cat.templates, basketId).value).Some?
    ensures FindTemplate(cat.templates, basketId).Some? ==>
      var t := FindTemplate(cat.templates, basketId).value;
      t.isKit && t.active ==>
        (KitResolution(cat, basketId).Resolved? <==>
           KitEntryOf(cat, t).Some? && KitEntryOf(cat, t).value in ListKits(cat, Kits(cat.templates)))
  {
    if FindTemplate(cat.templates, basketId).Some? {
      var t := FindTemplate(cat.templates, basketId).value;
      if t.isKit && t.active {
        KitsAreKits(cat.templates);
        KitsWithEntriesAreListed(cat, Kits(cat.templates));
      }
    }
  }

  /** An archived kit: the order route resolves its id, and the listing
      leaves it out. */
  lemma ArchivedKitOrderedNotListed()
    ensures var t := Template(5, "Panier", 12, true, false, [1], None);
      var cat := Catalogue([t], map[1 := Bom([2])], map[2 := BomLine(9, 1)], map[]);
      && KitResolution(cat, 5).Resolved?
      && Kits(cat.templates) == []
      && ListKits(cat, Kits(cat.templates)) == []
  {
    var t := Template(5, "Panier", 12, true, false, [1], None);
    var cat := Catalogue([t], map[1 := Bom([2])], map[2 := BomLine(9, 1)], map[]);
    assert [1][0] in cat.boms && [2][0] in cat.bomLines;
    assert ReadAll(cat.boms, [1]).value[0] == Bom([2]);
    assert ReadAll(cat.bomLines, [2]).Some?;
  }
}
