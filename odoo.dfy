/** The records of the ERP backend that the order proxy reads, and the remote
    calls it issues. Tables that the proxy reads by id are maps from id to
    record; the kit templates are a sequence because the proxy walks them in
    the backend's search order. */
module Odoo {
  import opened Wrappers

  /** product.template: a sellable product; kits carry bills of materials.
      An archived template (`active` false) can still be read by id, but no
      search returns it. */
  datatype Template = Template(
    id: int, name: string, listPrice: int, isKit: bool, active: bool,
    bomIds: seq<int>, image: Option<string>)

  /** mrp.bom: a bill of materials, listing its lines by id. */
  datatype Bom = Bom(lineIds: seq<int>)

  /** mrp.bom.line: one component of a kit. */
  datatype BomLine = BomLine(productId: int, qty: int)

  /** product.product: a catalogue entry. An archived product still exists
      (an order line may name it) but no search returns it. */
  datatype Product = Product(name: string, category: Option<string>, listPrice: int, active: bool)

  /** The part of the backend the proxy only reads. */
  datatype Catalogue = Catalogue(
    templates: seq<Template>,
    boms: map<int, Bom>,
    bomLines: map<int, BomLine>,
    products: map<int, Product>)

  /** A call to the backend's generic call_kw endpoint that writes, or that
      the order pipeline issues once the order exists. Searches and reads of
      the catalogue and of partners are not recorded. A `None` id is the
      `undefined` the proxy passes on after a failed create. */
  datatype Rpc =
    | CreatePartner
    | CreateOrder(partnerId: int)
    | ConfirmOrder(orderId: Option<int>)
    | ReadOrder(orderId: Option<int>)
    | ReadPicking(pickingId: int)
    | ReadMoves(pickingId: int)
    | AssignPicking(pickingId: int)
    | ValidatePicking(pickingId: int)
    | CreateSubscription(partnerId: int)

  /** `read` of several ids: one record per id, in the order asked, or
      nothing when some id does not exist (the backend raises, and the proxy
      receives no result). */
  function ReadAll<T>(table: map<int, T>, ids: seq<int>): (r: Option<seq<T>>)
    ensures r.Some? <==> forall i :: 0 <= i < |ids| ==> ids[i] in table
    ensures r.Some? ==> |r.value| == |ids| && forall i :: 0 <= i < |ids| ==> r.value[i] == table[ids[i]]
  {
    if ids == [] then Some([])
    else if ids[0] !in table then None
    else
      match ReadAll(table, ids[1..])
      case None => None
      case Some(rest) => Some([table[ids[0]]] + rest)
  }

  /** `read` of one template id: the record with that id, if any. */
  function FindTemplate(templates: seq<Template>, id: int): (r: Option<Template>)
    ensures r.Some? ==> r.value in templates && r.value.id == id
    ensures r.None? ==> forall t :: t in templates ==> t.id != id
  {
    if templates == [] then None
    else if templates[0].id == id then Some(templates[0])
    else FindTemplate(templates[1..], id)
  }

  /** `search_read` on product.product with `id in ids`: the active products
      among those ids. */
  function SearchActive(products: map<int, Product>, ids: seq<int>): (r: map<int, Product>)
    ensures forall k :: k in r <==> k in products && products[k].active && k in ids
    ensures forall k :: k in r ==> r[k] == products[k]
  {
    map k | k in products && products[k].active && k in ids :: products[k]
  }
}
