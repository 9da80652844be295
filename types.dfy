/**
 * The records of types.ts: the three site categories, a merchant's rate card, service areas,
 * parcel entries and the application state that holds the three lists.
 */
module Types {
  import opened Wrappers

  /** The closed set of delivery-zone categories (Inside Dhaka, Sub Area, Outside Dhaka). */
  datatype SiteType = Inside | Sub | Outside

  /** One number per site category: a table that is total by construction. */
  datatype SiteTable = SiteTable(inside: real, sub: real, outside: real) {

    function At(site: SiteType): real {
      match site
      case Inside => inside
      case Sub => sub
      case Outside => outside
    }

    /** The table with the cell for `site` set to `v`; every other cell is kept. */
    function With(site: SiteType, v: real): (r: SiteTable)
      ensures r.At(site) == v
      ensures forall s :: s != site ==> r.At(s) == At(s)
    {
      match site
      case Inside => this.(inside := v)
      case Sub => this.(sub := v)
      case Outside => this.(outside := v)
    }
  }

  /** The three tables of a merchant's charges. */
  datatype ChargeKind = Delivery | Cod | Weight

  /**
   * A merchant's charges: the flat delivery fee, the COD percentage and the per-kg weight
   * surcharge, each given for every site category.
   */
  datatype RateCard = RateCard(delivery: SiteTable, cod: SiteTable, weight: SiteTable) {

    function Table(kind: ChargeKind): SiteTable {
      match kind
      case Delivery => delivery
      case Cod => cod
      case Weight => weight
    }

    function Rate(kind: ChargeKind, site: SiteType): real {
      Table(kind).At(site)
    }

    /** The rate card with the one cell (`kind`, `site`) replaced by `v`. */
    function WithRate(kind: ChargeKind, site: SiteType, v: real): (r: RateCard)
      ensures forall k, s :: r.Rate(k, s) == if k == kind && s == site then v else Rate(k, s)
    {
      match kind
      case Delivery => this.(delivery := delivery.With(site, v))
      case Cod => this.(cod := cod.With(site, v))
      case Weight => this.(weight := weight.With(site, v))
    }
  }

  /** The rate card a new merchant starts with, and the one the merchant form returns to. */
  function DefaultCharges(): (c: RateCard)
    ensures c.delivery.At(Inside) == 60.0 && c.delivery.At(Sub) == 100.0 && c.delivery.At(Outside) == 150.0
    ensures c.cod.At(Inside) == 0.0 && c.cod.At(Sub) == 1.0 && c.cod.At(Outside) == 1.0
    ensures c.weight.At(Inside) == 10.0 && c.weight.At(Sub) == 20.0 && c.weight.At(Outside) == 20.0
  {
    RateCard(SiteTable(60.0, 100.0, 150.0), SiteTable(0.0, 1.0, 1.0), SiteTable(10.0, 20.0, 20.0))
  }

  datatype Merchant = Merchant(
    id: string,
    name: string,
    pageName: string,
    pageLink: string,
    phone: string,
    address: string,
    charges: RateCard)

  /**
   * A service area. `site` is optional because an area saved from a cleared form carries no
   * site; the settlement engine then bills it as Outside.
   */
  datatype Area = Area(
    id: string,
    site: Option<SiteType>,
    district: string,
    areaName: string,
    postCode: string,
    homeDelivery: bool)

  /** A parcel entry refers to its merchant and its area only by id. */
  datatype ParcelEntry = ParcelEntry(
    id: string,
    date: string,
    merchantId: string,
    invoiceNumber: string,
    merchantInvoice: string,
    customerName: string,
    phone: string,
    address: string,
    areaId: string,
    weight: real,
    amount: real,
    isAiDetected: bool)

  datatype AppState = AppState(merchants: seq<Merchant>, areas: seq<Area>, entries: seq<ParcelEntry>)

  function MerchantId(m: Merchant): string { m.id }
  function AreaId(a: Area): string { a.id }
  function EntryId(e: ParcelEntry): string { e.id }

  /** JavaScript truthiness of an optional string form field: present and non-empty. */
  predicate Present(field: Option<string>) {
    field.Some? && field.value != ""
  }
}
