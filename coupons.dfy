/** The ticket-coupon dataset shared by the fare-class and stopover
 *  summaries: one record per coupon of a market itinerary. */
module Coupons {
  import opened Frames
  import opened Routes

  /** The measurements of one coupon record: the market (itinerary) it
   *  belongs to, its position in that market, its fare class code (NaN is
   *  `None`) and the number of passengers it stands for. */
  datatype Coupon = Coupon(mktId: int, seqNum: int, fareClass: Option<string>, passengers: real)

  /** The activity condition of the coupon cut: `PASSENGERS > 0`. */
  predicate Ticketed(c: Coupon) {
    c.passengers > 0.0
  }

  function FilteredCoupons(rows: seq<Row<Coupon>>, airports: seq<Airport>, cfg: FilterConfig): seq<Enriched<Coupon>>
  {
    Enrich(Cut(rows, cfg, Ticketed), airports)
  }

  function Passengers(e: Enriched<Coupon>): real { RowOf(e).data.passengers }

  /** Every filtered coupon stands for at least one passenger. */
  lemma FilteredTicketed(rows: seq<Row<Coupon>>, airports: seq<Airport>, cfg: FilterConfig)
    ensures forall e :: e in FilteredCoupons(rows, airports, cfg) ==> Passengers(e) > 0.0
  {
    forall e | e in FilteredCoupons(rows, airports, cfg)
      ensures Passengers(e) > 0.0
    {
      CutSpec(rows, cfg, Ticketed, RowOf(e));
    }
  }
}
