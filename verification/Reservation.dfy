/** Stock reservation: one atomic check-and-decrement on the shared stock table. */
module Reservation {

  type StockKey = (string, string)

  const GENERIC_SKU := "SKU-GENERIC"

  /** `Unconfigured` is a missing reservation store or a missing client: nothing is tracked. */
  datatype StockBook = Unconfigured | Units(units: map<StockKey, int>)

  function Stock(book: StockBook, storeId: string, sku: string): int {
    if book.Units? && (storeId, sku) in book.units then book.units[(storeId, sku)] else 0
  }

  /** Whether the reservation succeeds, the stock it reports, and the table after it. */
  function Reserve(book: StockBook, storeId: string, sku: string, qty: int): (bool, int, StockBook) {
    if book.Unconfigured? then (true, 999, book)
    else if (storeId, sku) !in book.units then (false, 0, book)
    else
      var current := book.units[(storeId, sku)];
      if current >= qty then (true, current - qty, Units(book.units[(storeId, sku) := current - qty]))
      else (false, current, book)
  }

  /**
   * A reservation either takes exactly the quantity asked for, from that one key,
   * leaving a stock that is not negative, or changes nothing because the stock is short.
   * Either way it reports the stock that is left.
   */
  lemma ReserveIsExact(book: StockBook, storeId: string, sku: string, qty: int, other: StockKey)
    requires book.Units?
    ensures Reserve(book, storeId, sku, qty).2.Units?
    ensures Reserve(book, storeId, sku, qty).0 <==>
            (storeId, sku) in book.units && qty <= Stock(book, storeId, sku)
    ensures Reserve(book, storeId, sku, qty).0 ==>
              0 <= Stock(Reserve(book, storeId, sku, qty).2, storeId, sku)
              == Stock(book, storeId, sku) - qty
    ensures !Reserve(book, storeId, sku, qty).0 ==> Reserve(book, storeId, sku, qty).2 == book
    ensures Reserve(book, storeId, sku, qty).1 == Stock(Reserve(book, storeId, sku, qty).2, storeId, sku)
    ensures other != (storeId, sku) ==>
              Stock(Reserve(book, storeId, sku, qty).2, other.0, other.1) == Stock(book, other.0, other.1)
  {
  }

  /** Without a stock table every reservation is granted, and nothing is kept. */
  lemma UnconfiguredGrants(storeId: string, sku: string, qty: int)
    ensures Reserve(Unconfigured, storeId, sku, qty) == (true, 999, Unconfigured)
  {
  }

  class StockReservationStore {
    var book: StockBook

    constructor (connected: bool)
      ensures book == if connected then Units(map[]) else Unconfigured
    {
      book := if connected then Units(map[]) else Unconfigured;
    }

    method SetStock(storeId: string, sku: string, qty: int)
      requires book.Units?
      modifies this
      ensures book == Units(old(book.units)[(storeId, sku) := qty])
      ensures Stock(book, storeId, sku) == qty
    {
      book := Units(book.units[(storeId, sku) := qty]);
    }

    method GetStock(storeId: string, sku: string) returns (qty: int)
      requires book.Units?
      ensures qty == Stock(book, storeId, sku)
    {
      if (storeId, sku) in book.units {
        qty := book.units[(storeId, sku)];
      } else {
        qty := 0;
      }
    }

    method ReserveStockAtomic(storeId: string, sku: string, qty: int) returns (success: bool, remaining: int)
      modifies this
      ensures (success, remaining, book) == Reserve(old(book), storeId, sku, qty)
    {
      if book.Unconfigured? {
        return true, 999;
      }
      if (storeId, sku) !in book.units {
        return false, 0;
      }
      var current := book.units[(storeId, sku)];
      if current >= qty {
        book := Units(book.units[(storeId, sku) := current - qty]);
        return true, current - qty;
      }
      return false, current;
    }
  }
}
