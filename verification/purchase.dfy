/**
 purchase_item of gamefunctions.py.

 Python's `/` on numbers is true division, so the arithmetic is modelled
 over `real`. The function never rejects a purchase: an unaffordable one
 simply leaves a negative balance, and its first result is not a count of
 items bought but the affordable count minus the requested one.
 */
module Purchase {

  /** Both results of purchase_item: the source calls them num_purchased and leftover_money. */
  datatype Receipt = Receipt(numPurchased: real, leftover: real)

  /**
   purchase_item(itemPrice, startingMoney, quantityToPurchase=1). Python raises
   ZeroDivisionError for a zero price; that is the one input excluded here.
   */
  function PurchaseItem(itemPrice: real, startingMoney: real, quantityToPurchase: real := 1.0): (r: Receipt)
    requires itemPrice != 0.0
    // the leftover is what remains after paying for every requested item
    ensures r.leftover + itemPrice * quantityToPurchase == startingMoney
    // the first result, priced per item, is exactly the leftover
    ensures r.numPurchased * itemPrice == r.leftover
    // nothing is rejected: an unaffordable purchase goes through with a negative balance
    ensures r.leftover < 0.0 <==> itemPrice * quantityToPurchase > startingMoney
  {
    Receipt(startingMoney / itemPrice - quantityToPurchase, startingMoney - itemPrice * quantityToPurchase)
  }

  /** The first result is the number of items the money would cover, less the
      number requested, so it is the number purchased only when the two coincide. */
  lemma NumPurchasedIsSurplus(itemPrice: real, startingMoney: real, quantityToPurchase: real)
    requires itemPrice != 0.0
    ensures PurchaseItem(itemPrice, startingMoney, quantityToPurchase).numPurchased + quantityToPurchase
            == startingMoney / itemPrice
    ensures PurchaseItem(itemPrice, startingMoney, quantityToPurchase).numPurchased == quantityToPurchase
            <==> startingMoney == 2.0 * itemPrice * quantityToPurchase
  {
    var r := PurchaseItem(itemPrice, startingMoney, quantityToPurchase);
    assert r.numPurchased * itemPrice == startingMoney - itemPrice * quantityToPurchase;
  }

  /** The calls the module makes on import, with the values they produce. */
  lemma DemoPurchases()
    ensures PurchaseItem(2.0, 24.0, 6.0) == Receipt(6.0, 12.0)
    ensures PurchaseItem(3.0, 15.0, 4.0) == Receipt(1.0, 3.0)
    ensures PurchaseItem(1.5, 18.0, 9.0) == Receipt(3.0, 4.5)
  {
  }

  /** Without a quantity, one item is bought. */
  lemma DefaultQuantityIsOne(itemPrice: real, startingMoney: real)
    requires itemPrice != 0.0
    ensures PurchaseItem(itemPrice, startingMoney).leftover == startingMoney - itemPrice
  {
  }
}
