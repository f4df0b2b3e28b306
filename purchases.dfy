/**
 * The purchase ledger (src/hooks/usePurchases.ts): `addPurchase` appends a
 * pending purchase bought by the session user, and `getSellerPurchases` is the
 * seller-scoped view that drives sale notifications. Failures are recorded in
 * `error` and swallowed.
 */
module Purchases {
  import opened Wrappers
  import opened Seqs
  import opened Types

  const LoadError := "Error al cargar compras"
  const AddError := "Error al crear compra"

  function NewPurchase(buyer: User, id: Id, productId: Id, productName: string, price: int, sellerId: Id,
                       now: Timestamp): Purchase
  {
    Purchase(id, productId, productName, price, buyer.id, sellerId, now, Pending)
  }

  /**
   * `purchases.filter(p => p.sellerId === user?.id)`: with nobody signed in the
   * comparison is against `undefined`, which no stored seller id equals.
   */
  function SellerPurchases(purchases: seq<Purchase>, session: Option<User>): seq<Purchase> {
    if session.None? then []
    else Filter(purchases, (p: Purchase) => p.sellerId == session.value.id)
  }

  /**
   * The seller view is exactly the purchases whose seller is the session user,
   * in storage order.
   */
  lemma SellerPurchasesExact(purchases: seq<Purchase>, user: User)
    ensures var view := SellerPurchases(purchases, Some(user));
      && (forall i :: 0 <= i < |view| ==> view[i].sellerId == user.id && view[i] in purchases)
      && (forall i :: 0 <= i < |purchases| && purchases[i].sellerId == user.id ==> purchases[i] in view)
      && IsSubsequence(view, purchases)
  {
    FilterIsSubsequence(purchases, (p: Purchase) => p.sellerId == user.id);
  }

  /** A purchase appended by another seller's buyer does not change the view; one of this seller's extends it. */
  lemma SellerPurchasesAppend(purchases: seq<Purchase>, p: Purchase, user: User)
    ensures SellerPurchases(purchases + [p], Some(user))
         == SellerPurchases(purchases, Some(user)) + (if p.sellerId == user.id then [p] else [])
  {
    var keep := (q: Purchase) => q.sellerId == user.id;
    FilterConcat(purchases, [p], keep);
    assert [p][1..] == [];
  }

  class PurchaseLedger {
    var purchases: seq<Purchase>
    var loading: bool
    var error: Option<string>
    /** The collection under the `purchases` storage key; `None` when the key is absent. */
    var stored: Option<seq<Purchase>>

    constructor (stored: Option<seq<Purchase>>)
      ensures purchases == [] && !loading && error == None && this.stored == stored
    {
      purchases := [];
      loading := false;
      error := None;
      this.stored := stored;
    }

    function StoredPurchases(): seq<Purchase>
      reads this
    {
      stored.GetOr([])
    }

    /** One read (storage call 0). */
    method LoadPurchases(failAt: FailAt)
      modifies this`purchases, this`loading, this`error
      ensures !loading
      ensures failAt > 0 ==> purchases == StoredPurchases() && error == None
      ensures failAt == 0 ==> purchases == old(purchases) && error == Some(LoadError)
    {
      loading := true;
      if failAt == 0 {
        error := Some(LoadError);
      } else {
        purchases := StoredPurchases();
        error := None;
      }
      loading := false;
    }

    /** A read (call 0) and a write (call 1); no-op without a session user. */
    method AddPurchase(session: Option<User>, productId: Id, productName: string, price: int, sellerId: Id,
                       newId: Id, now: Timestamp, failAt: FailAt)
      modifies this
      ensures session.None? ==> unchanged(this)
      ensures session.Some? ==> !loading
      ensures session.Some? && failAt >= 2 ==>
        && stored == Some(old(StoredPurchases()) + [NewPurchase(session.value, newId, productId, productName, price, sellerId, now)])
        && purchases == StoredPurchases() && error == None
        && purchases[|purchases| - 1].status == Pending && purchases[|purchases| - 1].buyerId == session.value.id
      ensures session.Some? && failAt < 2 ==>
        stored == old(stored) && purchases == old(purchases) && error == Some(AddError)
    {
      if session.None? {
        return;
      }
      loading := true;
      var purchase := NewPurchase(session.value, newId, productId, productName, price, sellerId, now);
      if failAt == 0 {
        error := Some(AddError);
        loading := false;
        return;
      }
      var allPurchases := StoredPurchases();
      allPurchases := allPurchases + [purchase];
      if failAt == 1 {
        error := Some(AddError);
        loading := false;
        return;
      }
      stored := Some(allPurchases);
      purchases := allPurchases;
      error := None;
      loading := false;
    }

    /** Reads only: the seller view of the published purchases. */
    method GetSellerPurchases(session: Option<User>) returns (view: seq<Purchase>)
      ensures view == SellerPurchases(purchases, session)
      ensures session.Some? ==> IsSubsequence(view, purchases)
      ensures forall i :: 0 <= i < |view| ==> session.Some? && view[i].sellerId == session.value.id
    {
      if session.Some? {
        SellerPurchasesExact(purchases, session.value);
      }
      view := SellerPurchases(purchases, session);
    }
  }
}
