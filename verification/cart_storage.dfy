/** Rehydration from and persistence to the browser's key/value storage
    (src/contexts/cart/CartProvider.jsx, loadCartFromStorage and the save effect).
    The storage is a map from keys to strings; only the "cart" key is used. */
module CartStorage {
  import opened Wrappers
  import opened Cart
  import opened CartJson
  import CartJsonRoundTrip

  const CartKey := "cart"

  type Storage = map<string, string>

  /** localStorage.getItem(CartKey): the stored text, or None when nothing is stored */
  function GetItem(storage: Storage, key: string): (r: Option<string>)
    ensures r.Some? <==> key in storage
    ensures r.Some? ==> r.value == storage[key]
  {
    if key in storage then Some(storage[key]) else None
  }

  /** loadCartFromStorage on the text read from the slot: a missing or empty text and a
      text that does not parse both give the empty cart; otherwise the parsed cart. */
  function LoadFromSaved(saved: Option<string>): (r: CartState)
    ensures saved == None || saved == Some("") ==> r == []
    ensures saved.Some? && saved.value != "" && ParseCart(saved.value) == None ==> r == []
    ensures saved.Some? && saved.value != "" && ParseCart(saved.value).Some? ==>
      r == ParseCart(saved.value).value
  {
    match saved
    case None => []
    case Some(text) =>
      if text == "" then []
      else
        match ParseCart(text)
        case None => []
        case Some(cart) => cart
  }

  /** The cart a fresh store starts with */
  function LoadCartFromStorage(storage: Storage): (r: CartState)
    ensures CartKey !in storage ==> r == []
  {
    LoadFromSaved(GetItem(storage, CartKey))
  }

  /** The save effect: localStorage.setItem(CartKey, JSON.stringify(cart)). Other keys
      are untouched and the cart key holds non-empty text. */
  function SaveCart(storage: Storage, cart: CartState): (r: Storage)
    ensures r.Keys == storage.Keys + {CartKey}
    ensures forall k :: k in storage && k != CartKey ==> r[k] == storage[k]
    ensures r[CartKey] != ""
  {
    storage[CartKey := SerializeCart(cart)]
  }

  /** What is saved is what a later start loads. */
  lemma LoadAfterSave(storage: Storage, cart: CartState)
    ensures LoadCartFromStorage(SaveCart(storage, cart)) == cart
  {
    CartJsonRoundTrip.CartRoundTrip(cart);
  }

  /** Saving the same cart twice leaves the same storage as saving it once. */
  lemma SaveIdempotent(storage: Storage, cart: CartState)
    ensures SaveCart(SaveCart(storage, cart), cart) == SaveCart(storage, cart)
  {
  }

  /** A store invariant that held when the cart was saved still holds after reload. */
  lemma ReloadKeepsWellFormed(storage: Storage, cart: CartState)
    requires WellFormed(cart)
    ensures WellFormed(LoadCartFromStorage(SaveCart(storage, cart)))
  {
    LoadAfterSave(storage, cart);
  }
}
