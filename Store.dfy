/**
 * The single application state and the operations that change it: the
 * restock form, the purchase form, importing a document and clearing
 * everything. Ids, today's date and timestamps, which the source draws
 * from `crypto.randomUUID` and `new Date()`, are parameters.
 */
module Stores {
  import opened Records
  import opened Loading
  import Text

  /** The log entry the restock form writes. It carries no `brand` key. */
  function RestockEntry(id: string, today: string, lor: real, illy: real, other: real, milk: real): (e: LogEntry)
    ensures e.capsules == Some(lor + illy + other)
    ensures e.capsLor == Some(lor) && e.capsIlly == Some(illy) && e.capsOther == Some(other)
    ensures e.milk == Some(milk) && e.brand.None? && e.reason.None?
  {
    LogEntry(Some(id), Some(today), Some(lor + illy + other), Some(milk), None, None, Some(lor), Some(illy), Some(other))
  }

  /** `form.get(name)?.trim() || ""` for a text field. */
  function FormText(field: Option<string>): string
  {
    if field.Some? then Text.Trim(field.value) else ""
  }

  /** Whether the purchase form's input is accepted: a buyer that is not
      blank after trimming and an amount above 0. */
  predicate PurchaseAccepted(buyer: Option<string>, amount: FormField)
  {
    FormText(buyer) != "" && ToNumber(amount) > 0.0
  }

  /** A buyer field is rejected exactly when it is missing or holds only
      whitespace. */
  lemma BlankBuyerRejected(buyer: Option<string>, amount: FormField)
    ensures FormText(buyer) == "" <==> buyer.None? || Text.AllWhitespace(buyer.value)
    ensures (buyer.None? || Text.AllWhitespace(buyer.value) || ToNumber(amount) <= 0.0) ==>
              !PurchaseAccepted(buyer, amount)
  {
  }

  class Store {
    var inventory: Inventory
    var inventoryLog: seq<LogEntry>
    var purchases: seq<Purchase>

    function State(): AppState
      reads this
    {
      AppState(purchases, inventoryLog, inventory)
    }

    /** The state on a start with nothing stored: `defaultState()`. */
    constructor ()
      ensures State() == DefaultState()
    {
      inventory := DefaultState().inventory;
      inventoryLog := [];
      purchases := [];
    }

    /** The restock form's submit handler: the snapshot takes the three
        brand counts, their sum and the milk, and a log entry holding the
        same values goes in front of the log. Nothing is clamped. */
    method Restock(lorField: FormField, illyField: FormField, otherField: FormField, milkField: FormField,
                   id: string, today: string, now: string)
      modifies this
      ensures var lor, illy, other := ToNumber(lorField), ToNumber(illyField), ToNumber(otherField);
        && inventory == Inventory(lor + illy + other, ToNumber(milkField), Some(now), "", BrandCounts(lor, illy, other))
        && inventoryLog == [RestockEntry(id, today, lor, illy, other, ToNumber(milkField))] + old(inventoryLog)
      ensures inventory.capsules == inventory.brandCounts.lor + inventory.brandCounts.illy + inventory.brandCounts.other
      ensures |inventoryLog| == |old(inventoryLog)| + 1 && inventoryLog[1..] == old(inventoryLog)
      ensures purchases == old(purchases)
    {
      var lor := ToNumber(lorField);
      var illy := ToNumber(illyField);
      var other := ToNumber(otherField);
      var capsules := lor + illy + other;
      var milk := ToNumber(milkField);

      inventory := Inventory(capsules, milk, Some(now), "", BrandCounts(lor, illy, other));
      inventoryLog := [RestockEntry(id, today, lor, illy, other, milk)] + inventoryLog;
    }

    /** The purchase form's submit handler: rejects a blank buyer or an
        amount of 0 or less and changes nothing; otherwise puts exactly one
        entry in front of the purchases. */
    method AddPurchase(id: string, date: Option<string>, buyer: Option<string>, amount: FormField, notes: Option<string>)
      returns (accepted: bool)
      modifies this
      ensures accepted <==> PurchaseAccepted(buyer, amount)
      ensures accepted ==> purchases == [Purchase(id, date, FormText(buyer), ToNumber(amount), FormText(notes))] + old(purchases)
      ensures !accepted ==> purchases == old(purchases)
      ensures inventory == old(inventory) && inventoryLog == old(inventoryLog)
    {
      var entry := Purchase(id, date, FormText(buyer), ToNumber(amount), FormText(notes));
      if entry.buyer == "" || entry.amount <= 0.0 {
        return false;
      }
      purchases := [entry] + purchases;
      accepted := true;
    }

    /** The import handler: a document that parses (`parsed` is None when
        `JSON.parse` throws) and hydrates replaces the whole state;
        otherwise nothing changes. */
    method Import(parsed: Option<RawDoc>) returns (ok: bool)
      modifies this
      ensures ok <==> parsed.Some? && Hydrate(parsed.value).Some?
      ensures ok ==> State() == Hydrate(parsed.value).value
      ensures !ok ==> State() == old(State())
    {
      if parsed.None? {
        return false;
      }
      var loaded := Hydrate(parsed.value);
      if loaded.None? {
        return false;
      }
      purchases := loaded.value.purchases;
      inventoryLog := loaded.value.inventoryLog;
      inventory := loaded.value.inventory;
      ok := true;
    }

    /** The clear handler, once confirmed: back to `defaultState()`. */
    method Clear()
      modifies this
      ensures State() == DefaultState()
    {
      var empty := DefaultState();
      purchases := empty.purchases;
      inventoryLog := empty.inventoryLog;
      inventory := empty.inventory;
    }
  }

  /** A restock entry survives export and import with its counts intact;
      only an empty `brand` is added. */
  lemma RestockEntryReloads(id: string, today: string, lor: real, illy: real, other: real, milk: real)
    ensures var e := RestockEntry(id, today, lor, illy, other, milk);
      NormalizeEntry(e) == e.(brand := Some(""))
  {
  }
}
