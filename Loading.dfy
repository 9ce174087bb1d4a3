/**
 * `hydrateState`: turns a parsed JSON document into a well-formed
 * application state, accepting legacy restock entries that name one
 * `brand` (or `reason`) and a total `capsules` instead of per-brand
 * counts.
 *
 * The parsed document is described by the datatypes below; JSON parsing
 * itself is not part of this model.
 */
module Loading {
  import opened Records

  /** A `brand_counts` object as found in a document; keys may be missing. */
  datatype RawCounts = RawCounts(lor: Option<real>, illy: Option<real>, other: Option<real>)

  /** The `brand_counts` key of a document's inventory: absent, present
      but not usable (null, false, 0, "" or a non-object such as a string
      or number), or an object (an array counts as one, with no keys). */
  datatype CountsField = CountsAbsent | CountsInvalid | CountsObject(counts: RawCounts)

  /** A document's `inventory` object; None marks an absent key. */
  datatype RawInventory = RawInventory(
    capsules: Option<real>,
    milk: Option<real>,
    updatedAt: Option<string>,
    reason: Option<string>,
    brandCounts: CountsField)

  /** An element of a document's `inventoryLog` array: null, or an object. */
  datatype RawLogItem = NullItem | EntryItem(entry: LogEntry)

  /** A parsed document. `NotAnObject` is null or any JSON value other
      than an object (an array reads like an object with none of the three
      keys, and hydrates the same way). In `Document`, a list field is None
      when the key is absent or holds something other than an array, and
      `inventory` is None when it is absent, falsy or not an object. */
  datatype RawDoc =
    | NotAnObject
    | Document(purchases: Option<seq<Purchase>>, inventoryLog: Option<seq<RawLogItem>>, inventory: Option<RawInventory>)

  // ---------------------------------------------------------------------
  // Log entries
  // ---------------------------------------------------------------------

  /** `entry.brand || entry.reason || ""`. */
  function LegacyBrand(e: LogEntry): string
  {
    if IsTruthyText(e.brand) then e.brand.value
    else if IsTruthyText(e.reason) then e.reason.value
    else ""
  }

  /** The count a legacy entry attributes to one brand key: its total
      `capsules` when the key matches the legacy brand, else 0. */
  function LegacyShare(e: LogEntry, key: string): real
  {
    var brand := LegacyBrand(e);
    var matches := if key == "Other" then brand != "" && brand != "LOR" && brand != "Illy" else brand == key;
    if matches then OrZero(e.capsules) else 0.0
  }

  /** The normalisation each log entry gets on load: every other key is
      kept, `brand` becomes the legacy brand, and each per-brand count is
      kept when present (`??`) and otherwise taken from the legacy
      brand and total. */
  function NormalizeEntry(e: LogEntry): (n: LogEntry)
    ensures n.brand == Some(LegacyBrand(e))
    ensures n.capsLor.Some? && n.capsIlly.Some? && n.capsOther.Some?
    ensures e.capsLor.Some? ==> n.capsLor == e.capsLor
    ensures e.capsIlly.Some? ==> n.capsIlly == e.capsIlly
    ensures e.capsOther.Some? ==> n.capsOther == e.capsOther
    ensures n.id == e.id && n.date == e.date && n.capsules == e.capsules
    ensures n.milk == e.milk && n.reason == e.reason
  {
    e.(brand := Some(LegacyBrand(e)),
       capsLor := if e.capsLor.Some? then e.capsLor else Some(LegacyShare(e, "LOR")),
       capsIlly := if e.capsIlly.Some? then e.capsIlly else Some(LegacyShare(e, "Illy")),
       capsOther := if e.capsOther.Some? then e.capsOther else Some(LegacyShare(e, "Other")))
  }

  /** An entry in the form the normalisation produces. */
  predicate Normalized(e: LogEntry)
  {
    && e.brand.Some?
    && (e.brand.value == "" ==> !IsTruthyText(e.reason))
    && e.capsLor.Some? && e.capsIlly.Some? && e.capsOther.Some?
  }

  /** Normalisation produces normalised entries and leaves them alone:
      applying it twice is applying it once. */
  lemma NormalizeIdempotent(e: LogEntry)
    ensures Normalized(NormalizeEntry(e))
    ensures NormalizeEntry(NormalizeEntry(e)) == NormalizeEntry(e)
    ensures NormalizeEntry(e) == e <==> Normalized(e)
  {
  }

  /** A legacy `{brand: "LOR", capsules: 20}` entry gets 20 LOR capsules. */
  lemma LegacyLorEntry(e: LogEntry)
    requires e.brand == Some("LOR") && e.capsules == Some(20.0)
    requires e.capsLor.None? && e.capsIlly.None? && e.capsOther.None?
    ensures NormalizeEntry(e).capsLor == Some(20.0)
    ensures NormalizeEntry(e).capsIlly == Some(0.0)
    ensures NormalizeEntry(e).capsOther == Some(0.0)
  {
  }

  /** Legacy attribution, key by key: each per-brand count the entry lacks
      is filled on its own, with the whole total when the legacy brand
      names that key (any non-empty brand other than LOR and Illy names
      Other) and with 0 otherwise; the counts it has are kept. */
  lemma LegacyAttribution(e: LogEntry)
    ensures var n := NormalizeEntry(e); var brand := LegacyBrand(e); var total := OrZero(e.capsules);
      && (e.capsLor.None? ==> n.capsLor == Some(if brand == "LOR" then total else 0.0))
      && (e.capsIlly.None? ==> n.capsIlly == Some(if brand == "Illy" then total else 0.0))
      && (e.capsOther.None? ==>
            n.capsOther == Some(if brand !in {"", "LOR", "Illy"} then total else 0.0))
      && (e.capsLor.Some? ==> n.capsLor == e.capsLor)
      && (e.capsIlly.Some? ==> n.capsIlly == e.capsIlly)
      && (e.capsOther.Some? ==> n.capsOther == e.capsOther)
  {
  }

  /** An entry that has only some per-brand counts: with `capsLor` present
      and `capsIlly` missing, a legacy Illy total still lands on Illy. */
  lemma MixedLegacyEntry(e: LogEntry)
    requires e.capsLor == Some(3.0) && e.capsIlly.None? && e.capsOther.None?
    requires e.brand == Some("Illy") && e.capsules == Some(7.0)
    ensures NormalizeEntry(e).capsLor == Some(3.0)
    ensures NormalizeEntry(e).capsIlly == Some(7.0)
    ensures NormalizeEntry(e).capsOther == Some(0.0)
  {
  }

  /** `parsed.inventoryLog.map(...)`: normalises every entry in order; a
      null element makes the mapping throw, which the model reports as
      None. */
  function NormalizeLog(items: seq<RawLogItem>): (r: Option<seq<LogEntry>>)
    ensures r.None? <==> NullItem in items
    ensures r.Some? ==> |r.value| == |items|
    ensures r.Some? ==> forall i :: 0 <= i < |items| ==> r.value[i] == NormalizeEntry(items[i].entry)
  {
    if items == [] then Some([])
    else
      match items[0]
      case NullItem => None
      case EntryItem(e) =>
        var rest := NormalizeLog(items[1..]);
        assert items == [items[0]] + items[1..];
        if rest.None? then None else Some([NormalizeEntry(e)] + rest.value)
  }

  // ---------------------------------------------------------------------
  // Inventory
  // ---------------------------------------------------------------------

  /** Per-brand counts rebuilt from the newest (normalised) log entry,
      or none at all when the log is empty. */
  function CountsFromLatest(log: seq<LogEntry>): BrandCounts
  {
    if log == [] then NoCapsules
    else BrandCounts(OrZero(log[0].capsLor), OrZero(log[0].capsIlly), OrZero(log[0].capsOther))
  }

  /** The inventory after load: the document's keys shallow-merged over the
      default snapshot, then `brand_counts` rebuilt from the newest log
      entry when the merged value is not an object. A kept `brand_counts`
      object reads a missing key as 0, as every reader of it does. */
  function MergeInventory(raw: Option<RawInventory>, log: seq<LogEntry>): (inv: Inventory)
    ensures raw.None? ==> inv == DefaultState().inventory
    ensures raw.Some? && raw.value.capsules.None? ==> inv.capsules == DefaultState().inventory.capsules
    ensures raw.Some? && raw.value.milk.None? ==> inv.milk == DefaultState().inventory.milk
    ensures raw.Some? && raw.value.updatedAt.None? ==> inv.updatedAt == DefaultState().inventory.updatedAt
    ensures raw.Some? && raw.value.reason.None? ==> inv.reason == DefaultState().inventory.reason
    ensures raw.Some? && raw.value.brandCounts.CountsAbsent? ==>
              inv.brandCounts == DefaultState().inventory.brandCounts
    ensures raw.Some? && raw.value.capsules.Some? ==> inv.capsules == OrZero(raw.value.capsules)
    ensures raw.Some? && raw.value.milk.Some? ==> inv.milk == OrZero(raw.value.milk)
    ensures raw.Some? && raw.value.updatedAt.Some? ==> inv.updatedAt == raw.value.updatedAt
    ensures raw.Some? && raw.value.reason.Some? ==> inv.reason == raw.value.reason.value
    ensures raw.Some? && raw.value.brandCounts.CountsInvalid? ==> inv.brandCounts == CountsFromLatest(log)
  {
    match raw
    case None => DefaultState().inventory
    case Some(r) =>
      Inventory(
        OrZero(r.capsules),
        OrZero(r.milk),
        r.updatedAt,
        r.reason.GetOr(""),
        match r.brandCounts
        case CountsAbsent => NoCapsules
        case CountsInvalid => CountsFromLatest(log)
        case CountsObject(c) => BrandCounts(OrZero(c.lor), OrZero(c.illy), OrZero(c.other)))
  }

  // ---------------------------------------------------------------------
  // The whole document
  // ---------------------------------------------------------------------

  /** `hydrateState`'s fresh state, or None when it throws (a null log
      element). A non-object document gives the default state; a list
      key that is not an array gives an empty list; every log entry comes
      out normalised; purchases are kept as they are. */
  function Hydrate(doc: RawDoc): (r: Option<AppState>)
    ensures r.None? <==> doc.Document? && doc.inventoryLog.Some? && NullItem in doc.inventoryLog.value
    ensures doc.NotAnObject? ==> r == Some(DefaultState())
    ensures r.Some? ==> forall i :: 0 <= i < |r.value.inventoryLog| ==> Normalized(r.value.inventoryLog[i])
    ensures r.Some? && doc.Document? ==> r.value.purchases == doc.purchases.GetOr([])
    ensures r.Some? && doc.Document? ==> |r.value.inventoryLog| == |doc.inventoryLog.GetOr([])|
    ensures r.Some? && doc.Document? && doc.inventoryLog.Some? ==>
              forall i :: 0 <= i < |r.value.inventoryLog| ==>
                r.value.inventoryLog[i] == NormalizeEntry(doc.inventoryLog.value[i].entry)
    ensures r.Some? && doc.Document? && doc.inventory.None? ==>
              r.value.inventory == DefaultState().inventory
    ensures r.Some? && doc.Document? && doc.inventory.Some? ==>
              var ri := doc.inventory.value; var inv := r.value.inventory;
              && inv.capsules == OrZero(ri.capsules)
              && inv.milk == OrZero(ri.milk)
              && inv.updatedAt == ri.updatedAt
              && inv.reason == ri.reason.GetOr("")
              && (ri.brandCounts.CountsObject? ==>
                    var c := ri.brandCounts.counts;
                    inv.brandCounts == BrandCounts(OrZero(c.lor), OrZero(c.illy), OrZero(c.other)))
  {
    match doc
    case NotAnObject => Some(DefaultState())
    case Document(purchases, items, inventory) =>
      var log := if items.Some? then NormalizeLog(items.value) else Some([]);
      if log.None? then None
      else
        assert forall i :: 0 <= i < |log.value| ==> Normalized(log.value[i]) by {
          forall i | 0 <= i < |log.value| ensures Normalized(log.value[i]) {
            NormalizeIdempotent(items.value[i].entry);
          }
        }
        Some(AppState(purchases.GetOr([]), log.value, MergeInventory(inventory, log.value)))
  }

  /** A document whose inventory carries an unusable `brand_counts`
      gets the counts of its newest log entry, or zeros when its log is
      empty; one whose inventory lacks the key keeps the default zeros. */
  lemma BrandCountsRebuilt(doc: RawDoc)
    requires doc.Document? && doc.inventory.Some?
    requires Hydrate(doc).Some?
    ensures var s := Hydrate(doc).value;
      && (doc.inventory.value.brandCounts.CountsInvalid? ==>
            s.inventory.brandCounts == CountsFromLatest(s.inventoryLog))
      && (doc.inventory.value.brandCounts.CountsAbsent? ==> s.inventory.brandCounts == NoCapsules)
  {
  }

  /** A document without usable fields loads as the default state. */
  lemma EmptyDocumentIsDefault(doc: RawDoc)
    requires doc.NotAnObject? || doc == Document(None, None, None)
    ensures Hydrate(doc) == Some(DefaultState())
  {
  }

  // ---------------------------------------------------------------------
  // Export and import
  // ---------------------------------------------------------------------

  /** A log as the array of objects a document holds. */
  function AsItems(log: seq<LogEntry>): (items: seq<RawLogItem>)
    ensures |items| == |log| && NullItem !in items
    ensures forall i :: 0 <= i < |log| ==> items[i] == EntryItem(log[i])
  {
    seq(|log|, i requires 0 <= i < |log| => EntryItem(log[i]))
  }

  /** The document `JSON.stringify(state)` writes, as it parses back. */
  function ToDocument(s: AppState): (d: RawDoc)
    ensures d.Document? && d.purchases == Some(s.purchases)
    ensures d.inventoryLog.Some? && NullItem !in d.inventoryLog.value
    ensures d.inventory.Some? && d.inventory.value.brandCounts.CountsObject?
  {
    var inv := s.inventory;
    var counts := RawCounts(Some(inv.brandCounts.lor), Some(inv.brandCounts.illy), Some(inv.brandCounts.other));
    Document(
      Some(s.purchases),
      Some(AsItems(s.inventoryLog)),
      Some(RawInventory(Some(inv.capsules), Some(inv.milk), inv.updatedAt, Some(inv.reason), CountsObject(counts))))
  }

  /** Exporting and importing a state gives it back with its log entries
      normalised; a state whose entries are already normalised comes back
      unchanged. */
  lemma {:induction false} ExportImportRoundTrip(s: AppState)
    ensures Hydrate(ToDocument(s)).Some?
    ensures var log := s.inventoryLog;
      Hydrate(ToDocument(s)) ==
        Some(s.(inventoryLog := seq(|log|, i requires 0 <= i < |log| => NormalizeEntry(log[i]))))
    ensures (forall i :: 0 <= i < |s.inventoryLog| ==> Normalized(s.inventoryLog[i])) ==>
              Hydrate(ToDocument(s)) == Some(s)
  {
    var log := s.inventoryLog;
    var items := AsItems(log);
    var n := NormalizeLog(items).value;
    assert n == seq(|log|, i requires 0 <= i < |log| => NormalizeEntry(log[i]));
    var doc := ToDocument(s);
    assert doc.inventoryLog == Some(items);
    assert MergeInventory(doc.inventory, n) == s.inventory;
    assert Hydrate(doc) == Some(AppState(s.purchases, n, s.inventory));
    if forall i :: 0 <= i < |log| ==> Normalized(log[i]) {
      forall i | 0 <= i < |log| ensures n[i] == log[i] {
        NormalizeIdempotent(log[i]);
      }
      assert n == log;
    }
  }
}
