/**
 * The dashboard's records: the inventory snapshot, the restock log, the
 * purchase list and the whole application state, plus the coercion the
 * forms apply to numeric fields.
 *
 * Numbers are `real`: amounts, counts and litres are JavaScript numbers in
 * the source, and the model abstracts from floating-point rounding. A
 * JSON document cannot hold NaN or an infinity, and the forms coerce those
 * to 0, so no record field is ever non-finite.
 */
module Records {

  datatype Option<T> = None | Some(value: T) {
    function GetOr(default: T): T
    {
      match this
      case Some(v) => v
      case None => default
    }
  }

  /** JavaScript's `x || 0` on an optional number: a missing number reads
      as 0 (a present 0 is 0 either way). */
  function OrZero(x: Option<real>): real
  {
    x.GetOr(0.0)
  }

  /** JavaScript truthiness of an optional number: present and non-zero. */
  predicate IsTruthy(x: Option<real>)
  {
    x.Some? && x.value != 0.0
  }

  /** JavaScript truthiness of an optional string: present and non-empty. */
  predicate IsTruthyText(x: Option<string>)
  {
    x.Some? && x.value != ""
  }

  // ---------------------------------------------------------------------
  // Form input
  // ---------------------------------------------------------------------

  /** What a numeric form field holds, as `Number(...)` classifies its text:
      no such field (`form.get` gives null), the empty string, text that
      reads as the finite number `x`, or text that reads as NaN or an
      infinity. */
  datatype FormField = Missing | Blank | Numeric(x: real) | NonNumeric

  /** `toNumber`: missing, blank and non-finite input coerce to 0; every
      finite number, negative ones included, passes through unchanged. */
  function ToNumber(f: FormField): (r: real)
    ensures f.Numeric? ==> r == f.x
    ensures !f.Numeric? ==> r == 0.0
  {
    match f
    case Numeric(x) => x
    case _ => 0.0
  }

  // ---------------------------------------------------------------------
  // Records
  // ---------------------------------------------------------------------

  /** Capsules on hand per brand key: LOR, Illy and Other. */
  datatype BrandCounts = BrandCounts(lor: real, illy: real, other: real)

  const NoCapsules := BrandCounts(0.0, 0.0, 0.0)

  /** The inventory snapshot. `capsules` is the count the source keeps
      under the key `beans_g`, `milk` the litres it keeps under `milk_l`;
      `updatedAt` is None for the JSON null of a snapshot never restocked. */
  datatype Inventory = Inventory(
    capsules: real,
    milk: real,
    updatedAt: Option<string>,
    reason: string,
    brandCounts: BrandCounts)

  /** One restock log entry. Every field is optional because entries come
      both from the restock form (which writes id, date, capsules, the three
      brand counts and milk) and from imported documents of older versions
      (which may carry a single `brand` or `reason` with a total
      `capsules` instead of per-brand counts). None means the key is absent. */
  datatype LogEntry = LogEntry(
    id: Option<string>,
    date: Option<string>,
    capsules: Option<real>,
    milk: Option<real>,
    brand: Option<string>,
    reason: Option<string>,
    capsLor: Option<real>,
    capsIlly: Option<real>,
    capsOther: Option<real>)

  /** One purchase. `date` is None when the form had no date field or the
      document held none; `buyer` and `notes` are "" when absent. */
  datatype Purchase = Purchase(id: string, date: Option<string>, buyer: string, amount: real, notes: string)

  /** The application state. Both lists are newest first. */
  datatype AppState = AppState(purchases: seq<Purchase>, inventoryLog: seq<LogEntry>, inventory: Inventory)

  /** `defaultState`: nothing recorded yet. */
  function DefaultState(): (s: AppState)
    ensures s.purchases == [] && s.inventoryLog == []
    ensures s.inventory.capsules == 0.0 && s.inventory.milk == 0.0 && s.inventory.brandCounts == NoCapsules
    ensures s.inventory.updatedAt.None? && s.inventory.reason == ""
  {
    AppState([], [], Inventory(0.0, 0.0, None, "", NoCapsules))
  }
}
