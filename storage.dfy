/** Hydrating the ledger from the browser store (app.js:5-11). `localStorage`
    and `JSON.parse` are outside the model: the stored entry is an optional
    string and the parser is a parameter that says what it made of the text. */
module Storage {
  import opened Wrappers
  import opened Expenses

  /** What `JSON.parse` made of the stored text: a thrown error, a value that is
      not an array, or an array (whose records are taken as they are). */
  datatype Parsed = ParseError | NotArray | Array(items: seq<Expense>)

  /** The ledger at start-up: `stored ? JSON.parse(stored) : []`, then `[]` unless
      the result is an array, and `[]` when parsing throws. An empty stored string
      is falsy and is never parsed. */
  function Hydrate(stored: Option<string>, parse: string -> Parsed): (es: seq<Expense>)
    ensures es != [] ==> stored.Some? && stored.value != "" && parse(stored.value) == Array(es)
  {
    if stored.None? || stored.value == "" then []
    else match parse(stored.value)
      case Array(items) => items
      case _ => []
  }

  /** An absent entry, an empty string, a parse failure or a non-array all start the ledger empty. */
  lemma HydrateFailsOpen(stored: Option<string>, parse: string -> Parsed)
    requires stored.None? || stored.value == "" || !parse(stored.value).Array?
    ensures Hydrate(stored, parse) == []
  {
  }

  /** Reading back what was saved: when the parser inverts the serializer on the
      saved snapshot (and the serialization is non-empty, as `JSON.stringify` of an
      array always is), hydration yields exactly that snapshot, same order. */
  lemma HydrateAfterSave(snapshot: seq<Expense>, serialize: seq<Expense> -> string, parse: string -> Parsed)
    requires serialize(snapshot) != ""
    requires parse(serialize(snapshot)) == Array(snapshot)
    ensures Hydrate(Some(serialize(snapshot)), parse) == snapshot
  {
  }

}
