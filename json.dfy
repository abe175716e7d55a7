/**
 * The text held by a store entry. `JSON.stringify` and `JSON.parse` are not
 * modelled character by character: a string is either the JSON serialization of
 * a document of the cached type (`Doc`), or some other string (`Other`), such as
 * the lock marker "1" or a corrupt entry.
 */
module Json {
  import opened Wrappers

  datatype Text<D> = Doc(doc: D) | Other(chars: string)

  /** `JSON.stringify(value)`. */
  function Stringify<D>(d: D): Text<D> {
    Doc(d)
  }

  /** `JSON.parse(text)`: only the serialization of a document parses to a document. */
  function Parse<D>(t: Text<D>): (r: Option<D>)
    ensures r.Some? <==> t.Doc?
  {
    match t
    case Doc(d) => Some(d)
    case Other(_) => None
  }

  /** JavaScript truthiness of a string returned by the store: only "" is falsy. */
  predicate Truthy<D>(t: Text<D>) {
    t != Other([])
  }

  /** Serializing and parsing back yields the value; the serialization is never "". */
  lemma ParseStringify<D>(d: D)
    ensures Parse(Stringify(d)) == Some(d)
    ensures Truthy(Stringify(d))
  {
  }
}
