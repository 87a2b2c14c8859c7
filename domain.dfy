// Values the filter handler works with: the search-parameter registry, the
// filter store, the console input as the scanner delivers it, and what the
// catalogue API and the book service hand back.
module Domain {

  /** Java's 32-bit `int`, the type of a selection read by `Scanner.nextInt`. */
  newtype int32 = x: int | -0x8000_0000 <= x < 0x8000_0000

  /** One constant of the `SearchParameter` enumeration: its ordinal and its display name (`getValue`). */
  datatype SearchParameter = SearchParameter(ordinal: nat, name: string)

  /** `SearchParameter.values()`: the constants in declaration order, the i-th with ordinal i. */
  predicate IsRegistry(params: seq<SearchParameter>) {
    forall i :: 0 <= i < |params| ==> params[i].ordinal == i
  }

  /** The filter store: at most one value per parameter. */
  type Filters = map<SearchParameter, string>

  /**
   * One unit of console input, as seen by the handler:
   * a token that does not read as an `int`, an `int` token (together with the
   * rest of its line, which the handler throws away), or a whole line of text.
   */
  datatype Event =
    | Word(text: string)
    | Int(value: int32)
    | Text(line: string)

  /** The characters `Scanner.nextLine` returns when the next unit of input is `e`. */
  function LineText(e: Event): string {
    match e
    case Word(t) => t
    case Int(n) => DecimalText(n as int)
    case Text(l) => l
  }

  function DecimalText(n: int): string {
    if n < 0 then "-" + Digits(-n) else Digits(n)
  }

  function Digits(n: nat): string
    decreases n
  {
    if n < 10 then ["0123456789"[n]] else Digits(n / 10) + ["0123456789"[n % 10]]
  }

  /** A book record returned by the catalogue API; its fields play no part here. */
  datatype Book = Book(title: string)

  /** The API's answer to a query: the books found. */
  datatype ListBooks = ListBooks(books: seq<Book>)

  /** The outcome of a call that may throw: its value, or the exception's message. */
  datatype Result<T> = Ok(value: T) | Err(message: string)

  datatype Option<T> = None | Some(value: T)
}
