# FilterHandler: filter collection and dispatch

This project models `FilterHandler`. It is the link of the book-collection menu chain
(a chain of responsibility) that handles option 1. On option 1 it runs an interactive
loop over the console. The loop shows the `SearchParameter` values as a 1-based list and
reads a selection. A selection in `[1, N]` is followed by one line of text, which is
`put` into the shared filter map under that parameter. A selection of 0 ends the loop.
Any other selection is reported as invalid. Tokens that are not integers are discarded
one at a time until an integer is read. When the loop ends, the handler sends one
filtered query to the catalogue API with sort key `"downloads"` and page 1. It then asks
the book service to save the books found. An exception from either call is caught.
Any option other than 1 is passed to the next link of the chain, if there is one.

Files:

- `domain.dfy` (`Domain`): the parameter registry, the filter map, the console input as a
  sequence of events, and the API's result and failure types.
- `filter_loop.dfy` (`FilterLoop`): the loop as functions over the input (`Iterate` is one
  pass of the body, `Collect` the whole loop). Lemmas give the effect of each kind of input
  event. Last-write-wins is proved against a reference fold, `Apply`.
- `filter_handler.dfy` (`BooksCollection`): the class `FilterHandler`. Its fields are the
  filter map, the scanner's unread input, the next link, and the two collaborators.
  `AggregateFiltrates` is the imperative loop. It is proved equal to `Collect`.
- `scenarios.dfy` (`Scenarios`): worked runs over a three-parameter registry
  (Author, Year, Language), for any typed values.

Abstractions:

- The `Scanner` is a finite sequence of `Event`s. `Word(t)` is a token that does not read
  as an `int`. `Int(n)` is an `int` token together with the rest of its line, which line
  101 discards. `Text(l)` is a whole line. A line read (line 111) takes the next event,
  whatever its kind. When the scanner has no input left, `Scanner.next`/`nextLine` throw
  `NoSuchElementException`. The handler does not catch it, so the loop ends with
  `InputExhausted` and nothing is dispatched.
- The `SearchParameter` enumeration is not shown, so the model takes it as an input
  `params` with `IsRegistry(params)` (the i-th constant has ordinal i). Its constants are
  therefore distinct.
- `APIController.filterBooks` and `BookService.saveBooksToDatabase` are function-typed
  fields. Each returns a value or the message of the exception it throws. The calls the
  handler makes are returned as a list of `Call`s.
- The next link is an opaque `MenuHandler` object. Forwarding returns
  `Forwarded(next, option)` in place of calling it.

Two behaviours of the code are worth stating plainly:

- The class comment says the loop continues until the user enters 0
  (FilterHandler.java:68 and :77). The loop guard is `opcionFiltro != -1` (line 86), so
  selection -1 is reported as invalid and then also ends the loop, and dispatch follows.
  The model follows the guard: 0 is not the only exit.
- Running out of input is not recovered from. The scanner's exception escapes
  `handleOption`, and no query is sent.

## Model

| member | source | states |
|---|---|---|
| FilterLoop.DropNonIntegers | backend-path/literatura/src/main/java/app/Menu/BooksCollection/FilterHandler.java:96-99 | the input left is a suffix of the input; it is empty or starts with an `int`; every event dropped is not an `int` |
| FilterLoop.Select | backend-path/literatura/src/main/java/app/Menu/BooksCollection/FilterHandler.java:100-119 | after reading a selection: only a parameter choice can change the map, and then only by `put`s of parameters; 0 never continues; no input is gained |
| FilterLoop.Iterate | backend-path/literatura/src/main/java/app/Menu/BooksCollection/FilterHandler.java:88-119 | one pass of the loop body consumes at least one event unless input runs out; the map changes only on a parameter choice, and then only by a `put` |
| FilterLoop.Collect | backend-path/literatura/src/main/java/app/Menu/BooksCollection/FilterHandler.java:85-120 | the whole loop never removes a key and changes only parameters' values; the unread input never grows; exhaustion happens only with all input read |
| FilterLoop.ParameterChoiceStores | backend-path/literatura/src/main/java/app/Menu/BooksCollection/FilterHandler.java:108-116 | a selection s in [1, N] followed by a line stores that line under `values()[s-1]`, overwriting any earlier value; the loop continues with exactly the rest of the input |
| FilterLoop.RegistryDistinct | backend-path/literatura/src/main/java/app/Menu/BooksCollection/FilterHandler.java:108-109 | distinct selections name distinct enum constants, so a `put` under one leaves every other parameter's value as it was |
| FilterLoop.ParameterChoiceContinues | backend-path/literatura/src/main/java/app/Menu/BooksCollection/FilterHandler.java:108-120 | the whole loop after a parameter choice and its line is the loop started from the updated map on the rest of the input |
| FilterLoop.ZeroSelectionExits | backend-path/literatura/src/main/java/app/Menu/BooksCollection/FilterHandler.java:104-106 | selection 0 ends the loop at once, with the map unchanged and nothing more read |
| FilterLoop.MinusOneSelectionExits | backend-path/literatura/src/main/java/app/Menu/BooksCollection/FilterHandler.java:86-120 | selection -1 leaves the map unchanged and also ends the loop, because the guard tests for -1 |
| FilterLoop.InvalidSelectionIgnored | backend-path/literatura/src/main/java/app/Menu/BooksCollection/FilterHandler.java:117-119 | a selection outside [1, N] that is neither 0 nor -1 leaves the map unchanged and the loop goes on with the next event |
| FilterLoop.NonIntegerDiscarded | backend-path/literatura/src/main/java/app/Menu/BooksCollection/FilterHandler.java:96-99 | a non-integer event is consumed alone, changing neither the map nor the loop's course |
| FilterLoop.CollectScript | backend-path/literatura/src/main/java/app/Menu/BooksCollection/FilterHandler.java:84-120 | typing any sequence of parameter choices with values and then 0 ends the loop with the map that `put`-ting them in order gives |
| FilterLoop.ApplyLastWriteWins | backend-path/literatura/src/main/java/app/Menu/BooksCollection/FilterHandler.java:115 | the value kept for a parameter is the one of the last entry that selected it |
| FilterLoop.ApplyUntouched | backend-path/literatura/src/main/java/app/Menu/BooksCollection/FilterHandler.java:115 | a parameter no entry selected keeps its presence and its value |
| BooksCollection.FilterHandler.constructor | backend-path/literatura/src/main/java/app/Menu/BooksCollection/FilterHandler.java:33-39 | the handler starts with the injected map, scanner, parameters and collaborators, and no next link; `Valid()` records that the parameters are the enum's `values()` |
| BooksCollection.FilterHandler.HandleOption | backend-path/literatura/src/main/java/app/Menu/BooksCollection/FilterHandler.java:41-48 | option 1 runs the loop (the result is `Collect`) and then dispatch unless input ran out; any other option is forwarded unchanged to `next` when set and is otherwise a no-op; the map and the input change only on option 1 |
| BooksCollection.FilterHandler.SetNext | backend-path/literatura/src/main/java/app/Menu/BooksCollection/FilterHandler.java:50-53 | `next` becomes the given link, so the last call wins |
| BooksCollection.FilterHandler.AggregateFiltrates | backend-path/literatura/src/main/java/app/Menu/BooksCollection/FilterHandler.java:84-123 | the loop leaves exactly `Collect`'s map and unread input; dispatch happens if and only if the loop ended on 0 or -1, and over the map as the loop left it |
| BooksCollection.FilterHandler.DiscardNonIntegers | backend-path/literatura/src/main/java/app/Menu/BooksCollection/FilterHandler.java:96-99 | the retry loop leaves exactly `DropNonIntegers` of the input, and reports whether an `int` was reached |
| BooksCollection.FilterHandler.GetByFilter | backend-path/literatura/src/main/java/app/Menu/BooksCollection/FilterHandler.java:125-134 | exactly one query, first, with the map, `"downloads"` and page 1; a save of the books found if and only if the query succeeded; success with the number found only if both succeed, else the failing call's message, with the number found shown exactly when the query succeeded; the map is not modified |
| Scenarios.ChoiceThenZero | backend-path/literatura/src/main/java/app/Menu/BooksCollection/FilterHandler.java:104-116 | for any registry and starting map, a choice in [1, N], a value, then 0 stores that value under the chosen parameter and exits by 0 with all input read |
| Scenarios.AuthorThenZero | backend-path/literatura/src/main/java/app/Menu/BooksCollection/FilterHandler.java:104-116 | input `1, name, 0` gives the map {Author: name} and exit by 0 |
| Scenarios.OutOfRangeThenYear | backend-path/literatura/src/main/java/app/Menu/BooksCollection/FilterHandler.java:104-119 | input `5, 2, year, 0` rejects 5 without change and gives {Year: year} |
| Scenarios.WordThenAuthor | backend-path/literatura/src/main/java/app/Menu/BooksCollection/FilterHandler.java:96-116 | input `word, 1, name, 0` discards the word and gives {Author: name} |
| Scenarios.MinusOneStopsEarly | backend-path/literatura/src/main/java/app/Menu/BooksCollection/FilterHandler.java:86-120 | input `-1, 1, name, 0` ends the loop on -1 with the earlier filters kept and the rest unread |
| Scenarios.ReselectOverwrites | backend-path/literatura/src/main/java/app/Menu/BooksCollection/FilterHandler.java:108-116 | selecting Language twice keeps the second value; the map holds exactly Author and Language |

## Left out

- Console output (`System.out.println`, `ScreenUtils.cleanScreen`, the parameter listing, the echo of the map, the count of books found, the error message printed). It is user interface only and changes no state. The `Outcome` keeps the count on success, and on failure the caught message together with the count that was shown when the query succeeded before the save failed.
- Scanner tokenisation. A `Text` event where a token is expected is treated as one non-integer token and discarded whole. An integer outside the 32-bit range is a `Word`, as `hasNextInt` rejects it. What is left on the selection's line is folded into the `Int` event.
- The exception at line 101: an `Int` event assumes a line end follows the integer. When the integer is the last thing in the input with no line end after it, `scanner.nextLine()` at line 101 throws and nothing is dispatched; the model has no event sequence for that input and does not capture that exception.
- Blocking reads. Input is finite, and running out of it is the `InputExhausted` outcome. What the caller does with the escaping exception is not modelled.
- The internals of `APIController.filterBooks` and `BookService.saveBooksToDatabase` (network and database code). They are deterministic functions of their arguments that may fail.
- Aliasing of the filter map, which the dependency-injection container shares with other components. Here the map is a value field of the handler, so outside changes to it are not modelled.
- The `MenuHandler` interface and what the next link does with a forwarded option. Dafny traits are not used here, so the next link is an opaque object, and forwarding is reported instead of performed.
- Spring dependency injection (`@Component`, `@Autowired`). The constructor takes the collaborators directly.
- The contents of `ListBooks` beyond its list of books. Only its size is observed.
