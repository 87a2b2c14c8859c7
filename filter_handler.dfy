// `FilterHandler`, the link of the book-collection menu chain that gathers
// search filters from the console and sends them to the catalogue API.
module BooksCollection {
  import opened Domain
  import opened FilterLoop

  /** The sort key every filtered query asks for. */
  const SortKey: string := "downloads"

  /** The page every filtered query asks for; there is no paging loop. */
  const FirstPage: int := 1

  /** Another link of the menu chain; what it does with an option is not part of this model. */
  class MenuHandler { }

  /** A call the handler makes on a collaborator, with its arguments. */
  datatype Call =
    | FilterBooks(filters: Filters, sortKey: string, page: int)  // `APIController.filterBooks`
    | SaveBooks(found: ListBooks)                                // `BookService.saveBooksToDatabase`

  /**
   * How dispatch ended: the number of books found and saved, or the caught exception's message
   * together with the number of books found when the query succeeded (it is shown before saving).
   */
  datatype Outcome = Saved(count: nat) | Failed(shown: Option<nat>, message: string)

  /** The calls dispatch made, in order, and how it ended. */
  datatype Dispatched = Dispatched(calls: seq<Call>, outcome: Outcome)

  /** What `handleOption` did with an option. */
  datatype Handled =
    | Collected(run: Run, dispatch: Option<Dispatched>)  // option 1: the loop ran, then dispatch unless input ran out
    | Forwarded(to: MenuHandler, option: int32)         // passed on, unchanged, to the next link
    | Absorbed                                          // no next link: nothing happens

  class FilterHandler {
    /** The next link of the chain, if any. */
    var next: MenuHandler?
    /** The shared filter store. */
    var filters: Filters
    /** What the console scanner has not yet delivered. */
    var input: seq<Event>
    /** `SearchParameter.values()`. */
    const params: seq<SearchParameter>
    /** The catalogue API's filtered query: its books, or the message of the exception it throws. */
    const filterBooks: (Filters, string, int) -> Result<ListBooks>
    /** The book service's save: done, or the message of the exception it throws. */
    const saveBooks: ListBooks -> Result<()>

    /** `params` is `SearchParameter.values()`: the i-th constant has ordinal i, so the
      * constants are distinct and a selection names exactly one of them. */
    ghost predicate Valid() {
      IsRegistry(params)
    }

    constructor (filters: Filters, input: seq<Event>, params: seq<SearchParameter>,
                 filterBooks: (Filters, string, int) -> Result<ListBooks>, saveBooks: ListBooks -> Result<()>)
      requires IsRegistry(params)
      ensures Valid()
      ensures this.filters == filters && this.input == input && this.params == params
      ensures this.filterBooks == filterBooks && this.saveBooks == saveBooks
      ensures next == null
    {
      this.filters := filters;
      this.input := input;
      this.params := params;
      this.filterBooks := filterBooks;
      this.saveBooks := saveBooks;
      next := null;
    }

    /**
     * What a dispatch over store `f` must have done: exactly one query, first, with `f`,
     * the sort key and the first page; a save of the books found if and only if the query
     * succeeded; success only when both calls succeed, otherwise the failing call's message.
     */
    predicate IsDispatchOf(d: Dispatched, f: Filters) {
      var query := filterBooks(f, SortKey, FirstPage);
      && 1 <= |d.calls| <= 2
      && d.calls[0] == FilterBooks(f, SortKey, FirstPage)
      && (|d.calls| == 2 <==> query.Ok?)
      && (query.Ok? ==> d.calls[1] == SaveBooks(query.value))
      && (d.outcome.Saved? <==> query.Ok? && saveBooks(query.value).Ok?)
      && (d.outcome.Saved? ==> d.outcome.count == |query.value.books|)
      && (d.outcome.Failed? ==> (d.outcome.shown.Some? <==> query.Ok?))
      && (d.outcome.Failed? && query.Ok? ==> d.outcome.shown == Some(|query.value.books|))
      && (d.outcome.Failed? && query.Err? ==> d.outcome.message == query.message)
      && (d.outcome.Failed? && query.Ok? ==> d.outcome.message == saveBooks(query.value).message)
    }

    /** `handleOption`: option 1 runs the filter workflow, any other goes to the next link if there is one. */
    method HandleOption(option: int32) returns (h: Handled)
      modifies this`filters, this`input
      ensures option == 1 ==>
                && h.Collected?
                && h.run == Collect(params, old(filters), old(input))
                && filters == h.run.filters && input == h.run.rest
                && (h.dispatch.Some? <==> h.run.exit != InputExhausted)
                && (h.dispatch.Some? ==> IsDispatchOf(h.dispatch.value, filters))
      ensures option != 1 ==> filters == old(filters) && input == old(input)
      ensures option != 1 && next != null ==> h == Forwarded(next, option)
      ensures option != 1 && next == null ==> h == Absorbed
    {
      if option == 1 {
        var run, dispatch := AggregateFiltrates();
        h := Collected(run, dispatch);
      } else if next != null {
        h := Forwarded(next, option);
      } else {
        h := Absorbed;
      }
    }

    /** `setNext`: the last link set is the one forwarded to. */
    method SetNext(next: MenuHandler?)
      modifies this`next
      ensures this.next == next
    {
      this.next := next;
    }

    /**
     * `aggregateFiltrates`: loop reading selections until 0 (or -1, which the guard tests),
     * storing a line under each parameter chosen, then dispatch. When the scanner runs out
     * of input it throws, and nothing is dispatched.
     */
    method AggregateFiltrates() returns (run: Run, dispatch: Option<Dispatched>)
      modifies this`filters, this`input
      ensures run == Collect(params, old(filters), old(input))
      ensures filters == run.filters && input == run.rest
      ensures dispatch.Some? <==> run.exit != InputExhausted
      ensures dispatch.Some? ==> IsDispatchOf(dispatch.value, filters)
    {
      ghost var whole := Collect(params, filters, input);
      var selection: int32 := 0;
      var exit := MinusOneSelected;
      while selection != -1
        invariant whole == if selection == -1 then Run(MinusOneSelected, filters, input)
                           else Collect(params, filters, input)
        invariant exit == MinusOneSelected
        decreases |input|
      {
        ghost var start, before := input, filters;
        var ready := DiscardNonIntegers();
        if !ready {
          assert Iterate(params, before, start) == Exhausted(before);
          run, dispatch := Run(InputExhausted, filters, []), None;
          return;
        }
        ghost var it := Select(params, filters, input[0].value, input[1..]);
        assert Iterate(params, before, start) == it;
        selection := input[0].value;
        input := input[1..];
        if selection == 0 {
          exit := ZeroSelected;
          break;
        }
        if IsParameterChoice(params, selection as int) {
          var key := params[selection - 1];
          if input == [] {
            run, dispatch := Run(InputExhausted, filters, []), None;
            return;
          }
          var value := LineText(input[0]);
          input := input[1..];
          filters := filters[key := value];
        }
        assert it == Continue(selection, filters, input);
      }
      run := Run(exit, filters, input);
      var d := GetByFilter();
      dispatch := Some(d);
    }

    /**
     * The retry loop before `nextInt`: while the next token is not an `int`, complain and
     * discard it. False when the input runs out, where `Scanner.next` throws.
     */
    method DiscardNonIntegers() returns (ready: bool)
      modifies this`input
      ensures input == DropNonIntegers(old(input))
      ensures ready <==> input != []
    {
      while input == [] || !input[0].Int?
        invariant DropNonIntegers(input) == DropNonIntegers(old(input))
        decreases |input|
      {
        if input == [] {
          return false;
        }
        input := input[1..];
      }
      return true;
    }

    /** `getByFilter`: query with the store, then save what was found; any exception is caught. */
    method GetByFilter() returns (d: Dispatched)
      ensures IsDispatchOf(d, filters)
    {
      var query := FilterBooks(filters, SortKey, FirstPage);
      match filterBooks(filters, SortKey, FirstPage)
      case Err(message) =>
        d := Dispatched([query], Failed(None, message));
      case Ok(found) =>
        match saveBooks(found)
        case Err(message) =>
          d := Dispatched([query, SaveBooks(found)], Failed(Some(|found.books|), message));
        case Ok(_) =>
          d := Dispatched([query, SaveBooks(found)], Saved(|found.books|));
    }
  }
}
