// The filter-collection loop of `FilterHandler.aggregateFiltrates`, stated as
// functions over the input it consumes, with the transitions it promises.
module FilterLoop {
  import opened Domain

  /** True when `selection` names a parameter: it lies in [1, N]. */
  predicate IsParameterChoice(params: seq<SearchParameter>, selection: int) {
    0 < selection <= |params|
  }

  /** `after` is `before` with some `put`s of parameters: no key lost, no other key touched. */
  predicate OnlyParametersPut(params: seq<SearchParameter>, before: Filters, after: Filters) {
    && before.Keys <= after.Keys
    && forall k :: k in after ==> k in params || (k in before && after[k] == before[k])
  }

  /** What one pass of the loop body leaves behind. */
  datatype Iteration =
    | Continue(selection: int32, filters: Filters, rest: seq<Event>)  // no `break`: the guard is tested next
    | Break(filters: Filters, rest: seq<Event>)                     // selection 0
    | Exhausted(filters: Filters)                                    // the scanner ran out of input and threw

  /** How the loop ended. */
  datatype Exit = ZeroSelected | MinusOneSelected | InputExhausted

  /** The loop's exit, the filter store it leaves, and the input it did not read. */
  datatype Run = Run(exit: Exit, filters: Filters, rest: seq<Event>)

  /** The retry loop before `nextInt`: drops every leading unit of input that is not an `int`. */
  function DropNonIntegers(input: seq<Event>): (rest: seq<Event>)
    ensures |rest| <= |input| && rest == input[|input| - |rest|..]
    ensures rest == [] || rest[0].Int?
    ensures forall k :: 0 <= k < |input| - |rest| ==> !input[k].Int?
  {
    if input == [] || input[0].Int? then input else DropNonIntegers(input[1..])
  }

  /** The part of the loop body after `nextInt`: stop on 0, store the next line under a
    * parameter choice, report anything else as invalid. */
  function Select(params: seq<SearchParameter>, filters: Filters, selection: int32, after: seq<Event>): (it: Iteration)
    ensures !it.Exhausted? ==> |it.rest| <= |after|
    ensures it.Continue? ==> it.selection == selection != 0
    ensures !(it.Continue? && IsParameterChoice(params, selection as int)) ==> it.filters == filters
    ensures OnlyParametersPut(params, filters, it.filters)
  {
    if selection == 0 then Break(filters, after)
    else if IsParameterChoice(params, selection as int) then
      if after == [] then Exhausted(filters)
      else Continue(selection, filters[params[selection - 1] := LineText(after[0])], after[1..])
    else Continue(selection, filters, after)
  }

  /** One pass of the loop body: discard non-integers, read a selection, act on it. */
  function Iterate(params: seq<SearchParameter>, filters: Filters, input: seq<Event>): (it: Iteration)
    ensures !it.Exhausted? ==> |it.rest| < |input|
    ensures it.Continue? ==> it.selection != 0
    ensures !(it.Continue? && IsParameterChoice(params, it.selection as int)) ==> it.filters == filters
    ensures OnlyParametersPut(params, filters, it.filters)
  {
    var pending := DropNonIntegers(input);
    if pending == [] then Exhausted(filters)
    else Select(params, filters, pending[0].value, pending[1..])
  }

  /**
   * The whole loop: iterate while the last selection is not -1.
   * Only `put` touches the store, so no key is lost and only parameters gain or change values;
   * the unread input never grows, and the scanner runs dry only once all of it is read.
   */
  function Collect(params: seq<SearchParameter>, filters: Filters, input: seq<Event>): (run: Run)
    decreases |input|
    ensures |run.rest| <= |input|
    ensures run.exit == InputExhausted ==> run.rest == []
    ensures OnlyParametersPut(params, filters, run.filters)
  {
    match Iterate(params, filters, input)
    case Exhausted(after) => Run(InputExhausted, after, [])
    case Break(after, rest) => Run(ZeroSelected, after, rest)
    case Continue(selection, after, rest) =>
      if selection != -1 then Collect(params, after, rest)
      else Run(MinusOneSelected, after, rest)
  }

  /** A parameter choice followed by a line stores that line under the chosen parameter, overwriting
    * any earlier value and leaving every other key as it was; the loop goes on with the rest. */
  lemma ParameterChoiceStores(params: seq<SearchParameter>, filters: Filters, selection: int32, line: Event, tail: seq<Event>)
    requires IsParameterChoice(params, selection as int)
    ensures Iterate(params, filters, [Int(selection), line] + tail)
         == Continue(selection, filters[params[selection - 1] := LineText(line)], tail)
  {
  }

  /** Distinct positions of the registry hold distinct parameters, so a `put` under one choice
    * leaves the value of every other choice as it was. */
  lemma RegistryDistinct(params: seq<SearchParameter>, i: nat, j: nat)
    requires IsRegistry(params) && i < |params| && j < |params|
    ensures params[i] == params[j] <==> i == j
  {
  }

  /** After a parameter choice and its line, the loop carries on from the updated store. */
  lemma ParameterChoiceContinues(params: seq<SearchParameter>, filters: Filters, selection: int32, line: Event, tail: seq<Event>)
    requires IsParameterChoice(params, selection as int)
    ensures Collect(params, filters, [Int(selection), line] + tail)
         == Collect(params, filters[params[selection - 1] := LineText(line)], tail)
  {
    var input := [Int(selection), line] + tail;
    assert DropNonIntegers(input) == input;
    assert input[1..] == [line] + tail && ([line] + tail)[1..] == tail;
  }

  /** Selection 0 ends the loop at once and leaves the store as it was. */
  lemma ZeroSelectionExits(params: seq<SearchParameter>, filters: Filters, tail: seq<Event>)
    ensures Collect(params, filters, [Int(0)] + tail) == Run(ZeroSelected, filters, tail)
  {
  }

  /** Selection -1 is reported as invalid, leaves the store as it was, and also ends the loop,
    * because the loop guard tests for -1. */
  lemma MinusOneSelectionExits(params: seq<SearchParameter>, filters: Filters, tail: seq<Event>)
    ensures Collect(params, filters, [Int(-1)] + tail) == Run(MinusOneSelected, filters, tail)
  {
  }

  /** Any other selection outside [1, N] leaves the store as it was and the loop goes on. */
  lemma InvalidSelectionIgnored(params: seq<SearchParameter>, filters: Filters, selection: int32, tail: seq<Event>)
    requires selection != 0 && selection != -1 && !IsParameterChoice(params, selection as int)
    ensures Collect(params, filters, [Int(selection)] + tail) == Collect(params, filters, tail)
  {
  }

  /** A unit of input that is not an `int` is discarded alone; the loop state is what it was. */
  lemma NonIntegerDiscarded(params: seq<SearchParameter>, filters: Filters, e: Event, tail: seq<Event>)
    requires !e.Int?
    ensures Iterate(params, filters, [e] + tail) == Iterate(params, filters, tail)
    ensures Collect(params, filters, [e] + tail) == Collect(params, filters, tail)
  {
  }

  /** One filter entry as the user types it: a selection, then the value line. */
  datatype Entry = Entry(selection: int32, value: string)

  predicate AllParameterChoices(params: seq<SearchParameter>, entries: seq<Entry>) {
    forall l :: 0 <= l < |entries| ==> IsParameterChoice(params, entries[l].selection as int)
  }

  /** The parameter an entry selects. */
  function KeyOf(params: seq<SearchParameter>, e: Entry): SearchParameter
    requires IsParameterChoice(params, e.selection as int)
  {
    params[e.selection - 1]
  }

  /** The input that types `entries` one after the other. */
  function Script(entries: seq<Entry>): seq<Event> {
    if entries == [] then [] else [Int(entries[0].selection), Text(entries[0].value)] + Script(entries[1..])
  }

  /** The store after `put`-ting each entry in turn: the reference for last-write-wins. */
  function Apply(params: seq<SearchParameter>, filters: Filters, entries: seq<Entry>): Filters
    requires AllParameterChoices(params, entries)
    decreases |entries|
  {
    if entries == [] then filters
    else Apply(params, filters[KeyOf(params, entries[0]) := entries[0].value], entries[1..])
  }

  /** Typing entries and then 0 ends the loop with exactly the store that putting them in turn gives. */
  lemma {:induction false} CollectScript(params: seq<SearchParameter>, filters: Filters, entries: seq<Entry>, tail: seq<Event>)
    requires AllParameterChoices(params, entries)
    ensures Collect(params, filters, Script(entries) + [Int(0)] + tail)
         == Run(ZeroSelected, Apply(params, filters, entries), tail)
    decreases |entries|
  {
    if entries == [] {
      assert Script(entries) + [Int(0)] + tail == [Int(0)] + tail;
      ZeroSelectionExits(params, filters, tail);
    } else {
      var e := entries[0];
      var later := Script(entries[1..]) + [Int(0)] + tail;
      assert Script(entries) + [Int(0)] + tail == [Int(e.selection), Text(e.value)] + later;
      ParameterChoiceContinues(params, filters, e.selection, Text(e.value), later);
      CollectScript(params, filters[KeyOf(params, e) := e.value], entries[1..], tail);
    }
  }

  /** A parameter no entry selects keeps its presence and its value. */
  lemma {:induction false} ApplyUntouched(params: seq<SearchParameter>, filters: Filters, entries: seq<Entry>, k: SearchParameter)
    requires AllParameterChoices(params, entries)
    requires forall l :: 0 <= l < |entries| ==> KeyOf(params, entries[l]) != k
    ensures k in Apply(params, filters, entries) <==> k in filters
    ensures k in filters ==> Apply(params, filters, entries)[k] == filters[k]
    decreases |entries|
  {
    if entries != [] {
      assert KeyOf(params, entries[0]) != k;
      ApplyUntouched(params, filters[KeyOf(params, entries[0]) := entries[0].value], entries[1..], k);
    }
  }

  /** Last write wins: the value of the last entry selecting a parameter is the one the store keeps. */
  lemma {:induction false} ApplyLastWriteWins(params: seq<SearchParameter>, filters: Filters, entries: seq<Entry>, j: nat)
    requires IsRegistry(params) && AllParameterChoices(params, entries) && j < |entries|
    requires forall l :: j < l < |entries| ==> entries[l].selection != entries[j].selection
    ensures KeyOf(params, entries[j]) in Apply(params, filters, entries)
    ensures Apply(params, filters, entries)[KeyOf(params, entries[j])] == entries[j].value
    decreases j
  {
    var next := filters[KeyOf(params, entries[0]) := entries[0].value];
    if j == 0 {
      var k := KeyOf(params, entries[0]);
      forall l | 0 <= l < |entries[1..]|
        ensures KeyOf(params, entries[1..][l]) != k
      {
        RegistryDistinct(params, entries[1..][l].selection as nat - 1, entries[0].selection as nat - 1);
      }
      ApplyUntouched(params, next, entries[1..], k);
    } else {
      ApplyLastWriteWins(params, next, entries[1..], j - 1);
    }
  }
}
