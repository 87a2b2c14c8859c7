// Worked runs of the filter-collection loop over a three-parameter registry,
// for any values the user types.
module Scenarios {
  import opened Domain
  import opened FilterLoop

  const Author := SearchParameter(0, "Author")
  const Year := SearchParameter(1, "Year")
  const Language := SearchParameter(2, "Language")

  function Registry(): (params: seq<SearchParameter>)
    ensures IsRegistry(params) && |params| == 3
  {
    [Author, Year, Language]
  }

  /** Choosing a parameter, typing a value, then 0: that value is stored and the loop exits on 0. */
  lemma ChoiceThenZero(params: seq<SearchParameter>, filters: Filters, selection: int32, value: string)
    requires IsParameterChoice(params, selection as int)
    ensures Collect(params, filters, [Int(selection), Text(value), Int(0)])
         == Run(ZeroSelected, filters[params[selection - 1] := value], [])
  {
    assert [Int(selection), Text(value), Int(0)] == [Int(selection), Text(value)] + [Int(0)];
    ParameterChoiceContinues(params, filters, selection, Text(value), [Int(0)]);
    ZeroSelectionExits(params, filters[params[selection - 1] := value], []);
  }

  /** Choosing 1, typing a name, then 0: the store holds that author. */
  lemma AuthorThenZero(name: string)
    ensures Collect(Registry(), map[], [Int(1), Text(name), Int(0)])
         == Run(ZeroSelected, map[Author := name], [])
  {
    ChoiceThenZero(Registry(), map[], 1, name);
  }

  /** 5 is out of range and changes nothing; 2 then a year stores the year. */
  lemma OutOfRangeThenYear(year: string)
    ensures Collect(Registry(), map[], [Int(5), Int(2), Text(year), Int(0)])
         == Run(ZeroSelected, map[Year := year], [])
  {
    var rest := [Int(2), Text(year), Int(0)];
    assert [Int(5), Int(2), Text(year), Int(0)] == [Int(5)] + rest;
    assert Collect(Registry(), map[], rest) == Run(ZeroSelected, map[Year := year], []) by {
      ChoiceThenZero(Registry(), map[], 2, year);
    }
    InvalidSelectionIgnored(Registry(), map[], 5, rest);
  }

  /** A word is discarded with a complaint; 1 then a name is taken as usual. */
  lemma WordThenAuthor(word: string, name: string)
    ensures Collect(Registry(), map[], [Word(word), Int(1), Text(name), Int(0)])
         == Run(ZeroSelected, map[Author := name], [])
  {
    var rest := [Int(1), Text(name), Int(0)];
    assert [Word(word), Int(1), Text(name), Int(0)] == [Word(word)] + rest;
    NonIntegerDiscarded(Registry(), map[], Word(word), rest);
    AuthorThenZero(name);
  }

  /** -1 stops the loop before the entry that follows it is read, and keeps earlier filters. */
  lemma MinusOneStopsEarly(language: string, name: string)
    ensures Collect(Registry(), map[Language := language], [Int(-1), Int(1), Text(name), Int(0)])
         == Run(MinusOneSelected, map[Language := language], [Int(1), Text(name), Int(0)])
  {
  }

  /** Selecting the same parameter twice keeps the second value; the untouched one stays absent. */
  lemma ReselectOverwrites(first: string, name: string, second: string)
    ensures var run := Collect(Registry(), map[], Script([Entry(3, first), Entry(1, name), Entry(3, second)]) + [Int(0)]);
      && run.exit == ZeroSelected
      && run.filters.Keys == {Author, Language}
      && run.filters[Author] == name && run.filters[Language] == second
  {
    var entries := [Entry(3, first), Entry(1, name), Entry(3, second)];
    var result := Apply(Registry(), map[], entries);
    assert Collect(Registry(), map[], Script(entries) + [Int(0)]) == Run(ZeroSelected, result, []) by {
      CollectScript(Registry(), map[], entries, []);
      assert Script(entries) + [Int(0)] + [] == Script(entries) + [Int(0)];
    }
    assert KeyOf(Registry(), entries[0]) == Language && KeyOf(Registry(), entries[1]) == Author;
    assert KeyOf(Registry(), entries[2]) == Language;
    assert Author in result && result[Author] == name by {
      ApplyLastWriteWins(Registry(), map[], entries, 1);
    }
    assert Language in result && result[Language] == second by {
      ApplyLastWriteWins(Registry(), map[], entries, 2);
    }
    forall k | k in result ensures k == Author || k == Language {
      if k != Author && k != Language {
        ApplyUntouched(Registry(), map[], entries, k);
      }
    }
  }
}
