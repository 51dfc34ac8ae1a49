/**
 * The Pokédex page: the list narrowed by a type select and a name search, and the
 * state cells the filter effect and the click handlers rewrite.
 */
module Pokedex {
  import opened Wrappers
  import opened Text
  import opened Seqs

  datatype Stat = Stat(name: string, baseStat: int)

  /** A Pokémon as the page uses it: its type names in order, its sprite and its base stats. */
  datatype Pokemon = Pokemon(id: int, name: string, sprite: string, types: seq<string>, stats: seq<Stat>)

  /** `pokemon.types.some(t => t.type.name === typeName)`: an exact, case-sensitive match. */
  predicate HasType(p: Pokemon, typeName: string) {
    typeName in p.types
  }

  /** `pokemon.name.toLowerCase().includes(term.toLowerCase())`; the term is not trimmed. */
  predicate NameMatches(p: Pokemon, term: string) {
    Contains(ToLower(p.name), ToLower(term))
  }

  /** What the two filter passes test together; an empty type or term tests nothing. */
  predicate Passes(p: Pokemon, searchTerm: string, selectedType: string) {
    (selectedType == "" || HasType(p, selectedType)) && (searchTerm == "" || NameMatches(p, searchTerm))
  }

  /** The type pass. */
  function ByType(s: seq<Pokemon>, typeName: string): seq<Pokemon> {
    Filter(s, p => HasType(p, typeName))
  }

  /** The name pass. */
  function ByName(s: seq<Pokemon>, term: string): seq<Pokemon> {
    Filter(s, p => NameMatches(p, term))
  }

  /** The filter effect's computation: first by type, when one is selected, then by name, when a term is typed. */
  function FilterPokemon(all: seq<Pokemon>, searchTerm: string, selectedType: string): seq<Pokemon> {
    var byType := if selectedType != "" then ByType(all, selectedType) else all;
    if searchTerm != "" then ByName(byType, searchTerm) else byType
  }

  /** The result keeps the page's order and only drops entries. */
  lemma FilterPokemonIsSubsequence(all: seq<Pokemon>, searchTerm: string, selectedType: string)
    ensures IsSubsequence(FilterPokemon(all, searchTerm, selectedType), all)
  {
    var byType := if selectedType != "" then ByType(all, selectedType) else all;
    if selectedType != "" {
      FilterIsSubsequence(all, p => HasType(p, selectedType));
    } else {
      SubsequenceOfItself(all);
    }
    if searchTerm != "" {
      FilterIsSubsequence(byType, p => NameMatches(p, searchTerm));
      SubsequenceTransitive(Filter(byType, p => NameMatches(p, searchTerm)), byType, all);
    }
  }

  /** Soundness and completeness: a listed Pokémon is shown exactly when it passes both tests. */
  lemma FilterPokemonIff(all: seq<Pokemon>, searchTerm: string, selectedType: string)
    ensures forall p :: p in FilterPokemon(all, searchTerm, selectedType) ==> p in all && Passes(p, searchTerm, selectedType)
    ensures forall p :: p in all && Passes(p, searchTerm, selectedType) ==> p in FilterPokemon(all, searchTerm, selectedType)
  {
  }

  /** Two passes in a row are one pass with both tests. */
  lemma FilterPokemonIsOnePass(all: seq<Pokemon>, searchTerm: string, selectedType: string)
    ensures FilterPokemon(all, searchTerm, selectedType) == Filter(all, p => Passes(p, searchTerm, selectedType))
  {
    var passes := p => Passes(p, searchTerm, selectedType);
    if selectedType != "" && searchTerm != "" {
      FilterTwice(all, p => HasType(p, selectedType), p => NameMatches(p, searchTerm), passes);
    } else if selectedType != "" {
      FilterSame(all, p => HasType(p, selectedType), passes);
    } else if searchTerm != "" {
      FilterSame(all, p => NameMatches(p, searchTerm), passes);
    } else {
      FilterAllPass(all, passes);
    }
  }

  /** Filtering by two tests that agree everywhere gives the same result. */
  lemma {:induction false} FilterSame<T>(s: seq<T>, p: T -> bool, q: T -> bool)
    requires forall x :: p(x) == q(x)
    ensures Filter(s, p) == Filter(s, q)
  {
    if s != [] {
      FilterSame(s[1..], p, q);
    }
  }

  /** With no type selected and no term typed, every Pokémon is shown. */
  lemma NoFiltersShowsAll(all: seq<Pokemon>)
    ensures FilterPokemon(all, "", "") == all
  {
  }

  lemma {:induction false} SubsequenceOfItself<T>(s: seq<T>)
    ensures IsSubsequence(s, s)
  {
    if s != [] {
      SubsequenceOfItself(s[1..]);
    }
  }

  lemma {:induction false} SubsequenceTransitive<T>(a: seq<T>, b: seq<T>, c: seq<T>)
    requires IsSubsequence(a, b) && IsSubsequence(b, c)
    ensures IsSubsequence(a, c)
    decreases |c|
  {
    if a != [] && c != [] {
      if b[0] == c[0] && IsSubsequence(b[1..], c[1..]) {
        if a[0] == b[0] && IsSubsequence(a[1..], b[1..]) {
          SubsequenceTransitive(a[1..], b[1..], c[1..]);
        } else {
          SubsequenceTransitive(a, b[1..], c[1..]);
        }
      } else {
        SubsequenceTransitive(a, b, c[1..]);
      }
    }
  }

  /** The page's state cells. */
  class PokedexPage {
    var allPokemon: seq<Pokemon>
    var searchTerm: string
    var selectedType: string
    var filteredPokemon: seq<Pokemon>
    var selectedPokemon: Option<Pokemon>

    /** The shown list always matches the list, the term and the type. */
    ghost predicate Valid()
      reads this
    {
      filteredPokemon == FilterPokemon(allPokemon, searchTerm, selectedType)
    }

    constructor ()
      ensures Valid()
      ensures allPokemon == [] && searchTerm == "" && selectedType == ""
      ensures filteredPokemon == [] && selectedPokemon == None
    {
      allPokemon := [];
      searchTerm := "";
      selectedType := "";
      filteredPokemon := [];
      selectedPokemon := None;
    }

    /** The filter effect: the working list is narrowed pass by pass, then shown, and the selection cleared. */
    method Refilter()
      modifies this
      ensures Valid() && selectedPokemon == None
      ensures allPokemon == old(allPokemon) && searchTerm == old(searchTerm) && selectedType == old(selectedType)
    {
      var pokemonToFilter := allPokemon;
      if selectedType != "" {
        pokemonToFilter := ByType(pokemonToFilter, selectedType);
      }
      if searchTerm != "" {
        pokemonToFilter := ByName(pokemonToFilter, searchTerm);
      }
      filteredPokemon := pokemonToFilter;
      selectedPokemon := None;
    }

    /** The details have loaded: a new list, so the effect runs. */
    method LoadAll(pokemon: seq<Pokemon>)
      modifies this
      ensures Valid() && allPokemon == pokemon && selectedPokemon == None
      ensures searchTerm == old(searchTerm) && selectedType == old(selectedType)
    {
      allPokemon := pokemon;
      Refilter();
    }

    /** The search bar; the effect runs only when the term changed, and only then is the selection cleared. */
    method SetSearchTerm(term: string)
      requires Valid()
      modifies this
      ensures Valid() && searchTerm == term
      ensures allPokemon == old(allPokemon) && selectedType == old(selectedType)
      ensures selectedPokemon == if term == old(searchTerm) then old(selectedPokemon) else None
    {
      if term != searchTerm {
        searchTerm := term;
        Refilter();
      }
    }

    /** The type select; the effect runs only when the type changed. */
    method SetSelectedType(typeName: string)
      requires Valid()
      modifies this
      ensures Valid() && selectedType == typeName
      ensures allPokemon == old(allPokemon) && searchTerm == old(searchTerm)
      ensures selectedPokemon == if typeName == old(selectedType) then old(selectedPokemon) else None
    {
      if typeName != selectedType {
        selectedType := typeName;
        Refilter();
      }
    }

    /** `handlePokemonClick`: the clicked Pokémon is shown in detail. */
    method Click(p: Pokemon)
      requires Valid()
      modifies this
      ensures Valid() && selectedPokemon == Some(p)
      ensures allPokemon == old(allPokemon) && filteredPokemon == old(filteredPokemon)
      ensures searchTerm == old(searchTerm) && selectedType == old(selectedType)
    {
      selectedPokemon := Some(p);
    }

    /** `handleBackClick`: back to the list. */
    method Back()
      requires Valid()
      modifies this
      ensures Valid() && selectedPokemon == None
      ensures allPokemon == old(allPokemon) && filteredPokemon == old(filteredPokemon)
      ensures searchTerm == old(searchTerm) && selectedType == old(selectedType)
    {
      selectedPokemon := None;
    }
  }
}
