/**
 * The ingredient picker of the recipe finder: a text field and the list of chosen
 * ingredients, changed by the add, remove and key handlers, and the search button
 * that hands the list on.
 */
module IngredientInput {
  import opened Wrappers
  import opened Text

  /** Lower-casing leaves whitespace and non-whitespace alike. */
  lemma LowerCharKeepsWhitespace(c: char)
    ensures IsWhitespace(LowerChar(c)) <==> IsWhitespace(c)
  {
  }

  /** Lower-casing keeps whether a string starts or ends with whitespace. */
  lemma ToLowerKeepsEnds(t: string)
    ensures t != [] ==> (IsWhitespace(ToLower(t)[0]) <==> IsWhitespace(t[0]))
    ensures t != [] ==> (IsWhitespace(ToLower(t)[|t| - 1]) <==> IsWhitespace(t[|t| - 1]))
  {
    if t != [] {
      LowerCharKeepsWhitespace(t[0]);
      LowerCharKeepsWhitespace(t[|t| - 1]);
    }
  }

  /** The entry that typed text becomes: trimmed, then lower-cased. */
  function Normalize(text: string): (e: string)
    ensures e == ToLower(Trim(text)) && |e| == |Trim(text)|
    ensures IsLowerCase(e)
    ensures e == [] <==> HasOnlyWhitespace(text)
    ensures e != [] ==> !IsWhitespace(e[0]) && !IsWhitespace(e[|e| - 1])
  {
    var t := Trim(text);
    TrimEmptyIff(text);
    ToLowerIdempotent(t);
    ToLowerKeepsEnds(t);
    ToLower(t)
  }

  /** What an entry of the list looks like: non-empty, lower-case, with no surrounding whitespace. */
  predicate IsEntry(e: string) {
    e != [] && IsLowerCase(e) && !IsWhitespace(e[0]) && !IsWhitespace(e[|e| - 1])
  }

  predicate Distinct(s: seq<string>) {
    forall i, j :: 0 <= i < j < |s| ==> s[i] != s[j]
  }

  /** `s.filter((_, i) => i !== index)`: drops the element at `index`, if there is one. */
  function RemoveAt<T>(s: seq<T>, index: int): (r: seq<T>)
    ensures 0 <= index < |s| ==> |r| == |s| - 1
    ensures 0 <= index < |s| ==> forall j :: 0 <= j < index ==> r[j] == s[j]
    ensures 0 <= index < |s| ==> forall j :: index <= j < |r| ==> r[j] == s[j + 1]
    ensures !(0 <= index < |s|) ==> r == s
  {
    if 0 <= index < |s| then s[..index] + s[index + 1..] else s
  }

  /** Text that is not blank normalizes to an entry. */
  lemma NormalizeIsEntry(text: string, e: string)
    requires e == Normalize(text) && e != []
    ensures IsEntry(e)
  {
  }

  /** An entry normalizes to itself, so typing an entry again finds it in the list. */
  lemma NormalizeEntry(e: string)
    requires IsEntry(e)
    ensures Normalize(e) == e
  {
    assert TrimStart(e) == e;
    assert TrimEnd(e) == e;
  }

  /** Normalizing twice is normalizing once. */
  lemma NormalizeIdempotent(text: string)
    ensures Normalize(Normalize(text)) == Normalize(text)
  {
    var e := Normalize(text);
    if e != [] {
      NormalizeEntry(e);
    }
  }

  /** Removing the entry just appended gives back the list before it. */
  lemma RemoveAppended<T>(s: seq<T>, x: T)
    ensures RemoveAt(s + [x], |s|) == s
  {
  }

  /** Removing from a list of distinct entries keeps them distinct, and removes only the one. */
  lemma {:induction false} RemoveKeepsDistinct(s: seq<string>, index: int)
    requires Distinct(s)
    ensures Distinct(RemoveAt(s, index))
    ensures forall e :: e in RemoveAt(s, index) ==> e in s
    ensures 0 <= index < |s| ==> s[index] !in RemoveAt(s, index)
  {
    var r := RemoveAt(s, index);
    if 0 <= index < |s| {
      forall i, j | 0 <= i < j < |r|
        ensures r[i] != r[j]
      {
        var i' := if i < index then i else i + 1;
        var j' := if j < index then j else j + 1;
        assert r[i] == s[i'] && r[j] == s[j'];
      }
      forall e | e in r
        ensures e in s
      {
        var k :| 0 <= k < |r| && r[k] == e;
        assert e == s[if k < index then k else k + 1];
      }
    }
  }

  /** Appending an entry that is not in a list of distinct entries keeps them distinct. */
  lemma AppendKeepsDistinct(s: seq<string>, e: string)
    requires Distinct(s) && e !in s
    ensures Distinct(s + [e])
  {
  }

  /** The chosen list: distinct entries. */
  predicate IsEntryList(s: seq<string>) {
    Distinct(s) && forall i :: 0 <= i < |s| ==> IsEntry(s[i])
  }

  /** Appending a new entry keeps a list of distinct entries. */
  lemma AppendKeepsEntryList(s: seq<string>, e: string)
    requires IsEntryList(s) && IsEntry(e) && e !in s
    ensures IsEntryList(s + [e])
  {
    AppendKeepsDistinct(s, e);
    assert forall i :: 0 <= i < |s| ==> (s + [e])[i] == s[i];
  }

  /** Removing by index keeps a list of distinct entries. */
  lemma RemoveKeepsEntryList(s: seq<string>, index: int)
    requires IsEntryList(s)
    ensures IsEntryList(RemoveAt(s, index))
  {
    RemoveKeepsDistinct(s, index);
    var r := RemoveAt(s, index);
    forall i | 0 <= i < |r|
      ensures IsEntry(r[i])
    {
      assert r[i] in s;
    }
  }

  class IngredientForm {
    /** The text field. */
    var input: string
    /** The chosen ingredients, in the order they were added. */
    var ingredients: seq<string>

    ghost predicate Valid()
      reads this
    {
      IsEntryList(ingredients)
    }

    constructor ()
      ensures input == "" && ingredients == [] && Valid()
    {
      input := "";
      ingredients := [];
    }

    /** The field's change handler. */
    method SetInput(text: string)
      modifies this
      ensures input == text && ingredients == old(ingredients)
    {
      input := text;
    }

    /**
     * `handleAddIngredient`: text that is blank after trimming, or whose entry is
     * already chosen, changes nothing; otherwise the entry is appended and the field cleared.
     */
    method AddIngredient()
      requires Valid()
      modifies this
      ensures Valid()
      ensures var e := Normalize(old(input));
        if e != [] && e !in old(ingredients) then ingredients == old(ingredients) + [e] && input == ""
        else ingredients == old(ingredients) && input == old(input)
    {
      var entry := Normalize(input);
      if entry != [] && entry !in ingredients {
        NormalizeIsEntry(input, entry);
        AppendKeepsEntryList(ingredients, entry);
        ingredients := ingredients + [entry];
        input := "";
      }
    }

    /** `handleRemoveIngredient(index)`: the field is left alone. */
    method RemoveIngredient(index: int)
      requires Valid()
      modifies this
      ensures Valid()
      ensures ingredients == RemoveAt(old(ingredients), index) && input == old(input)
    {
      RemoveKeepsEntryList(ingredients, index);
      ingredients := RemoveAt(ingredients, index);
    }

    /** `handleSearch`: the list is handed on only when it is not empty. */
    method Search() returns (handedOn: Option<seq<string>>)
      ensures handedOn.Some? <==> |ingredients| > 0
      ensures handedOn.Some? ==> handedOn.value == ingredients
    {
      if |ingredients| > 0 {
        handedOn := Some(ingredients);
      } else {
        handedOn := None;
      }
    }

    /** `handleKeyPress`: Enter adds, every other key changes nothing. */
    method KeyPress(key: string)
      requires Valid()
      modifies this
      ensures Valid()
      ensures key != "Enter" ==> ingredients == old(ingredients) && input == old(input)
      ensures key == "Enter" ==> var e := Normalize(old(input));
        if e != [] && e !in old(ingredients) then ingredients == old(ingredients) + [e] && input == ""
        else ingredients == old(ingredients) && input == old(input)
    {
      if key == "Enter" {
        AddIngredient();
      }
    }
  }
}
