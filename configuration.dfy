/** The deck configuration of cli/src/config.rs: for each deck, which of its note fields hold the
    headword, the reading and the definition. */
module Configuration {
  import opened Types

  datatype DeckConfig = DeckConfig(name: string, wordField: string, furiganaField: string, defField: string)

  /** Whether some deck in the list is called `name`. */
  predicate HasDeck(decks: seq<DeckConfig>, name: string)
  {
    exists i :: 0 <= i < |decks| && decks[i].name == name
  }

  ghost predicate DistinctNames(decks: seq<DeckConfig>)
  {
    forall i, j :: 0 <= i < j < |decks| ==> decks[i].name != decks[j].name
  }

  /** The deck list after `add_deck`: unchanged when the name is taken, otherwise one entry appended. */
  function WithDeck(decks: seq<DeckConfig>, name: string, wordField: string, defField: string, furiganaField: string)
    : seq<DeckConfig>
  {
    if HasDeck(decks, name) then decks else decks + [DeckConfig(name, wordField, furiganaField, defField)]
  }

  /** `add_deck` keeps deck names pairwise distinct, never reorders or edits the entries already
      there, and afterwards the name is present. */
  lemma WithDeckKeepsNamesDistinct(decks: seq<DeckConfig>, name: string, wordField: string, defField: string, furiganaField: string)
    requires DistinctNames(decks)
    ensures var r := WithDeck(decks, name, wordField, defField, furiganaField);
      && DistinctNames(r)
      && HasDeck(r, name)
      && |decks| <= |r| <= |decks| + 1
      && r[..|decks|] == decks
  {
    var r := WithDeck(decks, name, wordField, defField, furiganaField);
    if !HasDeck(decks, name) {
      assert r[|decks|].name == name;
    }
  }

  /** A new name gets exactly one entry, at the end, carrying the given field names. */
  lemma WithDeckNew(decks: seq<DeckConfig>, name: string, wordField: string, defField: string, furiganaField: string)
    requires !HasDeck(decks, name)
    ensures var r := WithDeck(decks, name, wordField, defField, furiganaField);
      |r| == |decks| + 1 && r[|decks|] == DeckConfig(name, wordField, furiganaField, defField)
  {
  }

  /** `decks.into_iter().find(|deck| deck.name == selection)`: the first deck with that name. */
  function FindDeck(decks: seq<DeckConfig>, name: string): (r: Option<DeckConfig>)
    ensures r.Some? <==> HasDeck(decks, name)
    ensures r.Some? ==> exists i :: 0 <= i < |decks| && decks[i] == r.value && r.value.name == name &&
                                  forall j :: 0 <= j < i ==> decks[j].name != name
  {
    if |decks| == 0 then None
    else if decks[0].name == name then Some(decks[0])
    else
      var r := FindDeck(decks[1..], name);
      assert HasDeck(decks[1..], name) ==> HasDeck(decks, name) by {
        if HasDeck(decks[1..], name) {
          var i :| 0 <= i < |decks[1..]| && decks[1..][i].name == name;
          assert decks[i + 1].name == name;
        }
      }
      assert HasDeck(decks, name) ==> HasDeck(decks[1..], name) by {
        if HasDeck(decks, name) {
          var i :| 0 <= i < |decks| && decks[i].name == name;
          assert i != 0 && decks[1..][i - 1].name == name;
        }
      }
      if r.Some? then
        var i :| 0 <= i < |decks[1..]| && decks[1..][i] == r.value && r.value.name == name
          && forall j :: 0 <= j < i ==> decks[1..][j].name != name;
        assert decks[i + 1] == r.value;
        assert forall j :: 0 <= j < i + 1 ==> decks[j].name != name by {
          forall j | 0 <= j < i + 1 ensures decks[j].name != name {
            if j > 0 { assert decks[j] == decks[1..][j - 1]; }
          }
        }
        r
      else r
  }

  /** The configuration file's contents. */
  class Config {
    var decks: seq<DeckConfig>

    /** The configuration `read_config` writes and returns when no file exists yet. */
    constructor ()
      ensures decks == []
    {
      decks := [];
    }

    /** `add_deck`, without the JSON file write that follows. */
    method AddDeck(name: string, wordField: string, defField: string, furiganaField: string)
      modifies this
      ensures decks == WithDeck(old(decks), name, wordField, defField, furiganaField)
      ensures HasDeck(old(decks), name) ==> decks == old(decks)
      ensures !HasDeck(old(decks), name) ==> decks == old(decks) + [DeckConfig(name, wordField, furiganaField, defField)]
    {
      if HasDeck(decks, name) {
        return;
      }
      decks := decks + [DeckConfig(name, wordField, furiganaField, defField)];
    }
  }
}
