/** The deck sync of cli/src/main.rs (`anki_sync`, from the configured field mapping on) and the
    level-ordered listing of `get_db_kanji`. The remote cards arrive as an input sequence. */
module Sync {
  import opened Types
  import opened Kanji
  import opened Db
  import opened Cards
  import opened Words
  import opened Configuration

  /** A note field of a remote card: its text and display position. */
  datatype Field = Field(value: string, order: u8)

  /** A remote card as the sync reads it: id, review interval in days, and fields by name. */
  datatype CardContent = CardContent(cardId: u64, interval: u16, fields: map<string, Field>)

  /** The names of the fields holding the headword, definition and reading. */
  datatype FieldNames = FieldNames(word: string, def: string, furigana: string)

  datatype SyncError = MissingField

  /** The leading run of kanji of a word: scanning stops at the first character that is not one. */
  function LeadingKanji(w: string): (r: string)
    ensures |r| <= |w| && r == w[..|r|]
    ensures forall i :: 0 <= i < |r| ==> IsKanji(r[i])
    ensures |r| < |w| ==> !IsKanji(w[|r|])
  {
    if |w| == 0 || !IsKanji(w[0]) then [] else [w[0]] + LeadingKanji(w[1..])
  }

  /** A prefix made of kanji and followed by a non-kanji (or by nothing) is the leading run. */
  lemma LeadingKanjiUnique(w: string, j: nat)
    requires j <= |w|
    requires forall i :: 0 <= i < j ==> IsKanji(w[i])
    requires j < |w| ==> !IsKanji(w[j])
    ensures LeadingKanji(w) == w[..j]
  {
  }

  /** "食べる" yields only 食, "本" yields 本, a word starting with kana yields nothing. */
  lemma LeadingKanjiExamples()
    ensures LeadingKanji("食べる") == "食"
    ensures LeadingKanji("本") == "本"
    ensures LeadingKanji("にほん") == ""
  {
    LeadingKanjiUnique("食べる", 1);
    LeadingKanjiUnique("本", 1);
    LeadingKanjiUnique("にほん", 0);
  }

  /** The three mapped fields of a card are all present. */
  predicate HasFields(card: CardContent, names: FieldNames)
  {
    names.word in card.fields && names.def in card.fields && names.furigana in card.fields
  }

  /** The index of the first card missing a mapped field, or the number of cards if none does. */
  function FirstMissing(cards: seq<CardContent>, names: FieldNames): (n: nat)
    ensures n <= |cards|
    ensures forall i :: 0 <= i < n ==> HasFields(cards[i], names)
    ensures n < |cards| ==> !HasFields(cards[n], names)
  {
    if |cards| == 0 || !HasFields(cards[0], names) then 0 else 1 + FirstMissing(cards[1..], names)
  }

  /** The field names used by the sync: the first configured deck with the selected name, or else
      the fields the user picks (which are then saved). */
  function FieldsFor(decks: seq<DeckConfig>, selection: string, chosen: FieldNames): FieldNames
  {
    match FindDeck(decks, selection)
    case Some(d) => FieldNames(d.wordField, d.defField, d.furiganaField)
    case None => chosen
  }

  /** The three tables the sync writes, with the card manager's counter. */
  datatype Tables = Tables(kanji: map<char, u8>, store: Store, words: map<u64, Word>)

  /** One kanji of a word: `add_kanji(k, level)` then `create_card` with a fresh card. */
  function KanjiStep(t: Tables, k: char, level: u8, initial: Card, codes: Codes): Tables
  {
    Tables(WithKanji(t.kanji, k, level), Created(t.store, KanjiSrs(k, initial), codes), t.words)
  }

  /** The kanji of `run`, in order. */
  function KanjiRun(t: Tables, run: string, level: u8, initial: Card, codes: Codes): Tables
    decreases |run|
  {
    if |run| == 0 then t
    else KanjiStep(KanjiRun(t, run[..|run| - 1], level, initial, codes), run[|run| - 1], level, initial, codes)
  }

  /** One card: its word record is upserted, then its leading kanji are recorded. */
  function CardStep(t: Tables, card: CardContent, names: FieldNames, initial: Card, codes: Codes): Tables
    requires HasFields(card, names)
  {
    var word := card.fields[names.word].value;
    var w := Word(word, card.fields[names.def].value, card.fields[names.furigana].value);
    KanjiRun(Tables(t.kanji, t.store, t.words[card.cardId := w]), LeadingKanji(word),
             RecommendedLevel(card.interval), initial, codes)
  }

  /** The cards, in order. */
  function CardsRun(t: Tables, cards: seq<CardContent>, names: FieldNames, initial: Card, codes: Codes): Tables
    requires forall i :: 0 <= i < |cards| ==> HasFields(cards[i], names)
    decreases |cards|
  {
    if |cards| == 0 then t
    else CardStep(CardsRun(t, cards[..|cards| - 1], names, initial, codes), cards[|cards| - 1], names, initial, codes)
  }

  /** The number of kanji the sync records for the cards: the lengths of their leading runs. */
  function KanjiTotal(cards: seq<CardContent>, names: FieldNames): nat
    requires forall i :: 0 <= i < |cards| ==> HasFields(cards[i], names)
  {
    if |cards| == 0 then 0
    else
      assert HasFields(cards[|cards| - 1], names);
      KanjiTotal(cards[..|cards| - 1], names) + |LeadingKanji(cards[|cards| - 1].fields[names.word].value)|
  }

  ghost predicate TablesValid(t: Tables)
  {
    OnlyKanji(t.kanji) && StoreValid(t.store)
  }

  /** `r` extends `t`: same words, every stored kanji still stored at the same level or higher,
      and every SRS row still there unchanged. */
  ghost predicate Extends(t: Tables, r: Tables)
  {
    && r.words == t.words
    && (forall k :: k in t.kanji ==> k in r.kanji && r.kanji[k] >= t.kanji[k])
    && (forall k :: k in t.store.srs ==> k in r.store.srs && r.store.srs[k] == t.store.srs[k])
  }

  lemma ExtendsTransitive(a: Tables, b: Tables, c: Tables)
    requires Extends(a, b) && Extends(b, c)
    ensures Extends(a, c)
  {
  }

  /** What one kanji does to the tables: it is recorded at `level` or above and has an SRS row,
      the tables are extended, only it is added to the kanji table, the counter moves by one and
      the invariants are kept. */
  lemma KanjiStepEffect(t: Tables, k: char, level: u8, initial: Card, codes: Codes)
    requires TablesValid(t) && IsKanji(k)
    ensures var r := KanjiStep(t, k, level, initial, codes);
      && TablesValid(r)
      && Extends(t, r)
      && r.store.nextId == t.store.nextId + 1
      && k in r.kanji && r.kanji[k] >= level && k in r.store.srs
      && (forall j :: j in r.kanji ==> j in t.kanji || j == k)
  {
    CreatedValid(t.store, KanjiSrs(k, initial), codes);
    if k !in t.store.srs {
      CreatedNew(t.store, KanjiSrs(k, initial), codes);
    }
  }

  /** What a run of kanji does to the tables: each kanji is recorded at `level` or above and has an
      SRS row, no stored level drops, no SRS row changes, the counter moves by the run's length,
      the words are untouched and the invariants are kept. */
  lemma {:induction false} KanjiRunEffect(t: Tables, run: string, level: u8, initial: Card, codes: Codes)
    requires TablesValid(t)
    requires forall i :: 0 <= i < |run| ==> IsKanji(run[i])
    ensures var r := KanjiRun(t, run, level, initial, codes);
      && TablesValid(r)
      && Extends(t, r)
      && r.store.nextId == t.store.nextId + |run|
      && (forall i :: 0 <= i < |run| ==> run[i] in r.kanji && r.kanji[run[i]] >= level && run[i] in r.store.srs)
      && (forall k :: k in r.kanji ==> k in t.kanji || k in run)
    decreases |run|
  {
    if |run| > 0 {
      var init := run[..|run| - 1];
      var k := run[|run| - 1];
      assert forall i :: 0 <= i < |init| ==> init[i] == run[i];
      KanjiRunEffect(t, init, level, initial, codes);
      var m := KanjiRun(t, init, level, initial, codes);
      KanjiStepEffect(m, k, level, initial, codes);
      var r := KanjiRun(t, run, level, initial, codes);
      assert r == KanjiStep(m, k, level, initial, codes);
      ExtendsTransitive(t, m, r);
      forall i | 0 <= i < |run|
        ensures run[i] in r.kanji && r.kanji[run[i]] >= level && run[i] in r.store.srs
      {
        if i < |run| - 1 {
          assert run[i] == init[i];
        }
      }
      forall j | j in r.kanji
        ensures j in t.kanji || j in run
      {
        if j != k && j !in t.kanji {
          var i :| 0 <= i < |init| && init[i] == j;
          assert run[i] == j;
        }
      }
    }
  }

  /** What a whole successful sync does to the tables: every leading kanji of every card is
      recorded at least at its card's tier and has an SRS row, every card's word record exists,
      no stored level drops, no existing SRS row changes, and the counter moves by the number of
      kanji processed. */
  lemma {:induction false} CardsRunEffect(t: Tables, cards: seq<CardContent>, names: FieldNames, initial: Card, codes: Codes)
    requires TablesValid(t)
    requires forall i :: 0 <= i < |cards| ==> HasFields(cards[i], names)
    ensures var r := CardsRun(t, cards, names, initial, codes);
      && TablesValid(r)
      && r.store.nextId == t.store.nextId + KanjiTotal(cards, names)
      && (forall i, j :: 0 <= i < |cards| && 0 <= j < |LeadingKanji(cards[i].fields[names.word].value)| ==>
            var k := LeadingKanji(cards[i].fields[names.word].value)[j];
            k in r.kanji && r.kanji[k] >= RecommendedLevel(cards[i].interval) && k in r.store.srs)
      && (forall i :: 0 <= i < |cards| ==> cards[i].cardId in r.words)
      && (forall k :: k in t.kanji ==> k in r.kanji && r.kanji[k] >= t.kanji[k])
      && (forall k :: k in t.store.srs ==> k in r.store.srs && r.store.srs[k] == t.store.srs[k])
    decreases |cards|
  {
    if |cards| > 0 {
      var init := cards[..|cards| - 1];
      var c := cards[|cards| - 1];
      CardsRunEffect(t, init, names, initial, codes);
      var m := CardsRun(t, init, names, initial, codes);
      var word := c.fields[names.word].value;
      var mw := Tables(m.kanji, m.store, m.words[c.cardId := Word(word, c.fields[names.def].value, c.fields[names.furigana].value)]);
      KanjiRunEffect(mw, LeadingKanji(word), RecommendedLevel(c.interval), initial, codes);
      var r := CardsRun(t, cards, names, initial, codes);
      forall i, j | 0 <= i < |cards| && 0 <= j < |LeadingKanji(cards[i].fields[names.word].value)|
        ensures var k := LeadingKanji(cards[i].fields[names.word].value)[j];
          k in r.kanji && r.kanji[k] >= RecommendedLevel(cards[i].interval) && k in r.store.srs
      {
        if i < |cards| - 1 {
          assert cards[i] == init[i];
        }
      }
      forall i | 0 <= i < |cards|
        ensures cards[i].cardId in r.words
      {
        if i < |cards| - 1 {
          assert cards[i] == init[i];
        }
      }
    }
  }

  /** Syncing one card with word 本, definition "book", reading ほん and interval 120 into empty
      tables records 本 at level 3, one SRS row for 本 with id 1 holding the fresh card, and one
      word record. */
  lemma SyncOneCardExample(id: u64, names: FieldNames, initial: Card, codes: Codes)
    requires names.word != names.def && names.word != names.furigana && names.def != names.furigana
    ensures var card := CardContent(id, 120, map[names.word := Field("本", 0), names.def := Field("book", 1),
                                                 names.furigana := Field("ほん", 2)]);
      && HasFields(card, names)
      && var r := CardsRun(Tables(map[], Store(map[], map[], 1), map[]), [card], names, initial, codes);
      && r.kanji == map['本' := 3]
      && r.store.srs == map['本' := EncodeCard(1, initial, codes)]
      && r.store.nextId == 2
      && r.words == map[id := Word("本", "book", "ほん")]
  {
    var card := CardContent(id, 120, map[names.word := Field("本", 0), names.def := Field("book", 1),
                                         names.furigana := Field("ほん", 2)]);
    LeadingKanjiUnique("本", 1);
    assert IsKanji('本');
    var t := Tables(map[], Store(map[], map[], 1), map[]);
    assert [card][..0] == [];
    assert CardsRun(t, [card], names, initial, codes) == CardStep(t, card, names, initial, codes);
    var t1 := Tables(map[], Store(map[], map[], 1), map[id := Word("本", "book", "ほん")]);
    assert "本"[..0] == [];
    assert CardStep(t, card, names, initial, codes) == KanjiRun(t1, "本", 3, initial, codes);
    assert KanjiRun(t1, "本", 3, initial, codes) == KanjiStep(t1, '本', 3, initial, codes);
    assert !IdTaken(map[], 1);
  }

  ghost function TablesOf(db: KanjiTable, manager: CardManager, words: WordManager): Tables
    reads db, manager, words
  {
    Tables(db.rows, manager.Snapshot(), words.words)
  }

  /** `anki_sync` from the field mapping on. The managers are the ones the source opens at lines
      266 and 267; `chosen` stands for the fields the user would pick in the menu. On success the
      result is the reported count of synced cards. */
  method AnkiSync(selection: string, cards: seq<CardContent>, chosen: FieldNames, initial: Card,
                  config: Config, db: KanjiTable, manager: CardManager, wordManager: WordManager)
    returns (r: Result<nat, SyncError>)
    requires db.Valid() && manager.Valid()
    requires FindDeck(config.decks, selection).Some? || |cards| > 0
    modifies config, db, manager, wordManager
    ensures db.Valid() && manager.Valid()
    ensures config.decks == if FindDeck(old(config.decks), selection).Some? then old(config.decks)
                            else WithDeck(old(config.decks), selection, chosen.word, chosen.def, chosen.furigana)
    ensures var names := FieldsFor(old(config.decks), selection, chosen);
      var n := FirstMissing(cards, names);
      && TablesOf(db, manager, wordManager) == CardsRun(old(TablesOf(db, manager, wordManager)), cards[..n], names, initial, manager.codes)
      && (r.Ok? <==> n == |cards|)
      && (r.Ok? ==> r.value == |cards|)
  {
    ghost var t0 := TablesOf(db, manager, wordManager);
    var names := ResolveFields(selection, chosen, config);
    ghost var decks := config.decks;
    var skipped := 0;
    var n := 0;
    while n < |cards|
      invariant n <= |cards|
      invariant db.Valid() && manager.Valid()
      invariant forall i :: 0 <= i < n ==> HasFields(cards[i], names)
      invariant TablesOf(db, manager, wordManager) == CardsRun(t0, cards[..n], names, initial, manager.codes)
      invariant skipped == 0
      invariant config.decks == decks
    {
      var result := SyncCard(cards[n], names, initial, db, manager, wordManager);
      if result.Err? {
        FirstMissingAt(cards, names, n);
        return Err(MissingField);
      }
      skipped := skipped + result.value;
      CardsRunSnoc(t0, cards, n, names, initial, manager.codes);
      n := n + 1;
    }
    assert cards[..n] == cards;
    FirstMissingAt(cards, names, n);
    r := Ok(|cards| - skipped);
  }

  /** A position before which every card has its fields, and at which the cards end or a card
      lacks one, is the first missing one. */
  lemma FirstMissingAt(cards: seq<CardContent>, names: FieldNames, n: nat)
    requires n <= |cards|
    requires forall i :: 0 <= i < n ==> HasFields(cards[i], names)
    requires n < |cards| ==> !HasFields(cards[n], names)
    ensures FirstMissing(cards, names) == n
  {
  }

  /** One pass of the card loop: the three mapped fields are looked up; if one is missing the sync
      fails before touching the tables, otherwise the word record is upserted and the leading kanji
      recorded. The result counts the card as skipped when it has no word, which cannot happen
      once all three fields are present. */
  method SyncCard(card: CardContent, names: FieldNames, initial: Card,
                  db: KanjiTable, manager: CardManager, wordManager: WordManager)
    returns (r: Result<nat, SyncError>)
    requires db.Valid() && manager.Valid()
    modifies db, manager, wordManager
    ensures db.Valid() && manager.Valid()
    ensures r.Ok? <==> HasFields(card, names)
    ensures r.Ok? ==> r.value == 0
    ensures r.Ok? ==>
      TablesOf(db, manager, wordManager) == CardStep(old(TablesOf(db, manager, wordManager)), card, names, initial, manager.codes)
    ensures r.Err? ==> TablesOf(db, manager, wordManager) == old(TablesOf(db, manager, wordManager))
  {
    var word := if names.word in card.fields then Some(card.fields[names.word]) else None;
    var def := if names.def in card.fields then Some(card.fields[names.def]) else None;
    var furigana := if names.furigana in card.fields then Some(card.fields[names.furigana]) else None;
    if word.Some? && def.Some? && furigana.Some? {
      wordManager.InsertOrUpdateWord(card.cardId, word.value.value, def.value.value, furigana.value.value);
    } else {
      return Err(MissingField);
    }
    var skipped := 0;
    match word {
      case Some(w) =>
        RecordLeadingKanji(w.value, RecommendedLevel(card.interval), initial, db, manager, wordManager.words);
      case None =>
        skipped := 1;
    }
    r := Ok(skipped);
  }

  /** The field mapping of the deck: the stored one, or the chosen one, which is then stored. */
  method ResolveFields(selection: string, chosen: FieldNames, config: Config) returns (names: FieldNames)
    modifies config
    ensures names == FieldsFor(old(config.decks), selection, chosen)
    ensures config.decks == if FindDeck(old(config.decks), selection).Some? then old(config.decks)
                            else WithDeck(old(config.decks), selection, chosen.word, chosen.def, chosen.furigana)
  {
    match FindDeck(config.decks, selection) {
      case Some(deck) =>
        names := FieldNames(deck.wordField, deck.defField, deck.furiganaField);
      case None =>
        names := chosen;
        config.AddDeck(selection, chosen.word, chosen.def, chosen.furigana);
    }
  }

  /** The kanji loop of one card: the word's characters are recorded up to the first one that is
      not a kanji. `words` is the word table, which the loop does not touch. */
  method RecordLeadingKanji(word: string, level: u8, initial: Card, db: KanjiTable, manager: CardManager,
                            ghost words: map<u64, Word>)
    requires db.Valid() && manager.Valid()
    modifies db, manager
    ensures db.Valid() && manager.Valid()
    ensures Tables(db.rows, manager.Snapshot(), words)
         == KanjiRun(Tables(old(db.rows), old(manager.Snapshot()), words), LeadingKanji(word), level, initial, manager.codes)
  {
    ghost var t := Tables(db.rows, manager.Snapshot(), words);
    var j := 0;
    while j < |word|
      invariant j <= |word|
      invariant db.Valid() && manager.Valid()
      invariant forall i :: 0 <= i < j ==> IsKanji(word[i])
      invariant Tables(db.rows, manager.Snapshot(), words) == KanjiRun(t, word[..j], level, initial, manager.codes)
    {
      var k := word[j];
      if !IsKanji(k) {
        break;
      }
      db.AddKanji(k, level);
      manager.CreateCard(KanjiSrs(k, initial));
      assert word[..j + 1][..j] == word[..j];
      j := j + 1;
    }
    LeadingKanjiUnique(word, j);
  }

  /** Extending the processed cards by one applies that card's step. */
  lemma CardsRunSnoc(t: Tables, cards: seq<CardContent>, n: nat, names: FieldNames, initial: Card, codes: Codes)
    requires n < |cards|
    requires forall i :: 0 <= i <= n ==> HasFields(cards[i], names)
    ensures CardsRun(t, cards[..n + 1], names, initial, codes)
         == CardStep(CardsRun(t, cards[..n], names, initial, codes), cards[n], names, initial, codes)
  {
    assert cards[..n + 1][..n] == cards[..n];
  }

  /** Highest level first. */
  ghost predicate SortedByLevelDescending(s: seq<KanjiEntry>)
  {
    forall p, q :: 0 <= p < q < |s| ==> s[p].level >= s[q].level
  }

  /** Orders the kanji by level, highest first: `kanji.sort_by(|a, b| b.level.cmp(&a.level))`. */
  method SortByLevelDescending(a: array<KanjiEntry>)
    modifies a
    ensures SortedByLevelDescending(a[..])
    ensures multiset(a[..]) == multiset(old(a[..]))
  {
    var i := 0;
    while i < a.Length
      invariant i <= a.Length
      invariant SortedByLevelDescending(a[..i])
      invariant multiset(a[..]) == multiset(old(a[..]))
    {
      SinkInto(a, i);
      i := i + 1;
    }
    assert a[..i] == a[..];
  }

  /** Moves `a[i]` down past the lower-level entries before it, so that `a[..i + 1]` is ordered. */
  method SinkInto(a: array<KanjiEntry>, i: nat)
    requires i < a.Length
    requires SortedByLevelDescending(a[..i])
    modifies a
    ensures SortedByLevelDescending(a[..i + 1])
    ensures multiset(a[..]) == multiset(old(a[..]))
  {
    var j: nat := i;
    ghost var s0 := a[..];
    while j > 0 && a[j - 1].level < a[j].level
      invariant SinkingAt(a[..], i, j)
      invariant multiset(a[..]) == multiset(s0)
    {
      ghost var before := a[..];
      a[j - 1], a[j] := a[j], a[j - 1];
      assert a[..] == Swapped(before, j);
      SinkStep(before, i, j);
      j := j - 1;
    }
    SinkDone(a[..], i, j);
  }

  /** `s` with the entries at `j - 1` and `j` exchanged. */
  ghost function Swapped(s: seq<KanjiEntry>, j: nat): seq<KanjiEntry>
    requires 0 < j < |s|
  {
    s[j - 1 := s[j]][j := s[j - 1]]
  }

  /** While `s[j]` sinks into `s[..i + 1]`: everything but `s[j]` is ordered and `s[j]` outranks
      what lies after it. */
  ghost predicate SinkingAt(s: seq<KanjiEntry>, i: nat, j: nat)
  {
    && j <= i < |s|
    && (forall p, q :: 0 <= p < q <= i && p != j && q != j ==> s[p].level >= s[q].level)
    && (forall q :: j < q <= i ==> s[j].level > s[q].level)
  }

  lemma SinkStep(s: seq<KanjiEntry>, i: nat, j: nat)
    requires SinkingAt(s, i, j) && 0 < j && s[j - 1].level < s[j].level
    ensures SinkingAt(Swapped(s, j), i, j - 1)
    ensures multiset(Swapped(s, j)) == multiset(s)
  {
  }

  lemma SinkDone(s: seq<KanjiEntry>, i: nat, j: nat)
    requires SinkingAt(s, i, j) && (j == 0 || s[j - 1].level >= s[j].level)
    ensures SortedByLevelDescending(s[..i + 1])
  {
  }

  /** `get_db_kanji` without the terminal: every stored kanji once, highest level first. */
  method GetDbKanji(db: KanjiTable) returns (shown: seq<KanjiEntry>)
    ensures |shown| == |db.rows|
    ensures forall i :: 0 <= i < |shown| ==>
      |shown[i].kanji| == 1 && shown[i].kanji[0] in db.rows && db.rows[shown[i].kanji[0]] == shown[i].level
    ensures forall k :: k in db.rows ==> KanjiEntry([k], db.rows[k]) in shown
    ensures forall p, q :: 0 <= p < q < |shown| ==> shown[p].level >= shown[q].level
  {
    var kanji := db.GetAllKanji();
    var a := new KanjiEntry[|kanji|](i requires 0 <= i < |kanji| => kanji[i]);
    assert a[..] == kanji;
    SortByLevelDescending(a);
    shown := a[..];
    SameEntries(kanji, shown);
    forall i | 0 <= i < |shown|
      ensures |shown[i].kanji| == 1 && shown[i].kanji[0] in db.rows && db.rows[shown[i].kanji[0]] == shown[i].level
    {
      assert shown[i] in kanji;
      var j :| 0 <= j < |kanji| && kanji[j] == shown[i];
    }
  }

  /** Reordering a listing keeps its length and its entries. */
  lemma SameEntries(s: seq<KanjiEntry>, t: seq<KanjiEntry>)
    requires multiset(s) == multiset(t)
    ensures |s| == |t|
    ensures forall e :: e in s <==> e in t
  {
    assert |s| == |multiset(s)| == |multiset(t)| == |t|;
    forall e
      ensures e in s <==> e in t
    {
      assert e in s <==> e in multiset(s);
      assert e in t <==> e in multiset(t);
    }
  }
}
