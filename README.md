# Immerse kanji bookkeeping in Dafny

Immerse is a command-line companion for learning kanji. It pulls the cards of an Anki deck through
AnkiConnect and records three things in a local SQLite database:

- every kanji that leads a card's headword, in the `kanji` table, with a knowledge tier from 0 to 3;
- a spaced-repetition card for that kanji, in the `srs` and `revlog` tables;
- the card's word, definition and reading, in the `words` table.

It can list the stored kanji, highest tier first, in a paged terminal view.

This project models that bookkeeping and proves properties of it. Each table is a map keyed by
its primary key and held in a class whose methods change it in place. Each transition also has a
function that specifies it, so a whole sync can be stated as a fold over the remote cards.

| module | file | models |
|---|---|---|
| `Types` | `types.dfy` | `u8`/`u16`/`u64`, `Option`, `Result` |
| `Kanji` | `kanji.dfy` | `is_kanji`, `recommended_level` (`cli/src/kanji.rs`) |
| `Db` | `db.dfy` | the `kanji` table: `add_kanji`, `get_all_kanji`, `kanji_count` (`cli/src/db.rs`) |
| `Cards` | `cards.dfy` | `CardManager` over the `srs` and `revlog` tables, `state_u8`, `rating_u8` (`cli/src/card_manager.rs`) |
| `Words` | `words.dfy` | `WordManager` over the `words` table (`cli/src/word_manager.rs`) |
| `Configuration` | `configuration.dfy` | the deck list of `config.json` and `add_deck` (`cli/src/config.rs`) |
| `Sync` | `sync.dfy` | the card loop of `anki_sync` and the sort of `get_db_kanji` (`cli/src/main.rs`) |
| `Tui` | `tui.dfy` | the selection cursor and the kanji pager (`cli/src/tui.rs`) |

The remote deck arrives at `Sync.AnkiSync` as a sequence of `CardContent` values. The fields the
user would pick in the menu arrive as the `chosen` parameter.

`create_card` writes the review log with `INSERT OR IGNORE` (cli/src/card_manager.rs:61), so an
existing log row is kept; the model follows this (`Cards.CreatedLog`).

## Model

| member | source | states |
|---|---|---|
| Kanji.IsKanji | cli/src/kanji.rs:16-26 | a kanji lies between U+3400 and U+2EBEF and outside the gap U+2A6E0..U+2A6FF |
| Kanji.IsKanjiIffInSomeRange | cli/src/kanji.rs:16-26 | a character is a kanji exactly when its code point lies in one of the seven inclusive CJK ranges |
| Kanji.KanjiRangesDisjoint | cli/src/kanji.rs:17-25 | the seven ranges do not overlap, so a kanji lies in exactly one |
| Kanji.OutsideRangesNotKanji | cli/src/kanji.rs:16-26 | nothing below U+3400, between U+4DC0 and U+4DFF, in the gap U+2A6E0..U+2A6FF or above U+2EBEF is a kanji |
| Kanji.IsKanjiExamples | cli/src/test.rs:4-10 | 千, 本 and 桜 are kanji; に, h and 1 are not |
| Kanji.RecommendedLevel | cli/src/kanji.rs:27-37 | the tier is at most 3; it is 0 iff the interval is 0, 1 iff it is 1..59, 2 iff 60..99, 3 iff at least 100 |
| Kanji.RecommendedLevelMonotone | cli/src/kanji.rs:27-37 | a longer interval never gives a lower tier |
| Kanji.RecommendedLevelBoundaries | cli/src/kanji.rs:28-36 | the values at 0, 1, 59, 60, 99, 100 and 65535 |
| Db.WithNonKanjiUnchanged | cli/src/db.rs:26-28 | adding a non-kanji leaves the table unchanged |
| Db.WithKanjiRows | cli/src/db.rs:30-49 | a new kanji is stored with the given level, a stored one gets the larger of both levels, and no other row changes |
| Db.WithKanjiNeverLowers | cli/src/db.rs:35-37 | no row disappears and no stored level decreases |
| Db.WithKanjiKeepsOnlyKanji | cli/src/db.rs:26-28 | only kanji are ever stored |
| Db.LevelsOneThreeTwo | cli/src/db.rs:35-41 | levels 1, 3 and 2 in turn on a new kanji leave 3 |
| Db.KanjiTable.constructor | cli/src/db.rs:18-25 | the table created on first use is empty and holds only kanji |
| Db.KanjiTable.AddKanji | cli/src/db.rs:16-50 | the new table is `WithKanji` of the old one, and only kanji are stored |
| Db.KanjiTable.GetAllKanji | cli/src/db.rs:110-124 | one entry per row, each with its kanji and level, no kanji twice and every row present; the table is not modified |
| Db.KanjiTable.KanjiCount | cli/src/db.rs:126-140 | the count is the number of rows |
| Cards.StateU8 | cli/src/card_manager.rs:118-129 | codes 0..3 decode to New, Learning, Review, Relearning, and any other code decodes to New |
| Cards.RatingU8 | cli/src/card_manager.rs:131-142 | codes 0..3 decode to Again, Hard, Good, Easy, and any other code decodes to Again |
| Cards.StateU8OneCodeEach | cli/src/card_manager.rs:118-129 | every state is the decoding of exactly one code in 0..3 |
| Cards.RatingU8OneCodeEach | cli/src/card_manager.rs:131-142 | every rating is the decoding of exactly one code in 0..3 |
| Cards.EncodeCard | cli/src/card_manager.rs:56-58 | the `srs` row bound by `create_card` carries the given id, and under codes that decode back it rebuilds to the same card |
| Cards.EncodeLog | cli/src/card_manager.rs:59-61 | the `revlog` row bound by `create_card` rebuilds to the same review log under codes that decode back |
| Cards.DecodeCard | cli/src/card_manager.rs:72-86 | the rebuilt card carries the given log, and reads as New (state and previous state) exactly when the stored code is 0 or unknown |
| Cards.DecodeLog | cli/src/card_manager.rs:102-109 | the rebuilt log reads as Again exactly when the rating code is 0 or unknown, and as New exactly when the state code is 0 or unknown |
| Cards.RowRoundTrip | cli/src/card_manager.rs:56-86 | a stored `srs` row decoded and written again under codes agreeing with its state codes is the same row |
| Cards.LogRowRoundTrip | cli/src/card_manager.rs:61-109 | a stored `revlog` row decoded and written again under codes agreeing with its codes is the same row |
| Cards.CardRoundTrip | cli/src/card_manager.rs:55-114 | for a kanji with no `srs` and no `revlog` row, the card stored by `create_card` is exactly the card `new_cards` reads back with the log `revlog` returns, under the old counter as id, given codes that decode back |
| Cards.CreatedNew | cli/src/card_manager.rs:55-65 | a new kanji gets a row with id equal to the old counter; ids stay unique and below the counter |
| Cards.CreatedExisting | cli/src/card_manager.rs:56-58 | a kanji that already has a row keeps it, id included, while the counter still moves by one |
| Cards.CreatedValid | cli/src/card_manager.rs:57-63 | every call keeps ids unique and below the counter |
| Cards.CreatedLog | cli/src/card_manager.rs:59-62 | a log row is written only for a card with a log and only if the kanji has none yet; no other log row changes |
| Cards.MaxIdOr0 | cli/src/card_manager.rs:18-22 | the result is 0 on an empty table, otherwise a stored id bounding every stored id |
| Cards.CardManager.constructor | cli/src/card_manager.rs:12-24 | the counter starts at the maximum stored id + 1, or at 1 on an empty table |
| Cards.CardManager.CreateCard | cli/src/card_manager.rs:55-65 | the new tables and counter are `Created` of the old ones, keeping unique ids below the counter |
| Cards.CardManager.Revlog | cli/src/card_manager.rs:94-114 | `Some` exactly when a log row exists for the kanji, holding that row decoded |
| Cards.SelectNew | cli/src/card_manager.rs:68-91 | the result has min(limit, number of New rows) cards, all New, in strictly ascending id order, each decoded from its row and its log, and no unselected New row has a lower id |
| Cards.CardManager.NewCards | cli/src/card_manager.rs:67-92 | as `SelectNew` for the manager's tables; every returned card is in the New state |
| Words.ContainsIffOccurs | cli/src/word_manager.rs:45-46 | the containment test holds exactly when the pattern occurs at some position of the word |
| Words.ContainsExamples | cli/src/word_manager.rs:45-46 | a word contains itself, and a one-character pattern is contained iff it occurs in the word |
| Words.EmptyContained | cli/src/word_manager.rs:46 | the empty pattern is contained in every word |
| Words.UpsertTwice | cli/src/word_manager.rs:36-40 | upserting an id twice leaves the second record, and other ids are untouched |
| Words.WordManager.constructor | cli/src/word_manager.rs:17-23 | a manager opened on a database holding a word table works on exactly that table |
| Words.WordManager.InsertOrUpdateWord | cli/src/word_manager.rs:35-42 | the id then holds exactly the given record, and every other id is unchanged |
| Words.WordManager.FindWords | cli/src/word_manager.rs:44-52 | every row whose headword contains the pattern is returned once, with its own record, and no other row is; the empty pattern returns every row |
| Configuration.WithDeckKeepsNamesDistinct | cli/src/config.rs:42-50 | adding a deck keeps names pairwise distinct, leaves the name present and keeps the old entries in order |
| Configuration.WithDeckNew | cli/src/config.rs:45-50 | a new name appends exactly one deck, at the end, with the given field names |
| Configuration.FindDeck | cli/src/main.rs:234 | a deck is found iff one has the name, and it is the first such deck |
| Configuration.Config.constructor | cli/src/config.rs:26-30 | the default configuration has no decks |
| Configuration.Config.AddDeck | cli/src/config.rs:40-61 | a present name leaves the list unchanged; a new one appends one entry |
| Sync.LeadingKanji | cli/src/main.rs:281-284 | the result is a prefix of the word made only of kanji, followed by a non-kanji or by the end of the word |
| Sync.LeadingKanjiUnique | cli/src/main.rs:281-284 | any all-kanji prefix followed by a non-kanji or the end is that leading run |
| Sync.LeadingKanjiExamples | cli/src/main.rs:281-284 | 食べる yields 食, 本 yields 本, and にほん yields nothing |
| Sync.FirstMissing | cli/src/main.rs:271-278 | the result is the index of the first card lacking a mapped field, or the number of cards if none does |
| Sync.ExtendsTransitive | cli/src/main.rs:281-293 | extending the tables twice extends them |
| Sync.KanjiStepEffect | cli/src/main.rs:285-293 | one kanji is stored at the level or above and has an SRS row, only it is added, no level drops, no SRS row changes, the counter moves by one and the invariants hold |
| Sync.KanjiRunEffect | cli/src/main.rs:281-293 | after a run of kanji each one is stored at the level or above and has an SRS row; no level drops, no SRS row changes, the counter moves by the run's length, and the invariants hold |
| Sync.CardsRunEffect | cli/src/main.rs:269-300 | after the cards each leading kanji of each card is stored at its card's tier or above and has an SRS row, each card's word record exists, no level drops, no SRS row changes, and the counter moves by the number of kanji processed |
| Sync.SyncOneCardExample | cli/src/main.rs:269-300 | syncing one card 本 with interval 120 into empty tables gives kanji 本 at tier 3, one SRS row with id 1 and one word record |
| Sync.CardsRunSnoc | cli/src/main.rs:269 | processing one more card applies that card's step to the tables |
| Sync.FirstMissingAt | cli/src/main.rs:271-278 | a position before which every card has its fields, and at which the cards end or a card lacks one, is the first missing one |
| Sync.SyncCard | cli/src/main.rs:271-299 | the card succeeds iff its three fields are present; then nothing is skipped and the tables take that card's step, and otherwise the tables are untouched |
| Sync.ResolveFields | cli/src/main.rs:230-261 | the field names come from the first deck with the selected name; otherwise the chosen names are used and saved as a new deck |
| Sync.RecordLeadingKanji | cli/src/main.rs:281-294 | the tables afterwards are the old ones with the word's leading kanji recorded one by one |
| Sync.AnkiSync | cli/src/main.rs:230-306 | the tables hold the fold of the cards before the first card lacking a field, with no rollback; the result is an error iff such a card exists, and otherwise the synced count equals the number of cards |
| Sync.SortByLevelDescending | cli/src/main.rs:196 | the array is ordered by level, highest first, and is a permutation of its old contents |
| Sync.SinkInto | cli/src/main.rs:196 | after one insertion step the first `i + 1` entries are ordered and the contents are permuted |
| Sync.SameEntries | cli/src/main.rs:196 | a reordered listing has the same length and the same entries |
| Sync.GetDbKanji | cli/src/main.rs:193-199 | every stored kanji appears with its level, nothing else appears, the count matches the table, and the list is ordered by level, highest first |
| Tui.MovesStayInList | cli/src/tui.rs:55-81 | on a non-empty list both moves keep the selection inside the list |
| Tui.NextPreviousInverse | cli/src/tui.rs:55-81 | on a non-empty list `next` and `previous` undo each other |
| Tui.SelectionList.constructor | cli/src/tui.rs:48-53 | the items, with nothing selected |
| Tui.SelectionList.Next | cli/src/tui.rs:55-67 | nothing selected moves to 0, the last index (or beyond) wraps to 0, any other index moves up by one |
| Tui.SelectionList.Previous | cli/src/tui.rs:69-81 | nothing selected moves to 0, 0 wraps to len - 1, any other index moves down by one |
| Tui.SelectionList.Unselect | cli/src/tui.rs:83-85 | the selection is cleared and the items are kept |
| Tui.RoundUpToNearest10 | cli/src/tui.rs:309-311 | the result is a multiple of 450, at least n and less than n + 450 |
| Tui.RoundUpIsLeast | cli/src/tui.rs:309-311 | it is the least multiple of 450 at or above n |
| Tui.PageCount | cli/src/tui.rs:184 | the page count is 0 only with no kanji, and otherwise is the ceiling of len / 450 |
| Tui.PageBounds | cli/src/tui.rs:240-242 | the slice bounds lie within the list and span at most 450 kanji |
| Tui.PagesStayValid | cli/src/tui.rs:191-205 | with at least one kanji both page moves stay within 1..=page_count, and every such page shows 1 to 450 kanji |
| Tui.NextPageWraps | cli/src/tui.rs:191-197 | `next` moves to the following page exactly when the current one is not the last, and otherwise wraps to 1 |
| Tui.EmptyListPreviousUnderflows | cli/src/tui.rs:184 | with no kanji the page count is 0, and `previous` from page 1 moves to page 0 |
| Tui.PreviousPageFixedStaysValid | cli/src/tui.rs:199-205 | with the corrected `previous` the page stays within 1..=max(page_count, 1), so the slice start is always defined, and with at least one kanji it moves exactly as the source's `previous` |
| Tui.StatefulList.WithItems | cli/src/tui.rs:182-189 | starts on page 1 with the page count of the items, satisfying the pager invariant (the page count matches the items and the page lies in 1..=max(page_count, 1)) |
| Tui.StatefulList.Next | cli/src/tui.rs:191-197 | the page becomes `NextPage` of the old page, and the pager invariant is kept |
| Tui.StatefulList.Previous | cli/src/tui.rs:199-205 | with at least one kanji the page becomes `PreviousPage` of the old page (the last page from the first), with none it stays on page 1, and the pager invariant is kept |
| Tui.StatefulList.Shown | cli/src/tui.rs:240-242 | the shown kanji are the block of the list starting at (page - 1) * 450, 450 long or up to the end, and non-empty when there are kanji |

## Left out

- Terminal rendering and event loops of `cli/src/tui.rs`, all of `cli/src/freya.rs`, and the network clients (`cli/src/ankiconnect.rs`, `cli/src/dl.rs`, `cli/src/rocket.rs`): these are UI and I/O. Remote cards and the user's menu choices are parameters.
- SQLite, file and JSON plumbing: `connect`, `CREATE TABLE`, `read_config` file handling, and the `config.json` write in `add_deck`. Every database or I/O error is left out, so no model operation fails on I/O. In particular, the sync's abort when `create_card` fails and the printed-and-ignored `add_kanji` error are not modelled.
- The BLOB-based SRS functions of `cli/src/db.rs` (`card_to_db`, `card_from_db`, `due_cards`, `ensure_card_db`). They are superseded by the card manager, and their SQL does not match its schema.
- The scheduler library: stability and difficulty are opaque `real` values, times are integer seconds, and `Card::new()` is the `initial` parameter.
- Cards.Codes: the `u8` discriminants of the scheduler's enums are defined outside the repository, so they are a parameter. The round trips are proved only for codes that decode back.
- Diagnostic `println!` output, including the two sync summary lines. `AnkiSync` returns the count instead of printing it.
- Cards.CardManager.CreateCard: the counter is an unbounded integer, not a `u32`, so wrap-around after 2^32 cards is not modelled.
- Words.WordManager.FindWords: models plain substring containment. The SQL `LIKE` is case-insensitive for ASCII and treats `%` and `_` in the pattern as wildcards; neither is modelled.
- Words.WordManager.InsertOrUpdateWord: ids are `u64` as in the signature. Their conversion to SQLite's signed 64-bit integers is not modelled.
- Db.KanjiTable.GetAllKanji: the row order SQLite returns is left open.
- Sync.SortByLevelDescending: proved ordered and a permutation, but not stable as `sort_by` is.
- Sync.AnkiSync: requires a stored mapping or at least one card, because the menu reads the field names of `info.result[0]`.
- Sync.AnkiSync: `CardContent` carries `cardId` as the sync reads it (see the last compile gap below).
- Sync.AnkiSync: the deck list and the three managers are given by the caller; opening them is left out.
- Tui.RoundUpToNearest10, Tui.PageCount and Tui.StatefulList.WithItems: require at most 65086 kanji, where the `u16` addition and the `try_into().unwrap()` would fail.
- Tui.SelectionList.Next and Tui.SelectionList.Previous: require a non-empty list whenever `items.len() - 1` is evaluated, since it underflows there.
- Tui.StatefulList.Previous: follows the corrected move of the Findings table, so with no kanji it stays on page 1 where the source moves to page 0.
- The crate as published does not compile in these places; the model takes each table as a whole and is unaffected by them:
  - `connect` is private (cli/src/db.rs:142) but imported by the managers (cli/src/card_manager.rs:4, cli/src/word_manager.rs:2);
  - `db::cards_with_status` (cli/src/main.rs:28) and `db::wipe_srs_db` (cli/src/main.rs:30, used at 166) are not defined in cli/src/db.rs;
  - `db::new_cards` (cli/src/freya.rs:10) is not defined in cli/src/db.rs;
  - `ankiconnect::card_with_kanji` (cli/src/freya.rs:9) is not defined in cli/src/ankiconnect.rs, and is not part of this model;
  - `card.cardId` (cli/src/main.rs:275) names a field that `CardContent` (cli/src/ankiconnect.rs:66-69) does not declare.

## Findings

| source | as written | input that shows it | evidently intended | confidence | as-written member | corrected member |
|---|---|---|---|---|---|---|
| cli/src/tui.rs:199-205 | with no kanji `page_count` is 0, so `previous` on page 1 sets `page` to 0, and `(entries.page - 1) * 450` at line 240 underflows | an empty kanji table, then the Left key in the kanji list | the last page of an empty list is page 1 | not executed | Tui.EmptyListPreviousUnderflows | Tui.PreviousPageFixedStaysValid |
