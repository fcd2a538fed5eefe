/** The SRS card manager of cli/src/card_manager.rs: the `srs` and `revlog` tables, keyed by kanji,
    and the in-memory counter that hands out card ids. */
module Cards {
  import opened Types

  /** The scheduler's card states and review ratings. */
  datatype State = New | Learning | Review | Relearning
  datatype Rating = Again | Hard | Good | Easy

  /** How the scheduler library numbers its enums when they are cast to `u8`. Those discriminants
      are defined outside the repository, so the model takes them as a parameter. */
  datatype Codes = Codes(state: State -> u8, rating: Rating -> u8)

  /** The scheduler's review log and card; times are integer epoch seconds and stability and
      difficulty are opaque numbers. */
  datatype ReviewLog = ReviewLog(rating: Rating, elapsedDays: int, scheduledDays: int, state: State, reviewed: int)

  datatype Card = Card(
    due: int, stability: real, difficulty: real, elapsedDays: int, scheduledDays: int,
    lapses: int, reps: int, state: State, lastReview: int, previousState: State,
    log: Option<ReviewLog>)

  /** `KanjiSrs` of cli/src/db.rs: a kanji with its scheduling card. */
  datatype KanjiSrs = KanjiSrs(kanji: char, card: Card)

  /** A row of the `srs` table (without its `kanji` key column). */
  datatype SrsRow = SrsRow(
    id: int, due: int, stability: real, difficulty: real, elapsed: int, scheduled: int,
    lapses: int, reps: int, state: u8, lastReview: int, prevState: u8)

  /** A row of the `revlog` table (without its `kanji` key column). */
  datatype RevlogRow = RevlogRow(rating: u8, elapsed: int, scheduled: int, state: u8, reviewed: int)

  /** `state_u8`: decodes a stored state code; an unknown code reads as `New`. */
  function StateU8(i: u8): (s: State)
    ensures s == New <==> (i == 0 || i > 3)
    ensures s == Learning <==> i == 1
    ensures s == Review <==> i == 2
    ensures s == Relearning <==> i == 3
  {
    match i
    case 0 => New
    case 1 => Learning
    case 2 => Review
    case 3 => Relearning
    case _ => New
  }

  /** `rating_u8`: decodes a stored rating code; an unknown code reads as `Again`. */
  function RatingU8(i: u8): (r: Rating)
    ensures r == Again <==> (i == 0 || i > 3)
    ensures r == Hard <==> i == 1
    ensures r == Good <==> i == 2
    ensures r == Easy <==> i == 3
  {
    match i
    case 0 => Again
    case 1 => Hard
    case 2 => Good
    case 3 => Easy
    case _ => Again
  }

  /** Each state is the decoding of exactly one of the codes 0 to 3. */
  lemma StateU8OneCodeEach(s: State)
    ensures exists i: u8 :: i <= 3 && StateU8(i) == s
    ensures forall i: u8, j: u8 :: i <= 3 && j <= 3 && StateU8(i) == s && StateU8(j) == s ==> i == j
  {
    var i: u8 := match s case New => 0 case Learning => 1 case Review => 2 case Relearning => 3;
    assert StateU8(i) == s;
  }

  /** Each rating is the decoding of exactly one of the codes 0 to 3. */
  lemma RatingU8OneCodeEach(r: Rating)
    ensures exists i: u8 :: i <= 3 && RatingU8(i) == r
    ensures forall i: u8, j: u8 :: i <= 3 && j <= 3 && RatingU8(i) == r && RatingU8(j) == r ==> i == j
  {
    var i: u8 := match r case Again => 0 case Hard => 1 case Good => 2 case Easy => 3;
    assert RatingU8(i) == r;
  }

  /** The values `create_card` binds to its `srs` insert. Under codes that decode back to the
      states they encode, `new_cards` rebuilds the card from them. */
  function EncodeCard(id: int, c: Card, codes: Codes): (r: SrsRow)
    ensures r.id == id
    ensures StateU8(codes.state(c.state)) == c.state && StateU8(codes.state(c.previousState)) == c.previousState
      ==> DecodeCard(r, c.log) == c
  {
    SrsRow(id, c.due, c.stability, c.difficulty, c.elapsedDays, c.scheduledDays,
           c.lapses, c.reps, codes.state(c.state), c.lastReview, codes.state(c.previousState))
  }

  /** The values `create_card` binds to its `revlog` insert. Under codes that decode back, `revlog`
      rebuilds the log from them. */
  function EncodeLog(l: ReviewLog, codes: Codes): (r: RevlogRow)
    ensures RatingU8(codes.rating(l.rating)) == l.rating && StateU8(codes.state(l.state)) == l.state
      ==> DecodeLog(r) == l
  {
    RevlogRow(codes.rating(l.rating), l.elapsedDays, l.scheduledDays, codes.state(l.state), l.reviewed)
  }

  /** How `new_cards` rebuilds a card from its `srs` row and its review log: the log is the one
      given, and a card reads as New exactly when its stored state code is 0 or unknown. */
  function DecodeCard(row: SrsRow, log: Option<ReviewLog>): (c: Card)
    ensures c.log == log
    ensures c.state == New <==> (row.state == 0 || row.state > 3)
    ensures c.previousState == New <==> (row.prevState == 0 || row.prevState > 3)
  {
    Card(row.due, row.stability, row.difficulty, row.elapsed, row.scheduled, row.lapses, row.reps,
         StateU8(row.state), row.lastReview, StateU8(row.prevState), log)
  }

  /** How `revlog` rebuilds a review log from its row: an unknown rating code reads as Again and
      an unknown state code as New. */
  function DecodeLog(row: RevlogRow): (l: ReviewLog)
    ensures l.rating == Again <==> (row.rating == 0 || row.rating > 3)
    ensures l.state == New <==> (row.state == 0 || row.state > 3)
  {
    ReviewLog(RatingU8(row.rating), row.elapsed, row.scheduled, StateU8(row.state), row.reviewed)
  }

  /** The reverse direction: a stored row decoded and written again under codes that agree with
      its state codes is the same row. */
  lemma RowRoundTrip(row: SrsRow, log: Option<ReviewLog>, codes: Codes)
    requires codes.state(StateU8(row.state)) == row.state && codes.state(StateU8(row.prevState)) == row.prevState
    ensures EncodeCard(row.id, DecodeCard(row, log), codes) == row
  {
  }

  /** The same for a review-log row. */
  lemma LogRowRoundTrip(row: RevlogRow, codes: Codes)
    requires codes.rating(RatingU8(row.rating)) == row.rating && codes.state(StateU8(row.state)) == row.state
    ensures EncodeLog(DecodeLog(row), codes) == row
  {
  }

  /** The decoded review log of `k` in the `revlog` table, if any. */
  function LogOf(revlog: map<char, RevlogRow>, k: char): Option<ReviewLog>
  {
    if k in revlog then Some(DecodeLog(revlog[k])) else None
  }

  /** The tables and counter a card manager works on. */
  datatype Store = Store(srs: map<char, SrsRow>, revlog: map<char, RevlogRow>, nextId: int)

  /** Ids are unique in the `srs` table (its `UNIQUE` constraint). */
  ghost predicate UniqueIds(srs: map<char, SrsRow>)
  {
    forall a, b :: a in srs && b in srs && a != b ==> srs[a].id != srs[b].id
  }

  /** The manager's invariant: ids are unique and every stored id lies below the counter. */
  ghost predicate StoreValid(s: Store)
  {
    && UniqueIds(s.srs)
    && forall k :: k in s.srs ==> s.srs[k].id < s.nextId
  }

  /** Whether some row already carries `id`. */
  predicate IdTaken(srs: map<char, SrsRow>, id: int)
  {
    exists k :: k in srs && srs[k].id == id
  }

  /** The store after `create_card(c)`: `INSERT OR IGNORE` into `srs` with id `nextId` (ignored when
      the kanji or the id is already present), `INSERT OR IGNORE` into `revlog` when the card has a
      log, and the counter bumped in every case. */
  function Created(s: Store, c: KanjiSrs, codes: Codes): Store
  {
    var srs :=
      if c.kanji in s.srs || IdTaken(s.srs, s.nextId) then s.srs
      else s.srs[c.kanji := EncodeCard(s.nextId, c.card, codes)];
    var revlog :=
      if c.card.log.Some? && c.kanji !in s.revlog then s.revlog[c.kanji := EncodeLog(c.card.log.value, codes)]
      else s.revlog;
    Store(srs, revlog, s.nextId + 1)
  }

  /** Under the invariant the counter never collides with a stored id, so a new kanji always gets
      the counter's value as its id; the invariant is kept. */
  lemma CreatedNew(s: Store, c: KanjiSrs, codes: Codes)
    requires StoreValid(s) && c.kanji !in s.srs
    ensures Created(s, c, codes).srs == s.srs[c.kanji := EncodeCard(s.nextId, c.card, codes)]
    ensures Created(s, c, codes).nextId == s.nextId + 1
    ensures StoreValid(Created(s, c, codes))
  {
    assert !IdTaken(s.srs, s.nextId);
    var r := Created(s, c, codes);
    forall a, b | a in r.srs && b in r.srs && a != b
      ensures r.srs[a].id != r.srs[b].id
    {
      if a != c.kanji && b != c.kanji {
        assert r.srs[a] == s.srs[a] && r.srs[b] == s.srs[b];
      }
    }
  }

  /** A kanji that already has a row keeps it, id included: only the counter and perhaps the log move. */
  lemma CreatedExisting(s: Store, c: KanjiSrs, codes: Codes)
    requires c.kanji in s.srs
    ensures Created(s, c, codes).srs == s.srs
    ensures Created(s, c, codes).nextId == s.nextId + 1
  {
  }

  /** Any store the invariant holds of keeps it through `create_card`. */
  lemma CreatedValid(s: Store, c: KanjiSrs, codes: Codes)
    requires StoreValid(s)
    ensures StoreValid(Created(s, c, codes))
  {
    if c.kanji !in s.srs {
      CreatedNew(s, c, codes);
    }
  }

  /** A log row is written only for a card that carries a log, and an existing one is never
      overwritten; no other log row changes. */
  lemma CreatedLog(s: Store, c: KanjiSrs, codes: Codes)
    ensures var r := Created(s, c, codes).revlog;
      && (c.card.log.None? ==> r == s.revlog)
      && (c.kanji in s.revlog ==> r == s.revlog)
      && (c.card.log.Some? && c.kanji !in s.revlog ==> r == s.revlog[c.kanji := EncodeLog(c.card.log.value, codes)])
  {
  }

  /** A card stored by `create_card` for a kanji with no `srs` and no `revlog` row is the card that
      `new_cards` reads back, its review log included, under the old counter as id, provided the
      library's codes decode back to what they encode. */
  lemma CardRoundTrip(s: Store, c: KanjiSrs, codes: Codes)
    requires StoreValid(s) && c.kanji !in s.srs && c.kanji !in s.revlog
    requires StateU8(codes.state(c.card.state)) == c.card.state
    requires StateU8(codes.state(c.card.previousState)) == c.card.previousState
    requires c.card.log.Some? ==>
      RatingU8(codes.rating(c.card.log.value.rating)) == c.card.log.value.rating &&
      StateU8(codes.state(c.card.log.value.state)) == c.card.log.value.state
    ensures var r := Created(s, c, codes);
      && c.kanji in r.srs
      && r.srs[c.kanji].id == s.nextId
      && DecodeCard(r.srs[c.kanji], LogOf(r.revlog, c.kanji)) == c.card
  {
    CreatedNew(s, c, codes);
  }

  /** The largest id in `srs`, or 0 on an empty table: `IFNULL(MAX(id), 0)`. */
  method MaxIdOr0(srs: map<char, SrsRow>) returns (m: int)
    ensures srs == map[] ==> m == 0
    ensures srs != map[] ==> exists k :: k in srs && srs[k].id == m
    ensures forall k :: k in srs ==> srs[k].id <= m
  {
    m := 0;
    var seen := false;
    var remaining := srs.Keys;
    while remaining != {}
      invariant remaining <= srs.Keys
      invariant !seen ==> m == 0 && remaining == srs.Keys
      invariant seen ==> exists k :: k in srs && srs[k].id == m
      invariant forall k :: k in srs && k !in remaining ==> srs[k].id <= m
      decreases remaining
    {
      var k :| k in remaining;
      if !seen || m < srs[k].id {
        m := srs[k].id;
      }
      seen := true;
      remaining := remaining - {k};
    }
    if srs != map[] {
      assert seen by {
        var k :| k in srs;
      }
    }
  }

  /** A card manager: a connection to the `srs` and `revlog` tables and the next id to hand out. */
  class CardManager {
    var srs: map<char, SrsRow>
    var revlog: map<char, RevlogRow>
    var nextId: int
    const codes: Codes

    ghost function Snapshot(): Store
      reads this
    {
      Store(srs, revlog, nextId)
    }

    ghost predicate Valid()
      reads this
    {
      StoreValid(Snapshot())
    }

    /** `CardManager::new` on a database holding `srs0` and `revlog0`: the counter is seeded with
        `IFNULL(MAX(id), 0) + 1`. */
    constructor (srs0: map<char, SrsRow>, revlog0: map<char, RevlogRow>, codes: Codes)
      requires UniqueIds(srs0)
      ensures Valid()
      ensures srs == srs0 && revlog == revlog0 && this.codes == codes
      ensures srs0 == map[] ==> nextId == 1
      ensures srs0 != map[] ==> (exists k :: k in srs0 && srs0[k].id + 1 == nextId)
    {
      var m := MaxIdOr0(srs0);
      srs := srs0;
      revlog := revlog0;
      nextId := m + 1;
      this.codes := codes;
    }

    /** `create_card`. */
    method CreateCard(c: KanjiSrs)
      requires Valid()
      modifies this
      ensures Valid()
      ensures Snapshot() == Created(old(Snapshot()), c, codes)
      ensures nextId == old(nextId) + 1
      ensures c.kanji in old(srs) ==> srs == old(srs)
      ensures c.kanji !in old(srs) ==> srs == old(srs)[c.kanji := EncodeCard(old(nextId), c.card, codes)]
    {
      ghost var s := Snapshot();
      CreatedValid(s, c, codes);
      if c.kanji !in srs {
        CreatedNew(s, c, codes);
      }
      if !(c.kanji in srs || IdTaken(srs, nextId)) {
        srs := srs[c.kanji := EncodeCard(nextId, c.card, codes)];
      }
      if c.card.log.Some? {
        if c.kanji !in revlog {
          revlog := revlog[c.kanji := EncodeLog(c.card.log.value, codes)];
        }
      }
      nextId := nextId + 1;
    }

    /** `revlog`: the decoded review log of `k`, when one is stored. */
    function Revlog(k: char): (r: Option<ReviewLog>)
      reads this
      ensures r.Some? <==> k in revlog
      ensures r.Some? ==> r.value == DecodeLog(revlog[k])
    {
      LogOf(revlog, k)
    }

    /** `new_cards(limit)`: the New cards in ascending id order, at most `limit` of them. */
    method NewCards(limit: u8) returns (cards: seq<KanjiSrs>)
      requires Valid()
      ensures |cards| <= limit
      ensures |cards| == if |NewOf(srs)| < limit then |NewOf(srs)| else limit
      ensures forall i :: 0 <= i < |cards| ==>
        && cards[i].kanji in srs && srs[cards[i].kanji].state == 0
        && cards[i].card == DecodeCard(srs[cards[i].kanji], Revlog(cards[i].kanji))
        && cards[i].card.state == New
      ensures forall i, j :: 0 <= i < j < |cards| ==> srs[cards[i].kanji].id < srs[cards[j].kanji].id
      ensures forall k :: k in srs && srs[k].state == 0 && (forall i :: 0 <= i < |cards| ==> cards[i].kanji != k) ==>
        forall i :: 0 <= i < |cards| ==> srs[cards[i].kanji].id < srs[k].id
    {
      cards := SelectNew(srs, revlog, limit);
    }
  }

  /** The kanji of `srs` whose card is in the New state (stored code 0). */
  function NewOf(srs: map<char, SrsRow>): set<char>
  {
    set k | k in srs && srs[k].state == 0
  }

  /** The query and row loop of `new_cards` over the tables `srs` and `revlog`:
      `WHERE state = 0 ORDER BY id ASC LIMIT limit`, each row decoded. */
  method SelectNew(srs: map<char, SrsRow>, revlog: map<char, RevlogRow>, limit: u8) returns (cards: seq<KanjiSrs>)
    requires UniqueIds(srs)
    ensures |cards| == if |NewOf(srs)| < limit then |NewOf(srs)| else limit
    ensures forall i :: 0 <= i < |cards| ==>
      && cards[i].kanji in NewOf(srs)
      && cards[i].card == DecodeCard(srs[cards[i].kanji], LogOf(revlog, cards[i].kanji))
    ensures forall i, j :: 0 <= i < j < |cards| ==> srs[cards[i].kanji].id < srs[cards[j].kanji].id
    ensures forall k :: k in NewOf(srs) && (forall i :: 0 <= i < |cards| ==> cards[i].kanji != k) ==>
      forall i :: 0 <= i < |cards| ==> srs[cards[i].kanji].id < srs[k].id
  {
    var news := NewOf(srs);
    ghost var keys: seq<char> := [];
    cards := [];
    var remaining := news;
    while |cards| < limit as int && remaining != {}
      invariant |cards| <= limit
      invariant SelectionSoFar(srs, revlog, news, keys, cards, remaining)
      decreases remaining
    {
      MinIdExists(srs, remaining);
      var k :| k in remaining && forall j :: j in remaining ==> srs[k].id <= srs[j].id;
      SelectionStep(srs, revlog, news, keys, cards, remaining, k);
      cards := cards + [KanjiSrs(k, DecodeCard(srs[k], LogOf(revlog, k)))];
      keys := keys + [k];
      remaining := remaining - {k};
    }
  }

  /** What the row loop of `new_cards` has established after taking the rows of `keys`, leaving
      `remaining` to go. */
  ghost predicate SelectionSoFar(srs: map<char, SrsRow>, revlog: map<char, RevlogRow>, news: set<char>,
                                 keys: seq<char>, cards: seq<KanjiSrs>, remaining: set<char>)
  {
    && news <= srs.Keys
    && remaining <= news
    && |keys| == |cards| && |keys| + |remaining| == |news|
    && (forall i :: 0 <= i < |keys| ==>
          keys[i] in news && keys[i] !in remaining && cards[i] == KanjiSrs(keys[i], DecodeCard(srs[keys[i]], LogOf(revlog, keys[i]))))
    && (forall i, j :: 0 <= i < j < |keys| ==> srs[keys[i]].id < srs[keys[j]].id)
    && (forall i, k :: 0 <= i < |keys| && k in remaining ==> srs[keys[i]].id < srs[k].id)
    && (forall k :: k in news && k !in remaining ==> k in keys)
  }

  /** Taking the remaining row with the least id keeps `SelectionSoFar`. */
  lemma SelectionStep(srs: map<char, SrsRow>, revlog: map<char, RevlogRow>, news: set<char>,
                      keys: seq<char>, cards: seq<KanjiSrs>, remaining: set<char>, k: char)
    requires UniqueIds(srs)
    requires SelectionSoFar(srs, revlog, news, keys, cards, remaining)
    requires k in remaining && forall j :: j in remaining ==> srs[k].id <= srs[j].id
    ensures SelectionSoFar(srs, revlog, news, keys + [k], cards + [KanjiSrs(k, DecodeCard(srs[k], LogOf(revlog, k)))], remaining - {k})
  {
    assert forall j :: j in remaining && j != k ==> srs[k].id < srs[j].id;
  }

  /** A non-empty set of stored kanji has one with the least id, and under unique ids it is
      strictly below every other. */
  lemma MinIdExists(srs: map<char, SrsRow>, ks: set<char>)
    requires ks != {} && ks <= srs.Keys
    ensures exists k :: k in ks && forall j :: j in ks ==> srs[k].id <= srs[j].id
    decreases ks
  {
    var k :| k in ks;
    if ks != {k} {
      MinIdExists(srs, ks - {k});
      var m :| m in ks - {k} && forall j :: j in ks - {k} ==> srs[m].id <= srs[j].id;
      if srs[k].id < srs[m].id {
        assert forall j :: j in ks ==> srs[k].id <= srs[j].id;
      } else {
        assert forall j :: j in ks ==> srs[m].id <= srs[j].id;
      }
    }
  }
}
