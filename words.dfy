/** The word manager of cli/src/word_manager.rs: the `words` table keyed by the source card's id. */
module Words {
  import opened Types

  /** A word record: headword, definition and reading. */
  datatype Word = Word(word: string, def: string, furigana: string)

  /** Whether `k` occurs in `w` as a contiguous piece: `w LIKE '%k%'` for a `k` without wildcards. */
  predicate Contains(w: string, k: string)
    decreases |w|
  {
    |k| <= |w| && (w[..|k|] == k || Contains(w[1..], k))
  }

  ghost predicate OccursAt(w: string, k: string, i: int)
  {
    0 <= i && i + |k| <= |w| && w[i..i + |k|] == k
  }

  /** `Contains` holds exactly when `k` occurs at some position of `w`. */
  lemma {:induction false} ContainsIffOccurs(w: string, k: string)
    ensures Contains(w, k) <==> exists i :: OccursAt(w, k, i)
    decreases |w|
  {
    if |k| <= |w| {
      if w[..|k|] == k {
        assert OccursAt(w, k, 0);
      } else {
        ContainsIffOccurs(w[1..], k);
        if Contains(w[1..], k) {
          var i :| OccursAt(w[1..], k, i);
          assert w[1..][i..i + |k|] == w[i + 1..i + 1 + |k|];
          assert OccursAt(w, k, i + 1);
        } else {
          assert !exists i :: OccursAt(w, k, i) by {
            forall i | 0 < i && OccursAt(w, k, i)
              ensures OccursAt(w[1..], k, i - 1)
            {
              assert w[1..][i - 1..i - 1 + |k|] == w[i..i + |k|];
            }
          }
        }
      }
    }
  }

  /** The empty pattern is contained in every word. */
  lemma EmptyContained(w: string)
    ensures Contains(w, "")
  {
  }

  /** A word contains itself, and a one-character pattern is contained exactly when it occurs in the word. */
  lemma ContainsExamples(w: string, c: char)
    ensures Contains(w, w)
    ensures Contains(w, [c]) <==> c in w
  {
    ContainsIffOccurs(w, [c]);
    if c in w {
      var i :| 0 <= i < |w| && w[i] == c;
      assert w[i..i + 1] == [c];
      assert OccursAt(w, [c], i);
    }
    if exists i :: OccursAt(w, [c], i) {
      var i :| OccursAt(w, [c], i);
      assert w[i] == w[i..i + 1][0];
    }
  }

  /** Upserting one id twice leaves the second values; other ids are untouched. */
  lemma UpsertTwice(words: map<u64, Word>, id: u64, a: Word, b: Word)
    ensures words[id := a][id := b] == words[id := b]
    ensures forall j :: j in words && j != id ==> j in words[id := b] && words[id := b][j] == words[j]
  {
  }

  /** A duplicate-free list naming every key of the table has one entry per row. */
  lemma EveryKeyListed(words: map<u64, Word>, ids: seq<u64>)
    requires forall i :: 0 <= i < |ids| ==> ids[i] in words
    requires forall i, j :: 0 <= i < j < |ids| ==> ids[i] != ids[j]
    requires forall id :: id in words ==> id in ids
    ensures |ids| == |words|
  {
    var s := set i | 0 <= i < |ids| :: ids[i];
    assert s == words.Keys;
    DistinctCard(ids);
  }

  /** The set of a duplicate-free sequence has as many elements as the sequence. */
  lemma {:induction false} DistinctCard(ids: seq<u64>)
    requires forall i, j :: 0 <= i < j < |ids| ==> ids[i] != ids[j]
    ensures |set i | 0 <= i < |ids| :: ids[i]| == |ids|
  {
    if |ids| > 0 {
      var init := ids[..|ids| - 1];
      DistinctCard(init);
      var s := set i | 0 <= i < |ids| :: ids[i];
      var s0 := set i | 0 <= i < |init| :: init[i];
      assert s == s0 + {ids[|ids| - 1]};
      assert ids[|ids| - 1] !in s0;
    }
  }

  /** A connection to the `words` table. */
  class WordManager {
    var words: map<u64, Word>

    /** `WordManager::new` on a database holding `words0`. */
    constructor (words0: map<u64, Word>)
      ensures words == words0
    {
      words := words0;
    }

    /** `insert_or_update_word`: `INSERT ... ON CONFLICT(id) DO UPDATE`. */
    method InsertOrUpdateWord(id: u64, word: string, def: string, furigana: string)
      modifies this
      ensures words == old(words)[id := Word(word, def, furigana)]
      ensures id in words && words[id] == Word(word, def, furigana)
      ensures forall j :: j != id ==> (j in words <==> j in old(words)) && (j in words ==> words[j] == old(words)[j])
    {
      words := words[id := Word(word, def, furigana)];
    }

    /** `find_words(k)`: every record whose headword contains `k`, each once (`ids` names the rows
        the results come from). */
    method FindWords(k: string) returns (found: seq<Word>, ghost ids: seq<u64>)
      ensures |ids| == |found|
      ensures forall i :: 0 <= i < |ids| ==> ids[i] in words && found[i] == words[ids[i]] && Contains(found[i].word, k)
      ensures forall i, j :: 0 <= i < j < |ids| ==> ids[i] != ids[j]
      ensures forall id :: id in words && Contains(words[id].word, k) ==> id in ids
      ensures k == "" ==> |found| == |words|
    {
      found, ids := [], [];
      var remaining := words.Keys;
      while remaining != {}
        invariant remaining <= words.Keys
        invariant |ids| == |found|
        invariant forall i :: 0 <= i < |ids| ==>
          ids[i] in words && ids[i] !in remaining && found[i] == words[ids[i]] && Contains(found[i].word, k)
        invariant forall i, j :: 0 <= i < j < |ids| ==> ids[i] != ids[j]
        invariant forall id :: id in words && id !in remaining && Contains(words[id].word, k) ==> id in ids
        decreases remaining
      {
        var id :| id in remaining;
        if Contains(words[id].word, k) {
          found := found + [words[id]];
          ids := ids + [id];
        }
        remaining := remaining - {id};
      }
      if k == "" {
        forall id | id in words
          ensures id in ids
        {
          EmptyContained(words[id].word);
        }
        EveryKeyListed(words, ids);
      }
    }
  }
}
