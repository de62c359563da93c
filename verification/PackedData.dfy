/** Packing of fixed-width entries into 64-bit words, as many whole entries to a word as fit. */
module PackedData {
  import opened Bits

  function EntriesPerWord(bits: nat): (n: nat)
    requires 0 < bits <= 32
    ensures n >= 2 && n * bits <= 64
  {
    64 / bits
  }

  // The entry a reader finds at position i of packed words.
  function EntryAt(packed: seq<nat>, bits: nat, i: nat): nat
    requires 0 < bits <= 32 && i / EntriesPerWord(bits) < |packed|
  {
    var n := EntriesPerWord(bits);
    And(Shr(packed[i / n], Position(i % n, bits)), Pow2(bits) - 1)
  }

  // The word that holds the given entries, the first one in the lowest bits.
  function WordOf(entries: seq<nat>, bits: nat): nat {
    if entries == [] then 0
    else entries[0] % Pow2(bits) + Pow2(bits) * WordOf(entries[1..], bits)
  }

  // The bit position of entry j.
  function Position(j: nat, bits: nat): nat { j * bits }

  lemma PositionStep(j: nat, bits: nat)
    ensures Position(j + 1, bits) == Position(j, bits) + bits
    ensures Position(0, bits) == 0
    ensures Pow2(Position(j + 1, bits)) == Pow2(bits) * Pow2(Position(j, bits))
  {
    assert Position(j + 1, bits) == Position(j, bits) + bits;
    Pow2Add(Position(j, bits), bits);
  }

  lemma {:induction false} WordBound(entries: seq<nat>, bits: nat)
    ensures WordOf(entries, bits) < Pow2(Position(|entries|, bits))
  {
    if entries == [] {
      PositionStep(0, bits);
    } else {
      WordBound(entries[1..], bits);
      PositionStep(|entries| - 1, bits);
      BelowNext(entries[0] % Pow2(bits), Pow2(bits), WordOf(entries[1..], bits), Pow2(Position(|entries| - 1, bits)));
    }
  }

  // Shifting entry j down to bit 0 and masking reads it.
  lemma {:induction false} WordEntry(entries: seq<nat>, bits: nat, j: nat)
    requires j < |entries|
    ensures And(Shr(WordOf(entries, bits), Position(j, bits)), Pow2(bits) - 1) == entries[j] % Pow2(bits)
  {
    var word, f := WordOf(entries, bits), entries[0] % Pow2(bits);
    DivModUnique(word, Pow2(bits), WordOf(entries[1..], bits), f);
    if j == 0 {
      PositionStep(0, bits);
      AndMask(word, bits);
    } else {
      PositionStep(j - 1, bits);
      ShrAdd(word, bits, Position(j - 1, bits));
      ShrIsDiv(word, bits);
      WordEntry(entries[1..], bits, j - 1);
    }
  }

  lemma {:induction false} WordSnoc(entries: seq<nat>, bits: nat, e: nat)
    ensures WordOf(entries + [e], bits) == WordOf(entries, bits) + (e % Pow2(bits)) * Pow2(Position(|entries|, bits))
  {
    if entries == [] {
      PositionStep(0, bits);
    } else {
      var tail, f, p, q := entries[1..], e % Pow2(bits), Pow2(bits), Pow2(Position(|entries| - 1, bits));
      assert (entries + [e])[1..] == tail + [e];
      WordSnoc(tail, bits, e);
      PositionStep(|entries| - 1, bits);
      Distribute(p, WordOf(tail, bits), f, q);
    }
  }

  lemma Distribute(p: nat, w: nat, f: nat, q: nat)
    ensures p * (w + f * q) == p * w + f * (p * q)
  {
  }

  lemma EntryFits(n: nat, bits: nat, f: nat)
    requires Position(n + 1, bits) <= 64 && f < Pow2(bits)
    ensures f * Pow2(Position(n, bits)) < Pow2(64)
  {
    PositionStep(n, bits);
    FieldFits(f, Pow2(bits), Pow2(Position(n, bits)));
    Pow2Monotone(Position(n + 1, bits), 64);
  }

  // One step of filling a word: the next entry goes above those already there.
  lemma WordAppend(entries: seq<nat>, bits: nat, e: nat)
    requires Position(|entries| + 1, bits) <= 64
    ensures Or(WordOf(entries, bits), Shl(And(e, Pow2(bits) - 1), Position(|entries|, bits), 64))
            == WordOf(entries + [e], bits)
  {
    hide Or, And, Shl, WordOf;
    var shift, f := Position(|entries|, bits), e % Pow2(bits);
    AndMask(e, bits);
    WordBound(entries, bits);
    WordSnoc(entries, bits, e);
    EntryFits(|entries|, bits, f);
    ShlFits(f, shift, 64);
    OrDisjoint(WordOf(entries, bits), Shl(f, shift, 64), shift);
  }

  lemma FieldFits(f: nat, p: nat, q: nat)
    requires f < p && q > 0
    ensures f * q < p * q
  {
  }

  // The entries that go into word w.
  function Chunk(entries: seq<nat>, per: nat, w: nat): seq<nat>
    requires w * per <= |entries|
  {
    if (w + 1) * per <= |entries| then entries[w * per..(w + 1) * per] else entries[w * per..]
  }

  // Words hold consecutive chunks; only the last one may be partial, and it is not empty.
  ghost predicate Packs(packed: seq<nat>, entries: seq<nat>, bits: nat)
    requires 0 < bits <= 32
  {
    var per := EntriesPerWord(bits);
    && |entries| <= |packed| * per < |entries| + per
    && (forall w :: 0 <= w < |packed| ==> w * per < |entries| && packed[w] == WordOf(Chunk(entries, per, w), bits))
  }

  // Every entry is read back, cut to the entry width.
  lemma PackedEntry(packed: seq<nat>, entries: seq<nat>, bits: nat, i: nat)
    requires 0 < bits <= 32 && Packs(packed, entries, bits) && i < |entries|
    ensures i / EntriesPerWord(bits) < |packed|
    ensures EntryAt(packed, bits, i) == entries[i] % Pow2(bits)
  {
    var per := EntriesPerWord(bits);
    var chunk, w, j := ChunkEntry(entries, |packed|, per, i);
    WordEntry(chunk, bits, j);
  }

  // As many entries go into a word as there is room for, and entry i is found at bit (i % k) * bits of word i / k.
  lemma EntryStandsAt(packed: seq<nat>, entries: seq<nat>, bits: nat, i: nat, k: nat, shift: nat)
    requires 0 < bits <= 32 && Packs(packed, entries, bits) && i < |entries|
    requires 0 < k && k * bits <= 64 < (k + 1) * bits && shift == (i % k) * bits
    ensures i / k < |packed|
    ensures And(Shr(packed[i / k], shift), Pow2(bits) - 1) == entries[i] % Pow2(bits)
  {
    MostPerWord(bits, k);
    PackedEntry(packed, entries, bits, i);
  }

  lemma MostPerWord(bits: nat, k: nat)
    requires 0 < bits <= 32 && k * bits <= 64
    ensures k <= EntriesPerWord(bits)
    ensures 64 < (k + 1) * bits ==> k == EntriesPerWord(bits)
  {
    var n := EntriesPerWord(bits);
    assert 64 < (n + 1) * bits;
    if k > n {
      Multiples(n + 1, k, bits);
      assert false;
    }
    if k < n {
      Multiples(k + 1, n, bits);
    }
  }

  lemma Multiples(a: nat, b: nat, c: nat)
    requires a <= b
    ensures a * c <= b * c
  {
  }

  // No word could be spared, however many entries a word holds.
  lemma PackedIsTight(packed: seq<nat>, entries: seq<nat>, bits: nat, k: nat)
    requires 0 < bits <= 32 && Packs(packed, entries, bits) && 0 < k && k * bits <= 64
    ensures (|packed| - 1) * k < |entries|
  {
    var per := EntriesPerWord(bits);
    assert |packed| * per < |entries| + per;
    MostPerWord(bits, k);
    hide *;
    OneWordLess(|packed|, k, per, |entries|);
  }

  lemma OneWordLess(words: nat, k: nat, per: nat, n: nat)
    requires 0 < k <= per && words * per < n + per
    ensures (words - 1) * k < n
  {
    if words == 0 {
    } else {
      NextWord(words - 1, per);
      Multiples(k, per, words - 1);
    }
  }

  lemma ChunkEntry(entries: seq<nat>, words: nat, per: nat, i: nat) returns (chunk: seq<nat>, w: nat, j: nat)
    requires per > 0 && i < |entries| <= words * per
    ensures w == i / per < words && j == i % per && w * per <= |entries|
    ensures chunk == Chunk(entries, per, w) && j < |chunk| && chunk[j] == entries[i]
  {
    w, j := i / per, i % per;
    assert i == w * per + j;
    RowsBelow(w, words, per, j);
    chunk := Chunk(entries, per, w);
  }

  lemma RowsBelow(w: nat, words: nat, per: nat, j: nat)
    requires per > 0 && w * per + j < words * per
    ensures w < words && (w + 1) * per == w * per + per
  {
  }

  // The high bits of a word beyond its entries stay clear.
  lemma PackedPadding(packed: seq<nat>, entries: seq<nat>, bits: nat, w: nat)
    requires 0 < bits <= 32 && Packs(packed, entries, bits) && w < |packed|
    ensures w * EntriesPerWord(bits) < |entries|
    ensures packed[w] < Pow2(Position(|Chunk(entries, EntriesPerWord(bits), w)|, bits))
  {
    WordBound(Chunk(entries, EntriesPerWord(bits), w), bits);
  }

  // Collects the next word: up to `per` entries from position `next` on.
  method FillWord(entries: seq<nat>, bits: nat, next: nat) returns (word: nat, j: nat)
    requires 0 < bits <= 32 && next <= |entries|
    ensures j <= EntriesPerWord(bits) && next + j <= |entries|
    ensures j < EntriesPerWord(bits) ==> next + j == |entries|
    ensures word == WordOf(entries[next..next + j], bits)
  {
    var per, mask := EntriesPerWord(bits), Pow2(bits) - 1;
    word, j := 0, 0;
    while j < per && next + j < |entries|
      invariant j <= per && next + j <= |entries|
      invariant word == WordOf(entries[next..next + j], bits)
    {
      ghost var taken := entries[next..next + j];
      WordFits(taken, per, bits);
      WordAppend(taken, bits, entries[next + j]);
      assert taken + [entries[next + j]] == entries[next..next + j + 1];
      word := Or(word, Shl(And(entries[next + j], mask), Position(j, bits), 64));
      j := j + 1;
    }
  }

  // The words pushed so far hold exactly the first `next` entries.
  ghost predicate PackedSoFar(packed: seq<nat>, entries: seq<nat>, bits: nat, next: nat)
    requires 0 < bits <= 32
  {
    && next <= |entries| && |packed| * EntriesPerWord(bits) == next
    && (forall w :: 0 <= w < |packed| ==>
          w * EntriesPerWord(bits) < |entries| && packed[w] == WordOf(Chunk(entries, EntriesPerWord(bits), w), bits))
  }

  lemma PushWord(packed: seq<nat>, entries: seq<nat>, bits: nat, next: nat, j: nat)
    requires 0 < bits <= 32 && PackedSoFar(packed, entries, bits, next)
    requires next + j <= |entries| && 0 < j <= EntriesPerWord(bits)
    requires j < EntriesPerWord(bits) ==> next + j == |entries|
    ensures var packed' := packed + [WordOf(entries[next..next + j], bits)];
            if j == EntriesPerWord(bits) then PackedSoFar(packed', entries, bits, next + j)
            else Packs(packed', entries, bits)
  {
    hide WordOf;
    var per := EntriesPerWord(bits);
    NextWord(|packed|, per);
    assert Chunk(entries, per, |packed|) == entries[next..next + j];
    hide EntriesPerWord, Chunk;
  }

  lemma NextWord(words: nat, per: nat)
    ensures (words + 1) * per == words * per + per
  {
  }

  // Packs `entries` (each below 2^32), starting a new word whenever the next entry does not fit whole.
  method PackDirect(entries: seq<nat>, bits: nat) returns (packed: seq<nat>)
    requires 0 < bits <= 32
    ensures Packs(packed, entries, bits)
  {
    packed := [];
    var next := 0;
    var exhausted := false;
    while !exhausted
      invariant next <= |entries|
      invariant if exhausted then Packs(packed, entries, bits) else PackedSoFar(packed, entries, bits, next)
      decreases |entries| - next, !exhausted
    {
      var word, j := FillWord(entries, bits, next);
      if j > 0 {
        PushWord(packed, entries, bits, next, j);
        packed := packed + [word];
      }
      exhausted := j < EntriesPerWord(bits);
      next := next + j;
    }
  }

  lemma WordFits(entries: seq<nat>, per: nat, bits: nat)
    requires 0 < bits <= 32 && per == EntriesPerWord(bits) && |entries| < per
    ensures Position(|entries| + 1, bits) <= 64
  {
  }
}
