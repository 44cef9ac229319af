/** The greedy UTF-8 chunker of backend/src/app/agent_voice/live_protocol.py. */
module ContextParts {
  import opened Utf8

  const PART_BYTES: nat := 480
  const RESULT_BYTES: nat := 24000

  function Concat(parts: seq<string>): string {
    if parts == [] then "" else Concat(parts[..|parts| - 1]) + parts[|parts| - 1]
  }

  lemma ConcatAppend(parts: seq<string>, part: string)
    ensures Concat(parts + [part]) == Concat(parts) + part
  {
    assert (parts + [part])[..|parts|] == parts;
  }

  /** A split of the content into consecutive parts, none over the byte bound. */
  ghost predicate Fits(parts: seq<string>) {
    forall i :: 0 <= i < |parts| ==> ByteLength(parts[i]) <= PART_BYTES
  }

  /** No part could have taken the first character of the next one. */
  ghost predicate Greedy(parts: seq<string>) {
    && (forall i :: 0 <= i < |parts| ==> parts[i] != "")
    && (forall i :: 0 <= i < |parts| - 1 ==> ByteLength(parts[i] + [parts[i + 1][0]]) > PART_BYTES)
  }

  /** Lossless and in order, every part nonempty and within the bound, and no split uses fewer parts. */
  method Chunk(content: string) returns (parts: seq<string>)
    ensures Concat(parts) == content
    ensures Fits(parts)
    ensures forall i :: 0 <= i < |parts| ==> parts[i] != ""
    ensures forall split :: Fits(split) && Concat(split) == content ==> |parts| <= |split|
    ensures ByteLength(content) <= RESULT_BYTES ==> |parts| <= 51
    ensures parts != [] ==> Greedy(parts)
    ensures content == "" <==> parts == []
  {
    parts := [];
    var current := "";
    for i := 0 to |content|
      invariant Concat(parts) + current == content[..i]
      invariant i == 0 ==> current == "" && parts == []
      invariant i > 0 ==> current != "" && Fits(parts + [current]) && Greedy(parts + [current])
    {
      hide Greedy, Fits, ByteLength, Concat;
      OneCharacter(content[i]);
      if ByteLength(current + [content[i]]) > PART_BYTES {
        ConcatAppend(parts, current);
        GreedyNext(parts, current, content[i]);
        parts := parts + [current];
        current := "";
      } else {
        GreedyGrow(parts, current, content[i]);
      }
      Extend(content, i, Concat(parts), current);
      current := current + [content[i]];
    }
    assert content[..|content|] == content;
    if current != "" {
      ConcatAppend(parts, current);
      parts := parts + [current];
    }
    hide ByteLength, Concat;
    forall split | Fits(split) && Concat(split) == content ensures |parts| <= |split| {
      GreedyMinimal(parts, split);
    }
    GreedyDense(parts);
  }

  lemma Extend(content: string, i: nat, done: string, current: string)
    requires i < |content| && done + current == content[..i]
    ensures done + (current + [content[i]]) == content[..i + 1]
  {
  }

  lemma OneCharacter(c: char)
    ensures ByteLength([c]) <= PART_BYTES
    ensures "" + [c] == [c]
  {
    assert [c][..0] == "";
  }

  lemma GreedyNext(parts: seq<string>, current: string, c: char)
    requires current != "" && Greedy(parts + [current]) && Fits(parts + [current])
    requires ByteLength(current + [c]) > PART_BYTES
    ensures Greedy(parts + [current] + ["" + [c]]) && Fits(parts + [current] + ["" + [c]])
  {
    var before, after := parts + [current], parts + [current] + ["" + [c]];
    OneCharacter(c);
    forall i | 0 <= i < |after| ensures after[i] != "" && ByteLength(after[i]) <= PART_BYTES {
      assert i < |before| ==> after[i] == before[i];
    }
    forall i | 0 <= i < |after| - 1 ensures ByteLength(after[i] + [after[i + 1][0]]) > PART_BYTES {
      if i < |before| - 1 {
        assert after[i] == before[i] && after[i + 1] == before[i + 1];
      }
    }
  }

  lemma GreedyGrow(parts: seq<string>, current: string, c: char)
    requires current == "" ==> parts == []
    requires current != "" ==> Greedy(parts + [current]) && Fits(parts + [current])
    requires ByteLength(current + [c]) <= PART_BYTES
    ensures Greedy(parts + [current + [c]]) && Fits(parts + [current + [c]])
  {
    var before, after := parts + [current], parts + [current + [c]];
    forall i | 0 <= i < |after| ensures after[i] != "" && ByteLength(after[i]) <= PART_BYTES {
      assert i < |parts| ==> after[i] == before[i];
    }
    forall i | 0 <= i < |after| - 1 ensures ByteLength(after[i] + [after[i + 1][0]]) > PART_BYTES {
      assert after[i] == before[i] && after[i + 1][0] == before[i + 1][0];
    }
  }

  // --- minimality: after k parts the greedy split is never behind any other split

  function Offset(parts: seq<string>, k: nat): nat
    requires k <= |parts|
  {
    |Concat(parts[..k])|
  }

  lemma OffsetStep(parts: seq<string>, k: nat)
    requires k < |parts|
    ensures Offset(parts, k + 1) == Offset(parts, k) + |parts[k]|
    ensures Concat(parts[..k + 1]) == Concat(parts[..k]) + parts[k]
    ensures Offset(parts, 0) == 0
  {
    assert parts[..k + 1][..k] == parts[..k];
  }

  lemma {:induction false} PrefixOf(parts: seq<string>, k: nat)
    requires k <= |parts|
    ensures Offset(parts, k) <= |Concat(parts)|
    ensures Concat(parts)[..Offset(parts, k)] == Concat(parts[..k])
    decreases |parts| - k
  {
    if k == |parts| {
      assert parts[..k] == parts;
    } else {
      PrefixOf(parts, k + 1);
      OffsetStep(parts, k);
    }
  }

  /** Each part is the slice of the content between two offsets. */
  lemma PartAt(parts: seq<string>, k: nat)
    requires k < |parts|
    ensures Offset(parts, k + 1) == Offset(parts, k) + |parts[k]|
    ensures Offset(parts, k + 1) <= |Concat(parts)|
    ensures parts[k] == Concat(parts)[Offset(parts, k)..Offset(parts, k + 1)]
  {
    PrefixOf(parts, k + 1);
    OffsetStep(parts, k);
    var content := Concat(parts);
    assert content[..Offset(parts, k + 1)][Offset(parts, k)..] == content[Offset(parts, k)..Offset(parts, k + 1)];
  }

  lemma SliceAndNext(content: string, a: nat, b: nat, c: nat, part: string, next: string)
    requires a <= b < c <= |content| && part == content[a..b] && next == content[b..c]
    ensures next != "" && part + [next[0]] == content[a..b + 1]
  {
  }

  lemma SliceBytes(content: string, b: nat, a: nat, a': nat, b': nat)
    requires b <= a <= a' <= b' <= |content|
    ensures ByteLength(content[b..b']) >= ByteLength(content[a..a'])
  {
    assert content[b..b'] == content[b..a] + content[a..a'] + content[a'..b'];
    ByteLengthConcat(content[b..a] + content[a..a'], content[a'..b']);
    ByteLengthConcat(content[b..a], content[a..a']);
  }

  lemma GreedyNonEmpty(parts: seq<string>, k: nat)
    requires Greedy(parts) && k < |parts|
    ensures parts[k] != ""
  {
  }

  /** A part that starts no later and ends after a greedy part holds that part and one character more. */
  lemma Overfull(parts: seq<string>, split: seq<string>, k: nat)
    requires Greedy(parts) && Concat(parts) == Concat(split)
    requires k + 1 < |parts| && k < |split| && parts[k + 1] != ""
    requires Offset(split, k) <= Offset(parts, k) && Offset(split, k + 1) > Offset(parts, k + 1)
    ensures ByteLength(split[k]) > PART_BYTES
  {
    assert ByteLength(parts[k] + [parts[k + 1][0]]) > PART_BYTES;
    hide Offset, Concat, ByteLength, Greedy;
    PartAt(parts, k);
    PartAt(parts, k + 1);
    PartAt(split, k);
    var content := Concat(parts);
    SliceAndNext(content, Offset(parts, k), Offset(parts, k + 1), Offset(parts, k + 2), parts[k], parts[k + 1]);
    SliceBytes(content, Offset(split, k), Offset(parts, k), Offset(parts, k + 1) + 1, Offset(split, k + 1));
  }

  lemma {:induction false} GreedyStaysAhead(parts: seq<string>, split: seq<string>, k: nat)
    requires Greedy(parts) && Fits(split) && Concat(parts) == Concat(split)
    requires k <= |parts| && k <= |split|
    ensures Offset(split, k) <= Offset(parts, k)
  {
    if k == 0 {
      assert split[..0] == [];
    } else {
      hide Offset, Concat, ByteLength, Greedy;
      GreedyStaysAhead(parts, split, k - 1);
      PartAt(split, k - 1);
      if k == |parts| {
        WholeOffset(parts);
      } else if Offset(split, k) > Offset(parts, k) {
        GreedyNonEmpty(parts, k);
        Overfull(parts, split, k - 1);
      }
    }
  }

  lemma WholeOffset(parts: seq<string>)
    ensures Offset(parts, |parts|) == |Concat(parts)|
  {
    assert parts[..|parts|] == parts;
  }

  lemma GreedyMinimal(parts: seq<string>, split: seq<string>)
    requires (Greedy(parts) || parts == []) && Fits(split) && Concat(parts) == Concat(split)
    ensures |parts| <= |split|
  {
    if |split| < |parts| {
      hide Offset, Concat, ByteLength;
      GreedyStaysAhead(parts, split, |split|);
      WholeOffset(split);
      PartAt(parts, |split|);
    }
  }

  // --- density: every part but the last is within three bytes of full

  lemma {:induction false} GreedyDense(parts: seq<string>)
    requires Greedy(parts) || parts == []
    ensures |parts| > 0 ==> ByteLength(Concat(parts)) > (PART_BYTES - 3) * (|parts| - 1)
    ensures ByteLength(Concat(parts)) <= RESULT_BYTES ==> |parts| <= 51
    decreases |parts|
  {
    if |parts| > 0 {
      var last := |parts| - 1;
      var front := parts[..last];
      assert Greedy(front);
      ByteLengthConcat(Concat(front), parts[last]);
      ByteLengthPositive(parts[last]);
      if last > 0 {
        DenseFront(front, parts[last][0]);
      }
    }
  }

  /** All parts of a split that could not take the next character are dense. */
  lemma {:induction false} DenseFront(parts: seq<string>, c: char)
    requires Greedy(parts) && parts != [] && ByteLength(parts[|parts| - 1] + [c]) > PART_BYTES
    ensures ByteLength(Concat(parts)) >= (PART_BYTES - 3) * |parts|
    decreases |parts|
  {
    var last := |parts| - 1;
    var front := parts[..last];
    assert Greedy(front);
    ByteLengthConcat(Concat(front), parts[last]);
    ByteLengthConcat(parts[last], [c]);
    if last > 0 {
      DenseFront(front, parts[last][0]);
    }
  }
}
