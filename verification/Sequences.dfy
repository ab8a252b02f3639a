/** Flat row-major buffers: row i of width w lives at [i*w, i*w + w). */
module FlatRows {
  lemma RowInside(i: nat, rows: nat, width: nat)
    requires i < rows
    ensures i * width + width <= rows * width
  {
    assert (rows - i - 1) * width >= 0;
    assert rows * width == i * width + width + (rows - i - 1) * width;
  }

  lemma RowsApart(i: nat, j: nat, width: nat)
    requires i < j
    ensures i * width + width <= j * width
  {
    RowInside(i, j, width);
  }

  lemma Monotone(a: nat, b: nat, width: nat)
    requires a <= b
    ensures a * width <= b * width
  {
    if a < b { RowsApart(a, b, width); }
  }

  /** The first `len` cells of row i. */
  function Row<T>(flat: seq<T>, width: nat, len: nat, i: nat): (r: seq<T>)
    requires len <= width && i * width + width <= |flat|
    ensures |r| == len
  {
    flat[i * width..i * width + len]
  }

  /** The first `len` cells of every row. */
  function Rows<T>(flat: seq<T>, width: nat, len: nat, rows: nat): (r: seq<seq<T>>)
    requires len <= width && rows * width <= |flat|
    ensures |r| == rows
    ensures forall i :: 0 <= i < rows ==> i * width + width <= |flat| && r[i] == Row(flat, width, len, i)
  {
    forall i | 0 <= i < rows ensures i * width + width <= |flat| { RowInside(i, rows, width); }
    seq(rows, i requires 0 <= i < rows && i * width + width <= |flat| => Row(flat, width, len, i))
  }

  /** `flat` with `data` written over it from position `pos` on. */
  function Splice<T>(flat: seq<T>, pos: nat, data: seq<T>): (r: seq<T>)
    requires pos + |data| <= |flat|
    ensures |r| == |flat|
  {
    flat[..pos] + data + flat[pos + |data|..]
  }

  /** Writing inside one row changes that row only. */
  lemma SpliceRow<T>(flat: seq<T>, width: nat, i: nat, rows: nat, data: seq<T>)
    requires i < rows && |data| <= width && rows * width <= |flat|
    ensures i * width + width <= |flat|
    ensures Row(Splice(flat, i * width, data), width, |data|, i) == data
    ensures forall k, len {:trigger Row(Splice(flat, i * width, data), width, len, k)} ::
      0 <= k < rows && k != i && 0 <= len <= width && k * width + width <= |flat| ==>
      Row(Splice(flat, i * width, data), width, len, k) == Row(flat, width, len, k)
  {
    RowInside(i, rows, width);
    var out := Splice(flat, i * width, data);
    forall k, len | 0 <= k < rows && k != i && 0 <= len <= width && k * width + width <= |flat|
      ensures Row(out, width, len, k) == Row(flat, width, len, k)
    {
      if k < i {
        RowsApart(k, i, width);
        assert k * width + len <= i * width;
      } else {
        RowsApart(i, k, width);
        assert i * width + |data| <= k * width;
      }
      assert forall j :: 0 <= j < len ==> Row(out, width, len, k)[j] == out[k * width + j] == flat[k * width + j];
    }
  }

  lemma SpliceRows<T>(flat: seq<T>, width: nat, i: nat, rows: nat, data: seq<T>)
    requires i < rows && |data| <= width && rows * width <= |flat|
    ensures i * width + width <= rows * width
    ensures Rows(Splice(flat, i * width, data), width, |data|, rows) == Rows(flat, width, |data|, rows)[i := data]
  {
    RowInside(i, rows, width);
    SpliceRow(flat, width, i, rows, data);
  }

  lemma AppendCell<T>(flat: seq<T>, width: nat, i: nat, rows: nat, len: nat, x: T)
    requires i < rows && len < width && rows * width <= |flat|
    ensures i * width + width <= rows * width
    ensures var out := flat[i * width + len := x];
      && Rows(out, width, len, rows) == Rows(flat, width, len, rows)
      && Rows(out, width, len + 1, rows) == Rows(flat, width, len + 1, rows)[i := Rows(flat, width, len, rows)[i] + [x]]
  {
    RowInside(i, rows, width);
    var row := Row(flat, width, len, i);
    var out := flat[i * width + len := x];
    assert out == Splice(flat, i * width, row + [x]);
    SpliceRows(flat, width, i, rows, row + [x]);
    SpliceRow(flat, width, i, rows, row + [x]);
    assert Row(out, width, len, i) == Row(out, width, len + 1, i)[..len];
  }

  lemma SpliceNone<T>(flat: seq<T>, pos: nat)
    requires pos <= |flat|
    ensures Splice(flat, pos, []) == flat
  {
  }

  /** Writing one more cell behind the data. */
  lemma SpliceMore<T>(flat: seq<T>, pos: nat, data: seq<T>, x: T)
    requires pos + |data| < |flat|
    ensures Splice(flat, pos, data)[pos + |data| := x] == Splice(flat, pos, data + [x])
  {
    assert (data + [x])[..|data|] == data;
  }

  lemma SpliceTwice<T>(flat: seq<T>, pos: nat, a: seq<T>, b: seq<T>)
    requires pos + |a| + |b| <= |flat|
    ensures Splice(Splice(flat, pos, a), pos + |a|, b) == Splice(flat, pos, a + b)
  {
  }

  /** Copies a run of cells from one buffer into another. */
  method CopySpan<T>(source: array<T>, from: nat, target: array<T>, to: nat, count: nat)
    requires source != target
    requires from + count <= source.Length && to + count <= target.Length
    modifies target
    ensures target[..] == Splice(old(target[..]), to, source[from..from + count])
  {
    hide *;
    ghost var before, data := target[..], source[from..from + count];
    SpliceNone(before, to);
    assert data[..0] == [];
    for k := 0 to count
      invariant target[..] == Splice(before, to, data[..k])
      invariant source[from..from + count] == data
    {
      SpliceMore(before, to, data[..k], data[k]);
      assert data[..k + 1] == data[..k] + [data[k]];
      assert source[from + k] == source[from..from + count][k];
      ghost var was := target[..];
      target[to + k] := source[from + k];
      assert target[..] == was[to + k := data[k]];
    }
    assert data[..count] == data;
  }

  /** Reordering rows by parent index. */
  function Gather<T>(rows: seq<T>, indices: seq<nat>): (r: seq<T>)
    requires forall i :: 0 <= i < |indices| ==> indices[i] < |rows|
    ensures |r| == |indices|
  {
    seq(|indices|, i requires 0 <= i < |indices| => rows[indices[i]])
  }
}

/** The token sequences of all beams, kept in one or two flat buffers. */
module TokenSequences {
  import opened FlatRows

  predicate InRange(indices: seq<nat>, rows: nat) {
    forall i :: 0 <= i < |indices| ==> indices[i] < rows
  }

  /** One step of a beam search: every row becomes its parent's tokens and one more. */
  function Extended(rows: seq<seq<int>>, indices: seq<nat>, tokens: seq<int>): (r: seq<seq<int>>)
    requires InRange(indices, |rows|) && |tokens| == |indices|
    ensures |r| == |indices|
  {
    seq(|indices|, i requires 0 <= i < |indices| => rows[indices[i]] + [tokens[i]])
  }

  /** One step of a greedy search. */
  function Appended(rows: seq<seq<int>>, tokens: seq<int>): (r: seq<seq<int>>)
    requires |tokens| == |rows|
    ensures |r| == |rows|
  {
    seq(|rows|, i requires 0 <= i < |rows| => rows[i] + [tokens[i]])
  }

  /** Every prompt repeated for each of its beams. */
  function Expanded(prompts: seq<seq<int>>, beams: nat): (r: seq<seq<int>>)
    requires beams > 0
    ensures |r| == |prompts| * beams
  {
    seq(|prompts| * beams, i requires 0 <= i < |prompts| * beams =>
      assert i / beams < |prompts| by { BatchOf(i, |prompts|, beams); } prompts[i / beams])
  }

  lemma BatchOf(i: nat, batches: nat, beams: nat)
    requires i < batches * beams
    ensures beams > 0 && i / beams < batches
  {
    var q := i / beams;
    if q >= batches {
      RowsApart(0, 1, beams);
      Monotone(batches, q, beams);
      assert false;
    }
  }

  lemma RowOf(batch: nat, beam: nat, beams: nat)
    requires beam < beams
    ensures (batch * beams + beam) / beams == batch && (batch * beams + beam) % beams == beam
  {
    var q, r := (batch * beams + beam) / beams, (batch * beams + beam) % beams;
    assert q * beams + r == batch * beams + beam;
    if q < batch { RowsApart(q, batch, beams); }
    if batch < q { RowsApart(batch, q, beams); }
  }

  class Sequences {
    var sequences: array<int>
    var sequencesNext: array<int>
    const batchBeamSize: nat
    const maxLength: nat
    var currentLength: nat

    ghost predicate Valid() reads this {
      && sequences.Length == batchBeamSize * maxLength
      && currentLength <= maxLength
    }

    /** The second buffer exists: only for beam search. */
    ghost predicate Doubled() reads this {
      sequencesNext.Length == batchBeamSize * maxLength && sequences != sequencesNext
    }

    ghost function Content(): (r: seq<seq<int>>)
      reads this, sequences
      requires Valid()
      ensures |r| == batchBeamSize
    {
      Rows(sequences[..], maxLength, currentLength, batchBeamSize)
    }

    /** The shape of the buffer and what it holds. */
    lemma Shape()
      requires Valid()
      ensures sequences.Length == batchBeamSize * maxLength && currentLength <= maxLength
      ensures Content() == Rows(sequences[..], maxLength, currentLength, batchBeamSize)
    {
    }

    /** The other buffer, read one token further. */
    ghost function Next(): (r: seq<seq<int>>)
      reads this, sequencesNext
      requires Valid() && Doubled() && currentLength < maxLength
      ensures |r| == batchBeamSize
    {
      Rows(sequencesNext[..], maxLength, currentLength + 1, batchBeamSize)
    }

    lemma RowIs(i: nat)
      requires Valid() && i < batchBeamSize
      ensures i * maxLength + currentLength <= sequences.Length
      ensures Content()[i] == sequences[i * maxLength..i * maxLength + currentLength]
    {
      RowInside(i, batchBeamSize, maxLength);
    }

    lemma NextShape()
      requires Valid() && Doubled() && currentLength < maxLength
      ensures sequences != sequencesNext && sequencesNext.Length == batchBeamSize * maxLength
      ensures Next() == Rows(sequencesNext[..], maxLength, currentLength + 1, batchBeamSize)
    {
    }

    /** The current buffer, read one token further. */
    ghost function Ahead(): (r: seq<seq<int>>)
      reads this, sequences
      requires Valid() && currentLength < maxLength
      ensures |r| == batchBeamSize
    {
      Rows(sequences[..], maxLength, currentLength + 1, batchBeamSize)
    }

    constructor (inputSequences: seq<int>, batchSize: nat, beamSize: nat, maxLength: nat)
      requires batchSize > 0 && beamSize > 0
      requires |inputSequences| / batchSize * batchSize == |inputSequences|
      requires |inputSequences| / batchSize <= maxLength
      ensures Valid() && fresh(sequences) && fresh(sequencesNext) && (beamSize > 1 ==> Doubled())
      ensures this.maxLength == maxLength && currentLength == |inputSequences| / batchSize
      ensures batchBeamSize == batchSize * beamSize
      ensures Content() == Expanded(Rows(inputSequences, currentLength, currentLength, batchSize), beamSize)
    {
      batchBeamSize := batchSize * beamSize;
      this.maxLength := maxLength;
      currentLength := |inputSequences| / batchSize;
      sequences := new int[batchSize * beamSize * maxLength];
      sequencesNext := new int[if beamSize == 1 then 0 else batchSize * beamSize * maxLength];
      new;
      Expand(inputSequences, batchSize, beamSize);
    }

    /** The constructor's loops: every prompt into each of its beams' rows. */
    method Expand(inputSequences: seq<int>, batchSize: nat, beamSize: nat)
      requires Valid() && beamSize > 0 && batchBeamSize == batchSize * beamSize
      requires batchSize * currentLength == |inputSequences|
      modifies sequences
      ensures Content() == Expanded(Rows(inputSequences, currentLength, currentLength, batchSize), beamSize)
    {
      ghost var prompts := Rows(inputSequences, currentLength, currentLength, batchSize);
      ghost var expected := Expanded(prompts, beamSize);
      for batch := 0 to batchSize
        invariant batch * beamSize <= batchBeamSize
        invariant forall i :: 0 <= i < batch * beamSize ==> Content()[i] == expected[i]
      {
        RowInside(batch, batchSize, beamSize);
        RowInside(batch, batchSize, currentLength);
        var prompt := inputSequences[batch * currentLength..batch * currentLength + currentLength];
        for beam := 0 to beamSize
          invariant forall i :: 0 <= i < batch * beamSize + beam ==> Content()[i] == expected[i]
        {
          RowOf(batch, beam, beamSize);
          SetRow(batch * beamSize + beam, prompt);
        }
        assert (batch + 1) * beamSize == batch * beamSize + beamSize;
      }
    }

    /** The innermost loop of the constructor: one prompt into one row. */
    method SetRow(row: nat, prompt: seq<int>)
      requires Valid() && row < batchBeamSize && |prompt| == currentLength
      modifies sequences
      ensures Content() == old(Content())[row := prompt]
    {
      hide *;
      Shape();
      RowInside(row, batchBeamSize, maxLength);
      var start := row * maxLength;
      ghost var before := sequences[..];
      SpliceNone(before, start);
      assert prompt[..0] == [];
      for j := 0 to currentLength
        invariant sequences[..] == Splice(before, start, prompt[..j])
        modifies sequences
      {
        SpliceMore(before, start, prompt[..j], prompt[j]);
        assert prompt[..j + 1] == prompt[..j] + [prompt[j]];
        ghost var was := sequences[..];
        sequences[start + j] := prompt[j];
        assert sequences[..] == was[start + j := prompt[j]];
      }
      assert prompt[..currentLength] == prompt;
      SpliceRows(before, maxLength, row, batchBeamSize, prompt);
      Shape();
    }

    method GetSequence(batchBeamIndex: nat) returns (r: seq<int>)
      requires Valid() && batchBeamIndex < batchBeamSize
      ensures r == Content()[batchBeamIndex]
    {
      RowInside(batchBeamIndex, batchBeamSize, maxLength);
      r := sequences[batchBeamIndex * maxLength..batchBeamIndex * maxLength + currentLength];
    }

    /** Beam search: gather the parents' rows into the other buffer, append, swap buffers. */
    method AppendNextTokenToSequences(batchBeamIndices: seq<nat>, batchBeamNextTokens: seq<int>)
      requires Valid() && Doubled() && currentLength < maxLength
      requires |batchBeamIndices| == |batchBeamNextTokens| == batchBeamSize
      requires InRange(batchBeamIndices, batchBeamSize)
      modifies this, sequencesNext
      ensures Valid() && Doubled() && {sequences, sequencesNext} == old({sequences, sequencesNext})
      ensures currentLength == old(currentLength) + 1
      ensures Content() == Extended(old(Content()), batchBeamIndices, batchBeamNextTokens)
    {
      hide *;
      Shape();
      NextShape();
      ghost var rows := Content();
      ghost var result := Extended(rows, batchBeamIndices, batchBeamNextTokens);
      for i := 0 to batchBeamSize
        invariant Content() == rows && Next()[..i] == result[..i]
        modifies sequencesNext
      {
        ExtendedAt(rows, batchBeamIndices, batchBeamNextTokens, i);
        ExtendRow(i, batchBeamIndices[i], batchBeamNextTokens[i]);
        assert Next()[..i + 1] == Next()[..i] + [result[i]];
      }
      assert Next()[..batchBeamSize] == Next() && result[..batchBeamSize] == result;
      NextShape();
      currentLength := currentLength + 1;
      sequences, sequencesNext := sequencesNext, sequences;
      MakeValid();
      Shape();
    }

    lemma MakeValid()
      requires sequences.Length == sequencesNext.Length == batchBeamSize * maxLength && sequences != sequencesNext
        && currentLength <= maxLength
      ensures Valid() && Doubled()
    {
    }

    lemma ExtendedAt(rows: seq<seq<int>>, indices: seq<nat>, tokens: seq<int>, i: nat)
      requires InRange(indices, |rows|) && |tokens| == |indices| && i < |indices|
      ensures indices[i] < |rows| && Extended(rows, indices, tokens)[i] == rows[indices[i]] + [tokens[i]]
    {
    }

    /** The loop body: row i of the other buffer becomes its parent's tokens and one more. */
    method ExtendRow(i: nat, batchBeamIndex: nat, nextToken: int)
      requires Valid() && Doubled() && currentLength < maxLength
      requires i < batchBeamSize && batchBeamIndex < batchBeamSize
      modifies sequencesNext
      ensures Next() == old(Next())[i := Content()[batchBeamIndex] + [nextToken]]
    {
      hide *;
      Shape();
      NextShape();
      RowInside(batchBeamIndex, batchBeamSize, maxLength);
      RowInside(i, batchBeamSize, maxLength);
      ghost var before, row := sequencesNext[..], Content()[batchBeamIndex];
      RowIs(batchBeamIndex);
      var from, to := batchBeamIndex * maxLength, i * maxLength;
      CopySpan(sequences, from, sequencesNext, to, currentLength);
      SpliceMore(before, to, row, nextToken);
      ghost var was := sequencesNext[..];
      sequencesNext[to + currentLength] := nextToken;
      assert sequencesNext[..] == was[to + currentLength := nextToken];
      SpliceRows(before, maxLength, i, batchBeamSize, row + [nextToken]);
      NextShape();
    }

    /** Greedy search: append in place. */
    method AppendNextTokens(nextTokens: seq<int>)
      requires Valid() && currentLength < maxLength
      requires |nextTokens| == batchBeamSize
      modifies this`currentLength, sequences
      ensures Valid() && currentLength == old(currentLength) + 1
      ensures Content() == Appended(old(Content()), nextTokens)
    {
      ghost var result := Appended(Content(), nextTokens);
      for i := 0 to batchBeamSize
        invariant Content() == old(Content())
        invariant Ahead()[..i] == result[..i]
        modifies sequences
      {
        AppendToRow(i, nextTokens[i]);
        assert Ahead()[..i + 1] == Ahead()[..i] + [result[i]];
      }
      assert Ahead() == result;
      currentLength := currentLength + 1;
    }

    /** The loop body: one more token in row i. */
    method AppendToRow(i: nat, nextToken: int)
      requires Valid() && currentLength < maxLength && i < batchBeamSize
      modifies sequences
      ensures Content() == old(Content())
      ensures Ahead() == old(Ahead())[i := old(Content())[i] + [nextToken]]
    {
      AppendCell(sequences[..], maxLength, i, batchBeamSize, currentLength, nextToken);
      sequences[i * maxLength + currentLength] := nextToken;
      assert sequences[..] == old(sequences[..])[i * maxLength + currentLength := nextToken];
    }
  }
}
