/** The padding collator returned by `collate_function(tokenizer)`
    (naacl/utils.py:156-218), and torch's `pad_sequence(batch_first=True)`
    over integer sequences, which it relies on. */
module Padding {
  import opened Wrappers

  /** The longest length among the rows; 0 for no rows. */
  function MaxLen(rows: seq<seq<int>>): (m: nat)
    ensures forall i :: 0 <= i < |rows| ==> |rows[i]| <= m
    ensures |rows| > 0 ==> exists i :: 0 <= i < |rows| && |rows[i]| == m
    ensures |rows| == 0 ==> m == 0
  {
    if |rows| == 0 then 0
    else
      var rest := MaxLen(rows[1..]);
      assert forall i :: 1 <= i < |rows| ==> rows[i] == rows[1..][i - 1];
      if |rows[0]| >= rest then |rows[0]| else rest
  }

  /** `out` is `rows` right-padded with `pad` to the longest row: the same
      number of rows in the same order, each of the maximum length, each
      starting with the original row and holding `pad` after it. */
  ghost predicate IsPadding(rows: seq<seq<int>>, out: seq<seq<int>>, pad: int)
  {
    && |out| == |rows|
    && (forall i :: 0 <= i < |rows| ==> |out[i]| == MaxLen(rows) && out[i][..|rows[i]|] == rows[i])
    && (forall i, j :: 0 <= i < |rows| && |rows[i]| <= j < |out[i]| ==> out[i][j] == pad)
  }

  function PadRow(row: seq<int>, len: nat, pad: int): (r: seq<int>)
    requires |row| <= len
  {
    row + seq(len - |row|, _ => pad)
  }

  /** `pad_sequence(rows, batch_first=True, padding_value=pad)`. torch refuses
      an empty list; that case is handled by the caller below. */
  function PadSequence(rows: seq<seq<int>>, pad: int): (out: seq<seq<int>>)
    ensures IsPadding(rows, out, pad)
  {
    var m := MaxLen(rows);
    seq(|rows|, i requires 0 <= i < |rows| => PadRow(rows[i], m, pad))
  }

  /** Padding is determined by its three properties: any `out` that has them
      is what `PadSequence` returns. */
  lemma PaddingUnique(rows: seq<seq<int>>, out: seq<seq<int>>, pad: int)
    requires IsPadding(rows, out, pad)
    ensures out == PadSequence(rows, pad)
  {
    var p := PadSequence(rows, pad);
    forall i | 0 <= i < |rows|
      ensures out[i] == p[i]
    {
      assert |out[i]| == |p[i]|;
      forall j | 0 <= j < |out[i]|
        ensures out[i][j] == p[i][j]
      {
        if j < |rows[i]| {
          assert out[i][j] == out[i][..|rows[i]|][j];
          assert p[i][j] == p[i][..|rows[i]|][j];
        }
      }
    }
  }

  /** Padding an already padded batch changes nothing. */
  lemma {:induction false} PadIdempotent(rows: seq<seq<int>>, pad: int)
    ensures PadSequence(PadSequence(rows, pad), pad) == PadSequence(rows, pad)
  {
    var p := PadSequence(rows, pad);
    var m := MaxLen(rows);
    assert MaxLen(p) == m by {
      if |rows| > 0 {
        var k :| 0 <= k < |p| && |p[k]| == MaxLen(p);
      }
    }
    var q := PadSequence(p, pad);
    forall i | 0 <= i < |p|
      ensures q[i] == p[i]
    {
      assert q[i][..|p[i]|] == p[i];
    }
  }

  /** The tokenizer's special token ids (None when undefined). */
  datatype Tokenizer = Tokenizer(padTokenId: Option<int>, eosTokenId: Option<int>)

  /** `if tokenizer.pad_token_id is None: tokenizer.pad_token = tokenizer.eos_token`:
      the pad token falls back to the end-of-sequence token; the tokenizer
      passed in is changed for every later call too. */
  function EnsurePadToken(tok: Tokenizer): (t: Tokenizer)
    ensures t.eosTokenId == tok.eosTokenId
    ensures tok.padTokenId.Some? ==> t == tok
    ensures tok.padTokenId.None? ==> t.padTokenId == tok.eosTokenId
  {
    if tok.padTokenId.None? then tok.(padTokenId := tok.eosTokenId) else tok
  }

  /** Patching the pad token a second time changes nothing. */
  lemma EnsurePadTokenIdempotent(tok: Tokenizer)
    ensures EnsurePadToken(EnsurePadToken(tok)) == EnsurePadToken(tok)
  {
  }

  /** One example's tokenized fields. */
  datatype Example = Example(inputIds: seq<int>, attentionMask: seq<int>, labels: seq<int>)

  datatype Field = InputIds | AttentionMask | Labels

  /** `[item[field] for item in batch]`. */
  function Column(batch: seq<Example>, f: Field): (col: seq<seq<int>>)
    ensures |col| == |batch|
  {
    seq(|batch|, i requires 0 <= i < |batch| =>
      match f
      case InputIds => batch[i].inputIds
      case AttentionMask => batch[i].attentionMask
      case Labels => batch[i].labels)
  }

  datatype PaddedBatch = PaddedBatch(inputIds: seq<seq<int>>, attentionMask: seq<seq<int>>, labels: seq<seq<int>>)

  datatype CollateError =
    | NoPadValue    // neither a pad nor an end-of-sequence id: `padding_value=None` is refused
    | EmptyBatch    // torch's pad_sequence refuses an empty list

  /** What a call returns, together with the tokenizer as the call leaves it. */
  datatype Collated = Collated(tokenizer: Tokenizer, batch: Result<PaddedBatch, CollateError>)

  /** The inner `collate_fn(batch)` of `collate_function(tokenizer)`. */
  function PadCollate(tok: Tokenizer, batch: seq<Example>): (c: Collated)
    ensures c.tokenizer == EnsurePadToken(tok)
    ensures c.batch == Err(NoPadValue) <==> tok.padTokenId.None? && tok.eosTokenId.None?
    ensures c.batch == Err(EmptyBatch) <==> (tok.padTokenId.Some? || tok.eosTokenId.Some?) && |batch| == 0
    ensures c.batch.Ok? ==>
      var padId := if tok.padTokenId.Some? then tok.padTokenId.value else tok.eosTokenId.value;
      && IsPadding(Column(batch, InputIds), c.batch.value.inputIds, padId)
      && IsPadding(Column(batch, AttentionMask), c.batch.value.attentionMask, 0)
      && IsPadding(Column(batch, Labels), c.batch.value.labels, -1)
  {
    var t := EnsurePadToken(tok);
    var result :=
      if t.padTokenId.None? then Err(NoPadValue)
      else if |batch| == 0 then Err(EmptyBatch)
      else Ok(PaddedBatch(
        PadSequence(Column(batch, InputIds), t.padTokenId.value),
        PadSequence(Column(batch, AttentionMask), 0),
        PadSequence(Column(batch, Labels), -1)));
    Collated(t, result)
  }

  /** Three examples of lengths 3, 5 and 2 give a 3 x 5 block, and the
      shortest example's tail holds the pad values. */
  lemma ThreeExampleBatch(tok: Tokenizer, a: seq<int>, b: seq<int>, c: seq<int>)
    requires tok.padTokenId.Some?
    requires |a| == 3 && |b| == 5 && |c| == 2
    ensures var r := PadCollate(tok, [Example(a, a, a), Example(b, b, b), Example(c, c, c)]).batch;
      && r.Ok?
      && |r.value.inputIds| == 3
      && (forall i :: 0 <= i < 3 ==> |r.value.inputIds[i]| == 5)
      && r.value.inputIds[2][2..] == [tok.padTokenId.value, tok.padTokenId.value, tok.padTokenId.value]
      && r.value.labels[2][2..] == [-1, -1, -1]
      && r.value.attentionMask[2][2..] == [0, 0, 0]
  {
    var batch := [Example(a, a, a), Example(b, b, b), Example(c, c, c)];
    assert Column(batch, InputIds) == [a, b, c];
    assert Column(batch, AttentionMask) == [a, b, c];
    assert Column(batch, Labels) == [a, b, c];
    ThreeRows(a, b, c, tok.padTokenId.value);
    ThreeRows(a, b, c, 0);
    ThreeRows(a, b, c, -1);
  }

  /** `pad_sequence` on rows of lengths 3, 5 and 2: a 3 x 5 block whose last
      row ends in three pad values. */
  lemma ThreeRows(a: seq<int>, b: seq<int>, c: seq<int>, pad: int)
    requires |a| == 3 && |b| == 5 && |c| == 2
    ensures var out := PadSequence([a, b, c], pad);
      && |out| == 3
      && (forall i :: 0 <= i < 3 ==> |out[i]| == 5)
      && out[2][2..] == [pad, pad, pad]
  {
    var rows := [a, b, c];
    assert MaxLen(rows[2..]) == 2;
    assert MaxLen(rows[1..]) == 5 by {
      assert rows[1..][1..] == rows[2..];
    }
    assert MaxLen(rows) == 5 by {
      assert rows[1..] == [b, c];
    }
    var out := PadSequence(rows, pad);
    assert out[2] == c + seq(3, _ => pad);
    assert out[2][2..] == seq(3, _ => pad);
  }
}
