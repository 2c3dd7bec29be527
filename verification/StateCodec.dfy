/** The state encoding: a world description over a fixed, ordered vocabulary of
    fluents becomes a boolean vector parallel to that vocabulary, and back. */
module StateCodec {
  import opened Fluents

  /** A state: position `i` is true exactly when the `i`-th vocabulary fluent holds. */
  type State = seq<bool>

  /** Fluent `f` is tracked at some position that `s` marks true. */
  predicate Holds(s: State, vocab: seq<Fluent>, f: Fluent)
    requires |s| == |vocab|
  {
    exists i :: 0 <= i < |vocab| && vocab[i] == f && s[i]
  }

  /** Fluent `f` is tracked at some position that `s` marks false. */
  predicate Fails(s: State, vocab: seq<Fluent>, f: Fluent)
    requires |s| == |vocab|
  {
    exists i :: 0 <= i < |vocab| && vocab[i] == f && !s[i]
  }

  /** The two lists of `fs` together list exactly the vocabulary's fluents and share none. */
  predicate Partitions(fs: FluentState, vocab: seq<Fluent>)
  {
    Elems(fs.pos) + Elems(fs.neg) == Elems(vocab) && Elems(fs.pos) !! Elems(fs.neg)
  }

  /** Encodes a world description against the vocabulary, one position per
      vocabulary entry, true when the entry is among the positive fluents. The
      negative list is not consulted and coverage is not checked. */
  function Encode(fs: FluentState, vocab: seq<Fluent>): (s: State)
    ensures |s| == |vocab|
    ensures forall i :: 0 <= i < |vocab| ==> (s[i] <==> vocab[i] in fs.pos)
  {
    if vocab == [] then []
    else [vocab[0] in fs.pos] + Encode(fs, vocab[1..])
  }

  /** Splits the vocabulary by the state's values: true positions go to the
      positive list, false positions to the negative list, in vocabulary order. */
  function Decode(s: State, vocab: seq<Fluent>): (fs: FluentState)
    requires |s| == |vocab|
    ensures |fs.pos| + |fs.neg| == |vocab|
    ensures forall f :: f in fs.pos <==> Holds(s, vocab, f)
    ensures forall f :: f in fs.neg <==> Fails(s, vocab, f)
  {
    if s == [] then FluentState([], [])
    else
      var rest := Decode(s[1..], vocab[1..]);
      HoldsCons(s, vocab);
      if s[0] then FluentState([vocab[0]] + rest.pos, rest.neg)
      else FluentState(rest.pos, [vocab[0]] + rest.neg)
  }

  /** `Holds` and `Fails` on a non-empty state split into the head position and the rest. */
  lemma HoldsCons(s: State, vocab: seq<Fluent>)
    requires |s| == |vocab| > 0
    ensures forall f :: Holds(s, vocab, f) <==> (vocab[0] == f && s[0]) || Holds(s[1..], vocab[1..], f)
    ensures forall f :: Fails(s, vocab, f) <==> (vocab[0] == f && !s[0]) || Fails(s[1..], vocab[1..], f)
  {
    forall f | Holds(s, vocab, f) && !(vocab[0] == f && s[0])
      ensures Holds(s[1..], vocab[1..], f)
    {
      var i :| 0 <= i < |vocab| && vocab[i] == f && s[i];
      assert vocab[1..][i - 1] == f && s[1..][i - 1];
    }
    forall f | Fails(s, vocab, f) && !(vocab[0] == f && !s[0])
      ensures Fails(s[1..], vocab[1..], f)
    {
      var i :| 0 <= i < |vocab| && vocab[i] == f && !s[i];
      assert vocab[1..][i - 1] == f && !s[1..][i - 1];
    }
    forall f | Holds(s[1..], vocab[1..], f)
      ensures Holds(s, vocab, f)
    {
      var i :| 0 <= i < |vocab| - 1 && vocab[1..][i] == f && s[1..][i];
      assert vocab[i + 1] == f && s[i + 1];
    }
    forall f | Fails(s[1..], vocab[1..], f)
      ensures Fails(s, vocab, f)
    {
      var i :| 0 <= i < |vocab| - 1 && vocab[1..][i] == f && !s[1..][i];
      assert vocab[i + 1] == f && !s[i + 1];
    }
  }

  /** Decoding any state of a duplicate-free vocabulary yields a disjoint,
      exhaustive partition of that vocabulary. */
  lemma DecodePartitions(s: State, vocab: seq<Fluent>)
    requires |s| == |vocab|
    requires NoDup(vocab)
    ensures Partitions(Decode(s, vocab), vocab)
  {
    var fs := Decode(s, vocab);
    forall f | f in Elems(vocab)
      ensures f in Elems(fs.pos) + Elems(fs.neg)
    {
      var i :| 0 <= i < |vocab| && vocab[i] == f;
      if s[i] {
        assert Holds(s, vocab, f);
      } else {
        assert Fails(s, vocab, f);
      }
    }
    forall f | f in Elems(fs.pos)
      ensures f !in Elems(fs.neg)
    {
      var i :| 0 <= i < |vocab| && vocab[i] == f && s[i];
      forall j | 0 <= j < |vocab| && vocab[j] == f
        ensures s[j]
      {
        assert j == i;
      }
    }
  }

  /** On a duplicate-free vocabulary a fluent holds exactly when its own position is true. */
  lemma HoldsAt(s: State, vocab: seq<Fluent>, i: int)
    requires |s| == |vocab|
    requires NoDup(vocab)
    requires 0 <= i < |vocab|
    ensures Holds(s, vocab, vocab[i]) <==> s[i]
    ensures Fails(s, vocab, vocab[i]) <==> !s[i]
  {
  }

  /** On a duplicate-free vocabulary, the fluent at position `i` is decoded
      positive exactly when the state sets that position, and negative otherwise. */
  lemma DecodeAt(s: State, vocab: seq<Fluent>, i: int)
    requires |s| == |vocab|
    requires NoDup(vocab)
    requires 0 <= i < |vocab|
    ensures vocab[i] in Decode(s, vocab).pos <==> s[i]
    ensures vocab[i] in Decode(s, vocab).neg <==> !s[i]
  {
    HoldsAt(s, vocab, i);
  }

  /** A fluent outside the vocabulary is decoded neither positive nor negative. */
  lemma DecodeOutside(s: State, vocab: seq<Fluent>, f: Fluent)
    requires |s| == |vocab|
    requires f !in vocab
    ensures f !in Decode(s, vocab).pos && f !in Decode(s, vocab).neg
  {
  }

  /** Round trip, state first: re-encoding a decoded state gives the state back
      when the vocabulary is duplicate-free. */
  lemma EncodeDecode(s: State, vocab: seq<Fluent>)
    requires |s| == |vocab|
    requires NoDup(vocab)
    ensures Encode(Decode(s, vocab), vocab) == s
  {
    var t := Encode(Decode(s, vocab), vocab);
    forall i | 0 <= i < |vocab|
      ensures t[i] == s[i]
    {
      HoldsAt(s, vocab, i);
    }
  }

  /** Round trip, world description first: decoding the encoding of a partition
      of the vocabulary gives back the same positive and negative fluents. */
  lemma DecodeEncode(fs: FluentState, vocab: seq<Fluent>)
    requires Partitions(fs, vocab)
    ensures Elems(Decode(Encode(fs, vocab), vocab).pos) == Elems(fs.pos)
    ensures Elems(Decode(Encode(fs, vocab), vocab).neg) == Elems(fs.neg)
  {
    var s := Encode(fs, vocab);
    var d := Decode(s, vocab);
    forall f | f in Elems(fs.pos)
      ensures f in Elems(d.pos)
    {
      assert f in Elems(vocab);
      var i :| 0 <= i < |vocab| && vocab[i] == f;
      assert Holds(s, vocab, f);
    }
    forall f | f in Elems(fs.neg)
      ensures f in Elems(d.neg)
    {
      assert f in Elems(vocab);
      var i :| 0 <= i < |vocab| && vocab[i] == f;
      assert Fails(s, vocab, f);
    }
  }

  /** Decoding an encoding keeps, in vocabulary order, the entries listed as
      positive and the entries not listed as positive. */
  lemma {:induction false} DecodeEncodeLists(fs: FluentState, vocab: seq<Fluent>)
    ensures Decode(Encode(fs, vocab), vocab) == FluentState(Keep(vocab, fs.pos), Without(vocab, fs.pos))
  {
    if vocab != [] {
      var s := Encode(fs, vocab);
      assert s[1..] == Encode(fs, vocab[1..]);
      DecodeEncodeLists(fs, vocab[1..]);
    }
  }

  /** The vocabulary is the positive list followed by the negative list; when the
      two lists share no fluent, the encoding is a run of trues followed by a run
      of falses and decodes back to exactly the same two lists. */
  lemma InitialEncoding(fs: FluentState)
    requires Elems(fs.pos) !! Elems(fs.neg)
    ensures Encode(fs, fs.pos + fs.neg) == seq(|fs.pos|, _ => true) + seq(|fs.neg|, _ => false)
    ensures Decode(Encode(fs, fs.pos + fs.neg), fs.pos + fs.neg) == fs
  {
    var vocab := fs.pos + fs.neg;
    var s := Encode(fs, vocab);
    forall i | |fs.pos| <= i < |vocab|
      ensures !s[i]
    {
      assert vocab[i] == fs.neg[i - |fs.pos|];
      assert vocab[i] in Elems(fs.neg);
    }
    assert s == seq(|fs.pos|, _ => true) + seq(|fs.neg|, _ => false);
    DecodeEncodeLists(fs, vocab);
    KeepAppend(fs.pos, fs.neg, fs.pos);
    WithoutAppend(fs.pos, fs.neg, fs.pos);
    KeepAll(fs.pos, fs.pos);
    WithoutNone(fs.neg, fs.pos);
    assert Keep(fs.neg, fs.pos) == [];
    assert Without(fs.pos, fs.pos) == [];
  }
}
