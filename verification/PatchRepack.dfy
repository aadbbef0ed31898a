/** Patch-embedding repackers: the temporal split of compatmigrate/qwen3vl.go and
    the reshape of compatmigrate/nemotron3.go. */
module PatchRepack {
  import opened Shapes
  import opened SliceConcat
  import opened Results

  // ---- Qwen3-VL: one temporal half of a patch kernel ----------------------

  datatype PatchError = BadRank | BadTemporal | BadChannels | OutOfRange

  /** Where output element dst of temporal half t is read: hw elements per frame. */
  function HalfSource(dst: nat, hw: nat, temporal: nat, t: nat): nat {
    if hw == 0 then 0 else (dst / hw * temporal + t) * hw + dst % hw
  }

  /** The dimensions of the kernel, outermost first. */
  function Kernel(shape: seq<nat>): seq<nat>
    requires |shape| == 4
  {
    [shape[3], shape[2], shape[1], shape[0]]
  }

  /** One temporal half. On a full kernel it is the slice [t, t + 1) along the temporal
      axis. */
  method SplitTemporal<T(0)>(data: seq<T>, shape: seq<nat>, numChannels: nat, t: nat)
    returns (r: Result<seq<T>, PatchError>)
    requires numChannels > 0
    ensures r == Failure(BadRank) <==> |shape| != 4
    ensures r == Failure(BadTemporal) <==> |shape| == 4 && shape[2] <= t
    ensures r == Failure(BadChannels) <==> |shape| == 4 && shape[2] > t && shape[3] % numChannels != 0
    ensures |shape| == 4 && shape[2] > t && shape[3] % numChannels == 0 ==>
              var hw := Times(shape[1], shape[0]); var n := Times(shape[3], hw);
              (r.Success? <==> forall dst | 0 <= dst < n :: HalfSource(dst, hw, shape[2], t) < |data|) &&
              (r.Success? ==> |r.value| == n && forall dst | 0 <= dst < n ::
                r.value[dst] == data[HalfSource(dst, hw, shape[2], t)])
    ensures |shape| == 4 && shape[2] > t && shape[3] % numChannels == 0 && |data| == Size(Kernel(shape)) ==>
              r == Success(Sliced(Tensor(data, Kernel(shape)), 1, t, t + 1).data)
  {
    if |shape| != 4 {
      return Failure(BadRank);
    }
    var width, height, temporal, flat := shape[0], shape[1], shape[2], shape[3];
    if temporal <= t {
      return Failure(BadTemporal);
    }
    if flat % numChannels != 0 {
      return Failure(BadChannels);
    }
    r := CopyHalf(data, width, height, temporal, flat, numChannels, t);
    if |data| == Size(Kernel(shape)) {
      hide Size, Sliced, HalfSource, Times;
      HalfIsSlice(data, flat, temporal, height, width, t);
      assert r.Success?;
      assert r.value == Sliced(Tensor(data, Kernel(shape)), 1, t, t + 1).data;
    }
  }

  method CopyHalf<T(0)>(data: seq<T>, width: nat, height: nat, temporal: nat, flat: nat, numChannels: nat, t: nat)
    returns (r: Result<seq<T>, PatchError>)
    requires numChannels > 0 && flat % numChannels == 0
    ensures r.Failure? ==> r.error == OutOfRange
    ensures var hw := Times(height, width); var n := Times(flat, hw);
            (r.Success? <==> forall dst | 0 <= dst < n :: HalfSource(dst, hw, temporal, t) < |data|) &&
            (r.Success? ==> |r.value| == n && forall dst | 0 <= dst < n ::
              r.value[dst] == data[HalfSource(dst, hw, temporal, t)])
  {
    var hidden := flat / numChannels;
    assert flat == Times(hidden, numChannels);
    ghost var hw := Times(height, width);
    hide Times, HalfSource;
    var result := new T[width * height * numChannels * hidden];
    assert result.Length == Times(flat, hw) by { HalfSize(width, height, numChannels, hidden); }
    var dst := 0;
    TimesNext(0, numChannels);
    TimesNext(0, hw);
    TimesNext(0, width);
    for outIdx := 0 to hidden
      invariant dst == Times(Times(outIdx, numChannels), hw)
      invariant HalfFilled(result[..], data, dst, hw, temporal, t)
    {
      for channel := 0 to numChannels
        invariant dst == Times(Times(outIdx, numChannels) + channel, hw)
        invariant HalfFilled(result[..], data, dst, hw, temporal, t)
      {
        TimesIs(outIdx, numChannels);
        var flatOC := outIdx * numChannels + channel;
        RowBound(outIdx, hidden, channel, numChannels);
        for y := 0 to height
          invariant dst == Times(flatOC, hw) + Times(y, width)
          invariant HalfFilled(result[..], data, dst, hw, temporal, t)
        {
          for x := 0 to width
            invariant dst == Times(flatOC, hw) + Times(y, width) + x
            invariant HalfFilled(result[..], data, dst, hw, temporal, t)
          {
            var src := ((flatOC * temporal + t) * height + y) * width + x;
            HalfStep(flatOC, flat, height, width, temporal, t, y, x);
            if src >= |data| {
              return Failure(OutOfRange);
            }
            result[dst] := data[src];
            dst := dst + 1;
          }
          TimesNext(y, width);
        }
        TimesNext(flatOC, hw);
      }
      TimesNext(outIdx, numChannels);
    }
    return Success(result[..]);
  }

  /** The first dst outputs have been read from in-range sources. */
  ghost predicate HalfFilled<T>(result: seq<T>, data: seq<T>, dst: nat, hw: nat, temporal: nat, t: nat) {
    && dst <= |result|
    && forall k | 0 <= k < dst ::
         HalfSource(k, hw, temporal, t) < |data| && result[k] == data[HalfSource(k, hw, temporal, t)]
  }

  lemma HalfSize(width: nat, height: nat, channels: nat, hidden: nat)
    ensures width * height * channels * hidden == Times(Times(hidden, channels), Times(height, width))
  {}

  /** The position the loops compute is the one the running index stands for. */
  lemma HalfStep(flatOC: nat, flat: nat, height: nat, width: nat, temporal: nat, t: nat, y: nat, x: nat)
    requires flatOC < flat && y < height && x < width
    ensures var hw := Times(height, width); var dst := Times(flatOC, hw) + Times(y, width) + x;
            dst < Times(flat, hw) && HalfSource(dst, hw, temporal, t)
              == ((flatOC * temporal + t) * height + y) * width + x
  {
    var hw := Times(height, width);
    RowBound(y, height, x, width);
    var rest := Times(y, width) + x;
    RowBound(flatOC, flat, rest, hw);
    var dst := Times(flatOC, hw) + rest;
    RowOf(dst, flat, hw);
    RowUnique(dst / hw, dst % hw, flatOC, rest, hw);
    HalfProducts(flatOC * temporal + t, height, y, width, x);
  }

  lemma HalfProducts(frame: nat, height: nat, y: nat, width: nat, x: nat)
    ensures frame * Times(height, width) + (Times(y, width) + x) == (frame * height + y) * width + x
  {}

  /** On a full [flat, temporal, height, width] kernel every source is in range,
      and half t is the slice [t, t + 1) along the temporal axis. */
  lemma HalfIsSlice<T>(data: seq<T>, flat: nat, temporal: nat, height: nat, width: nat, t: nat)
    requires |data| == Size([flat, temporal, height, width]) && t < temporal
    ensures var want, hw := Sliced(Tensor(data, [flat, temporal, height, width]), 1, t, t + 1).data,
              Times(height, width);
            |want| == Times(flat, hw) && forall dst | 0 <= dst < |want| ::
              HalfSource(dst, hw, temporal, t) < |data| && want[dst] == data[HalfSource(dst, hw, temporal, t)]
  {
    hide Times, Size, Ravel, Sliced, HalfSource;
    var r, hw := Sliced(Tensor(data, [flat, temporal, height, width]), 1, t, t + 1), Times(height, width);
    assert r.dims == [flat, 1, height, width];
    Horner4(flat, 1, height, width, 0, 0, 0, 0);
    TimesOne(flat);
    TimesAssoc(flat, height, width);
    forall dst | 0 <= dst < |r.data|
      ensures HalfSource(dst, hw, temporal, t) < |data| && r.data[dst] == data[HalfSource(dst, hw, temporal, t)]
    {
      HalfEntry(data, flat, temporal, height, width, t, dst);
    }
  }

  lemma HalfEntry<T>(data: seq<T>, flat: nat, temporal: nat, height: nat, width: nat, t: nat, dst: nat)
    requires |data| == Size([flat, temporal, height, width]) && t < temporal && dst < Times(flat, Times(height, width))
    ensures var want, src := Sliced(Tensor(data, [flat, temporal, height, width]), 1, t, t + 1).data,
                             HalfSource(dst, Times(height, width), temporal, t);
            src < |data| && dst < |want| && want[dst] == data[src]
  {
    hide Times, Size, Ravel, Sliced, HalfSource;
    var hw := Times(height, width);
    RowOf(dst, flat, hw);
    var f, rest := dst / hw, dst % hw;
    RowOf(rest, height, width);
    var y, x := rest / width, rest % width;
    HalfStep(f, flat, height, width, temporal, t, y, x);
    var whole := Tensor(data, [flat, temporal, height, width]);
    var r, i, j := Sliced(whole, 1, t, t + 1), [f, 0, y, x], [f, t, y, x];
    assert r.dims == [flat, 1, height, width] && InBounds(r.dims, i) && Shift(i, 1, 0, t) == j;
    RavelBound(r.dims, i);
    RavelBound(whole.dims, j);
    assert r.At(i) == whole.At(j);
    Horner4(flat, 1, height, width, f, 0, y, x);
    Horner4(flat, temporal, height, width, f, t, y, x);
    TimesOne(f);
    TimesAssoc(f, height, width);
    Distribute(Times(f, height), y, width);
    FlatSource(f, temporal, t, height, y, width, x);
  }

  lemma FlatSource(f: nat, temporal: nat, t: nat, height: nat, y: nat, width: nat, x: nat)
    ensures Times(Times(Times(f, temporal) + t, height) + y, width) + x == ((f * temporal + t) * height + y) * width + x
  {}

  // ---- Nemotron: the patch reshape ----------------------------------------

  datatype ReshapeError = LengthMismatch

  /** The embedding length that a reshape uses, if it can tell one. */
  function PatchEmbeddingLength(shape: seq<nat>, flat: nat, embeddingLength: nat): Option<nat>
    requires |shape| == 2
  {
    if embeddingLength != 0 then Some(embeddingLength)
    else if shape[0] == flat then Some(shape[1])
    else if shape[1] == flat then Some(shape[0])
    else None
  }

  /** However it goes through its loops, the reshape copies every element to its
      own position: it fails on a wrong length and otherwise changes nothing. */
  method ReshapePatchEmbedding<T(0)>(data: seq<T>, shape: seq<nat>, patchSize: nat, channels: nat, embeddingLength: nat)
    returns (r: Result<seq<T>, ReshapeError>)
    ensures r.Success? ==> r.value == data
    ensures r.Failure? <==>
              |shape| == 2 && patchSize > 0 && channels > 0 &&
              var flat := patchSize * patchSize * channels;
              var emb := PatchEmbeddingLength(shape, flat, embeddingLength);
              emb.Some? && |data| != flat * emb.value
  {
    if |shape| != 2 || patchSize == 0 || channels == 0 {
      return Success(data);
    }
    var flat := patchSize * patchSize * channels;
    var length := embeddingLength;
    if length == 0 {
      if shape[0] == flat {
        length := shape[1];
      } else if shape[1] == flat {
        length := shape[0];
      } else {
        return Success(data);
      }
    }
    if |data| != flat * length {
      return Failure(LengthMismatch);
    }
    var out := CopyPatches(data, patchSize, channels, length);
    return Success(out);
  }

  method CopyPatches<T(0)>(data: seq<T>, patchSize: nat, channels: nat, length: nat) returns (r: seq<T>)
    requires |data| == patchSize * patchSize * channels * length
    ensures r == data
  {
    var p, flat := patchSize, patchSize * patchSize * channels;
    var out := new T[|data|];
    ghost var done := 0;
    PatchSize(p, channels, length);
    hide Times;
    TimesNext(0, channels);
    TimesNext(0, p);
    for emb := 0 to length
      invariant done == Times(Times(Times(emb, channels), p), p) <= out.Length && out[..done] == data[..done]
    {
      for channel := 0 to channels
        invariant done == Times(Times(Times(emb, channels) + channel, p), p) <= out.Length &&
                  out[..done] == data[..done]
      {
        for y := 0 to p
          invariant done == Times(Times(Times(emb, channels) + channel, p) + y, p) <= out.Length &&
                    out[..done] == data[..done]
        {
          for x := 0 to p
            invariant done == Times(Times(Times(emb, channels) + channel, p) + y, p) + x <= out.Length
            invariant out[..done] == data[..done]
          {
            var flatIndex := x + p * (y + p * channel);
            var dst := x + p * (y + p * (channel + channels * emb));
            var src := flatIndex + flat * emb;
            PatchPosition(emb, length, channel, channels, y, x, p);
            assert dst == src == done < out.Length;
            out[dst] := data[src];
            assert out[..done + 1] == data[..done + 1];
            done := done + 1;
          }
          TimesNext(Times(Times(emb, channels) + channel, p) + y, p);
        }
        TimesNext(Times(emb, channels) + channel, p);
      }
      TimesNext(emb, channels);
    }
    return out[..];
  }

  lemma PatchSize(p: nat, channels: nat, length: nat)
    ensures p * p * channels * length == Times(Times(Times(length, channels), p), p)
  {}

  lemma PatchPosition(emb: nat, length: nat, channel: nat, channels: nat, y: nat, x: nat, p: nat)
    requires emb < length && channel < channels && y < p && x < p
    ensures var done := Times(Times(Times(emb, channels) + channel, p) + y, p) + x;
            done < Times(Times(Times(length, channels), p), p) &&
            x + p * (y + p * (channel + channels * emb)) == done &&
            x + p * (y + p * channel) + p * p * channels * emb == done
  {
    hide Times;
    RowBound(emb, length, channel, channels);
    RowBound(Times(emb, channels) + channel, Times(length, channels), y, p);
    RowBound(Times(Times(emb, channels) + channel, p) + y, Times(Times(length, channels), p), x, p);
    TimesIs(emb, channels);
    TimesIs(channels, emb);
    TimesCommutes(emb, channels);
    var c := channel + channels * emb;
    TimesIs(c, p);
    TimesIs(c * p + y, p);
    Square(p, y, channel, channels * emb);
    PatchFactor(p, channels, emb);
    Commuted(p, y, c);
  }

  lemma Commuted(p: nat, y: nat, c: nat)
    ensures (c * p + y) * p == p * (y + p * c)
  {}

  lemma Square(p: nat, y: nat, c: nat, k: nat)
    ensures p * (y + p * (c + k)) == p * (y + p * c) + p * p * k
  {
    assert p * (c + k) == p * c + p * k;
    assert p * (y + p * c + p * k) == p * (y + p * c) + p * (p * k);
  }

  lemma PatchFactor(p: nat, channels: nat, emb: nat)
    ensures p * p * channels * emb == p * p * (channels * emb)
  {
  }
}
