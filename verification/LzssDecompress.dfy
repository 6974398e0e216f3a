/** The decompressor: it writes into a buffer of the known size and returns how many bytes
    it has read. */
module LzssDecompress {
  import opened Wrappers
  import opened LzssBits
  import opened LzssFormat

  function ValueOf(bits: seq<bool>): (v: nat)
    ensures v < Power2(|bits|)
  {
    if bits == [] then 0 else (if bits[0] then 1 else 0) + 2 * ValueOf(bits[1..])
  }

  lemma {:induction false} ValueOfBits(v: nat, n: nat)
    requires v < Power2(n)
    ensures ValueOf(BitsOf(v, n)) == v
  {
    if n > 0 {
      ValueOfBits(v / 2, n - 1);
    }
  }

  /** The flags that are left, with a row of eight ones above them. */
  function FlagsLeft(bits: seq<bool>): nat {
    0xFF * Power2(|bits|) + ValueOf(bits)
  }

  /** Bit 8 is among the ones for as long as there are flags. */
  lemma FlagsTell(bits: seq<bool>)
    requires |bits| <= 8
    ensures And(FlagsLeft(bits), 0x100) != 0 <==> bits != []
    ensures bits != [] ==>
      (And(FlagsLeft(bits), 1) != 0 <==> bits[0]) && ShiftRight(FlagsLeft(bits), 1) == FlagsLeft(bits[1..])
  {
    FlagsRead(FlagsLeft(bits));
    Masked1(FlagsLeft(bits));
    Right1(FlagsLeft(bits));
    FlagsCount(bits);
  }

  lemma FlagsCount(bits: seq<bool>)
    requires |bits| <= 8
    ensures FlagsLeft(bits) / 0x100 % 2 == 1 <==> bits != []
    ensures bits != [] ==> (FlagsLeft(bits) % 2 == 1 <==> bits[0]) && FlagsLeft(bits) / 2 == FlagsLeft(bits[1..])
  {
    SmallPowers();
    if bits != [] {
      assert Power2(|bits|) == 2 * Power2(|bits[1..]|);
    }
  }

  /** What decoding the rest of a group comes to in the end. */
  function DecodeRest(src: seq<Byte>, pos: nat, bits: seq<bool>, out: seq<Byte>, n: nat): Decoded
    requires pos <= |src|
  {
    var r := DecodeItems(src, pos, bits, out, n);
    if r.Unfinished? then Decode(src, r.pos, r.out, n) else r
  }

  lemma DecodeRestStep(src: seq<Byte>, pos: nat, bits: seq<bool>, out: seq<Byte>, n: nat)
    requires pos <= |src|
    ensures bits == [] ==> DecodeRest(src, pos, bits, out, n) == Decode(src, pos, out, n)
    ensures bits != [] ==>
      match ReadItem(src, pos, out, bits[0])
      case None => DecodeRest(src, pos, bits, out, n) == Failed
      case Some(Progress(next, more)) =>
        DecodeRest(src, pos, bits, out, n) ==
          if |more| > n then Failed
          else if |more| == n then Decoded(more, next)
          else DecodeRest(src, next, bits[1..], more, n)
  {
  }

  lemma NextFlags(src: seq<Byte>, pos: nat, out: seq<Byte>, n: nat)
    requires pos < |src|
    ensures Decode(src, pos, out, n) == DecodeRest(src, pos + 1, BitsOf(src[pos], 8), out, n)
    ensures FlagsLeft(BitsOf(src[pos], 8)) == 0xFF00 + (src[pos] as nat)
  {
    SmallPowers();
    ValueOfBits(src[pos], 8);
  }

  /** How far the decompressor is.  It is `Outside` from the moment it would step out of one
      of the two buffers: what the C code does from there on is undefined. */
  datatype Status = Running | Finished | Outside

  /** The status is right about what decoding comes to, `out` being written so far. */
  predicate Foretells(status: Status, src: seq<Byte>, pos: nat, out: seq<Byte>, n: nat, goal: Decoded) {
    && pos <= |src|
    && match status
       case Running => Decode(src, pos, out, n) == goal
       case Finished => goal == Decoded(out, pos)
       case Outside => goal == Failed
  }

  /** The decompressor stays inside of both buffers exactly if the input decodes to as many
      bytes as there is room for, and then it writes those. */
  method LzssDecompress(src: seq<Byte>, dst: array<Byte>) returns (consumed: Option<nat>)
    modifies dst
    ensures consumed.Some? <==> Decompress(src, dst.Length).Decoded?
    ensures consumed.Some? ==> Decompress(src, dst.Length) == Decoded(dst[..], consumed.value)
  {
    ghost var goal := Decompress(src, dst.Length);
    var pos: nat, outPos: nat, status := 0, 0, Running;
    assert dst[..0] == [];
    while status == Running
      invariant outPos <= dst.Length && (status == Finished ==> outPos == dst.Length)
      invariant Foretells(status, src, pos, dst[..outPos], dst.Length, goal)
      decreases if status == Running then |src| - pos + 1 else 0
    {
      pos, outPos, status := OneGroup(src, pos, dst, outPos, goal);
    }
    assert dst[..dst.Length] == dst[..];
    consumed := if status == Finished then Some(pos) else None;
  }

  /** A flag byte and the items that it is for. */
  method OneGroup(src: seq<Byte>, pos0: nat, dst: array<Byte>, outPos0: nat, ghost goal: Decoded)
    returns (pos: nat, outPos: nat, status: Status)
    requires outPos0 <= dst.Length && Foretells(Running, src, pos0, dst[..outPos0], dst.Length, goal)
    modifies dst
    ensures outPos <= dst.Length && (status == Finished ==> outPos == dst.Length)
    ensures Foretells(status, src, pos, dst[..outPos], dst.Length, goal)
    ensures status == Running ==> pos0 < pos
  {
    if pos0 >= |src| {
      return pos0, outPos0, Outside;
    }
    NextFlags(src, pos0, dst[..outPos0], dst.Length);
    ghost var bits := BitsOf(src[pos0], 8);
    FlagsStart(src[pos0]);
    var flags := Or(src[pos0], 0xFF00);
    pos, outPos, status := pos0 + 1, outPos0, Running;
    FlagsTell(bits);
    while And(flags, 0x100) != 0
      invariant pos0 < pos <= |src| && outPos <= dst.Length && |bits| <= 8 && flags == FlagsLeft(bits)
      invariant And(flags, 0x100) != 0 <==> bits != []
      invariant DecodeRest(src, pos, bits, dst[..outPos], dst.Length) == goal
      decreases |bits|
    {
      DecodeRestStep(src, pos, bits, dst[..outPos], dst.Length);
      FlagsTell(bits);
      var inside;
      inside, pos, outPos := OneItem(src, pos, dst, outPos, And(flags, 1) != 0);
      if !inside {
        return pos, outPos, Outside;
      }
      if outPos >= dst.Length {
        return pos, outPos, Finished;
      }
      flags := ShiftRight(flags, 1);
      bits := bits[1..];
      FlagsTell(bits);
    }
    DecodeRestStep(src, pos, bits, dst[..outPos], dst.Length);
  }

  /** A plain byte, or a back reference that is copied, if both buffers have room for it. */
  method OneItem(src: seq<Byte>, pos0: nat, dst: array<Byte>, outPos0: nat, literal: bool)
    returns (inside: bool, pos: nat, outPos: nat)
    requires pos0 <= |src| && outPos0 <= dst.Length
    modifies dst
    ensures var item := ReadItem(src, pos0, old(dst[..outPos0]), literal);
      && (inside <==> item.Some? && |item.value.out| <= dst.Length)
      && pos <= |src| && outPos <= dst.Length
      && (inside ==> item == Some(Progress(pos, dst[..outPos])))
  {
    ghost var out := dst[..outPos0];
    inside, pos, outPos := false, pos0, outPos0;
    if literal {
      if pos0 < |src| && outPos0 < dst.Length {
        PutByte(dst, outPos0, src[pos0]);
        inside, pos, outPos := true, pos0 + 1, outPos0 + 1;
      }
      return;
    }
    var found := BackReference(src, pos0);
    if found.None? {
      return;
    }
    var Reference(endOffset, matchLength, next) := found.value;
    if endOffset + matchLength <= outPos0 && outPos0 + matchLength <= dst.Length {
      var refPos := outPos0 - endOffset - matchLength;
      SliceOfTake(dst[..], outPos0, refPos, refPos + matchLength);
      CopyMatch(dst, outPos0, refPos, matchLength);
      inside, pos, outPos := true, next, outPos0 + matchLength;
    }
  }

  method BackReference(src: seq<Byte>, pos0: nat) returns (found: Option<Reference>)
    ensures found == ReadReference(src, pos0)
  {
    if pos0 + 1 >= |src| {
      return None;
    }
    var lo: nat, hi: nat := src[pos0], src[pos0 + 1];
    var pos := pos0 + 2;
    var endOffset: nat, matchLength: nat;
    var longer := HasHighBit(lo);
    var longest := HasHighBit(hi);
    if !longer {
      endOffset, matchLength := lo, hi;
    } else if !longest {
      endOffset, matchLength := MediumReference(lo, hi);
    } else {
      endOffset := LongReference(lo, hi);
      if pos >= |src| {
        return None;
      }
      matchLength := src[pos];
      pos := pos + 1;
    }
    found := Some(Reference(endOffset, matchLength + MIN_MATCH, pos));
  }

  method HasHighBit(byte: Byte) returns (high: bool)
    ensures high <==> byte >= 128
  {
    HighBit(byte);
    high := And(byte, 0x80) != 0;
  }

  method MediumReference(lo: nat, hi: nat) returns (endOffset: nat, matchLength: nat)
    requires hi < 256
    ensures endOffset == 0x80 + hi / 32 % 4 * 128 + lo % 128 && matchLength == hi % 32
  {
    ReadMedium(lo, hi);
    Masked5(hi);
    endOffset := 0x80 + Or(And(ShiftLeft(hi, 2), 0x180), And(lo, 0x7F));
    matchLength := And(hi, 0x1F);
  }

  method LongReference(lo: nat, hi: nat) returns (endOffset: nat)
    ensures endOffset == 0x80 + hi % 128 * 128 + lo % 128
  {
    ReadLong(lo, hi);
    endOffset := 0x80 + Or(ShiftLeft(And(hi, 0x7F), 7), And(lo, 0x7F));
  }

  method PutByte(dst: array<Byte>, outPos: nat, b: Byte)
    requires outPos < dst.Length
    modifies dst
    ensures dst[..outPos + 1] == old(dst[..outPos]) + [b]
  {
    ghost var was := dst[..];
    dst[outPos] := b;
    assert dst[..] == was[outPos := b];
    TakeUpdated(was, outPos, b);
    assert dst[..outPos + 1] == dst[..][..outPos + 1];
    assert old(dst[..outPos]) == was[..outPos];
  }

  lemma SliceOfTake(s: seq<Byte>, n: nat, a: nat, b: nat)
    requires a <= b <= n <= |s|
    ensures s[..n][a..b] == s[a..b]
  {
  }

  lemma TakeUpdated(s: seq<Byte>, i: nat, b: Byte)
    requires i < |s|
    ensures s[i := b][..i + 1] == s[..i] + [b]
  {
  }

  method CopyMatch(dst: array<Byte>, outPos: nat, refPos: nat, length: nat)
    requires refPos + length <= outPos && outPos + length <= dst.Length
    modifies dst
    ensures dst[..outPos + length] == old(dst[..outPos]) + old(dst[refPos..refPos + length])
  {
    forall i | 0 <= i < length {
      dst[outPos + i] := dst[refPos + i];
    }
  }
}
