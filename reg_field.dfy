/**
 * Bit-field access on 32-bit device registers.
 *
 * The DSI host's video bridge, its MMCM clock block and its D-PHY Gen3
 * interface all update a register field the same way: read the word, clear
 * the field, OR in the new value, write the word back.  This module states
 * that read-modify-write once, on `bv32` words, with the C operators written
 * out: `(1 << width) - 1` for the mask, left shifts that drop bits above bit 31.
 */
module RegField {

  /** Bit `k` of a 32-bit word. */
  predicate Bit(w: bv32, k: bv32)
    requires k < 32
  {
    (w >> k) & 1 == 1
  }

  /** The C expression `(1 << width) - 1`: the low `width` bits set. */
  function FieldMask(width: bv32): bv32
    requires width < 32
  {
    (1 << width) - 1
  }

  /** Bit `k` of the mask is set exactly when `k` is below the width. */
  lemma FieldMaskBits(width: bv32, k: bv32)
    requires width < 32 && k < 32
    ensures Bit(FieldMask(width), k) <==> k < width
  {
  }

  /**
   * The word a `*_write_part` call writes back: `temp &= ~(mask << shift);
   * temp |= (data & mask) << shift`.
   */
  function WritePart(word: bv32, data: bv32, shift: bv32, width: bv32): bv32
    requires shift < 32 && width < 32
  {
    var mask := FieldMask(width);
    (word & !(mask << shift)) | ((data & mask) << shift)
  }

  /** Every bit outside the field keeps its old value. */
  lemma WritePartKeepsOutside(word: bv32, data: bv32, shift: bv32, width: bv32)
    requires shift < 32 && width < 32
    ensures var m := FieldMask(width) << shift;
      WritePart(word, data, shift, width) & !m == word & !m
  {
  }

  /** The bits inside the field are those of `data`, moved up by `shift`. */
  lemma WritePartSetsField(word: bv32, data: bv32, shift: bv32, width: bv32)
    requires shift < 32 && width < 32
    ensures var m := FieldMask(width) << shift;
      WritePart(word, data, shift, width) & m == (data << shift) & m
  {
  }

  /** The value a `*_read_part` call returns: `(word >> shift) & mask`. */
  function ReadPart(word: bv32, shift: bv32, width: bv32): (r: bv32)
    requires shift < 32 && width < 32
    ensures r <= FieldMask(width)
  {
    (word >> shift) & FieldMask(width)
  }

  // The read-after-write property below is split by field position and width
  // so that each bit-vector query stays small.

  lemma ReadAfterWriteNarrow(word: bv32, data: bv32, shift: bv32, width: bv32)
    requires shift <= 16 && width <= 16
    ensures ReadPart(WritePart(word, data, shift, width), shift, width) == data & FieldMask(width)
  {
  }

  lemma ReadAfterWriteHigh(word: bv32, data: bv32, shift: bv32, width: bv32)
    requires 16 < shift < 32 && width <= 32 - shift
    ensures ReadPart(WritePart(word, data, shift, width), shift, width) == data & FieldMask(width)
  {
  }

  lemma ReadAfterWriteWideLow(word: bv32, data: bv32, shift: bv32, width: bv32)
    requires 16 < width <= 24 && shift < 8 && shift <= 32 - width
    ensures ReadPart(WritePart(word, data, shift, width), shift, width) == data & FieldMask(width)
  {
  }

  lemma ReadAfterWriteWideMid(word: bv32, data: bv32, shift: bv32, width: bv32)
    requires 16 < width <= 24 && 8 <= shift <= 32 - width
    ensures ReadPart(WritePart(word, data, shift, width), shift, width) == data & FieldMask(width)
  {
  }

  lemma ReadAfterWriteWidest(word: bv32, data: bv32, shift: bv32, width: bv32)
    requires 24 < width < 32 && shift <= 32 - width
    ensures ReadPart(WritePart(word, data, shift, width), shift, width) == data & FieldMask(width)
  {
  }

  /**
   * Reading back a field that lies wholly inside the word returns the value
   * written, cut to the field's width.
   */
  lemma ReadAfterWrite(word: bv32, data: bv32, shift: bv32, width: bv32)
    requires shift < 32 && width < 32 && shift + width <= 32
    ensures ReadPart(WritePart(word, data, shift, width), shift, width) == data & FieldMask(width)
  {
    if width > 24 {
      ReadAfterWriteWidest(word, data, shift, width);
    } else if width > 16 && shift < 8 {
      ReadAfterWriteWideLow(word, data, shift, width);
    } else if width > 16 {
      ReadAfterWriteWideMid(word, data, shift, width);
    } else if shift > 16 {
      ReadAfterWriteHigh(word, data, shift, width);
    } else {
      ReadAfterWriteNarrow(word, data, shift, width);
    }
  }

  /** Writing back the value just read leaves the word as it was. */
  lemma WriteBackUnchanged(word: bv32, shift: bv32, width: bv32)
    requires shift < 32 && width < 32
    ensures WritePart(word, ReadPart(word, shift, width), shift, width) == word
  {
  }
}
