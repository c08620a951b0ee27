/**
 * A window of 32-bit device registers, indexed by register address.
 *
 * The DSI host reaches its core, its video bridge, its MMCM clock block and
 * its D-PHY Gen3 interface through `ioread32`/`iowrite32` on a mapped base
 * address.  Each such window is a map from address to word; an address that
 * was never written reads as its reset value 0.
 */
module RegWindow {
  import opened RegField

  type Window = map<nat, bv32>

  /** The word `ioread32` returns at `addr`. */
  function Word(w: Window, addr: nat): bv32
  {
    if addr in w then w[addr] else 0
  }

  /** The window after `iowrite32(value, base + addr)`. */
  function StoreWord(w: Window, addr: nat, value: bv32): (r: Window)
    ensures Word(r, addr) == value
    ensures forall a :: a != addr ==> Word(r, a) == Word(w, a)
  {
    w[addr := value]
  }

  /** Every register outside `addrs` reads the same in both windows. */
  ghost predicate SameExcept(w1: Window, w2: Window, addrs: set<nat>)
  {
    forall a :: a !in addrs ==> Word(w1, a) == Word(w2, a)
  }

  /** Two steps that each keep every register outside their set keep every register outside the union. */
  lemma SameExceptChain(w1: Window, w2: Window, w3: Window, s1: set<nat>, s2: set<nat>)
    requires SameExcept(w2, w1, s1) && SameExcept(w3, w2, s2)
    ensures SameExcept(w3, w1, s1 + s2)
  {
  }

  /** The window after a `*_write_part` read-modify-write of one field. */
  function StorePart(w: Window, addr: nat, data: bv32, shift: bv32, width: bv32): Window
    requires shift < 32 && width < 32
  {
    StoreWord(w, addr, WritePart(Word(w, addr), data, shift, width))
  }

  /** The value a `*_read_part` call returns for the field at `addr`. */
  function LoadPart(w: Window, addr: nat, shift: bv32, width: bv32): bv32
    requires shift < 32 && width < 32
  {
    ReadPart(Word(w, addr), shift, width)
  }

  /**
   * A field store followed by a load of the same field returns the stored
   * value cut to the field's width, and no other register changes.
   */
  lemma LoadAfterStore(w: Window, addr: nat, data: bv32, shift: bv32, width: bv32)
    requires shift < 32 && width < 32 && shift + width <= 32
    ensures LoadPart(StorePart(w, addr, data, shift, width), addr, shift, width)
            == data & FieldMask(width)
    ensures forall a :: a != addr ==> Word(StorePart(w, addr, data, shift, width), a) == Word(w, a)
  {
    ReadAfterWrite(Word(w, addr), data, shift, width);
  }

  /** Storing back the value of a field just loaded leaves the window as it was. */
  lemma StoreLoadedUnchanged(w: Window, addr: nat, shift: bv32, width: bv32)
    requires shift < 32 && width < 32 && addr in w
    ensures StorePart(w, addr, LoadPart(w, addr, shift, width), shift, width) == w
  {
    WriteBackUnchanged(w[addr], shift, width);
  }
}
