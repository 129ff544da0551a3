/** The packed word of a watch (internal/xo/watch.go): from the lowest bit on, the
  blocking literal in 31 bits, the place of the clause in 32, and a flag. */
module WatchWords {
  import opened Lits
  import opened Counting
  import opened Watching

  const LITS: int := 0x8000_0000
  const LOCS: int := 0x1_0000_0000
  const BIN: int := 0x8000_0000_0000_0000

  // the fields are combined by or: the 32nd bit of o falls on the lowest of loc
  function MakeWatch(loc: int, o: Lit, bin: bool): int {
    var l := if o >= LITS && loc % 2 == 0 then loc + 1 else loc;
    (if bin then BIN else 0) + l * LITS + o % LITS
  }

  function Other(w: int): int {
    w % LITS
  }

  predicate IsBinary(w: int) {
    w >= BIN
  }

  function C(w: int): int {
    w / LITS % LOCS
  }

  // the bits of the place are cleared and then set to o
  function Relocate(w: int, o: int): int {
    (if IsBinary(w) then BIN else 0) + o * LITS + Other(w)
  }

  function Unpack(w: int): Watch {
    Watch(C(w), Other(w), IsBinary(w))
  }

  /** The fields of a word. */
  lemma WordFields(f: nat, c: nat, o: nat)
    requires f <= 1 && c < LOCS && o < LITS
    ensures var w := f * BIN + c * LITS + o; Other(w) == o && C(w) == c && (IsBinary(w) <==> f == 1)
  {
    DivMod(f * LOCS + c, o, LITS);
    DivMod(f, c, LOCS);
  }

  /** A word holds the watch it is made of exactly if the literal fits in its 31 bits. */
  lemma PackedExactly(w: Watch)
    requires 0 <= w.c < LOCS && 0 <= w.other < LOCS
    ensures Unpack(MakeWatch(w.c, w.other, w.bin)) == w <==> w.other < LITS
  {
    var l := if w.other >= LITS && w.c % 2 == 0 then w.c + 1 else w.c;
    WordFields(if w.bin then 1 else 0, l, w.other % LITS);
  }

  /** Relocating the word is relocating the watch. */
  lemma RelocatedWord(w: Watch, q: int)
    requires 0 <= w.c < LOCS && 0 <= w.other < LITS && 0 <= q < LOCS
    ensures Relocate(MakeWatch(w.c, w.other, w.bin), q) == MakeWatch(q, w.other, w.bin)
    ensures Unpack(Relocate(MakeWatch(w.c, w.other, w.bin), q)) == w.(c := q)
  {
    var f := if w.bin then 1 else 0;
    WordFields(f, w.c, w.other);
    WordFields(f, q, w.other);
  }
}
