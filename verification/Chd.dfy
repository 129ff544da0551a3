/** The header word of a clause (internal/xo/chd.go): from the lowest bit on, its size
  modulo 32 in 5 bits, its rank in 4, its heat in 22, and a flag for derived clauses. */
module Headers {
  import opened Counting

  const SIZE_MOD: int := 32
  const LBD_MOD: int := 16
  const HEAT_MOD: int := 0x40_0000
  const LEARNT: int := 0x8000_0000
  const WORD: int := 0x1_0000_0000

  function SizeBits(h: int): int {
    h % SIZE_MOD
  }

  function Lbd(h: int): int {
    h / SIZE_MOD % LBD_MOD
  }

  function Heat(h: int): int {
    h / 512 % HEAT_MOD
  }

  predicate Learnt(h: int) {
    h >= LEARNT
  }

  function MakeChd(learnt: bool, lbd: int, sz: int): (h: int)
    requires sz >= 0
    ensures SizeBits(h) == sz % SIZE_MOD
  {
    (if learnt then LEARNT else 0) + (lbd % LBD_MOD) * SIZE_MOD + sz % SIZE_MOD
  }

  // Chd.Bump: the heat is shifted into place and combined with the other bits by or
  function Bumped(h: int, n: int): int {
    var up := ((Heat(h) + n) % WORD) * 512 % WORD;
    h % 512 + up % LEARNT + if Learnt(h) || up >= LEARNT then LEARNT else 0
  }

  // the second result of Chd.Bump
  predicate HeatFull(h: int, n: int) {
    (Heat(h) + n) % WORD == HEAT_MOD - 1
  }

  // Chd.Decay
  function Cooled(h: int): int {
    h % 512 + Heat(h) / 2 * 512 + if Learnt(h) then LEARNT else 0
  }

  /** The word with the fields given. */
  function Word(s: int, l: int, t: int, f: int): int {
    s + 32 * l + 512 * t + LEARNT * f
  }

  lemma WordFields(s: int, l: int, t: int, f: int)
    requires 0 <= s < SIZE_MOD && 0 <= l < LBD_MOD && 0 <= t < HEAT_MOD && 0 <= f <= 1
    ensures var h := Word(s, l, t, f);
      0 <= h < WORD && SizeBits(h) == s && Lbd(h) == l && Heat(h) == t && (Learnt(h) <==> f == 1) && h % 512 == s + 32 * l
  {
    DivMod(l + 16 * t + 16 * HEAT_MOD * f, s, 32);
    DivMod(t + HEAT_MOD * f, l, 16);
    DivMod(t + HEAT_MOD * f, s + 32 * l, 512);
    DivMod(f, t, HEAT_MOD);
  }

  /** Every word is one with such fields. */
  lemma FieldsOf(h: int)
    requires 0 <= h < WORD
    ensures h == Word(SizeBits(h), Lbd(h), Heat(h), if Learnt(h) then 1 else 0)
    ensures 0 <= SizeBits(h) < SIZE_MOD && 0 <= Lbd(h) < LBD_MOD && 0 <= Heat(h) < HEAT_MOD
  {
    var s, x := h % 32, h / 32;
    var l, y := x % 16, x / 16;
    DivMod(y, s + 32 * l, 512);
    var t, z := y % HEAT_MOD, y / HEAT_MOD;
    assert h == s + 32 * l + 512 * t + LEARNT * z;
  }

  /** A new header holds what it is made of, as far as there is room. */
  lemma MakeFields(learnt: bool, lbd: int, sz: int)
    requires sz >= 0
    ensures var h := MakeChd(learnt, lbd, sz);
      0 <= h < WORD && SizeBits(h) == sz % SIZE_MOD && Lbd(h) == lbd % LBD_MOD && Heat(h) == 0 && (Learnt(h) <==> learnt)
  {
    WordFields(sz % SIZE_MOD, lbd % LBD_MOD, 0, if learnt then 1 else 0);
  }

  /** Heat that passes its 22 bits spills into the flag, and nowhere else. */
  lemma BumpedFields(h: int, n: int)
    requires 0 <= h < WORD && 0 <= n < WORD
    ensures var b := Bumped(h, n); var ht := (Heat(h) + n) % WORD;
      && 0 <= b < WORD && SizeBits(b) == SizeBits(h) && Lbd(b) == Lbd(h) && Heat(b) == ht % HEAT_MOD
      && (Learnt(b) <==> Learnt(h) || ht / HEAT_MOD % 2 == 1)
  {
    FieldsOf(h);
    var s, l, f := SizeBits(h), Lbd(h), if Learnt(h) then 1 else 0;
    WordFields(s, l, Heat(h), f);
    var ht := (Heat(h) + n) % WORD;
    var t, y := ht % HEAT_MOD, ht / HEAT_MOD;
    var e, z := y % 2, y / 2;
    DivMod(z, (t + HEAT_MOD * e) * 512, WORD);
    assert ht * 512 == z * WORD + (t + HEAT_MOD * e) * 512;
    DivMod(e, t * 512, LEARNT);
    WordFields(s, l, t, if Learnt(h) || e == 1 then 1 else 0);
  }

  lemma CooledFields(h: int)
    requires 0 <= h < WORD
    ensures var b := Cooled(h);
      0 <= b < WORD && SizeBits(b) == SizeBits(h) && Lbd(b) == Lbd(h) && Heat(b) == Heat(h) / 2 && (Learnt(b) <==> Learnt(h))
  {
    FieldsOf(h);
    var s, l, f := SizeBits(h), Lbd(h), if Learnt(h) then 1 else 0;
    WordFields(s, l, Heat(h), f);
    WordFields(s, l, Heat(h) / 2, f);
  }

  lemma SizeAdd(r: int, k: int)
    ensures SizeBits(r + 512 * k) == SizeBits(r)
  {
    var x := r / 32;
    assert r + 512 * k == 32 * (x + 16 * k) + SizeBits(r);
  }

  /** Shifting by 9 bits leaves the 9 lowest empty. */
  lemma Shifted(x: int)
    ensures exists k :: x * 512 % WORD % LEARNT == 512 * k
  {
    var q := x * 512 / WORD;
    var u := x - 0x80_0000 * q;
    assert x * 512 % WORD == 512 * u;
    var e := 512 * u / LEARNT;
    assert 512 * u % LEARNT == 512 * (u - 0x40_0000 * e);
  }

  /** Neither changes the size, whatever the words are. */
  lemma SizeKept(h: int, n: int)
    ensures SizeBits(Bumped(h, n)) == SizeBits(h) && SizeBits(Cooled(h)) == SizeBits(h)
  {
    hide Heat, Learnt, SizeBits;
    var x := (Heat(h) + n) % WORD;
    Shifted(x);
    var k :| x * 512 % WORD % LEARNT == 512 * k;
    SizeAdd(h % 512, h / 512);
    SizeAdd(h % 512, k);
    SizeAdd(h % 512, k + 0x40_0000);
    SizeAdd(h % 512, Heat(h) / 2);
    SizeAdd(h % 512, Heat(h) / 2 + 0x40_0000);
  }
}
