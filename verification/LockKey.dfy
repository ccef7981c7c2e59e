/**
 * The advisory lock key of a resource: a fold over the bytes of its name in 32-bit
 * arithmetic, each byte xored in and the result multiplied with wrap-around, and the
 * outcome widened to 64 bits.
 */
module LockKey {
  const MODULUS := 0x1_0000_0000

  /** An unsigned 32-bit word. */
  type Word = x: int | 0 <= x < MODULUS

  const OFFSET: Word := 2166136261
  const PRIME := 16777619
  /** PRIME * PRIME_INVERSE == 1 + QUOTIENT * MODULUS. */
  const PRIME_INVERSE := 899433627
  const QUOTIENT := 3513497

  type Byte = x: int | 0 <= x < 256

  /** Exclusive or, bit by bit from the lowest. */
  function Xor(x: nat, y: nat): nat
    decreases x + y
  {
    if x == 0 && y == 0 then 0 else 2 * Xor(x / 2, y / 2) + if x % 2 == y % 2 then 0 else 1
  }

  function Power(width: nat): nat {
    if width == 0 then 1 else 2 * Power(width - 1)
  }

  function Bit(x: nat, i: nat): nat {
    if i == 0 then x % 2 else Bit(x / 2, i - 1)
  }

  /** A bit of the result is set if and only if exactly one of the operands has it. */
  lemma {:induction false} XorBits(x: nat, y: nat, i: nat)
    ensures Bit(Xor(x, y), i) == (Bit(x, i) + Bit(y, i)) % 2
  {
    if i == 0 {
    } else {
      XorBits(x / 2, y / 2, i - 1);
      assert Xor(x, y) / 2 == Xor(x / 2, y / 2);
    }
  }

  /** The result is no wider than the operands. */
  lemma {:induction false} XorWidth(x: nat, y: nat, width: nat)
    requires x < Power(width) && y < Power(width)
    ensures Xor(x, y) < Power(width)
  {
    if width == 0 {
    } else {
      XorWidth(x / 2, y / 2, width - 1);
    }
  }

  lemma {:induction false} XorTwice(x: nat, y: nat)
    ensures Xor(Xor(x, y), y) == x
    decreases x + y
  {
    if x == 0 && y == 0 {
    } else {
      XorTwice(x / 2, y / 2);
      var z := Xor(x, y);
      assert z / 2 == Xor(x / 2, y / 2) && z % 2 == (if x % 2 == y % 2 then 0 else 1);
    }
  }

  lemma {:induction false} XorCommutes(x: nat, y: nat)
    ensures Xor(x, y) == Xor(y, x)
    decreases x + y
  {
    if x == 0 && y == 0 {
    } else {
      XorCommutes(x / 2, y / 2);
    }
  }

  lemma XorIsWord(h: Word, b: Byte)
    ensures Xor(h, b) < MODULUS
  {
    assert Power(8) == 0x100;
    assert Power(16) == 0x100 * Power(8);
    assert Power(24) == 0x100 * Power(16);
    assert Power(32) == MODULUS;
    XorWidth(h, b, 32);
  }

  /** One word xored with a byte. */
  function XorWord(h: Word, b: Byte): Word {
    XorIsWord(h, b);
    Xor(h, b)
  }

  function TimesPrime(x: Word): Word {
    x * PRIME % MODULUS
  }

  function Mix(h: Word, b: Byte): Word {
    TimesPrime(XorWord(h, b))
  }

  function Fold(h: Word, name: seq<Byte>): Word
    decreases |name|
  {
    if name == [] then h else Fold(Mix(h, name[0]), name[1..])
  }

  /** The key handed to the lock as a 64-bit signed integer. */
  function LockKeyOf(name: seq<Byte>): (key: int)
    ensures 0 <= key < 0x8000_0000_0000_0000
  {
    Fold(OFFSET, name)
  }

  method HashtextSyncResource(name: seq<Byte>) returns (h: Word)
    ensures h == LockKeyOf(name)
  {
    hide XorWord, TimesPrime;
    h := OFFSET;
    for i := 0 to |name|
      invariant Fold(OFFSET, name) == Fold(h, name[i..])
    {
      assert name[i..][0] == name[i] && name[i..][1..] == name[i + 1..];
      h := XorWord(h, name[i]);
      h := TimesPrime(h);
    }
  }

  /** Multiplying by the inverse undoes the wrapped product. */
  lemma ProductUndone(x: Word)
    ensures TimesPrime(x) * PRIME_INVERSE % MODULUS == x
  {
    var q := x * PRIME / MODULUS;
    assert TimesPrime(x) * PRIME_INVERSE == x * (PRIME * PRIME_INVERSE) - q * MODULUS * PRIME_INVERSE;
    assert PRIME * PRIME_INVERSE == 1 + QUOTIENT * MODULUS;
    assert TimesPrime(x) * PRIME_INVERSE == x + MODULUS * (QUOTIENT * x - q * PRIME_INVERSE);
  }

  /** A round keeps different states apart, and different bytes. */
  lemma MixInjective(h: Word, g: Word, a: Byte, b: Byte)
    ensures Mix(h, a) == Mix(g, a) ==> h == g
    ensures Mix(h, a) == Mix(h, b) ==> a == b
  {
    ProductUndone(XorWord(h, a));
    ProductUndone(XorWord(g, a));
    ProductUndone(XorWord(h, b));
    XorTwice(h, a);
    XorTwice(g, a);
    XorCommutes(h, a);
    XorCommutes(h, b);
    XorTwice(a, h);
    XorTwice(b, h);
    hide TimesPrime;
  }

  lemma {:induction false} FoldInjective(h: Word, g: Word, name: seq<Byte>)
    requires h != g
    ensures Fold(h, name) != Fold(g, name)
    decreases |name|
  {
    hide Mix;
    if name == [] {
    } else {
      MixInjective(h, g, name[0], name[0]);
      FoldInjective(Mix(h, name[0]), Mix(g, name[0]), name[1..]);
    }
  }

  lemma {:induction false} FoldDiffersAt(h: Word, a: seq<Byte>, b: seq<Byte>, i: nat)
    requires i < |a| == |b| && a[i] != b[i] && a[..i] == b[..i] && a[i + 1..] == b[i + 1..]
    ensures Fold(h, a) != Fold(h, b)
    decreases i
  {
    hide Mix;
    if i == 0 {
      MixInjective(h, h, a[0], b[0]);
      FoldInjective(Mix(h, a[0]), Mix(h, b[0]), a[1..]);
    } else {
      assert a[0] == a[..i][0] == b[..i][0] == b[0];
      assert a[1..][..i - 1] == a[..i][1..] && b[1..][..i - 1] == b[..i][1..];
      FoldDiffersAt(Mix(h, a[0]), a[1..], b[1..], i - 1);
    }
  }

  lemma {:induction false} FoldSnoc(h: Word, name: seq<Byte>, b: Byte)
    ensures Fold(h, name + [b]) == Mix(Fold(h, name), b)
    decreases |name|
  {
    hide Mix;
    if name == [] {
      assert Fold(Mix(h, b), []) == Mix(h, b);
      assert [b][1..] == [];
    } else {
      assert (name + [b])[1..] == name[1..] + [b];
      FoldSnoc(Mix(h, name[0]), name[1..], b);
    }
  }

  /** The key of a name one byte longer, as the 32-bit FNV-1a hash defines it. */
  lemma LockKeyByByte(name: seq<Byte>, b: Byte)
    ensures LockKeyOf([]) == 2166136261
    ensures LockKeyOf(name + [b]) == Xor(LockKeyOf(name), b) * 16777619 % 4294967296
  {
    FoldSnoc(OFFSET, name, b);
  }

  /** Changing exactly one byte of a name always changes its lock key. */
  lemma OneByteOneKey(name: seq<Byte>, i: nat, b: Byte)
    requires i < |name| && name[i] != b
    ensures LockKeyOf(name) != LockKeyOf(name[i := b])
  {
    FoldDiffersAt(OFFSET, name, name[i := b], i);
  }
}
