// The `Object` record of Program.h: a body's state and the identity string
// its constructor derives by folding a text into a 32-bit unsigned hash.
module Objects {
  import opened Graphics

  const TwoTo32: int := 0x1_0000_0000

  /** A value of C++ `unsigned int`. */
  type U32 = n: int | 0 <= n < 0x1_0000_0000

  /** One C++ `char` of a std::string, as its 8-bit pattern. */
  type Byte = b: int | 0 <= b < 256

  /** Unsigned 32-bit wrap-around of an exact integer result. */
  function Wrap(n: int): U32 {
    n % 0x1_0000_0000
  }

  /** `h << 5` on an unsigned int: bits shifted past bit 31 are lost. */
  function ShiftLeft5(h: U32): U32 {
    Wrap(h * 32)
  }

  /** `a + b` on unsigned ints. */
  function AddU32(a: U32, b: U32): U32 {
    Wrap(a + b)
  }

  /**
   * `(unsigned int)c` for a `char`, taking `char` as signed (as on x86):
   * a byte above 127 is a negative char and sign-extends. The texts the
   * constructor hashes (decimal renderings of a float) are plain ASCII, for
   * which both conventions agree.
   */
  function CharCode(c: Byte): U32 {
    if c < 128 then c else TwoTo32 - 256 + c
  }

  /** One iteration of the hash loop: `hash = ((hash << 5) + hash) + c`. */
  function Step(hash: U32, c: Byte): U32 {
    AddU32(AddU32(ShiftLeft5(hash), hash), CharCode(c))
  }

  /** Wrapping an intermediate sum does not change the wrapped total. */
  lemma WrapAdd(a: int, b: int)
    ensures Wrap(Wrap(a) + b) == Wrap(a + b)
  {
  }

  /** The shift-and-add step is multiplication by 33 modulo 2^32. */
  lemma StepIsTimes33(hash: U32, c: Byte)
    ensures Step(hash, c) == (33 * hash + CharCode(c)) % TwoTo32
  {
    WrapAdd(hash * 32, hash);
    WrapAdd(hash * 32 + hash, CharCode(c));
    assert Step(hash, c) == Wrap(Wrap(hash * 32 + hash) + CharCode(c));
  }

  /** The hash loop run over `text`, starting from accumulator `hash`. */
  function FoldHash(hash: U32, text: seq<Byte>): U32
    decreases |text|
  {
    if text == [] then hash else FoldHash(Step(hash, text[0]), text[1..])
  }

  /** The hash of a whole text: the loop starts from 0. */
  function HashOf(text: seq<Byte>): U32 {
    FoldHash(0, text)
  }

  /** The fold is a left fold: one more character is one more step at the end. */
  lemma {:induction false} FoldHashSnoc(hash: U32, text: seq<Byte>, c: Byte)
    ensures FoldHash(hash, text + [c]) == Step(FoldHash(hash, text), c)
    decreases |text|
  {
    if text == [] {
      assert [c][1..] == [];
    } else {
      assert (text + [c])[1..] == text[1..] + [c];
      FoldHashSnoc(Step(hash, text[0]), text[1..], c);
    }
  }

  /** Folding a concatenation folds the second part from the first part's hash. */
  lemma {:induction false} FoldHashAppend(hash: U32, s: seq<Byte>, t: seq<Byte>)
    ensures FoldHash(hash, s + t) == FoldHash(FoldHash(hash, s), t)
    decreases |s|
  {
    if s != [] {
      assert (s + t)[1..] == s[1..] + t;
      FoldHashAppend(Step(hash, s[0]), s[1..], t);
    } else {
      assert s + t == t;
    }
  }

  /** The empty text hashes to 0, whose decimal form is "0". */
  lemma EmptyTextHash()
    ensures HashOf([]) == 0 && ToDecimal(HashOf([])) == "0"
  {
  }

  /** The decimal digit character for 0..9. */
  function Digit(d: nat): char
    requires d < 10
  {
    (48 + d) as char
  }

  /** std::to_string of an unsigned value: decimal digits, no leading zero. */
  function ToDecimal(n: nat): (s: string)
    ensures |s| >= 1
    ensures forall i :: 0 <= i < |s| ==> '0' <= s[i] <= '9'
    ensures s[0] == '0' ==> n == 0
    decreases n
  {
    if n < 10 then [Digit(n)] else ToDecimal(n / 10) + [Digit(n % 10)]
  }

  /** Reads a string of decimal digits back as a number. */
  function FromDecimal(s: string): nat
    requires forall i :: 0 <= i < |s| ==> '0' <= s[i] <= '9'
    decreases |s|
  {
    if s == [] then 0
    else FromDecimal(s[..|s| - 1]) * 10 + (s[|s| - 1] as int - 48)
  }

  /** Reading back the decimal rendering gives the number. */
  lemma {:induction false} DecimalRoundTrip(n: nat)
    ensures FromDecimal(ToDecimal(n)) == n
    decreases n
  {
    if n >= 10 {
      var prefix := ToDecimal(n / 10);
      var s := prefix + [Digit(n % 10)];
      assert s[..|s| - 1] == prefix;
      DecimalRoundTrip(n / 10);
    }
  }

  /** The identity string the constructor derives from a text. */
  function DerivedId(text: seq<Byte>): string {
    ToDecimal(HashOf(text))
  }

  /**
   * Two derived ids are equal exactly when the two hashes are: the decimal
   * rendering loses nothing, so all id collisions are hash collisions.
   */
  lemma DerivedIdsEqualIffHashesEqual(t1: seq<Byte>, t2: seq<Byte>)
    ensures DerivedId(t1) == DerivedId(t2) <==> HashOf(t1) == HashOf(t2)
  {
    if DerivedId(t1) == DerivedId(t2) {
      DecimalRoundTrip(HashOf(t1));
      DecimalRoundTrip(HashOf(t2));
    }
  }

  /**
   * Different texts can share an id: "10" and "0Q" both hash to 1665,
   * since 33 * '1' + '0' == 33 * '0' + 'Q'.
   */
  lemma HashIsNotInjective()
    ensures HashOf([49, 48]) == HashOf([48, 81]) == 1665
  {
    StepIsTimes33(0, 49);
    assert Step(0, 49) == 49;
    StepIsTimes33(49, 48);
    assert Step(49, 48) == 1665;
    StepIsTimes33(0, 48);
    assert Step(0, 48) == 48;
    StepIsTimes33(48, 81);
    assert Step(48, 81) == 1665;
    assert FoldHash(0, [49, 48]) == FoldHash(49, [48]) == FoldHash(1665, []);
    assert FoldHash(0, [48, 81]) == FoldHash(48, [81]) == FoldHash(1665, []);
  }

  /** A simulated body. `id` distinguishes a body from itself during update. */
  datatype Object = Object(
    pos: Vec2,
    velocity: Vec2,
    mass: real,
    radius: real,
    color: Color,
    id: string)

  /**
   * Object's constructor. `text` is what std::to_string(x + y * mass) renders;
   * the id is the decimal form of the text's hash. Radius and color default to
   * 10 and White; the velocity starts at (0, 0).
   */
  method NewObject(x: real, y: real, mass: real, text: seq<Byte>,
                   radius: real := 10.0, color: Color := White) returns (o: Object)
    ensures o.pos == Vec2(x, y) && o.velocity == Zero
    ensures o.mass == mass && o.radius == radius && o.color == color
    ensures o.id == DerivedId(text)
  {
    var hash: U32 := 0;
    for i := 0 to |text|
      invariant hash == FoldHash(0, text[..i])
    {
      FoldHashSnoc(0, text[..i], text[i]);
      assert text[..i + 1] == text[..i] + [text[i]];
      hash := AddU32(AddU32(ShiftLeft5(hash), hash), CharCode(text[i]));
    }
    assert text[..|text|] == text;
    o := Object(Vec2(x, y), Zero, mass, radius, color, ToDecimal(hash));
  }
}
