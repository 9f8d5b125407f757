/**
 * The 5x5 WS2812 matrix driver: colours are packed into 24-bit GRB words,
 * shifted into the top of a 32-bit word and pushed, one word per LED, to
 * the PIO state machine. The state machine itself is outside the model;
 * the words pushed to it are returned as a sequence.
 */
module Matrix {

  /** Number of LEDs on the matrix. */
  const LedCount: nat := 25

  /** `urgb_u32`: green in bits 16-23, red in bits 8-15, blue in bits 0-7. */
  function Urgb(r: bv8, g: bv8, b: bv8): (c: bv32)
    ensures c < 0x100_0000
    ensures (c >> 16) & 0xFF == g as bv32
    ensures (c >> 8) & 0xFF == r as bv32
    ensures c & 0xFF == b as bv32
  {
    (r as bv32 << 8) | (g as bv32 << 16) | (b as bv32)
  }

  /** Two colours that pack to the same word are the same colour. */
  lemma UrgbInjective(r: bv8, g: bv8, b: bv8, r': bv8, g': bv8, b': bv8)
    requires Urgb(r, g, b) == Urgb(r', g', b')
    ensures r == r' && g == g' && b == b'
  {
  }

  /** Black packs to the all-zero word, the same word `set_one_led` sends for an unlit LED. */
  lemma UrgbBlack()
    ensures Urgb(0, 0, 0) == 0
  {
  }

  /** `put_pixel`: the word handed to the state machine is the pixel shifted left by 8. */
  function PixelWord(grb: bv32): (w: bv32)
    ensures w & 0xFF == 0
    ensures grb < 0x100_0000 ==> w >> 8 == grb
  {
    grb << 8
  }

  /**
   * The words `set_one_led(r, g, b, drawing)` pushes, in LED index order.
   * What the state machine recovers from LED `i` is the packed colour when
   * the drawing lights it and black otherwise.
   */
  function Frame(r: bv8, g: bv8, b: bv8, drawing: seq<bool>): (f: seq<bv32>)
    requires LedCount <= |drawing|
    ensures |f| == LedCount
    ensures forall i :: 0 <= i < LedCount ==> f[i] & 0xFF == 0
    ensures forall i :: 0 <= i < LedCount ==> f[i] >> 8 == LedColour(r, g, b, drawing[i])
  {
    var f := seq(LedCount, i requires 0 <= i < LedCount => PixelWord(LedColour(r, g, b, drawing[i])));
    assert forall i :: 0 <= i < LedCount ==> f[i] == PixelWord(LedColour(r, g, b, drawing[i]));
    f
  }

  /** The 24-bit colour of one LED: the packed colour when it is drawn, black otherwise. */
  function LedColour(r: bv8, g: bv8, b: bv8, lit: bool): (c: bv32)
    ensures c < 0x100_0000
    ensures lit ==> c == Urgb(r, g, b)
    ensures !lit ==> c == 0
  {
    if lit then Urgb(r, g, b) else 0
  }

  /** `matriz_preenchida`: every LED drawn. */
  function Filled(): (drawing: seq<bool>)
    ensures |drawing| == LedCount
    ensures forall i :: 0 <= i < |drawing| ==> drawing[i]
  {
    seq(LedCount, _ => true)
  }

  /** With the filled drawing every LED shows the packed colour. */
  lemma FilledFrameIsUniform(r: bv8, g: bv8, b: bv8)
    ensures forall i :: 0 <= i < LedCount ==> Frame(r, g, b, Filled())[i] == PixelWord(Urgb(r, g, b))
  {
  }

  /** Black (`set_one_led(0, 0, 0, ...)`) pushes only zero words, whatever the drawing. */
  lemma BlackFrameIsDark(drawing: seq<bool>)
    requires LedCount <= |drawing|
    ensures Frame(0, 0, 0, drawing) == seq(LedCount, _ => 0 as bv32)
  {
    UrgbBlack();
    assert PixelWord(0) == 0;
    forall i | 0 <= i < LedCount
      ensures Frame(0, 0, 0, drawing)[i] == 0
    {
    }
  }

  /** `set_one_led`: pushes one word per LED, index 0 first. */
  method SetOneLed(r: bv8, g: bv8, b: bv8, drawing: array<bool>) returns (words: seq<bv32>)
    requires LedCount <= drawing.Length
    ensures |words| == LedCount
    ensures forall i :: 0 <= i < LedCount ==>
              words[i] == PixelWord(if drawing[i] then Urgb(r, g, b) else 0)
    ensures words == Frame(r, g, b, drawing[..])
  {
    var color := Urgb(r, g, b);
    words := [];
    for i := 0 to LedCount
      invariant |words| == i
      invariant forall j :: 0 <= j < i ==> words[j] == PixelWord(if drawing[j] then color else 0)
    {
      if drawing[i] {
        words := words + [PixelWord(color)];
      } else {
        words := words + [PixelWord(0)];
      }
    }
  }

  /** The `matriz_preenchida` array itself. */
  method NewFilledDrawing() returns (drawing: array<bool>)
    ensures fresh(drawing) && drawing[..] == Filled()
  {
    drawing := new bool[LedCount](_ => true);
  }
}
