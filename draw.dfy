/** The 64x32 monochrome screen and XOR sprite drawing (the DXYN instruction). */
module Display {
  import opened Words

  const SCREEN_WIDTH: nat := 64
  const SCREEN_HEIGHT: nat := 32
  const SCREEN_SIZE: nat := 2048

  /** Pixel `(x, y)` is cell `x + SCREEN_WIDTH * y`. */
  type Screen = s: seq<bool> | |s| == SCREEN_SIZE witness seq(SCREEN_SIZE, _ => false)

  /** The cleared screen. */
  function Blank(): Screen { seq(SCREEN_SIZE, p => false) }

  /** A sprite: one byte per row, at most fifteen rows (N is a nibble). */
  type Sprite = s: seq<u8> | |s| < 16

  /** Whether bit `col` (from the left) of a sprite row is set:
      `pixels & 0b1000_0000 >> col`. */
  predicate SpriteBit(row: u8, col: nat)
    requires col < 8
  {
    (row as bv8) & ((0x80 as bv8) >> col) != 0
  }

  /** The screen cell that row `r`, column `c` of a sprite drawn at
      `(x0, y0)` lands on, each coordinate wrapping around the screen. */
  function Cell(x0: nat, y0: nat, r: nat, c: nat): nat {
    (x0 + c) % SCREEN_WIDTH + SCREEN_WIDTH * ((y0 + r) % SCREEN_HEIGHT)
  }

  /** The sprite row and column that would land on cell `p`, if any did. */
  function RowOf(y0: nat, p: nat): nat { (p / SCREEN_WIDTH - y0) % SCREEN_HEIGHT }
  function ColOf(x0: nat, p: nat): nat { (p % SCREEN_WIDTH - x0) % SCREEN_WIDTH }

  /** Whether drawing `sprite` at `(x0, y0)` toggles cell `p`. */
  predicate Covered(sprite: Sprite, x0: nat, y0: nat, p: nat) {
    RowOf(y0, p) < |sprite| && ColOf(x0, p) < 8 && SpriteBit(sprite[RowOf(y0, p)], ColOf(x0, p))
  }

  /** The screen after XOR-drawing `sprite` at `(x0, y0)`. */
  function DrawScreen(screen: Screen, sprite: Sprite, x0: nat, y0: nat): Screen {
    seq(SCREEN_SIZE, p requires 0 <= p < SCREEN_SIZE => screen[p] != Covered(sprite, x0, y0, p))
  }

  /** Whether the drawing clears a cell that was set: some set sprite bit lands
      on a set cell. */
  predicate Collides(screen: Screen, sprite: Sprite, x0: nat, y0: nat) {
    exists r: nat, c: nat :: r < |sprite| && c < 8 && SpriteBit(sprite[r], c) &&
      screen[Cell(x0, y0, r, c)]
  }

  /** Every sprite position lands on the screen. */
  lemma CellInRange(x0: nat, y0: nat, r: nat, c: nat)
    ensures Cell(x0, y0, r, c) < SCREEN_SIZE
  {
  }

  /** The cell a sprite position lands on gives that position back. */
  lemma CellCoords(x0: nat, y0: nat, r: nat, c: nat)
    requires r < SCREEN_HEIGHT && c < SCREEN_WIDTH
    ensures RowOf(y0, Cell(x0, y0, r, c)) == r && ColOf(x0, Cell(x0, y0, r, c)) == c
  {
  }

  /** Every cell is where its own row and column land. */
  lemma CoordsCell(x0: nat, y0: nat, p: nat)
    requires p < SCREEN_SIZE
    ensures Cell(x0, y0, RowOf(y0, p), ColOf(x0, p)) == p
  {
  }

  /** DXYN toggles the cell under every set sprite bit. */
  lemma DrawToggles(screen: Screen, sprite: Sprite, x0: nat, y0: nat, r: nat, c: nat)
    requires r < |sprite| && c < 8
    ensures var p := Cell(x0, y0, r, c);
      p < SCREEN_SIZE &&
      DrawScreen(screen, sprite, x0, y0)[p] == (screen[p] != SpriteBit(sprite[r], c))
  {
    CellCoords(x0, y0, r, c);
  }

  /** DXYN leaves every cell that no set sprite bit lands on as it was. */
  lemma DrawKeeps(screen: Screen, sprite: Sprite, x0: nat, y0: nat, p: nat)
    requires p < SCREEN_SIZE
    requires forall r: nat, c: nat :: r < |sprite| && c < 8 && SpriteBit(sprite[r], c) ==>
      Cell(x0, y0, r, c) != p
    ensures DrawScreen(screen, sprite, x0, y0)[p] == screen[p]
  {
    CoordsCell(x0, y0, p);
  }

  /** Drawing the same sprite at the same place twice restores the screen. */
  lemma DrawTwice(screen: Screen, sprite: Sprite, x0: nat, y0: nat)
    ensures DrawScreen(DrawScreen(screen, sprite, x0, y0), sprite, x0, y0) == screen
  {
    var once := DrawScreen(screen, sprite, x0, y0);
    var twice := DrawScreen(once, sprite, x0, y0);
    forall p | 0 <= p < SCREEN_SIZE
      ensures twice[p] == screen[p]
    {
    }
  }

  /** The second of two identical draws collides exactly when some set sprite
      bit lands on a cell that was clear before the first: it reports the
      cells it erases. */
  lemma RedrawCollides(screen: Screen, sprite: Sprite, x0: nat, y0: nat)
    ensures Collides(DrawScreen(screen, sprite, x0, y0), sprite, x0, y0) <==>
      exists r: nat, c: nat :: r < |sprite| && c < 8 && SpriteBit(sprite[r], c) &&
        !screen[Cell(x0, y0, r, c)]
  {
    var once := DrawScreen(screen, sprite, x0, y0);
    forall r: nat, c: nat | r < |sprite| && c < 8
      ensures Cell(x0, y0, r, c) < SCREEN_SIZE &&
        once[Cell(x0, y0, r, c)] == (screen[Cell(x0, y0, r, c)] != SpriteBit(sprite[r], c))
    {
      DrawToggles(screen, sprite, x0, y0, r, c);
    }
  }

  /** A sprite of no rows changes nothing and never collides. */
  lemma DrawNothing(screen: Screen, x0: nat, y0: nat)
    ensures DrawScreen(screen, [], x0, y0) == screen
    ensures !Collides(screen, [], x0, y0)
  {
  }

  /** A cell changes exactly when some set sprite bit lands on it. */
  lemma DrawExactly(screen: Screen, sprite: Sprite, x0: nat, y0: nat, p: nat)
    requires p < SCREEN_SIZE
    ensures DrawScreen(screen, sprite, x0, y0)[p] ==
      (screen[p] != exists r: nat, c: nat :: r < |sprite| && c < 8 && SpriteBit(sprite[r], c) &&
                                             Cell(x0, y0, r, c) == p)
  {
    if exists r: nat, c: nat :: r < |sprite| && c < 8 && SpriteBit(sprite[r], c) &&
                                Cell(x0, y0, r, c) == p {
      var r: nat, c: nat :| r < |sprite| && c < 8 && SpriteBit(sprite[r], c) && Cell(x0, y0, r, c) == p;
      DrawToggles(screen, sprite, x0, y0, r, c);
    } else {
      DrawKeeps(screen, sprite, x0, y0, p);
    }
  }

  /** VF's meaning: a drawing collides exactly when it turns some set cell off. */
  lemma CollidesIffCleared(screen: Screen, sprite: Sprite, x0: nat, y0: nat)
    ensures Collides(screen, sprite, x0, y0) <==>
      exists p :: 0 <= p < SCREEN_SIZE && screen[p] && !DrawScreen(screen, sprite, x0, y0)[p]
  {
    var after := DrawScreen(screen, sprite, x0, y0);
    if Collides(screen, sprite, x0, y0) {
      var r: nat, c: nat :| r < |sprite| && c < 8 && SpriteBit(sprite[r], c) &&
        screen[Cell(x0, y0, r, c)];
      DrawToggles(screen, sprite, x0, y0, r, c);
      var p := Cell(x0, y0, r, c);
      assert screen[p] && !after[p];
    }
    if exists p :: 0 <= p < SCREEN_SIZE && screen[p] && !after[p] {
      var p :| 0 <= p < SCREEN_SIZE && screen[p] && !after[p];
      CoordsCell(x0, y0, p);
      var r, c := RowOf(y0, p), ColOf(x0, p);
      assert r < |sprite| && c < 8 && SpriteBit(sprite[r], c) && screen[Cell(x0, y0, r, c)];
    }
  }

  /** Cell `p` has been toggled by the first `k` sprite positions in row-major
      order (the loop of DXYN after `k` steps). */
  predicate Drawn(sprite: Sprite, x0: nat, y0: nat, p: nat, k: nat) {
    Covered(sprite, x0, y0, p) && RowOf(y0, p) * 8 + ColOf(x0, p) < k
  }

  /** The first `k` sprite positions in row-major order include a set bit over
      a set cell of `screen`. */
  predicate CollidedBefore(screen: Screen, sprite: Sprite, x0: nat, y0: nat, k: nat) {
    exists r: nat, c: nat :: r < |sprite| && c < 8 && r * 8 + c < k &&
      SpriteBit(sprite[r], c) && screen[Cell(x0, y0, r, c)]
  }

  /** One step of the drawing loop toggles exactly the cell of position
      `(r, c)`, and only if its bit is set. */
  lemma DrawnStep(sprite: Sprite, x0: nat, y0: nat, r: nat, c: nat, p: nat)
    requires r < |sprite| && c < 8 && p < SCREEN_SIZE
    ensures Drawn(sprite, x0, y0, p, r * 8 + c + 1) ==
      (Drawn(sprite, x0, y0, p, r * 8 + c) != (p == Cell(x0, y0, r, c) && SpriteBit(sprite[r], c)))
  {
    CellCoords(x0, y0, r, c);
    CoordsCell(x0, y0, p);
  }

  /** One step of the drawing loop adds position `(r, c)` to the collision test. */
  lemma CollidedStep(screen: Screen, sprite: Sprite, x0: nat, y0: nat, r: nat, c: nat)
    requires r < |sprite| && c < 8
    ensures CollidedBefore(screen, sprite, x0, y0, r * 8 + c + 1) ==
      (CollidedBefore(screen, sprite, x0, y0, r * 8 + c) ||
       (SpriteBit(sprite[r], c) && screen[Cell(x0, y0, r, c)]))
  {
    var k := r * 8 + c;
    if CollidedBefore(screen, sprite, x0, y0, k + 1) && !CollidedBefore(screen, sprite, x0, y0, k) {
      var r': nat, c': nat :| r' < |sprite| && c' < 8 && r' * 8 + c' < k + 1 &&
        SpriteBit(sprite[r'], c') && screen[Cell(x0, y0, r', c')];
      assert r' * 8 + c' == k;
      assert r' == r && c' == c;
    }
  }

  /** After every position, the loop has drawn the whole sprite. */
  lemma DrawnAll(screen: Screen, sprite: Sprite, x0: nat, y0: nat)
    ensures forall p: nat :: p < SCREEN_SIZE ==>
      Drawn(sprite, x0, y0, p, |sprite| * 8) == Covered(sprite, x0, y0, p)
    ensures CollidedBefore(screen, sprite, x0, y0, |sprite| * 8) == Collides(screen, sprite, x0, y0)
  {
  }
}
