/** Small shared vocabulary: Java's null as Option, Java's 32-bit int, the
    number parsers the program borrows from the Java library, and Java's
    rendering of a possibly-null string in a concatenation. */
module Common {

  /** A Java reference that may be null: None stands for null. */
  datatype Option<+T> = None | Some(value: T) {
    function GetOr(default: T): T {
      match this
      case Some(v) => v
      case None => default
    }
  }

  /** Java's `int`. */
  type Int32 = x: int | -0x8000_0000 <= x < 0x8000_0000

  /** Two's-complement wrap-around of a mathematical integer into an `int`,
      as Java's `+` on `int` does. */
  function Wrap32(x: int): (r: Int32)
    ensures (r - x) % 0x1_0000_0000 == 0
    ensures -0x8000_0000 <= x < 0x8000_0000 ==> r == x
  {
    var m := (x + 0x8000_0000) % 0x1_0000_0000;
    m - 0x8000_0000
  }

  /** Wrapping an intermediate sum changes nothing: a running total kept
      in an `int` ends where the wrapped mathematical total does. */
  lemma Wrap32Add(a: int, b: int)
    ensures Wrap32(Wrap32(a) + b) == Wrap32(a + b)
  {
    var q := (a + 0x8000_0000) / 0x1_0000_0000;
    assert Wrap32(a) == a - q * 0x1_0000_0000;
    ModShift(a + b + 0x8000_0000, q);
  }

  lemma ModShift(x: int, q: int)
    ensures (x - q * 0x1_0000_0000) % 0x1_0000_0000 == x % 0x1_0000_0000
  {
  }

  /** The two library parsers the program calls: `Integer.parseInt` and
      `Double.parseDouble`. Each yields None where the library throws
      NumberFormatException. Which strings they accept is not modelled. */
  datatype NumberSyntax = NumberSyntax(
    parseInt: string -> Option<Int32>,
    parseDouble: string -> Option<real>)

  /** What Java's string concatenation writes for a possibly-null String. */
  function JavaText(s: Option<string>): string
  {
    match s
    case Some(v) => v
    case None => "null"
  }

  /** An opaque point, standing for RectCoordinate. */
  datatype Coord = Coord(x: real, y: real)

  /** `new RectCoordinate()`. */
  const Origin: Coord := Coord(0.0, 0.0)
}
