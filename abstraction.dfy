/**
 * The abstract-class version of the shape example. The base class `Shape`
 * declares every field with its default (`name` '', `width` 0, `height` 0,
 * `areaResult` '') and the one `setAreaResult()` all subclasses share; each
 * subclass supplies its constructor and its `area()`. Here the subclass an
 * object was created as is the constant `kind`, `Area()` dispatches on it,
 * and the three subclass constructors are the named constructors `Square`,
 * `Rectangle` and `Circle`.
 */
module Abstraction {
  import PhpString
  import opened AreaDisplay
  import opened Wrappers

  /** The concrete subclass; a Circle carries the platform's floating-point area text. */
  datatype Kind = SquareKind | RectangleKind | CircleKind(circleAreaText: AreaFormatter)

  /** What `area()` returns: an integer for squares and rectangles, a string for circles. */
  datatype Mixed = Int(i: int) | Str(s: string)

  /** PHP's conversion of a `Mixed` value when `.` concatenates it. */
  function ToText(v: Mixed): (r: string)
    ensures v.Int? ==> PhpString.Parse(r) == Some(v.i)
    ensures v.Str? ==> r == v.s
  {
    match v
    case Int(i) => PhpString.ParseFromInt(i); PhpString.FromInt(i)
    case Str(s) => s
  }

  class Shape {
    const kind: Kind
    var name: string
    var width: int
    var height: int
    /** Declared by Circle alone; the other kinds leave it at 0. */
    var radius: int
    var areaResult: string

    /**
     * `areaResult` is the line of the current `name` and `Area()`: what SetAreaResult
     * ensures. It is not an object invariant; a later write to a field can break it.
     */
    predicate AreaResultCurrent()
      reads this
    {
      areaResult == Line(name, ToText(Area()))
    }

    /** The fields this shape's constructor does not assign still hold the base class defaults. */
    predicate Defaults()
      reads this
    {
      match kind
      case SquareKind => height == 0 && radius == 0
      case RectangleKind => radius == 0
      case CircleKind(_) => width == 0 && height == 0
    }

    constructor Square(width: int)
      ensures kind == SquareKind && name == SquareName && this.width == width
      ensures Defaults() && height == 0 && radius == 0
      ensures AreaResultCurrent() && areaResult == IntLine(SquareName, width * width)
    {
      this.kind := SquareKind;
      this.name, this.width, this.height, this.radius, this.areaResult := "", 0, 0, 0, "";
      this.width := width;
      this.name := SquareName;
      new;
      SetAreaResult();
    }

    constructor Rectangle(width: int, height: int)
      ensures kind == RectangleKind && name == RectangleName
      ensures this.width == width && this.height == height
      ensures Defaults() && radius == 0
      ensures AreaResultCurrent() && areaResult == IntLine(RectangleName, width * height)
    {
      this.kind := RectangleKind;
      this.name, this.width, this.height, this.radius, this.areaResult := "", 0, 0, 0, "";
      this.width := width;
      this.height := height;
      this.name := RectangleName;
      new;
      SetAreaResult();
    }

    constructor Circle(radius: int, circleAreaText: AreaFormatter)
      ensures kind == CircleKind(circleAreaText) && name == CircleName && this.radius == radius
      ensures Defaults() && width == 0 && height == 0
      ensures AreaResultCurrent() && areaResult == Line(CircleName, circleAreaText(radius))
    {
      this.kind := CircleKind(circleAreaText);
      this.name, this.width, this.height, this.radius, this.areaResult := "", 0, 0, 0, "";
      this.radius := radius;
      this.name := CircleName;
      new;
      SetAreaResult();
    }

    /** Each subclass's area(): integer for squares and rectangles, the platform's text for circles. */
    function Area(): (a: Mixed)
      reads this
      ensures a.Int? <==> !kind.CircleKind?
      ensures kind == SquareKind ==> a.i >= 0 && (a.i == 0 <==> width == 0)
      ensures kind == RectangleKind ==> (a.i == 0 <==> width == 0 || height == 0)
      ensures kind.CircleKind? ==> a.s == kind.circleAreaText(radius)
    {
      match kind
      case SquareKind => Int(width * width)
      case RectangleKind => Int(width * height)
      case CircleKind(circleAreaText) => Str(circleAreaText(radius))
    }

    /** The one setAreaResult() every subclass inherits. */
    method SetAreaResult()
      modifies this`areaResult
      ensures AreaResultCurrent()
      ensures name == old(name) && width == old(width) && height == old(height) && radius == old(radius)
    {
      areaResult := Line(name, ToText(Area()));
    }
  }

  /**
   * The script's closing lines: build one shape of each subclass from the
   * defined dimensions and emit their `areaResult`s, in order.
   */
  method Demo(circleAreaText: AreaFormatter) returns (output: seq<string>)
    ensures output == [
      "The area of this square = 9<br/>",
      "The area of this rectangle = 20<br/>",
      "The area of this circle = " + circleAreaText(CircleRadius) + "<br/>"]
    ensures circleAreaText(CircleRadius) == "113.10" ==>
      output[2] == "The area of this circle = 113.10<br/>"
  {
    var square := new Shape.Square(SquareWidth);
    var rectangle := new Shape.Rectangle(RectangleWidth, RectangleHeight);
    var circle := new Shape.Circle(CircleRadius, circleAreaText);
    output := [square.areaResult, rectangle.areaResult, circle.areaResult];
    ExpectedSquareLine();
    ExpectedRectangleLine();
    ExpectedCircleLine(circleAreaText);
  }
}
