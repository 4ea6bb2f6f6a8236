/**
 * The interface version of the shape example: three unrelated classes that
 * each declare their own fields, their own `area()` and their own copy of
 * `setAreaResult()`. A constructor stores its dimensions and the shape's
 * label, then fills `areaResult` with the display line.
 */
module Interfaces {
  import PhpString
  import opened AreaDisplay

  class Square {
    var name: string
    var width: int
    var areaResult: string

    /**
     * `areaResult` is the line of the current `name` and `Area()`: what SetAreaResult
     * ensures. It is not an object invariant; a later write to a field can break it.
     */
    predicate AreaResultCurrent()
      reads this
    {
      areaResult == IntLine(name, Area())
    }

    constructor (width: int)
      ensures this.width == width && name == SquareName
      ensures AreaResultCurrent() && areaResult == IntLine(SquareName, width * width)
    {
      this.name := "";
      this.areaResult := "";
      this.width := width;
      this.name := SquareName;
      new;
      SetAreaResult();
    }

    /** A square's area: never negative, whatever the sign of its width. */
    function Area(): (a: int)
      reads this
      ensures a >= 0
      ensures a == 0 <==> width == 0
    {
      width * width
    }

    method SetAreaResult()
      modifies this`areaResult
      ensures AreaResultCurrent()
      ensures name == old(name) && width == old(width)
    {
      areaResult := IntLine(name, Area());
    }
  }

  class Rectangle {
    var name: string
    var width: int
    var height: int
    var areaResult: string

    /**
     * `areaResult` is the line of the current `name` and `Area()`: what SetAreaResult
     * ensures. It is not an object invariant; a later write to a field can break it.
     */
    predicate AreaResultCurrent()
      reads this
    {
      areaResult == IntLine(name, Area())
    }

    constructor (width: int, height: int)
      ensures this.width == width && this.height == height && name == RectangleName
      ensures AreaResultCurrent() && areaResult == IntLine(RectangleName, width * height)
    {
      this.name := "";
      this.areaResult := "";
      this.width := width;
      this.height := height;
      this.name := RectangleName;
      new;
      SetAreaResult();
    }

    /** A rectangle's area: zero exactly when a side is zero, negative exactly when the sides' signs differ. */
    function Area(): (a: int)
      reads this
      ensures a == 0 <==> width == 0 || height == 0
      ensures a < 0 <==> (width < 0 && height > 0) || (width > 0 && height < 0)
    {
      width * height
    }

    method SetAreaResult()
      modifies this`areaResult
      ensures AreaResultCurrent()
      ensures name == old(name) && width == old(width) && height == old(height)
    {
      areaResult := IntLine(name, Area());
    }
  }

  class Circle {
    var name: string
    var radius: int
    var areaResult: string
    /** The platform's floating-point area text for a radius. */
    const circleAreaText: AreaFormatter

    /**
     * `areaResult` is the line of the current `name` and `Area()`: what SetAreaResult
     * ensures. It is not an object invariant; a later write to a field can break it.
     */
    predicate AreaResultCurrent()
      reads this
    {
      areaResult == Line(name, Area())
    }

    constructor (radius: int, circleAreaText: AreaFormatter)
      ensures this.radius == radius && name == CircleName && this.circleAreaText == circleAreaText
      ensures AreaResultCurrent() && areaResult == Line(CircleName, circleAreaText(radius))
    {
      this.circleAreaText := circleAreaText;
      this.name := "";
      this.areaResult := "";
      this.radius := radius;
      this.name := CircleName;
      new;
      SetAreaResult();
    }

    /** The platform's area text for this circle's radius. */
    function Area(): (a: string)
      reads this
      ensures a == circleAreaText(radius)
    {
      circleAreaText(radius)
    }

    method SetAreaResult()
      modifies this`areaResult
      ensures AreaResultCurrent()
      ensures name == old(name) && radius == old(radius)
    {
      areaResult := Line(name, Area());
    }
  }

  /**
   * The script's closing lines: build one shape of each kind from the
   * defined dimensions and emit their `areaResult`s, in order.
   */
  method Demo(circleAreaText: AreaFormatter) returns (output: seq<string>)
    ensures output == [
      "The area of this square = 9<br/>",
      "The area of this rectangle = 20<br/>",
      "The area of this circle = " + circleAreaText(CircleRadius) + "<br/>"]
    ensures circleAreaText(CircleRadius) == "113.10" ==>
      output[2] == "The area of this circle = 113.10<br/>"
  {
    var square := new Square(SquareWidth);
    var rectangle := new Rectangle(RectangleWidth, RectangleHeight);
    var circle := new Circle(CircleRadius, circleAreaText);
    output := [square.areaResult, rectangle.areaResult, circle.areaResult];
    ExpectedSquareLine();
    ExpectedRectangleLine();
    ExpectedCircleLine(circleAreaText);
  }
}
