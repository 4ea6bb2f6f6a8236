# Shape areas: PHP abstraction and interfaces, modelled in Dafny

The repository is a teaching example written twice. Three shapes (square,
rectangle, circle) each compute an area. Each builds the display line
`"The area of this " . name . " = " . area() . "<br/>"` and stores it in
`areaResult` while it is being constructed. The script then creates one
shape of each kind and echoes the three lines.

- `src/php-interfaces.php` implements an interface `Shape`. It has three
  independent classes, and each declares its own fields, `area()` and
  `setAreaResult()`.
- `src/php-abstraction.php` uses an abstract class `Shape`. The base class
  holds the fields with their defaults and the one shared `setAreaResult()`.
  The subclasses supply the constructors and `area()`.

Modules:

- `PhpString` (php_string.dfy): PHP's conversion of an `int` to text, which
  happens when `.` concatenates it. It has a canonical decimal parser
  `Parse`, and the two are proved mutually inverse.
- `AreaDisplay` (area_display.dfy): the display line `Line`, its inverse
  `Split`, the three shape labels, the script's `define`d dimensions and the
  output lines its comments state.
- `Interfaces` (interfaces.dfy): the classes `Square`, `Rectangle` and
  `Circle` of the interface version, and the closing script as `Demo`.
- `Abstraction` (abstraction.dfy): the abstract-class version. It is a
  single class `Shape` whose constant `kind` records the subclass that
  created the object. There are three named constructors, an `Area()` that
  dispatches on `kind`, the shared `SetAreaResult()`, and `Demo`.

Circle's area is `number_format(pow(r, 2) * M_PI, 2)`, which is
floating-point arithmetic followed by library rounding. The model takes it
as a parameter `circleAreaText: int -> string` (`AreaDisplay.AreaFormatter`)
and supplies it when a circle is created. It is never computed. What the
model proves about circles holds for every such function. The output the
script's comments give for radius 6 is proved under the hypothesis
`circleAreaText(6) == "113.10"`.

## Model

| member | source | states |
|---|---|---|
| `PhpString.FromInt` | src/php-interfaces.php:97 | The text of an int starts with '-' exactly when the int is negative; the rest is a non-empty digit string with no leading zero (only 0 itself is "0", and there is no "-0"). |
| `PhpString.NatToDigits` | src/php-interfaces.php:97 | The digits of a natural number: at least one digit, a leading '0' only for zero, and a single digit exactly below 10. |
| `PhpString.ParseFromInt` | src/php-interfaces.php:97 | Reading back the text of any int gives that int. |
| `PhpString.FromIntOfParse` | src/php-interfaces.php:97 | Every text that parses is exactly the text of the int it denotes, so the conversion is onto the canonical texts. |
| `PhpString.FromIntInjective` | src/php-interfaces.php:97 | Distinct areas are displayed as distinct texts. |
| `AreaDisplay.Line` | src/php-abstraction.php:72 | The display line starts with "The area of this ", ends with "<br/>", and its length is that of the label, " = " and the area text added to those. The same concatenation is at src/php-interfaces.php lines 97, 165 and 225. |
| `AreaDisplay.SplitLine` | src/php-interfaces.php:97 | A display line built from a label without spaces splits back into exactly that label and that area text. |
| `AreaDisplay.LineOfSplit` | src/php-abstraction.php:72 | Every string that splits is the display line of its two parts. |
| `AreaDisplay.IntLineDetermines` | src/php-abstraction.php:72 | Two display lines of integer areas are equal only when their labels and their areas are equal. |
| `AreaDisplay.ExpectedSquareLine` | src/php-interfaces.php:237-239 | For width 3 the square's line is "The area of this square = 9<br/>". |
| `AreaDisplay.ExpectedRectangleLine` | src/php-interfaces.php:241-243 | For width 4 and height 5 the rectangle's line is "The area of this rectangle = 20<br/>". |
| `Interfaces.Square.constructor` | src/php-interfaces.php:73-78 | Stores the width and the label "square", and leaves `areaResult` equal to the display line of width × width. |
| `Interfaces.Square.Area` | src/php-interfaces.php:85-88 | width × width; never negative, and zero exactly when the width is zero. It only reads fields. |
| `Interfaces.Square.SetAreaResult` | src/php-interfaces.php:95-98 | Writes only `areaResult`, which becomes the line of `name` and `Area()`. `name` and `width` are unchanged. |
| `Interfaces.Rectangle.constructor` | src/php-interfaces.php:140-146 | Stores width, height and the label "rectangle", and leaves `areaResult` equal to the display line of width × height. |
| `Interfaces.Rectangle.Area` | src/php-interfaces.php:153-156 | width × height: zero exactly when a side is zero, negative exactly when the sides' signs differ. It only reads fields. |
| `Interfaces.Rectangle.SetAreaResult` | src/php-interfaces.php:163-166 | Writes only `areaResult`, which becomes the line of `name` and `Area()`. `name`, `width` and `height` are unchanged. |
| `Interfaces.Circle.constructor` | src/php-interfaces.php:200-205 | Stores the radius and the label "circle", and leaves `areaResult` equal to the line of the platform's area text for that radius. |
| `Interfaces.Circle.Area` | src/php-interfaces.php:212-216 | The platform's area text for this circle's radius, the whole of `number_format(pow(radius, 2) * M_PI, 2)`; it only reads fields. |
| `Interfaces.Circle.SetAreaResult` | src/php-interfaces.php:223-226 | Writes only `areaResult`, which becomes the line of `name` and `Area()`. `name` and `radius` are unchanged. |
| `Interfaces.Demo` | src/php-interfaces.php:237-247 | The lines the script echoes, in script order: each output comment's text followed by "<br/>" (9 for the square, 20 for the rectangle), and the circle's line around its area text, which is "The area of this circle = 113.10<br/>" under the hypothesis that the text is "113.10". |
| `Abstraction.Shape.Square` | src/php-abstraction.php:86-91 | Stores the width and "square". `height` (and `radius`) keep their default 0. `areaResult` is the line of width × width. |
| `Abstraction.Shape.Rectangle` | src/php-abstraction.php:115-121 | Stores width, height and "rectangle", and `areaResult` is the line of width × height. |
| `Abstraction.Shape.Circle` | src/php-abstraction.php:152-157 | Stores the radius and "circle". The inherited `width` and `height` keep their default 0. `areaResult` is the line of the platform's area text. |
| `Abstraction.ToText` | src/php-abstraction.php:72 | How `.` turns the mixed result of area() into text: an integer area becomes decimal text that parses back to that integer, and a string area is used as it is. |
| `Abstraction.Shape.Area` | src/php-abstraction.php:98-101 | The three subclass area() methods (Square at lines 98-101, Rectangle at 128-131, Circle at 164-168), dispatched on the subclass. Squares and rectangles yield integers: a square's area is never negative and is zero exactly for width 0, and a rectangle's is zero exactly when a side is 0. A circle yields the platform's text for its radius. |
| `Abstraction.Shape.SetAreaResult` | src/php-abstraction.php:70-73 | The one shared method: for every subclass it writes only `areaResult`, as the line of `name` and the text of `Area()`. |
| `Abstraction.Demo` | src/php-abstraction.php:179-189 | The lines the script echoes, in script order: each output comment's text followed by "<br/>" (9 for the square, 20 for the rectangle), and the circle's line around its area text, which is "The area of this circle = 113.10<br/>" under the hypothesis that the text is "113.10". |

## Left out

- `Interfaces.Circle.Area`, `Abstraction.Shape.Area`: the circle area text (`pow`, `M_PI`, `number_format`) is not computed. It is a caller-supplied function of the radius, because it is floating-point arithmetic plus library rounding.
- `Interfaces.Square.Area`, `Interfaces.Rectangle.Area`, `Abstraction.Shape.Area`: PHP turns an integer product beyond 64 bits into a float, which prints differently. The model uses unbounded integers.
- `echo` is not modelled as output to stdout. `Demo` returns the echoed lines as a sequence instead.
- The `define` constants are plain Dafny constants.
- PHP's loose typing is not modelled: dimensions are `int`, so fractional, string or null arguments are out of scope.
- Interface versus abstract class, and `public`/`protected` visibility, carry no behaviour and are not modelled. The abstract hierarchy is one class with a `kind` tag. On that class, `radius`, which only Circle declares, exists for every kind and stays 0 for squares and rectangles.
