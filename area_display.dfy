/**
 * The text every shape stores in `areaResult`:
 *   "The area of this " . name . " = " . area . "<br/>"
 * `Split` takes such a line apart again; the lemmas show that for a shape
 * name without spaces (all three of the script's names) the line determines
 * both the name and the area text, and that every line `Split` accepts is
 * one `Line` produces.
 */
module AreaDisplay {
  import opened Wrappers
  import PhpString

  const Prefix := "The area of this "
  const Separator := " = "
  const Suffix := "<br/>"

  /** The labels the three constructors store in `name`. */
  const SquareName := "square"
  const RectangleName := "rectangle"
  const CircleName := "circle"

  /** The text Circle's area() yields for a radius r, i.e. the whole of number_format(pow(r, 2) * M_PI, 2). */
  type AreaFormatter = int -> string

  /** The display line for a shape called `name` whose area reads `area`. */
  function Line(name: string, area: string): (r: string)
    ensures |r| == |Prefix| + |name| + |Separator| + |area| + |Suffix|
    ensures r[..|Prefix|] == Prefix && r[|r| - |Suffix|..] == Suffix
  {
    Prefix + name + Separator + area + Suffix
  }

  /** The display line of a shape whose area() returns an integer. */
  function IntLine(name: string, area: int): string {
    Line(name, PhpString.FromInt(area))
  }

  /** The index of the first `c` in `s`, or |s| when there is none. */
  function IndexOf(s: string, c: char): (i: nat)
    ensures i <= |s|
    ensures i < |s| ==> s[i] == c
    ensures forall j :: 0 <= j < i ==> s[j] != c
  {
    if s == [] then 0 else if s[0] == c then 0 else 1 + IndexOf(s[1..], c)
  }

  /** The name and the area text of a display line: the name ends at the first space. */
  function Split(line: string): Option<(string, string)> {
    if |line| < |Prefix| + |Suffix| || line[..|Prefix|] != Prefix || line[|line| - |Suffix|..] != Suffix then None
    else
      var middle := line[|Prefix|..|line| - |Suffix|];
      var i := IndexOf(middle, ' ');
      if i + |Separator| <= |middle| && middle[i..i + |Separator|] == Separator
      then Some((middle[..i], middle[i + |Separator|..]))
      else None
  }

  /** A line built from a space-free name splits back into that name and area text. */
  lemma SplitLine(name: string, area: string)
    requires ' ' !in name
    ensures Split(Line(name, area)) == Some((name, area))
  {
    var line := Line(name, area);
    var middle := line[|Prefix|..|line| - |Suffix|];
    assert middle == name + Separator + area;
    assert middle[|name|] == ' ';
    assert IndexOf(middle, ' ') == |name|;
    assert middle[|name|..|name| + |Separator|] == Separator;
    assert middle[..|name|] == name && middle[|name| + |Separator|..] == area;
  }

  /** Every line that splits is the line of its parts. */
  lemma LineOfSplit(line: string)
    requires Split(line).Some?
    ensures Line(Split(line).value.0, Split(line).value.1) == line
  {
  }

  /** The display line of an integer area determines the name and the area itself. */
  lemma IntLineDetermines(name1: string, area1: int, name2: string, area2: int)
    requires ' ' !in name1 && ' ' !in name2
    requires IntLine(name1, area1) == IntLine(name2, area2)
    ensures name1 == name2 && area1 == area2
  {
    SplitLine(name1, PhpString.FromInt(area1));
    SplitLine(name2, PhpString.FromInt(area2));
    PhpString.FromIntInjective(area1, area2);
  }

  /** The script's `define`d dimensions. */
  const SquareWidth := 3
  const RectangleWidth := 4
  const RectangleHeight := 5
  const CircleRadius := 6

  /** The square line the script's comments give, for its defined width. */
  lemma ExpectedSquareLine()
    ensures IntLine(SquareName, SquareWidth * SquareWidth) == "The area of this square = 9<br/>"
  {
    assert PhpString.FromInt(9) == "9";
  }

  /** The rectangle line the script's comments give, for its defined sides. */
  lemma ExpectedRectangleLine()
    ensures IntLine(RectangleName, RectangleWidth * RectangleHeight) == "The area of this rectangle = 20<br/>"
  {
    assert PhpString.FromInt(20) == "20" by {
      assert PhpString.NatToDigits(2) == "2";
    }
  }

  /** The circle line for the defined radius, and the one the comments give when the area text is "113.10". */
  lemma ExpectedCircleLine(circleAreaText: AreaFormatter)
    ensures Line(CircleName, circleAreaText(CircleRadius)) == "The area of this circle = " + circleAreaText(CircleRadius) + "<br/>"
    ensures circleAreaText(CircleRadius) == "113.10" ==>
      Line(CircleName, circleAreaText(CircleRadius)) == "The area of this circle = 113.10<br/>"
  {
  }
}
