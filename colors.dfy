/**
 * The colours, the key codes that select them, and color_type, the
 * command-line validator for colour names. The source keeps a colour as
 * its lower-case name; once color_type has accepted it, only the eight
 * names of COLORS can occur, so the model keeps a `Colour` and turns it
 * into its name where the name is used (the curses colour pairs and the
 * test-mode captions).
 */
module Colors {
  import opened Wrappers

  /** The eight curses colours the program knows. */
  datatype Colour = Red | Green | Blue | Yellow | Magenta | Cyan | White | Black

  /** The lower-case name the program uses for a colour. */
  function ColourName(c: Colour): string
  {
    match c
    case Red => "red"
    case Green => "green"
    case Blue => "blue"
    case Yellow => "yellow"
    case Magenta => "magenta"
    case Cyan => "cyan"
    case White => "white"
    case Black => "black"
  }

  /** COLORS: the palette, in the order colour cycling walks it. */
  const COLORS: seq<Colour> := [Red, Green, Blue, Yellow, Magenta, Cyan, White, Black]

  /** The palette holds every colour exactly once, black last. */
  lemma PaletteComplete(c: Colour)
    ensures c in COLORS
    ensures |COLORS| == 8 && COLORS[7] == Black
    ensures forall i, j :: 0 <= i < j < |COLORS| ==> COLORS[i] != COLORS[j]
  {
  }

  /** The colour a name stands for, if any. */
  function Named(name: string): (r: Option<Colour>)
    ensures r.Some? ==> ColourName(r.value) == name
    ensures r.None? ==> forall c :: ColourName(c) != name
  {
    if name == "red" then Some(Red)
    else if name == "green" then Some(Green)
    else if name == "blue" then Some(Blue)
    else if name == "yellow" then Some(Yellow)
    else if name == "magenta" then Some(Magenta)
    else if name == "cyan" then Some(Cyan)
    else if name == "white" then Some(White)
    else if name == "black" then Some(Black)
    else None
  }

  /** Names and colours correspond one to one. */
  lemma NamedInvertsName(c: Colour)
    ensures Named(ColourName(c)) == Some(c)
  {
  }

  /** CHAR_CODES_COLOR: r t y u i o p [ select the digit colour. */
  const CHAR_CODES_COLOR: map<int, Colour> := map[
    114 := Red, 116 := Green, 121 := Blue, 117 := Yellow,
    105 := Magenta, 111 := Cyan, 112 := White, 91 := Black]

  /** CHAR_CODES_COLOR_BG: R T Y U I O P { select the background colour. */
  const CHAR_CODES_COLOR_BG: map<int, Colour> := map[
    82 := Red, 84 := Green, 89 := Blue, 85 := Yellow,
    73 := Magenta, 79 := Cyan, 80 := White, 123 := Black]

  /** The key codes the clock gives a meaning of its own. */
  const COMMAND_KEYS: set<int> := {81, 113, 99, 115, 98, 109, 101, 69, 100, 110, 49, 50, 51, 103, 104}

  /** Each colour table gives every colour a key. */
  lemma KeyTablesCover(c: Colour)
    ensures c in CHAR_CODES_COLOR.Values && c in CHAR_CODES_COLOR_BG.Values
  {
    match c
    case Red => assert CHAR_CODES_COLOR[114] == c && CHAR_CODES_COLOR_BG[82] == c;
    case Green => assert CHAR_CODES_COLOR[116] == c && CHAR_CODES_COLOR_BG[84] == c;
    case Blue => assert CHAR_CODES_COLOR[121] == c && CHAR_CODES_COLOR_BG[89] == c;
    case Yellow => assert CHAR_CODES_COLOR[117] == c && CHAR_CODES_COLOR_BG[85] == c;
    case Magenta => assert CHAR_CODES_COLOR[105] == c && CHAR_CODES_COLOR_BG[73] == c;
    case Cyan => assert CHAR_CODES_COLOR[111] == c && CHAR_CODES_COLOR_BG[79] == c;
    case White => assert CHAR_CODES_COLOR[112] == c && CHAR_CODES_COLOR_BG[80] == c;
    case Black => assert CHAR_CODES_COLOR[91] == c && CHAR_CODES_COLOR_BG[123] == c;
  }

  /** No key is in both colour tables or among the command keys. */
  lemma KeyTablesDisjoint()
    ensures forall ch :: ch in CHAR_CODES_COLOR ==> ch !in CHAR_CODES_COLOR_BG && ch !in COMMAND_KEYS
    ensures forall ch :: ch in CHAR_CODES_COLOR_BG ==> ch !in COMMAND_KEYS
  {
    ForegroundKeysDisjoint();
    BackgroundKeysDisjoint();
  }

  lemma ForegroundKeysDisjoint()
    ensures forall ch :: ch in CHAR_CODES_COLOR ==> ch !in CHAR_CODES_COLOR_BG && ch !in COMMAND_KEYS
  {
    ForegroundTable();
    BackgroundTable();
  }

  lemma BackgroundKeysDisjoint()
    ensures forall ch :: ch in CHAR_CODES_COLOR_BG ==> ch !in COMMAND_KEYS
  {
    BackgroundTable();
  }

  lemma ForegroundTable()
    ensures CHAR_CODES_COLOR.Keys == {114, 116, 121, 117, 105, 111, 112, 91}
  {
  }

  lemma BackgroundTable()
    ensures CHAR_CODES_COLOR_BG.Keys == {82, 84, 89, 85, 73, 79, 80, 123}
  {
  }

  /** Lower-casing of one character: the ASCII capitals, and the Kelvin
      sign U+212A, the one other character str.lower maps to an ASCII
      letter; every other character is kept. */
  function LowerChar(c: char): char
  {
    if 'A' <= c <= 'Z' then (c as int - 'A' as int + 'a' as int) as char
    else if c == '\U{212A}' then 'k'
    else c
  }

  /** str.lower, character by character with LowerChar. */
  function Lower(s: string): (r: string)
    ensures |r| == |s|
    ensures forall i :: 0 <= i < |s| ==> r[i] == LowerChar(s[i])
  {
    if s == [] then [] else [LowerChar(s[0])] + Lower(s[1..])
  }

  /** color_type: the colour named by the lower-cased value, otherwise the
      argparse error "<value> is an invalid color name". */
  function ColorType(value: string): (r: Result<Colour, string>)
    ensures r.Success? <==> exists c :: ColourName(c) == Lower(value)
    ensures r.Success? ==> ColourName(r.value) == Lower(value)
    ensures r.Failure? ==> r.error == value + " is an invalid color name"
  {
    match Named(Lower(value))
    case Some(c) => Success(c)
    case None => Failure(value + " is an invalid color name")
  }

  /** Lower-casing twice changes nothing more. */
  lemma {:induction false} LowerIdempotent(s: string)
    ensures Lower(Lower(s)) == Lower(s)
  {
    if s != [] {
      LowerIdempotent(s[1..]);
    }
  }

  /** The colour names are already lower case. */
  lemma NamesLowerCase(c: Colour)
    ensures Lower(ColourName(c)) == ColourName(c)
  {
    var n := ColourName(c);
    assert forall i :: 0 <= i < |n| ==> 'a' <= n[i] <= 'z';
    assert Lower(n) == n;
  }

  /** color_type is case-insensitive, and accepts every colour's own name. */
  lemma ColorTypeCaseInsensitive(a: string, b: string, c: Colour)
    requires Lower(a) == Lower(b)
    ensures ColorType(a).Success? <==> ColorType(b).Success?
    ensures ColorType(a).Success? ==> ColorType(a).value == ColorType(b).value
    ensures ColorType(ColourName(c)) == Success(c)
  {
    NamesLowerCase(c);
    NamedInvertsName(c);
  }

  /** The (length, first letter) of each colour name. */
  const NAME_SHAPES: set<(int, char)> :=
    {(3, 'r'), (5, 'g'), (4, 'b'), (6, 'y'), (7, 'm'), (4, 'c'), (5, 'w'), (5, 'b')}

  lemma NameShapes()
    ensures forall c :: |ColourName(c)| > 0 && (|ColourName(c)|, ColourName(c)[0]) in NAME_SHAPES
  {
  }

  /** color_type rejects a value whose lower-cased length and first letter
      match no colour name. */
  lemma ColorTypeRejects(value: string)
    requires |value| > 0 && (|value|, LowerChar(value[0])) !in NAME_SHAPES
    ensures ColorType(value).Failure?
    ensures ColorType(value).error == value + " is an invalid color name"
  {
    NameShapes();
    assert Lower(value)[0] == LowerChar(value[0]);
  }

  /** color_type accepts a value whose lower-cased form is a colour's name. */
  lemma ColorTypeAcceptsName(value: string, c: Colour)
    requires Lower(value) == ColourName(c)
    ensures ColorType(value) == Success(c)
  {
    NamedInvertsName(c);
  }

  /** The Kelvin sign lower-cases to 'k', so "BLAC" followed by it names black. */
  lemma ColorTypeKelvinSign()
    ensures ColorType("BLAC\U{212A}") == Success(Black)
  {
    assert Lower("BLAC\U{212A}") == "black";
    ColorTypeAcceptsName("BLAC\U{212A}", Black);
  }

  /** The accepted cases tests/argument_parsing_test.py checks. */
  lemma ColorTypeAccepts(value: string, c: Colour)
    requires (value, c) in [("blue", Blue), ("Yellow", Yellow), ("GREEN", Green)]
    ensures ColorType(value) == Success(c)
  {
    assert forall i :: 0 <= i < |value| ==> LowerChar(value[i]) == ColourName(c)[i];
    assert Lower(value) == ColourName(c);
    ColorTypeAcceptsName(value, c);
  }

  /** The rejected cases tests/argument_parsing_test.py checks. */
  lemma ColorTypeRejectsCases(value: string)
    requires value in ["gray", "gold", "redgreen", "2837492", "Blue+Green", "Blue!!!"]
    ensures ColorType(value).Failure?
  {
    ColorTypeRejects(value);
  }
}
