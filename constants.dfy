/** The data the cube engine depends on: palette, move modifiers, solved state. */
module Constants {
  import opened CubeState

  /** Display colour of each sticker symbol. */
  const Colors: map<char, string> :=
    map['w' := "#f0f0f0", 'o' := "#ff9800", 'g' := "#4caf50",
        'r' := "#f44336", 'b' := "#2196f3", 'y' := "#ffeb3b"]

  /** The three move suffixes: quarter turn, inverse quarter turn, half turn. */
  const Modifiers: seq<string> := ["", "'", "2"]

  /** The six sticker symbols, in the order the solved faces use them. */
  const Palette: seq<char> := ['w', 'o', 'g', 'r', 'b', 'y']

  /** A face of nine copies of one symbol (`Array(9).fill(x)`). */
  function Fill(x: char): (s: seq<char>)
    ensures |s| == 9
    ensures forall i :: 0 <= i < 9 ==> s[i] == x
  {
    seq(9, _ => x)
  }

  /** The solved cube: white up, orange left, green front, red right, blue back, yellow down. */
  const StdSolved: Facelets :=
    Facelets(Fill('w'), Fill('o'), Fill('g'), Fill('r'), Fill('b'), Fill('y'))

  /** Face `x` of the solved cube is uniformly the symbol at position `x` of the palette. */
  function SolvedSymbol(x: Face): char {
    match x
    case U => 'w'
    case L => 'o'
    case F => 'g'
    case R => 'r'
    case B => 'b'
    case D => 'y'
  }

  lemma StdSolvedShape()
    ensures StdSolved.WellFormed()
    ensures forall x: Face, i :: 0 <= i < 9 ==> StdSolved.Side(x)[i] == SolvedSymbol(x)
    ensures forall x: Face, y: Face :: x != y ==> SolvedSymbol(x) != SolvedSymbol(y)
  {
  }

  lemma ModifiersExact()
    ensures |Modifiers| == 3 && Modifiers[0] == "" && Modifiers[1] == "'" && Modifiers[2] == "2"
  {
  }

  /** Every symbol of the solved cube has a display colour. */
  lemma ColorsCoverSolved()
    ensures forall x: Face :: SolvedSymbol(x) in Colors
    ensures forall k :: 0 <= k < 54 ==> Stickers(StdSolved)[k] in Colors
  {
    var s := Stickers(StdSolved);
    forall k | 0 <= k < 54 ensures s[k] in Colors {
      assert s[k] in Palette by {
        if k < 9 { assert s[k] == 'w'; }
        else if k < 18 { assert s[k] == 'o'; }
        else if k < 27 { assert s[k] == 'g'; }
        else if k < 36 { assert s[k] == 'r'; }
        else if k < 45 { assert s[k] == 'b'; }
        else { assert s[k] == 'y'; }
      }
    }
  }

  /** The number of stickers of symbol `v` on the solved cube. */
  lemma SolvedCountOf(v: char)
    ensures ColourCount(StdSolved, v) == if v in Palette then 9 else 0
  {
    StickersBySide(StdSolved, v);
    UniformCount(Fill('w'), 'w', v);
    UniformCount(Fill('o'), 'o', v);
    UniformCount(Fill('g'), 'g', v);
    UniformCount(Fill('r'), 'r', v);
    UniformCount(Fill('b'), 'b', v);
    UniformCount(Fill('y'), 'y', v);
    assert v in Palette <==> v == 'w' || v == 'o' || v == 'g' || v == 'r' || v == 'b' || v == 'y';
  }

  /** Each palette symbol appears exactly nine times on the solved cube, and nothing else appears. */
  lemma SolvedColourCounts()
    ensures forall x :: x in Palette ==> ColourCount(StdSolved, x) == 9
    ensures forall x :: x !in Palette ==> ColourCount(StdSolved, x) == 0
  {
    forall v: char
      ensures ColourCount(StdSolved, v) == if v in Palette then 9 else 0
    {
      SolvedCountOf(v);
    }
  }
}
