/** The letter-class adjustment: a case-insensitive shape class per target
    symbol, checked against the main contour's aspect ratio, and a
    case-sensitive bonus for a dotted lower-case letter drawn in several
    pieces. */
module Letters {

  /** Upper-casing of one character, as far as it matters to the class
      table: ASCII letters, and the dotless i, whose upper case is 'I'.
      Every other character is left as it is. */
  function UpperChar(c: char): (u: char)
    ensures 'a' <= c <= 'z' ==> u as int == c as int - 32
    ensures 'A' <= u <= 'Z' <==> 'A' <= c <= 'Z' || 'a' <= c <= 'z' || c == '\U{0131}'
    ensures !('a' <= c <= 'z') && c != '\U{0131}' ==> u == c
  {
    if 'a' <= c <= 'z' then (c as int - 32) as char
    else if c == '\U{0131}' then 'I'
    else c
  }

  /** Upper-casing of a string, character by character. */
  function Upper(s: string): (u: string)
    ensures |u| == |s|
    ensures forall i :: 0 <= i < |s| ==> u[i] == UpperChar(s[i])
    ensures forall i :: 0 <= i < |u| ==> !('a' <= u[i] <= 'z') && u[i] != '\U{0131}'
  {
    seq(|s|, i requires 0 <= i < |s| => UpperChar(s[i]))
  }

  /** The shape a symbol is expected to have. */
  datatype ShapeClass = Tall | Round | Wide | Unclassed

  /** Class members, written in upper case. */
  const TallSymbols: seq<string> := ["I", "L", "T", "1"]
  const RoundSymbols: seq<string> := ["O", "Q", "C", "D", "0"]
  const WideSymbols: seq<string> := ["M", "W"]

  /** Symbols whose dot is a separate ink region; matched exactly. */
  const DottedSymbols: seq<string> := ["i", "j"]

  /** The class of a symbol: its upper-cased form is looked up in the
      tall, round and wide lists, in that order. Only a one-character
      symbol has a class, and case does not matter. */
  function ClassOf(symbol: string): (c: ShapeClass)
    ensures c == Tall <==>
            |symbol| == 1 && symbol[0] in {'I', 'i', '\U{0131}', 'L', 'l', 'T', 't', '1'}
    ensures c == Round <==>
            |symbol| == 1 && symbol[0] in {'O', 'o', 'Q', 'q', 'C', 'c', 'D', 'd', '0'}
    ensures c == Wide <==>
            |symbol| == 1 && symbol[0] in {'M', 'm', 'W', 'w'}
  {
    var u := Upper(symbol);
    assert |u| == 1 ==> u == [u[0]];
    if u in TallSymbols then Tall
    else if u in RoundSymbols then Round
    else if u in WideSymbols then Wide
    else Unclassed
  }

  /** Upper-casing a symbol first does not change its class. */
  lemma ClassIgnoresCase(symbol: string)
    ensures ClassOf(Upper(symbol)) == ClassOf(symbol)
  {
  }

  /** Whether an aspect ratio (width over height) suits a class: tall
      symbols must be less than half as wide as high, round ones roughly
      square, wide ones wider than high. */
  predicate Fits(c: ShapeClass, aspect: real)
    ensures Fits(c, aspect) ==> c != Unclassed
    ensures aspect == 1.0 ==> (Fits(c, aspect) <==> c == Round)
  {
    match c
    case Tall => aspect < 0.5
    case Round => 0.7 < aspect < 1.3
    case Wide => aspect > 1.2
    case Unclassed => false
  }

  /** The tall window excludes the round and the wide ones, while the round
      and wide windows overlap between 1.2 and 1.3. */
  lemma ClassWindows(aspect: real)
    ensures !(Fits(Tall, aspect) && Fits(Round, aspect))
    ensures !(Fits(Tall, aspect) && Fits(Wide, aspect))
    ensures Fits(Round, 1.25) && Fits(Wide, 1.25)
  {
  }

  /** The letter bonus: ten when the main contour's aspect ratio suits the
      symbol's class, plus fifteen when the symbol is exactly "i" or "j" and
      more than one contour was traced. */
  function LetterBonus(symbol: string, aspect: real, regions: nat): (b: nat)
    ensures b == 0 || b == 10 || b == 15 || b == 25
    ensures b >= 15 <==> symbol in DottedSymbols && regions > 1
    ensures (b == 10 || b == 25) <==> Fits(ClassOf(symbol), aspect)
    ensures ClassOf(symbol) == Unclassed && symbol !in DottedSymbols ==> b == 0
  {
    var classBonus := if Fits(ClassOf(symbol), aspect) then 10 else 0;
    var dotBonus := if symbol in DottedSymbols && regions > 1 then 15 else 0;
    classBonus + dotBonus
  }

  /** Both bonuses can apply at once: "i" is in the tall class, because its
      upper case is "I", and is also a dotted symbol. */
  lemma DottedTallSymbolGetsBoth()
    ensures LetterBonus("i", 0.25, 2) == 25
  {
  }

  /** The dot bonus is case-sensitive: "I" and "J" never receive it. */
  lemma DotBonusIsCaseSensitive(aspect: real, regions: nat)
    ensures LetterBonus("I", aspect, regions) <= 10
    ensures LetterBonus("J", aspect, regions) == 0
  {
  }
}
