/**
 * The invoice's "amount in words" line: `convertToWords` and its inner `convertHundreds`
 * (client/src/lib/enhanced-invoice.ts), which spell a whole number of rupees in the Indian
 * numbering system: a low chunk of three digits, then two-digit chunks for thousand, lakh and crore.
 *
 * The specification is a list of words, `Words(n)`; the string the invoice prints is their
 * spellings joined with single spaces. The methods build the string the way the source does and
 * are proved to produce exactly that; the lemmas say what the list contains and that it denotes `n`.
 */
module InvoiceWords {
  import opened JsBuiltins

  // ---------------------------------------------------------------------------------------------
  // The four tables

  /** `ones[d]`: the digit words, empty for zero. */
  function OnesName(d: nat): string {
    match d
    case 1 => "one" case 2 => "two" case 3 => "three" case 4 => "four" case 5 => "five"
    case 6 => "six" case 7 => "seven" case 8 => "eight" case 9 => "nine"
    case _ => ""
  }

  /** `teens[d]`: the words for 10 + d. */
  function TeensName(d: nat): string {
    match d
    case 0 => "ten" case 1 => "eleven" case 2 => "twelve" case 3 => "thirteen" case 4 => "fourteen"
    case 5 => "fifteen" case 6 => "sixteen" case 7 => "seventeen" case 8 => "eighteen" case 9 => "nineteen"
    case _ => ""
  }

  /** `tens[d]`: the words for 10 * d, empty for zero and one. */
  function TensName(d: nat): string {
    match d
    case 2 => "twenty" case 3 => "thirty" case 4 => "forty" case 5 => "fifty"
    case 6 => "sixty" case 7 => "seventy" case 8 => "eighty" case 9 => "ninety"
    case _ => ""
  }

  /**
   * `thousands[k]`: the scale word of place value `k`. Past the end of the four-entry table
   * JavaScript reads `undefined`, which string concatenation spells out, so amounts of 10^9 and
   * more print the word "undefined".
   */
  function ScaleName(k: nat): string {
    match k
    case 0 => "" case 1 => "thousand" case 2 => "lakh" case 3 => "crore"
    case _ => "undefined"
  }

  // ---------------------------------------------------------------------------------------------
  // Words

  /** One printed word: a digit, a teen, a multiple of ten, "hundred", or the scale word of a place value. */
  datatype Word = Ones(digit: nat) | Teens(digit: nat) | Tens(digit: nat) | Hundred | Scale(place: nat)

  /** The words the tables can spell. */
  predicate WellFormed(w: Word) {
    match w
    case Ones(d) => 1 <= d <= 9
    case Teens(d) => d <= 9
    case Tens(d) => 2 <= d <= 9
    case Hundred => true
    case Scale(k) => k >= 1
  }

  predicate AllWellFormed(ws: seq<Word>) {
    forall i :: 0 <= i < |ws| ==> WellFormed(ws[i])
  }

  /** How a word is printed. */
  function Spell(w: Word): string {
    match w
    case Ones(d) => OnesName(d)
    case Teens(d) => TeensName(d)
    case Tens(d) => TensName(d)
    case Hundred => "hundred"
    case Scale(k) => ScaleName(k)
  }

  /** The spelling of each word, in order. */
  function Texts(ws: seq<Word>): (ss: seq<string>)
    ensures |ss| == |ws|
    ensures forall i :: 0 <= i < |ws| ==> ss[i] == Spell(ws[i])
  {
    if ws == [] then [] else [Spell(ws[0])] + Texts(ws[1..])
  }

  /** The words `convertHundreds` emits for the last two digits `m` of a chunk. */
  function TensWords(m: int): seq<Word>
    requires 0 <= m < 100
  {
    if m >= 20 then [Tens(m / 10)] + (if m % 10 > 0 then [Ones(m % 10)] else [])
    else if m >= 10 then [Teens(m - 10)]
    else if m > 0 then [Ones(m)]
    else []
  }

  /** The words `convertHundreds` emits for a chunk `n` below 1000, in order. */
  function HundredsWords(n: int): seq<Word>
    requires 0 <= n < 1000
  {
    (if n >= 100 then [Ones(n / 100), Hundred] else []) + TensWords(n % 100)
  }

  /** The words one chunk contributes: none when the chunk is zero, otherwise its digits and scale word. */
  function ChunkWords(chunk: int, k: nat): seq<Word>
    requires 0 <= chunk < 1000
  {
    if chunk == 0 then []
    else HundredsWords(chunk) + (if k == 0 then [] else [Scale(k)])
  }

  /** The words the loop still has to prepend when `num` is left and the place value is `k`. */
  function WordsFrom(num: int, k: nat): seq<Word>
    decreases num
  {
    if num <= 0 then []
    else if k == 0 then WordsFrom(num / 1000, 1) + ChunkWords(num % 1000, 0)
    else WordsFrom(num / 100, k + 1) + ChunkWords(num % 100, k)
  }

  /** The words for `n`, most significant chunk first. */
  function Words(n: int): seq<Word> {
    WordsFrom(n, 0)
  }

  // ---------------------------------------------------------------------------------------------
  // Strings of words

  /** Each text followed by one space: the shape in which the source accumulates words. */
  function Spaced(ss: seq<string>): string {
    if ss == [] then "" else ss[0] + " " + Spaced(ss[1..])
  }

  /** The texts separated by single spaces. */
  function Join(ss: seq<string>): string {
    if ss == [] then ""
    else if |ss| == 1 then ss[0]
    else ss[0] + " " + Join(ss[1..])
  }

  /** What the invoice prints for the rounded grand total `n`. */
  function AmountWords(n: int): string {
    if n == 0 then "zero" else Join(Texts(Words(n)))
  }

  // ---------------------------------------------------------------------------------------------
  // The source's string building

  /** `convertHundreds`: appends each word and a space, returning early after a teens word. */
  method ConvertHundreds(chunk: int) returns (result: string)
    requires 0 <= chunk < 1000
    ensures result == Spaced(Texts(HundredsWords(chunk)))
  {
    var n := chunk;
    result := "";
    ghost var ws: seq<Word> := [];
    if n >= 100 {
      SpacedHundred(result, ws, n / 100);
      result := result + OnesName(n / 100) + " hundred ";
      ws := ws + [Ones(n / 100), Hundred];
      n := n % 100;
    }
    ghost var lead, m := ws, n;
    assert HundredsWords(chunk) == lead + TensWords(m);
    if n >= 20 {
      SpacedSnoc(result, ws, Tens(n / 10));
      result := result + TensName(n / 10) + " ";
      ws := ws + [Tens(n / 10)];
      n := n % 10;
    } else if n >= 10 {
      SpacedSnoc(result, ws, Teens(n - 10));
      result := result + TeensName(n - 10) + " ";
      ws := ws + [Teens(n - 10)];
      TensWordsAsBuilt(lead, m, ws);
      return;
    }
    if n > 0 {
      SpacedSnoc(result, ws, Ones(n));
      result := result + OnesName(n) + " ";
      ws := ws + [Ones(n)];
    }
    TensWordsAsBuilt(lead, m, ws);
  }

  /** Appending a word and a space to the spaced form of `ws` gives the spaced form of `ws + [w]`. */
  lemma SpacedSnoc(s: string, ws: seq<Word>, w: Word)
    requires s == Spaced(Texts(ws))
    ensures s + Spell(w) + " " == Spaced(Texts(ws + [w]))
  {
    var t := Spell(w);
    TextsAppend(ws, [w]);
    assert Texts([w]) == [t];
    SpacedAppend(Texts(ws), [t]);
    assert [t][1..] == [];
    assert Spaced([t]) == t + " " + Spaced([]);
    AppendAssoc(s, t, " ");
  }

  /** The source appends a digit word and "hundred" in one go, as `" hundred "`. */
  lemma SpacedHundred(s: string, ws: seq<Word>, d: nat)
    requires s == Spaced(Texts(ws))
    ensures s + OnesName(d) + " hundred " == Spaced(Texts(ws + [Ones(d), Hundred]))
  {
    var s' := s + OnesName(d) + " ";
    SpacedSnoc(s, ws, Ones(d));
    SpacedSnoc(s', ws + [Ones(d)], Hundred);
    assert ws + [Ones(d)] + [Hundred] == ws + [Ones(d), Hundred];
    assert s + OnesName(d) + " hundred " == s' + "hundred" + " ";
  }

  /** The words `convertHundreds` appends for the last two digits `m`, in the order it appends them. */
  lemma TensWordsAsBuilt(lead: seq<Word>, m: int, ws: seq<Word>)
    requires 0 <= m < 100
    requires m >= 20 && m % 10 > 0 ==> ws == lead + [Tens(m / 10)] + [Ones(m % 10)]
    requires m >= 20 && m % 10 == 0 ==> ws == lead + [Tens(m / 10)]
    requires 10 <= m < 20 ==> ws == lead + [Teens(m - 10)]
    requires 0 < m < 10 ==> ws == lead + [Ones(m)]
    requires m == 0 ==> ws == lead
    ensures ws == lead + TensWords(m)
  {
    if m >= 20 && m % 10 > 0 {
      AppendAssoc(lead, [Tens(m / 10)], [Ones(m % 10)]);
    } else if m == 0 {
      assert lead + [] == lead;
    }
  }

  /** `convertToWords`: the loop peels chunks off the low end and prepends their words. */
  method ConvertToWords(amount: int) returns (r: string)
    ensures r == AmountWords(amount)
  {
    if amount == 0 {
      return "zero";
    }
    var num := amount;
    var result := "";
    var placeValue: nat := 0;
    ghost var done: seq<Word> := [];
    ghost var pad := "";
    assert WordsFrom(amount, 0) + done == WordsFrom(amount, 0);
    while num > 0
      invariant placeValue == 0 ==> num == amount && done == [] && pad == ""
      invariant placeValue > 0 ==> num >= 0
      invariant pad == "" || pad == " "
      invariant Words(amount) == WordsFrom(num, placeValue) + done
      invariant result == Spaced(Texts(done)) + pad
      decreases num
    {
      ghost var num0, done0, pad0, result0 := num, done, pad, result;
      var chunk;
      if placeValue == 0 {
        chunk := num % 1000;
        num := num / 1000;
      } else if placeValue == 1 {
        chunk := num % 100;
        num := num / 100;
      } else {
        chunk := num % 100;
        num := num / 100;
      }
      if chunk != 0 {
        var words := ConvertHundreds(chunk);
        pad := if placeValue == 0 then " " else pad;
        result := words + ScaleName(placeValue) + " " + result;
      }
      ChunkStep(amount, num0, placeValue, done0, pad0, result0, chunk, num, pad, result);
      done := ChunkWords(chunk, placeValue) + done0;
      placeValue := placeValue + 1;
    }
    r := Trim(result);
    TrimmedWords(amount, num, placeValue, done, pad, result);
  }

  /** When the loop ends, trimming the accumulated string gives the amount in words. */
  lemma TrimmedWords(amount: int, num: int, k: nat, done: seq<Word>, pad: string, result: string)
    requires amount != 0 && num <= 0
    requires k == 0 ==> num == amount && done == [] && pad == ""
    requires k > 0 ==> num >= 0
    requires pad == "" || pad == " "
    requires Words(amount) == WordsFrom(num, k) + done
    requires result == Spaced(Texts(done)) + pad
    ensures Trim(result) == AmountWords(amount)
  {
    if amount > 0 {
      assert done == Words(amount);
      WordsNonEmpty(amount, 0);
      TextsPrinted(done);
      TrimSpaced(Texts(done), pad);
    }
  }

  /** One turn of the loop keeps the invariants of `ConvertToWords`. */
  lemma ChunkStep(amount: int, num0: int, k: nat, done0: seq<Word>, pad0: string, result0: string,
                  chunk: int, num: int, pad: string, result: string)
    requires num0 > 0
    requires k == 0 ==> chunk == num0 % 1000 && num == num0 / 1000
    requires k > 0 ==> chunk == num0 % 100 && num == num0 / 100
    requires Words(amount) == WordsFrom(num0, k) + done0
    requires result0 == Spaced(Texts(done0)) + pad0
    requires k == 0 ==> done0 == [] && pad0 == ""
    requires chunk == 0 ==> pad == pad0 && result == result0
    requires chunk != 0 ==>
      0 <= chunk < 1000 && pad == (if k == 0 then " " else pad0)
      && result == Spaced(Texts(HundredsWords(chunk))) + ScaleName(k) + " " + result0
    ensures 0 <= chunk < 1000 && num >= 0
    ensures Words(amount) == WordsFrom(num, k + 1) + (ChunkWords(chunk, k) + done0)
    ensures result == Spaced(Texts(ChunkWords(chunk, k) + done0)) + pad
  {
    WordsFromStep(num0, k, done0, chunk, num);
    if chunk != 0 {
      PrependChunk(Spaced(Texts(HundredsWords(chunk))), chunk, k, done0, pad0, pad);
    } else {
      assert ChunkWords(chunk, k) + done0 == done0;
    }
  }

  /** One turn of the loop splits off the chunk at place value `k`. */
  lemma WordsFromStep(num: int, k: nat, done: seq<Word>, chunk: int, rest: int)
    requires num > 0
    requires k == 0 ==> chunk == num % 1000 && rest == num / 1000
    requires k > 0 ==> chunk == num % 100 && rest == num / 100
    ensures 0 <= chunk < 1000 && rest >= 0
    ensures WordsFrom(num, k) + done == WordsFrom(rest, k + 1) + (ChunkWords(chunk, k) + done)
  {
    AppendAssoc(WordsFrom(rest, k + 1), ChunkWords(chunk, k), done);
  }

  /**
   * Prepending `convertHundreds(chunk) + thousands[k] + ' '` to the accumulated string prepends
   * the chunk's words; the lowest chunk leaves its extra space at the very end.
   */
  lemma PrependChunk(words: string, chunk: int, k: nat, done: seq<Word>, pad: string, pad': string)
    requires 0 < chunk < 1000
    requires words == Spaced(Texts(HundredsWords(chunk)))
    requires k == 0 ==> done == [] && pad == "" && pad' == " "
    requires k > 0 ==> pad' == pad
    ensures words + ScaleName(k) + " " + (Spaced(Texts(done)) + pad) == Spaced(Texts(ChunkWords(chunk, k) + done)) + pad'
  {
    if k == 0 {
      PrependLowestChunk(words, chunk);
    } else {
      PrependHigherChunk(words, chunk, k, done, pad);
    }
  }

  lemma PrependLowestChunk(words: string, chunk: int)
    requires 0 < chunk < 1000
    requires words == Spaced(Texts(HundredsWords(chunk)))
    ensures words + ScaleName(0) + " " + (Spaced(Texts([])) + "") == Spaced(Texts(ChunkWords(chunk, 0) + [])) + " "
  {
    assert ScaleName(0) == "";
    assert ChunkWords(chunk, 0) + [] == HundredsWords(chunk);
  }

  lemma PrependHigherChunk(words: string, chunk: int, k: nat, done: seq<Word>, pad: string)
    requires 0 < chunk < 1000 && k > 0
    requires words == Spaced(Texts(HundredsWords(chunk)))
    ensures words + ScaleName(k) + " " + (Spaced(Texts(done)) + pad) == Spaced(Texts(ChunkWords(chunk, k) + done)) + pad
  {
    var cw := ChunkWords(chunk, k);
    SpacedSnoc(words, HundredsWords(chunk), Scale(k));
    assert words + ScaleName(k) + " " == Spaced(Texts(cw));
    TextsAppend(cw, done);
    SpacedAppend(Texts(cw), Texts(done));
    AppendAssoc(Spaced(Texts(cw)), Spaced(Texts(done)), pad);
  }

  /** Trimming the accumulated string leaves the texts joined by single spaces. */
  lemma TrimSpaced(ss: seq<string>, pad: string)
    requires ss != [] && AllPrinted(ss)
    requires pad == "" || pad == " "
    ensures Trim(Spaced(ss) + pad) == Join(ss)
  {
    SpacedIsJoin(ss);
    JoinEnds(ss);
    var s := Join(ss);
    var tail := " " + pad;
    AppendAssoc(s, " ", pad);
    assert AllWhitespace(tail);
    TrimEndOfPadded(s, tail);
    TrimStartOfLetter(s + tail);
  }

  lemma AppendAssoc<T>(a: seq<T>, b: seq<T>, c: seq<T>)
    ensures a + b + c == a + (b + c)
  {
  }

  lemma TextsAppend(a: seq<Word>, b: seq<Word>)
    ensures Texts(a + b) == Texts(a) + Texts(b)
  {
  }

  // ---------------------------------------------------------------------------------------------
  // Spelling

  /** A printed word: non-empty and free of whitespace. */
  predicate IsPrintedWord(s: string) {
    s != [] && forall k :: 0 <= k < |s| ==> !IsWhitespace(s[k])
  }

  predicate AllPrinted(ss: seq<string>) {
    forall i :: 0 <= i < |ss| ==> IsPrintedWord(ss[i])
  }

  /** A run of lower-case ASCII letters. */
  predicate IsLetters(s: string) {
    s != [] && forall k :: 0 <= k < |s| ==> 'a' <= s[k] <= 'z'
  }

  lemma OnesNamesAreLetters(d: nat)
    requires 1 <= d <= 9
    ensures IsLetters(OnesName(d))
  {
  }

  lemma TeensNamesAreLetters(d: nat)
    requires d <= 9
    ensures IsLetters(TeensName(d))
  {
  }

  lemma TensNamesAreLetters(d: nat)
    requires 2 <= d <= 9
    ensures IsLetters(TensName(d))
  {
  }

  lemma ScaleNamesAreLetters(k: nat)
    requires k >= 1
    ensures IsLetters(ScaleName(k))
  {
  }

  /** Every word of the tables, and "undefined", is printed as a non-empty run of letters. */
  lemma SpellIsPrintedWord(w: Word)
    requires WellFormed(w)
    ensures IsPrintedWord(Spell(w))
  {
    match w
    case Ones(d) => OnesNamesAreLetters(d);
    case Teens(d) => TeensNamesAreLetters(d);
    case Tens(d) => TensNamesAreLetters(d);
    case Hundred =>
    case Scale(k) => ScaleNamesAreLetters(k);
  }

  lemma TextsPrinted(ws: seq<Word>)
    requires AllWellFormed(ws)
    ensures AllPrinted(Texts(ws))
  {
    forall i | 0 <= i < |ws| ensures IsPrintedWord(Texts(ws)[i]) {
      SpellIsPrintedWord(ws[i]);
    }
  }

  /** The words a chunk contributes are well formed; a non-zero chunk contributes some. */
  lemma ChunkWordsWellFormed(chunk: int, k: nat)
    requires 0 <= chunk < 1000
    ensures AllWellFormed(ChunkWords(chunk, k))
    ensures chunk != 0 ==> ChunkWords(chunk, k) != []
  {
    var m := chunk % 100;
    assert m >= 20 ==> 2 <= m / 10 <= 9;
  }

  // ---------------------------------------------------------------------------------------------
  // Joining

  lemma {:induction false} SpacedAppend(a: seq<string>, b: seq<string>)
    ensures Spaced(a + b) == Spaced(a) + Spaced(b)
  {
    if a != [] {
      assert (a + b)[1..] == a[1..] + b;
      SpacedAppend(a[1..], b);
    } else {
      assert a + b == b;
    }
  }

  lemma {:induction false} SpacedIsJoin(ss: seq<string>)
    requires ss != []
    ensures Spaced(ss) == Join(ss) + " "
  {
    if |ss| > 1 {
      SpacedIsJoin(ss[1..]);
    }
  }

  /** Printed words joined by spaces: non-empty, with no whitespace at either end. */
  lemma {:induction false} JoinEnds(ss: seq<string>)
    requires ss != [] && AllPrinted(ss)
    ensures var s := Join(ss); s != [] && !IsWhitespace(s[0]) && !IsWhitespace(s[|s| - 1])
  {
    if |ss| > 1 {
      JoinEnds(ss[1..]);
      var w, t := ss[0], Join(ss[1..]);
      assert Join(ss) == w + " " + t;
    }
  }

  /**
   * Printed words joined by single spaces: non-empty, no whitespace at either end, and never
   * two whitespace characters in a row.
   */
  lemma {:induction false} JoinShape(ss: seq<string>)
    requires ss != [] && AllPrinted(ss)
    ensures var s := Join(ss);
      s != [] && !IsWhitespace(s[0]) && !IsWhitespace(s[|s| - 1])
      && forall i :: 0 <= i < |s| - 1 ==> !(IsWhitespace(s[i]) && IsWhitespace(s[i + 1]))
  {
    JoinEnds(ss);
    if |ss| > 1 {
      JoinShape(ss[1..]);
      var s := Join(ss);
      var w, t := ss[0], Join(ss[1..]);
      assert s == w + " " + t;
      forall i | 0 <= i < |s| - 1 ensures !(IsWhitespace(s[i]) && IsWhitespace(s[i + 1])) {
        if i < |w| {
          assert s[i] == w[i];
        } else if i == |w| {
          assert s[i + 1] == t[0];
        } else {
          assert s[i] == t[i - |w| - 1] && s[i + 1] == t[i - |w|];
        }
      }
    }
  }

  // ---------------------------------------------------------------------------------------------
  // Properties of the words

  /** Any positive amount has at least one non-zero chunk, so its word list is not empty. */
  lemma {:induction false} WordsNonEmpty(num: int, k: nat)
    requires num > 0
    ensures WordsFrom(num, k) != [] && AllWellFormed(WordsFrom(num, k))
    decreases num
  {
    var chunk, rest := if k == 0 then num % 1000 else num % 100, if k == 0 then num / 1000 else num / 100;
    ChunkWordsWellFormed(chunk, k);
    if rest > 0 {
      WordsNonEmpty(rest, k + 1);
    }
  }

  /**
   * The printed amount: "zero" for 0, nothing for a negative amount, and for a positive one a
   * non-empty string with no whitespace at either end and single spaces between words.
   */
  lemma AmountWordsShape(n: int)
    ensures n == 0 ==> AmountWords(n) == "zero"
    ensures n < 0 ==> AmountWords(n) == ""
    ensures n > 0 ==> var s := AmountWords(n);
      s != [] && !IsWhitespace(s[0]) && !IsWhitespace(s[|s| - 1])
      && forall i :: 0 <= i < |s| - 1 ==> !(IsWhitespace(s[i]) && IsWhitespace(s[i + 1]))
  {
    if n > 0 {
      WordsNonEmpty(n, 0);
      TextsPrinted(Words(n));
      JoinShape(Texts(Words(n)));
    }
  }

  /**
   * `convertHundreds` by the range of its last two digits: a teens word stands alone with no ones
   * word after it; from twenty on a tens word is followed by a ones word only when the last digit
   * is not zero; below ten at most a ones word appears.
   */
  lemma HundredsWordsByRange(n: int)
    requires 0 <= n < 1000
    ensures var lead := if n >= 100 then [Ones(n / 100), Hundred] else [];
      var m := n % 100;
      && (10 <= m < 20 ==> HundredsWords(n) == lead + [Teens(m - 10)])
      && (20 <= m && m % 10 > 0 ==> HundredsWords(n) == lead + [Tens(m / 10), Ones(m % 10)])
      && (20 <= m && m % 10 == 0 ==> HundredsWords(n) == lead + [Tens(m / 10)])
      && (0 < m < 10 ==> HundredsWords(n) == lead + [Ones(m)])
      && (m == 0 ==> HundredsWords(n) == lead)
  {
  }

  // ---------------------------------------------------------------------------------------------
  // Chunks and scale words

  /**
   * The chunk at place value `j` when the loop is at place value `k` with `num` left: chunk 0 is
   * `num % 1000`, every later chunk is the next `% 100`.
   */
  function ChunkAt(num: int, k: nat, j: nat): int
    decreases j - k
  {
    if j < k then 0
    else if j == k then (if k == 0 then num % 1000 else num % 100)
    else ChunkAt(if k == 0 then num / 1000 else num / 100, k + 1, j)
  }

  /** The chunk of `n` at place value `j`. */
  function Chunk(n: int, j: nat): int {
    ChunkAt(n, 0, j)
  }

  /** The chunks are the digit groups of the Indian numbering system: three digits, then pairs. */
  lemma ChunksAsDigitGroups(n: int)
    requires 0 <= n
    ensures Chunk(n, 0) == n % 1000
    ensures Chunk(n, 1) == n / 1000 % 100
    ensures Chunk(n, 2) == n / 100000 % 100
    ensures Chunk(n, 3) == n / 10000000 % 100
  {
    assert n / 1000 / 100 == n / 100000;
    assert n / 100000 / 100 == n / 10000000;
  }

  /** The only scale word a chunk can contribute is the one of its own place value. */
  lemma ChunkScaleWord(chunk: int, k: nat, j: nat)
    requires 0 <= chunk < 1000 && j != k
    ensures Scale(j) !in ChunkWords(chunk, k)
  {
    var hw := HundredsWords(chunk);
    assert forall i :: 0 <= i < |hw| ==> !hw[i].Scale?;
  }

  /** Once the loop is past place value `j`, the scale word of `j` no longer appears. */
  lemma {:induction false} NoEarlierScale(num: int, k: nat, j: nat)
    requires j < k
    ensures Scale(j) !in WordsFrom(num, k)
    decreases num
  {
    if num > 0 {
      NoEarlierScale(num / 100, k + 1, j);
      ChunkScaleWord(num % 100, k, j);
    }
  }

  /**
   * The scale word of place value `j` is among the words the loop adds from place value `k`
   * exactly when that chunk is not zero.
   */
  lemma {:induction false} ScaleWordIffChunk(num: int, k: nat, j: nat)
    requires 0 <= num && k <= j && 1 <= j
    ensures Scale(j) in WordsFrom(num, k) <==> ChunkAt(num, k, j) != 0
    decreases j - k
  {
    var chunk, rest := if k == 0 then num % 1000 else num % 100, if k == 0 then num / 1000 else num / 100;
    if j == k {
      NoEarlierScale(rest, k + 1, j);
      if num > 0 && chunk != 0 && k > 0 {
        var cw := ChunkWords(chunk, k);
        assert cw[|cw| - 1] == Scale(j);
      }
    } else {
      ScaleWordIffChunk(rest, k + 1, j);
    }
  }

  /**
   * A chunk equal to zero contributes no words, not even its scale word: the scale word of place
   * value `j` is among the words of `n` exactly when chunk `j` of `n` is not zero.
   */
  lemma ScaleWordPresent(n: int, j: nat)
    requires 0 <= n && 1 <= j
    ensures Scale(j) in Words(n) <==> Chunk(n, j) != 0
  {
    ScaleWordIffChunk(n, 0, j);
  }

  // ---------------------------------------------------------------------------------------------
  // The words denote the amount

  /** The value of the place value `k` for the scale words of the table; "undefined" denotes nothing. */
  function PlaceValue(k: nat): int {
    if k == 1 then 1000 else if k == 2 then 100000 else if k == 3 then 10000000 else 0
  }

  /**
   * Reads a list of words back as a number, left to right: digit words add to the current group,
   * "hundred" multiplies it, a scale word moves the group into the total.
   */
  function Eval(ws: seq<Word>, total: int, current: int): int {
    if ws == [] then total + current
    else
      var (t, c) := Step(ws[0], total, current);
      Eval(ws[1..], t, c)
  }

  /** The running total and current group after reading one word. */
  function Step(w: Word, total: int, current: int): (int, int) {
    match w
    case Ones(d) => (total, current + d)
    case Teens(d) => (total, current + 10 + d)
    case Tens(d) => (total, current + 10 * d)
    case Hundred => (total, current * 100)
    case Scale(k) => (total + current * PlaceValue(k), 0)
  }

  lemma EvalPrepend(w: Word, rest: seq<Word>, total: int, current: int)
    ensures Eval([w] + rest, total, current) == Eval(rest, Step(w, total, current).0, Step(w, total, current).1)
  {
    assert ([w] + rest)[0] == w && ([w] + rest)[1..] == rest;
  }

  /** How large the rest may be at place value `k` for the amount to stay below 10^9. */
  function Cap(k: nat): int {
    if k == 1 then 1000000 else if k == 2 then 10000 else if k == 3 then 100 else 1
  }

  lemma TensWordsValue(m: int, rest: seq<Word>, total: int, current: int)
    requires 0 <= m < 100
    ensures Eval(TensWords(m) + rest, total, current) == Eval(rest, total, current + m)
  {
    if m >= 20 {
      if m % 10 > 0 {
        assert TensWords(m) + rest == [Tens(m / 10)] + ([Ones(m % 10)] + rest);
        EvalPrepend(Tens(m / 10), [Ones(m % 10)] + rest, total, current);
        EvalPrepend(Ones(m % 10), rest, total, current + 10 * (m / 10));
      } else {
        EvalPrepend(Tens(m / 10), rest, total, current);
      }
    } else if m >= 10 {
      EvalPrepend(Teens(m - 10), rest, total, current);
    } else if m > 0 {
      EvalPrepend(Ones(m), rest, total, current);
    } else {
      assert TensWords(m) + rest == rest;
    }
  }

  lemma HundredsWordsValue(chunk: int, rest: seq<Word>, total: int)
    requires 0 <= chunk < 1000
    ensures Eval(HundredsWords(chunk) + rest, total, 0) == Eval(rest, total, chunk)
  {
    var m := chunk % 100;
    var tail := TensWords(m) + rest;
    if chunk >= 100 {
      var d := chunk / 100;
      assert HundredsWords(chunk) + rest == [Ones(d)] + ([Hundred] + tail) by {
        assert HundredsWords(chunk) == [Ones(d), Hundred] + TensWords(m);
      }
      HundredLeadValue(d, tail, total);
      TensWordsValue(m, rest, total, d * 100);
    } else {
      assert HundredsWords(chunk) + rest == tail;
      TensWordsValue(m, rest, total, 0);
    }
  }

  /** A digit word followed by "hundred" makes the current group a hundredfold that digit. */
  lemma HundredLeadValue(d: nat, tail: seq<Word>, total: int)
    ensures Eval([Ones(d)] + ([Hundred] + tail), total, 0) == Eval(tail, total, d * 100)
  {
    EvalPrepend(Ones(d), [Hundred] + tail, total, 0);
    EvalPrepend(Hundred, tail, total, d);
  }

  /** The words of a non-zero chunk above the lowest add the chunk at its place value to the total. */
  lemma ChunkWordsValue(chunk: int, k: nat, rest: seq<Word>, total: int)
    requires 0 < chunk < 1000 && k >= 1
    ensures Eval(ChunkWords(chunk, k) + rest, total, 0) == Eval(rest, total + chunk * PlaceValue(k), 0)
  {
    assert ChunkWords(chunk, k) + rest == HundredsWords(chunk) + ([Scale(k)] + rest);
    HundredsWordsValue(chunk, [Scale(k)] + rest, total);
    EvalPrepend(Scale(k), rest, total, chunk);
  }

  /** Moving one two-digit chunk from `num` to the next place value keeps its weight. */
  lemma PlaceShift(num: int, k: nat)
    requires 1 <= k <= 3 && 0 <= num < Cap(k)
    ensures num * PlaceValue(k) == num / 100 * PlaceValue(k + 1) + num % 100 * PlaceValue(k)
  {
    var q, r := num / 100, num % 100;
    assert num == q * 100 + r;
    if k == 1 {
      assert num * 1000 == q * 100000 + r * 1000;
    } else if k == 2 {
      assert num * 100000 == q * 10000000 + r * 100000;
    } else {
      assert num * 10000000 == r * 10000000;
    }
  }

  lemma {:induction false} WordsFromValue(num: int, k: nat, rest: seq<Word>, total: int)
    requires 1 <= k <= 4 && 0 <= num < Cap(k)
    ensures Eval(WordsFrom(num, k) + rest, total, 0) == Eval(rest, total + num * PlaceValue(k), 0)
    decreases num
  {
    if num == 0 {
      assert WordsFrom(num, k) + rest == rest;
    } else {
      var chunk, q := num % 100, num / 100;
      WordsFromValue(q, k + 1, ChunkWords(chunk, k) + rest, total);
      PeelChunkValue(num, k, rest, total);
    }
  }

  /** One chunk peeled off: the value of the higher chunks, then the chunk itself at its place value. */
  lemma PeelChunkValue(num: int, k: nat, rest: seq<Word>, total: int)
    requires 1 <= k <= 3 && 0 < num < Cap(k)
    requires var tail := ChunkWords(num % 100, k) + rest;
      Eval(WordsFrom(num / 100, k + 1) + tail, total, 0) == Eval(tail, total + num / 100 * PlaceValue(k + 1), 0)
    ensures Eval(WordsFrom(num, k) + rest, total, 0) == Eval(rest, total + num * PlaceValue(k), 0)
  {
    var chunk, q := num % 100, num / 100;
    var tail := ChunkWords(chunk, k) + rest;
    var high, low := q * PlaceValue(k + 1), chunk * PlaceValue(k);
    PlaceShift(num, k);
    WordsFromStep(num, k, rest, chunk, q);
    ChunkValue(chunk, k, rest, total + high);
  }

  /** The words of any chunk above the lowest, zero or not, add the chunk at its place value. */
  lemma ChunkValue(chunk: int, k: nat, rest: seq<Word>, total: int)
    requires 0 <= chunk < 1000 && k >= 1
    ensures Eval(ChunkWords(chunk, k) + rest, total, 0) == Eval(rest, total + chunk * PlaceValue(k), 0)
  {
    if chunk == 0 {
      assert ChunkWords(chunk, k) + rest == rest;
    } else {
      ChunkWordsValue(chunk, k, rest, total);
    }
  }

  /** Reading the words back gives the amount: the spelling is faithful for every amount below 10^9. */
  lemma WordsDenoteAmount(n: int)
    requires 0 <= n < 1000000000
    ensures Eval(Words(n), 0, 0) == n
  {
    if n > 0 {
      var c := n % 1000;
      WordsFromValue(n / 1000, 1, ChunkWords(c, 0), 0);
      if c == 0 {
        assert ChunkWords(c, 0) == [];
      } else {
        assert ChunkWords(c, 0) == HundredsWords(c) + [];
        HundredsWordsValue(c, [], n / 1000 * 1000);
      }
    }
  }
}
