/** The line-length quality classifier that recolours the active text
    area after every frame (`activate` in src/main.rs). */
module Quality {

  /** Longest line length that is not an error. */
  const MaxLineLength: nat := 72

  /** The four booleans `activate` keeps while scanning the lines. */
  datatype Flags = Flags(red: bool, orange: bool, yellow: bool, green: bool)

  const NoFlags := Flags(false, false, false, false)

  /** The class the chosen colour stands for. */
  datatype Class = Neutral | Good | Caution | Warning | Error

  /** Border and text colour of the active area. */
  datatype Colour = White | Green | Yellow | Orange | Red

  /** One step of the scan, for a line of `n` characters. The branches are
      tried in the source's order: an over-long line clears every flag but
      `red`; 35 falls in the green branch and 50 in the yellow one before
      the later branches are looked at; 72 and lengths under 20 change
      nothing. */
  function Mark(f: Flags, n: nat): Flags
  {
    if n > MaxLineLength then Flags(true, false, false, false)
    else if 20 <= n <= 35 then f.(green := true)
    else if 35 <= n <= 50 then f.(yellow := true)
    else if 50 <= n < MaxLineLength then f.(orange := true)
    else f
  }

  /** The scan over the line lengths, first line first. */
  function Scan(f: Flags, lens: seq<nat>): Flags
    decreases |lens|
  {
    if |lens| == 0 then f else Scan(Mark(f, lens[0]), lens[1..])
  }

  /** The choice made after the scan: red, then yellow, then orange, then
      green, else white. */
  function Pick(f: Flags): Class
  {
    if f.red then Error
    else if f.yellow then Caution
    else if f.orange then Warning
    else if f.green then Good
    else Neutral
  }

  /** Some line length lies in `lo..hi` (both ends included). */
  ghost predicate Has(lens: seq<nat>, lo: nat, hi: nat)
  {
    exists n :: n in lens && lo <= n <= hi
  }

  /** Some line is longer than the limit. */
  ghost predicate HasOverLength(lens: seq<nat>)
  {
    exists n :: n in lens && n > MaxLineLength
  }

  /** The class stated without the scan: the first bracket some line
      falls in, taking the brackets in the order the code checks the
      flags: over-length (> 72), caution (36..50), warning (51..71) and
      good (20..35). The order of the lines plays no part. */
  ghost function Expected(lens: seq<nat>): Class
  {
    if HasOverLength(lens) then Error
    else if Has(lens, 36, 50) then Caution
    else if Has(lens, 51, 71) then Warning
    else if Has(lens, 20, 35) then Good
    else Neutral
  }

  /** `f` is at most `g` flag by flag. */
  predicate Below(f: Flags, g: Flags)
  {
    (f.red ==> g.red) && (f.orange ==> g.orange) && (f.yellow ==> g.yellow) && (f.green ==> g.green)
  }

  /** What the scan leaves behind: `red` is set exactly when it was set
      before or some line is over-long, and is never cleared; without an
      over-long line each other flag is set exactly when it was set before
      or some line falls in its bracket. */
  lemma {:induction false} ScanFlags(f: Flags, lens: seq<nat>)
    ensures Scan(f, lens).red == (f.red || HasOverLength(lens))
    ensures !HasOverLength(lens) ==>
              Scan(f, lens) == Flags(f.red, f.orange || Has(lens, 51, 71),
                                     f.yellow || Has(lens, 36, 50), f.green || Has(lens, 20, 35))
    decreases |lens|
  {
    if |lens| > 0 {
      var n, rest := lens[0], lens[1..];
      assert lens == [n] + rest;
      ScanFlags(Mark(f, n), rest);
      HasCons(n, rest, 20, 35);
      HasCons(n, rest, 36, 50);
      HasCons(n, rest, 51, 71);
    }
  }

  lemma HasCons(n: nat, rest: seq<nat>, lo: nat, hi: nat)
    ensures Has([n] + rest, lo, hi) == ((lo <= n <= hi) || Has(rest, lo, hi))
    ensures HasOverLength([n] + rest) == (n > MaxLineLength || HasOverLength(rest))
  {
    assert n in [n] + rest;
    forall m ensures m in [n] + rest <==> m == n || m in rest {
    }
  }

  /** The class of a field whose lines have the given lengths. */
  function Classify(lens: seq<nat>): (q: Class)
    ensures q == Expected(lens)
  {
    ScanFlags(NoFlags, lens);
    Pick(Scan(NoFlags, lens))
  }

  /** Any over-long line, wherever it stands and whatever the other lines
      are, makes the field an error. */
  lemma OverLengthIsError(lens: seq<nat>, i: nat)
    requires i < |lens| && lens[i] > MaxLineLength
    ensures Classify(lens) == Error
  {
    assert lens[i] in lens;
  }

  /** Reordering the lines does not change the class. */
  lemma ClassifyPermutation(a: seq<nat>, b: seq<nat>)
    requires multiset(a) == multiset(b)
    ensures Classify(a) == Classify(b)
  {
    forall n ensures n in a <==> n in b {
      assert n in a <==> n in multiset(a);
      assert n in b <==> n in multiset(b);
    }
  }

  /** Scanning more lines, none over-long, only ever sets flags; and a
      `red` flag once set stays set whatever follows. */
  lemma ScanMonotone(f: Flags, lens: seq<nat>)
    ensures f.red ==> Scan(f, lens).red
    ensures !HasOverLength(lens) ==> Below(f, Scan(f, lens))
  {
    ScanFlags(f, lens);
  }

  /** The scan of `a + b` is the scan of `b` resumed where `a` left off. */
  lemma {:induction false} ScanAppend(f: Flags, a: seq<nat>, b: seq<nat>)
    ensures Scan(f, a + b) == Scan(Scan(f, a), b)
    decreases |a|
  {
    if |a| == 0 {
      assert a + b == b;
    } else {
      assert (a + b)[0] == a[0];
      assert (a + b)[1..] == a[1..] + b;
      ScanAppend(Mark(f, a[0]), a[1..], b);
    }
  }

  /** The class of a single line, bracket by bracket, with the edges as
      the branch order fixes them. */
  lemma SingleLine(n: nat)
    ensures Classify([n]) == (if n > 72 then Error
                              else if 36 <= n <= 50 then Caution
                              else if 51 <= n <= 71 then Warning
                              else if 20 <= n <= 35 then Good
                              else Neutral)
    ensures Classify([19]) == Neutral && Classify([20]) == Good && Classify([35]) == Good
    ensures Classify([36]) == Caution && Classify([50]) == Caution && Classify([51]) == Warning
    ensures Classify([71]) == Warning && Classify([72]) == Neutral && Classify([73]) == Error
  {
    forall m: nat ensures m in [m] {
    }
  }

  /** The flags a single line sets on a fresh scan: 35 sets only green,
      50 only yellow, 51..71 only orange, and 72 none at all. */
  lemma BracketEdges()
    ensures Scan(NoFlags, [35]) == Flags(false, false, false, true)
    ensures Scan(NoFlags, [50]) == Flags(false, false, true, false)
    ensures forall n: nat :: 51 <= n <= 71 ==> Scan(NoFlags, [n]) == Flags(false, true, false, false)
    ensures Scan(NoFlags, [72]) == NoFlags
    ensures forall n: nat :: n < 20 ==> Scan(NoFlags, [n]) == NoFlags
  {
  }

  /** An over-long first line followed by a good one: the scan re-arms
      `green`, yet `red` is still set and is looked at first, so the field
      stays an error. */
  lemma OverLengthThenGood()
    ensures Scan(NoFlags, [90, 25]) == Flags(true, false, false, true)
    ensures Classify([90, 25]) == Error && Classify([10, 90]) == Error
    ensures Classify([25]) == Good && Classify([25, 60]) == Warning
  {
    assert 90 in [90, 25];
    assert 90 in [10, 90];
    assert 25 in [25];
    assert 60 in [25, 60] && 25 in [25, 60];
  }

  /** Lines of 25 characters only, however many, make a good field. */
  lemma AllGood(lens: seq<nat>)
    requires |lens| > 0
    requires forall i :: 0 <= i < |lens| ==> lens[i] == 25
    ensures Classify(lens) == Good
  {
    assert lens[0] in lens;
  }

  /** The source's loop, on the lines themselves: count each line's
      characters, scan, then choose the colour. */
  method Activate(lines: seq<string>) returns (q: Class, colour: Colour)
    ensures q == Expected(Lengths(lines))
    ensures colour == ColourOf(q)
  {
    var lens: seq<nat> := [];
    var i := 0;
    while i < |lines|
      invariant 0 <= i <= |lines|
      invariant lens == Lengths(lines[..i])
    {
      LengthsAppend(lines[..i], lines[i]);
      assert lines[..i + 1] == lines[..i] + [lines[i]];
      lens := lens + [|lines[i]|];
      i := i + 1;
    }
    assert lines[..i] == lines;
    var red, orange, yellow, green := false, false, false, false;
    var k := 0;
    while k < |lens|
      invariant 0 <= k <= |lens|
      invariant Flags(red, orange, yellow, green) == Scan(NoFlags, lens[..k])
    {
      var n := lens[k];
      ScanAppend(NoFlags, lens[..k], [n]);
      assert lens[..k + 1] == lens[..k] + [n];
      if n > MaxLineLength {
        red, orange, yellow, green := true, false, false, false;
      } else if 20 <= n <= 35 {
        green := true;
      } else if 35 <= n <= 50 {
        yellow := true;
      } else if 50 <= n < MaxLineLength {
        orange := true;
      }
      k := k + 1;
    }
    assert lens[..k] == lens;
    ScanFlags(NoFlags, lens);
    if red {
      q := Error;
    } else if yellow {
      q := Caution;
    } else if orange {
      q := Warning;
    } else if green {
      q := Good;
    } else {
      q := Neutral;
    }
    colour := ColourOf(q);
  }

  /** The character count of each line, in order. */
  function Lengths(lines: seq<string>): (lens: seq<nat>)
    ensures |lens| == |lines|
    ensures forall i :: 0 <= i < |lines| ==> lens[i] == |lines[i]|
  {
    if |lines| == 0 then [] else [|lines[0]|] + Lengths(lines[1..])
  }

  lemma LengthsAppend(lines: seq<string>, line: string)
    ensures Lengths(lines + [line]) == Lengths(lines) + [|line|]
  {
  }

  /** The class of a field given by its lines. */
  function ClassOf(lines: seq<string>): Class
  {
    Classify(Lengths(lines))
  }

  /** Colour of each class. */
  function ColourOf(q: Class): Colour
  {
    match q
    case Error => Red
    case Caution => Yellow
    case Warning => Orange
    case Good => Green
    case Neutral => White
  }

  /** Note added to the title of an area with an over-long line. */
  const OverLengthNote := " ( a line is superior to the max lines length )"

  /** Titles on the frame of the active area. The frame always carries
      the field title padded with spaces; the red frame gets a second
      title, the field title followed by the over-length note, because
      `Block::title` adds a title to the ones the block already has. */
  function Banner(lines: seq<string>, title: string): (b: seq<string>)
    ensures |b| == (if HasOverLength(Lengths(lines)) then 2 else 1) && b[0] == " " + title + " "
    ensures " " + title + " " in b
    ensures (" " + title + OverLengthNote in b) <==> HasOverLength(Lengths(lines))
  {
    [" " + title + " "] + (if ClassOf(lines) == Error then [" " + title + OverLengthNote] else [])
  }
}
