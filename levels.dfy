// Severity levels, size units and the per-level display name and console colour.

module Levels {

  /** Severity of a record. The Go type is a plain `int`, so callers may pass any value. */
  newtype LogLevel = int

  const LevelAll: LogLevel := 0
  const LevelDebug: LogLevel := 1
  const LevelInfo: LogLevel := 2
  const LevelWarning: LogLevel := 3
  const LevelError: LogLevel := 4
  const LevelFatal: LogLevel := 5
  const LevelNone: LogLevel := 6

  /** The seven named levels, in declaration order. */
  const NamedLevels: seq<LogLevel> :=
    [LevelAll, LevelDebug, LevelInfo, LevelWarning, LevelError, LevelFatal, LevelNone]

  /** A record at level `l` passes a logger whose minimum level is `min`. */
  predicate Admits(min: LogLevel, l: LogLevel) {
    l >= min
  }

  /** The named levels are the consecutive values 0..6 in declaration order. */
  lemma {:induction false} NamedLevelsIncrease(i: nat, j: nat)
    requires i < j < |NamedLevels|
    ensures NamedLevels[i] < NamedLevels[j]
    ensures forall k :: 0 <= k < |NamedLevels| ==> NamedLevels[k] as int == k
  {
  }

  /** Minimum level All lets every named level through; None stops Debug through Fatal. */
  lemma {:induction false} AllAndNoneBounds(l: LogLevel)
    requires l in NamedLevels
    ensures Admits(LevelAll, l)
    ensures Admits(LevelNone, l) <==> l == LevelNone
  {
  }

  // ---- size units ----------------------------------------------------------

  function Pow2(n: nat): (r: nat)
    ensures r >= 1
  {
    if n == 0 then 1 else 2 * Pow2(n - 1)
  }

  lemma {:induction false} Pow2Add(a: nat, b: nat)
    ensures Pow2(a + b) == Pow2(a) * Pow2(b)
    decreases a
  {
    if a > 0 {
      Pow2Add(a - 1, b);
    }
  }

  lemma {:induction false} Pow2Monotone(a: nat, b: nat)
    requires a < b
    ensures Pow2(a) < Pow2(b)
    decreases b
  {
    if a < b - 1 {
      Pow2Monotone(a, b - 1);
    }
  }

  /** The k-th size unit, `1 << (k * 10)` for k = 1 (KB) .. 4 (TB). */
  function Unit(k: nat): nat
    requires 1 <= k <= 4
  {
    Pow2(10 * k)
  }

  const KB: nat := Unit(1)
  const MB: nat := Unit(2)
  const GB: nat := Unit(3)
  const TB: nat := Unit(4)

  /** 1024 is 2 to the 10th power. */
  lemma {:induction false} Pow2Ten()
    ensures Pow2(10) == 1024
  {
  }

  /** Each size unit is 1024 times the previous one. */
  lemma {:induction false} UnitStep(k: nat)
    requires 1 <= k < 4
    ensures Unit(k + 1) == 1024 * Unit(k)
  {
    Pow2Ten();
    Pow2Add(10, 10 * k);
    assert 10 * (k + 1) == 10 + 10 * k;
  }

  /** KB is 1024, each following unit is 1024 times the previous one, and TB fits in a uint64. */
  lemma {:induction false} UnitsScale()
    ensures KB == 1024
    ensures MB == 1024 * KB && GB == 1024 * MB && TB == 1024 * GB
    ensures TB < Pow2(64)
  {
    Pow2Ten();
    UnitStep(1);
    UnitStep(2);
    UnitStep(3);
    Pow2Monotone(40, 64);
  }

  // ---- display name --------------------------------------------------------

  /** The name printed between brackets; every level other than Debug..Error prints as FATAL. */
  function LevelName(t: LogLevel): (name: string)
    ensures name == "FATAL" <==> !(LevelDebug <= t <= LevelError)
    ensures |name| == 4 || |name| == 5
  {
    if t == LevelDebug then "DEBUG"
    else if t == LevelInfo then "INFO"
    else if t == LevelWarning then "WARN"
    else if t == LevelError then "ERROR"
    else "FATAL"
  }

  /** The name of each named level; All, Fatal and None all print as FATAL. */
  lemma {:induction false} LevelNameTable()
    ensures seq(|NamedLevels|, i requires 0 <= i < |NamedLevels| => LevelName(NamedLevels[i]))
         == ["FATAL", "DEBUG", "INFO", "WARN", "ERROR", "FATAL", "FATAL"]
  {
  }

  /** Debug, Info, Warning and Error each have a name of their own. */
  lemma {:induction false} LevelNameInjective(a: LogLevel, b: LogLevel)
    requires LevelName(a) == LevelName(b)
    ensures a == b || LevelName(a) == "FATAL"
  {
  }

  // ---- console colours -----------------------------------------------------

  /** The escape character that starts every ANSI colour sequence. */
  const Esc: char := 27 as char

  const Green: string := [Esc, '[', '9', '7', ';', '4', '2', 'm']
  const White: string := [Esc, '[', '9', '0', ';', '4', '7', 'm']
  const Yellow: string := [Esc, '[', '9', '7', ';', '4', '3', 'm']
  const Red: string := [Esc, '[', '9', '7', ';', '4', '1', 'm']
  const Blue: string := [Esc, '[', '9', '7', ';', '4', '4', 'm']
  const Magenta: string := [Esc, '[', '9', '7', ';', '4', '5', 'm']
  const Cyan: string := [Esc, '[', '9', '7', ';', '4', '6', 'm']
  const Reset: string := [Esc, '[', '0', 'm']

  /** A colour code: the escape character, then no further escape character. */
  predicate IsCode(c: string) {
    |c| > 0 && c[0] == Esc && forall i :: 0 < i < |c| ==> c[i] != Esc
  }

  /** The console colour of a level; every level other than Debug, Info and Warning is red. */
  function Colour(t: LogLevel): (c: string)
    ensures IsCode(c)
    ensures c == Red <==> !(LevelDebug <= t <= LevelWarning)
  {
    if t == LevelDebug then Cyan
    else if t == LevelInfo then Green
    else if t == LevelWarning then Yellow
    else Red
  }

  /** The colour of each named level: cyan, green and yellow for Debug, Info and Warning, red otherwise. */
  lemma {:induction false} ColourTable()
    ensures seq(|NamedLevels|, i requires 0 <= i < |NamedLevels| => Colour(NamedLevels[i]))
         == [Red, Cyan, Green, Yellow, Red, Red, Red]
  {
  }

  /** Debug, Info and Warning each have a colour of their own, distinct from the alert red. */
  lemma {:induction false} ColourInjective(a: LogLevel, b: LogLevel)
    requires Colour(a) == Colour(b)
    ensures a == b || Colour(a) == Red
  {
  }

  /** The reset code is an escape sequence that differs from every level colour. */
  lemma {:induction false} ResetIsNotAColour(t: LogLevel)
    ensures IsCode(Reset) && Colour(t) != Reset
  {
  }
}
