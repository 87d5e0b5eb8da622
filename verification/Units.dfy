/** Unsigned 64-bit unit arithmetic of internal/util/util.go and the resize decision that rests on it. */
module Units {

  const WORD: nat := 0x1_0000_0000_0000_0000

  /** The multiplier of a unit name; a name missing from the table reads as Go's zero value. */
  function Factor(unit: string): (f: nat)
    ensures f < WORD
  {
    if unit in {"", "B", "bytes"} then 1
    else if unit == "KB" then 1000
    else if unit in {"K", "KiB"} then 1024
    else if unit == "MB" then 1000_000
    else if unit in {"M", "MiB"} then 1048576
    else if unit == "GB" then 1000_000_000
    else if unit in {"G", "GiB"} then 1073741824
    else if unit == "TB" then 1000_000_000_000
    else if unit in {"T", "TiB"} then 1099511627776
    else if unit == "PB" then 1000_000_000_000_000
    else if unit in {"P", "PiB"} then 1125899906842624
    else if unit == "EB" then 1000_000_000_000_000_000
    else if unit in {"E", "EiB"} then 1152921504606846976
    else 0
  }

  /** The product wraps as Go's uint64 does. */
  function ConvertToBytes(value: nat, unit: string): (bytes: nat)
    ensures bytes < WORD
    ensures unit in {"", "B", "bytes"} && value < WORD ==> bytes == value
  {
    value * Factor(unit) % WORD
  }

  const BINARY: seq<string> := ["B", "KiB", "MiB", "GiB", "TiB", "PiB", "EiB"]
  const DECIMAL: seq<string> := ["B", "KB", "MB", "GB", "TB", "PB", "EB"]
  const LETTERS: seq<string> := ["K", "M", "G", "T", "P", "E"]

  function Power(base: nat, n: nat): nat {
    if n == 0 then 1 else base * Power(base, n - 1)
  }

  /** A binary unit is 1024 of the one below it, also for values whose products wrap. */
  lemma BinarySteps(value: nat, i: nat)
    requires 0 < i < |BINARY|
    ensures ConvertToBytes(value, BINARY[i]) == ConvertToBytes(1024 * value, BINARY[i - 1])
  {
    assert i == 1 || i == 2 || i == 3 || i == 4 || i == 5 || i == 6;
  }

  /** A decimal unit is 1000 of the one below it. */
  lemma DecimalSteps(value: nat, i: nat)
    requires 0 < i < |DECIMAL|
    ensures ConvertToBytes(value, DECIMAL[i]) == ConvertToBytes(1000 * value, DECIMAL[i - 1])
  {
    assert i == 1 || i == 2 || i == 3 || i == 4 || i == 5 || i == 6;
  }

  lemma Regroup(value: nat, factor: nat, rest: nat)
    ensures value * (factor * rest) == factor * value * rest
  {
  }

  /** So the i-th unit stands for the i-th power, counted in 64-bit words. */
  lemma {:induction false} BinaryPowers(value: nat, i: nat)
    requires i < |BINARY|
    ensures ConvertToBytes(value, BINARY[i]) == value * Power(1024, i) % WORD
    decreases i
  {
    if i > 0 {
      BinarySteps(value, i);
      BinaryPowers(1024 * value, i - 1);
      Regroup(value, 1024, Power(1024, i - 1));
    }
  }

  lemma {:induction false} DecimalPowers(value: nat, i: nat)
    requires i < |DECIMAL|
    ensures ConvertToBytes(value, DECIMAL[i]) == value * Power(1000, i) % WORD
    decreases i
  {
    if i > 0 {
      DecimalSteps(value, i);
      DecimalPowers(1000 * value, i - 1);
      Regroup(value, 1000, Power(1000, i - 1));
    }
  }

  /** The other names: a letter is short for the binary unit, no name means bytes, and any name besides these converts
   *  to nothing. */
  lemma OtherNames(value: nat, unit: string)
    ensures unit in LETTERS ==> ConvertToBytes(value, unit) == ConvertToBytes(value, unit + "iB")
    ensures unit in ["", "bytes"] ==> ConvertToBytes(value, unit) == ConvertToBytes(value, "B")
    ensures unit !in BINARY && unit !in DECIMAL && unit !in LETTERS && unit !in ["", "bytes"] ==>
              ConvertToBytes(value, unit) == 0
  {
    assert "K" + "iB" == "KiB" && "M" + "iB" == "MiB" && "G" + "iB" == "GiB" && "T" + "iB" == "TiB"
           && "P" + "iB" == "PiB" && "E" + "iB" == "EiB";
    assert "KB" == DECIMAL[1] && "MB" == DECIMAL[2] && "GB" == DECIMAL[3] && "TB" == DECIMAL[4] && "PB" == DECIMAL[5]
           && "EB" == DECIMAL[6];
    assert "KiB" == BINARY[1] && "MiB" == BINARY[2] && "GiB" == BINARY[3] && "TiB" == BINARY[4] && "PiB" == BINARY[5]
           && "EiB" == BINARY[6];
  }

  datatype Verdict = Shrinks | Grows | Same

  /** What ResizeRequired reports for a host volume of `current` bytes and a requested size. */
  function ResizeRequired(current: nat, value: nat, unit: string): Verdict {
    var desired := ConvertToBytes(value, unit);
    if desired < current then Shrinks
    else if desired > current then Grows
    else Same
  }

  lemma Exact(value: nat, unit: string, product: nat)
    requires ConvertToBytes(value, unit) == product % WORD
    ensures ConvertToBytes(value, unit) == product <==> product < WORD
  {
  }

  /** The conversion is exact precisely when the true product fits in a 64-bit word: in binary units, */
  lemma ConversionExact(value: nat, i: nat)
    requires i < |BINARY|
    ensures ConvertToBytes(value, BINARY[i]) == value * Power(1024, i) <==> value * Power(1024, i) < WORD
  {
    BinaryPowers(value, i);
    Exact(value, BINARY[i], value * Power(1024, i));
  }

  /** and in decimal ones. */
  lemma DecimalExact(value: nat, i: nat)
    requires i < |DECIMAL|
    ensures ConvertToBytes(value, DECIMAL[i]) == value * Power(1000, i) <==> value * Power(1000, i) < WORD
  {
    DecimalPowers(value, i);
    Exact(value, DECIMAL[i], value * Power(1000, i));
  }

  /** When the decision orders the sizes themselves: exactly if the product fits, or what is left of it after wrapping
   *  is still more than the volume has. */
  lemma VerdictOrdersSizes(current: nat, value: nat, unit: string)
    requires current < WORD
    ensures var asked, verdict := value * Factor(unit), ResizeRequired(current, value, unit);
            ((verdict.Grows? <==> current < asked) && (verdict.Shrinks? <==> asked < current))
            <==> (asked < WORD || current < asked % WORD)
  {
    var asked := value * Factor(unit);
    assert asked < WORD ==> asked % WORD == asked;
  }

  /** Once the product wraps, a larger request can be taken for a smaller one: 16 EiB reads as nothing. */
  lemma WrapMisleads()
    ensures ResizeRequired(ConvertToBytes(1, "EiB"), 16, "EiB") == Shrinks
    ensures 16 * Factor("EiB") > 1 * Factor("EiB")
  {
    assert 16 * Factor("EiB") == WORD;
    assert WORD % WORD == 0;
  }
}
