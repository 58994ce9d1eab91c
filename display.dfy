/** One iteration of the presentation task `StartDisplayTask`: wait for the
    next reading, format it into a 17-byte line buffer, redraw the LCD. */
module Display {
  import opened Types
  import opened Queue

  /** `sizeof(line1)`: 16 visible characters and the terminating NUL. */
  const LineBufferSize: nat := 17

  /** The fixed text around the `%lu` conversion of the format `"Light: %lu lux"`. */
  const Label: string := "Light: "
  const Unit: string := " lux"

  function Pow10(k: nat): (p: nat)
    ensures p >= 1
  {
    if k == 0 then 1 else 10 * Pow10(k - 1)
  }

  /** How many digits the decimal rendering of `n` has. */
  function NumDigits(n: nat): (k: nat)
    ensures k >= 1
  {
    if n < 10 then 1 else 1 + NumDigits(n / 10)
  }

  predicate IsDigit(c: char)
  {
    '0' <= c <= '9'
  }

  function DigitValue(c: char): nat
    requires IsDigit(c)
  {
    c as int - '0' as int
  }

  function DigitChar(d: nat): (c: char)
    requires d < 10
    ensures IsDigit(c) && DigitValue(c) == d
  {
    (d + '0' as int) as char
  }

  /** `%lu` of `n`: its decimal digits, most significant first, with no
      leading zero. */
  function Decimal(n: nat): (s: string)
    ensures |s| == NumDigits(n)
    ensures forall i | 0 <= i < |s| :: IsDigit(s[i])
    ensures |s| > 1 ==> s[0] != '0'
    decreases n
  {
    if n < 10 then [DigitChar(n)] else Decimal(n / 10) + [DigitChar(n % 10)]
  }

  /** The number a string of decimal digits denotes. */
  function ParseDecimal(s: string): nat
    requires forall i | 0 <= i < |s| :: IsDigit(s[i])
    decreases |s|
  {
    if s == [] then 0
    else 10 * ParseDecimal(s[..|s| - 1]) + DigitValue(s[|s| - 1])
  }

  /** The rendering loses nothing: reading the digits back gives the number. */
  lemma {:induction false} DecimalRoundTrip(n: nat)
    ensures ParseDecimal(Decimal(n)) == n
    decreases n
  {
    var s := Decimal(n);
    if n >= 10 {
      DecimalRoundTrip(n / 10);
      assert s[..|s| - 1] == Decimal(n / 10);
    }
  }

  /** A number has at most `k` digits exactly when it is below `10^k`. */
  lemma {:induction false} NumDigitsBound(n: nat, k: nat)
    requires k >= 1
    ensures NumDigits(n) <= k <==> n < Pow10(k)
    decreases k
  {
    if n >= 10 && k >= 2 {
      NumDigitsBound(n / 10, k - 1);
    }
  }

  /** `snprintf(buf, size, ...)` keeps at most `size - 1` characters of the
      formatted text; the rest of the buffer is the terminating NUL. */
  function Snprintf(size: nat, text: string): (r: string)
    requires size >= 1
    ensures r <= text
    ensures |r| == Min(|text|, size - 1)
  {
    text[..Min(|text|, size - 1)]
  }

  /** The text `"Light: %lu lux"` formats to before the buffer cuts it. */
  function FullLine(lux: uint32): (r: string)
    ensures |r| == |Label| + NumDigits(lux as nat) + |Unit|
    ensures r[..|Label|] == Label
    ensures r[|Label|..|r| - |Unit|] == Decimal(lux as nat)
    ensures r[|r| - |Unit|..] == Unit
  {
    Label + Decimal(lux as nat) + Unit
  }

  /** The line `snprintf(line1, sizeof(line1), "Light: %lu lux", lux)` leaves
      in `line1`: a prefix of the full text that starts with the label and has
      `min(16, 11 + digits)` characters. */
  function FormatLine(lux: uint32): (line: string)
    ensures line <= FullLine(lux)
    ensures |line| == Min(LineBufferSize - 1, |Label| + NumDigits(lux as nat) + |Unit|)
    ensures Label <= line
  {
    var full := FullLine(lux);
    assert full[..|Label|] == Label;
    Snprintf(LineBufferSize, full)
  }

  /** The whole text fits on the display exactly for values of at most five
      digits; six digits or more lose the end of the line. */
  lemma ShownInFullIff(lux: uint32)
    ensures FormatLine(lux) == FullLine(lux) <==> lux < 100000
    ensures lux >= 100000 ==> |FormatLine(lux)| == LineBufferSize - 1 < |FullLine(lux)|
  {
    NumDigitsBound(lux as nat, 5);
    assert Pow10(5) == 100000;
  }

  /** A value shown in full can be read back from the line between the label
      and the unit. */
  lemma ShownValueReadsBack(lux: uint32)
    requires lux < 100000
    ensures var line := FormatLine(lux);
      |Label| + |Unit| <= |line| &&
      line[|line| - |Unit|..] == Unit &&
      (forall i | |Label| <= i < |line| - |Unit| :: IsDigit(line[i])) &&
      ParseDecimal(line[|Label|..|line| - |Unit|]) == lux as nat
  {
    ShownInFullIff(lux);
    var d := Decimal(lux as nat);
    var line := FormatLine(lux);
    assert line == Label + d + Unit;
    assert line[|Label|..|line| - |Unit|] == d;
    assert line[|line| - |Unit|..] == Unit;
    DecimalRoundTrip(lux as nat);
  }

  /** What one iteration of `StartDisplayTask` shows, and the queue after it.
      On an empty queue the blocking get keeps the task suspended and the
      display is not touched (`None`). */
  function DisplayStep(items: seq<SensorData>): (r: (Option<string>, seq<SensorData>))
    ensures r.0.None? <==> items == []
    ensures items == [] ==> r.1 == items
    ensures items != [] ==> r.0 == Some(FormatLine(items[0].lux)) && r.1 == items[1..]
  {
    var g := Dequeue(items);
    match g.msg
    case None => (None, g.items)
    case Some(d) => (Some(FormatLine(d.lux)), g.items)
  }

  /** One iteration of `StartDisplayTask` against the shared queue; `shown`
      is the line handed to `lcd_print` after the clear and cursor reset. */
  method DisplayTaskStep(q: MessageQueue) returns (shown: Option<string>)
    requires q.Valid()
    modifies q
    ensures q.Valid()
    ensures (shown, q.items) == DisplayStep(old(q.items))
  {
    var msg := q.Get();
    if msg.Some? {
      shown := Some(FormatLine(msg.value.lux));
    } else {
      shown := None;
    }
  }
}
