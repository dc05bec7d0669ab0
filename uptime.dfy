/** `UpTime.timetostring` of uptime.py: a whole number of seconds rendered as
    "N years, N months, N days, N hours, N minutes, N seconds", leaving out every
    period whose count is zero. */
module UpTime {

  type Positive = x: int | x > 0 witness 1

  datatype Period = Period(name: string, seconds: Positive)

  /** The periods, longest first; a month is 30 days and a year 365 days. */
  const Periods: seq<Period> := [
    Period("year", 60 * 60 * 24 * 365), Period("month", 60 * 60 * 24 * 30),
    Period("day", 60 * 60 * 24), Period("hour", 60 * 60), Period("minute", 60), Period("second", 1)
  ]

  /** One emitted part: `value` times the period at position `index` of `Periods`. */
  datatype Component = Component(value: nat, index: nat)

  /** The parts the loop emits from position `i` on, starting with `seconds`
      left over: a period is emitted only when at least one whole period is left,
      and what remains after it is passed on. */
  function ComponentsFrom(seconds: int, i: nat): (cs: seq<Component>)
    requires i <= |Periods|
    ensures forall k :: 0 <= k < |cs| ==> i <= cs[k].index < |Periods| && cs[k].value >= 1
    ensures forall k :: 0 < k < |cs| ==> cs[k - 1].index < cs[k].index
    decreases |Periods| - i
  {
    if i == |Periods| then []
    else if seconds >= Periods[i].seconds then
      [Component(seconds / Periods[i].seconds, i)] + ComponentsFrom(seconds % Periods[i].seconds, i + 1)
    else
      ComponentsFrom(seconds, i + 1)
  }

  /** Parts ordered between neighbours are ordered throughout. */
  lemma {:induction false} IncreasingIndices(cs: seq<Component>)
    requires forall k :: 0 < k < |cs| ==> cs[k - 1].index < cs[k].index
    ensures forall k, l :: 0 <= k < l < |cs| ==> cs[k].index < cs[l].index
    decreases |cs|
  {
    if |cs| > 1 {
      var tail := cs[1..];
      assert forall k :: 0 < k < |tail| ==> tail[k - 1] == cs[k] && tail[k] == cs[k + 1];
      IncreasingIndices(tail);
      forall k, l | 0 <= k < l < |cs| ensures cs[k].index < cs[l].index {
        if l > 1 {
          assert cs[l] == tail[l - 1] && cs[1] == tail[0];
          if k > 0 {
            assert cs[k] == tail[k - 1];
          }
        }
      }
    }
  }

  /** The parts come in the order of `Periods`, so each period appears at
      most once. */
  lemma ComponentsOrdered(seconds: int)
    ensures var cs := ComponentsFrom(seconds, 0);
      forall k, l :: 0 <= k < l < |cs| ==> cs[k].index < cs[l].index
  {
    IncreasingIndices(ComponentsFrom(seconds, 0));
  }

  /** The seconds a list of parts stands for. */
  function Total(cs: seq<Component>): int
    requires forall k :: 0 <= k < |cs| ==> cs[k].index < |Periods|
  {
    if cs == [] then 0 else cs[0].value * Periods[cs[0].index].seconds + Total(cs[1..])
  }

  /** Decimal digits of a natural number, as `%s` prints it. */
  function NatToString(n: nat): (s: string)
    ensures |s| >= 1
    ensures forall k :: 0 <= k < |s| ==> '0' <= s[k] <= '9'
  {
    if n < 10 then [DigitChar(n)] else NatToString(n / 10) + [DigitChar(n % 10)]
  }

  function DigitChar(d: nat): (c: char)
    requires d < 10
    ensures '0' <= c <= '9'
  {
    (('0' as int) + d) as char
  }

  /** Reads a string of decimal digits back as a number. */
  function ParseDecimal(s: string): nat
    requires forall k :: 0 <= k < |s| ==> '0' <= s[k] <= '9'
  {
    if s == [] then 0 else ParseDecimal(s[..|s| - 1]) * 10 + ((s[|s| - 1] as int) - ('0' as int))
  }

  /** `"%s %s%s" % (value, name, has_s)`. */
  function Format(c: Component): string
    requires c.index < |Periods|
  {
    NatToString(c.value) + " " + Periods[c.index].name + (if c.value > 1 then "s" else "")
  }

  function Render(cs: seq<Component>): (r: seq<string>)
    requires forall k :: 0 <= k < |cs| ==> cs[k].index < |Periods|
    ensures |r| == |cs|
  {
    if cs == [] then [] else [Format(cs[0])] + Render(cs[1..])
  }

  /** `sep.join(parts)`. */
  function Join(parts: seq<string>, sep: string): string {
    if parts == [] then ""
    else if |parts| == 1 then parts[0]
    else parts[0] + sep + Join(parts[1..], sep)
  }

  /** The string `timetostring` returns for a whole number of seconds. */
  function UptimeText(seconds: int): string {
    Join(Render(ComponentsFrom(seconds, 0)), ", ")
  }

  method TimeToString(time: int) returns (s: string)
    ensures s == UptimeText(time)
  {
    var seconds := time;
    var strings: seq<string> := [];
    for i := 0 to |Periods|
      invariant strings + Render(ComponentsFrom(seconds, i)) == Render(ComponentsFrom(time, 0))
    {
      var period := Periods[i];
      if seconds >= period.seconds {
        var periodValue := seconds / period.seconds;
        // the part `"%s %s%s" % (period_value, name, has_s)`
        strings := strings + [Format(Component(periodValue, i))];
        seconds := seconds % period.seconds;
      }
    }
    assert strings + Render(ComponentsFrom(seconds, |Periods|)) == strings;
    s := Join(strings, ", ");
  }

  /** Python's `divmod` for a positive divisor and a non-negative dividend. */
  lemma DivMod(seconds: int, p: Positive)
    requires 0 <= seconds
    ensures (seconds / p) * p + seconds % p == seconds
    ensures 0 <= seconds % p < p
    ensures (seconds / p) * p <= seconds
    ensures seconds >= p ==> seconds / p >= 1
  {
  }

  /** The parts add back up to the input, for any non-negative input. */
  lemma {:induction false} ComponentsSum(seconds: int, i: nat)
    requires 0 <= seconds
    requires i < |Periods|
    ensures Total(ComponentsFrom(seconds, i)) == seconds
    decreases |Periods| - i
  {
    var p := Periods[i].seconds;
    var cs := ComponentsFrom(seconds, i);
    if i == |Periods| - 1 {
      assert p == 1;
      if seconds >= p {
        assert ComponentsFrom(seconds % p, i + 1) == [];
        assert cs == [Component(seconds, i)];
        assert cs[1..] == [];
      }
    } else if seconds >= p {
      DivMod(seconds, p);
      ComponentsSum(seconds % p, i + 1);
      assert cs[1..] == ComponentsFrom(seconds % p, i + 1);
    } else {
      ComponentsSum(seconds, i + 1);
    }
  }

  /** How many of period `j` fit below the period before it, rounded up:
      fewer than 13 months in a year of 365 days, 30 days in a month, 24 hours,
      60 minutes and 60 seconds. */
  function Quota(j: nat): nat
    requires 0 < j < |Periods|
  {
    match j
    case 1 => 13
    case 2 => 30
    case 3 => 24
    case 4 => 60
    case 5 => 60
  }

  lemma QuotaStep(seconds: int, i: nat)
    requires 0 < i < |Periods|
    requires 0 <= seconds < Periods[i - 1].seconds
    ensures seconds / Periods[i].seconds < Quota(i)
  {
    match i
    case 1 => assert Periods[0].seconds == 31536000 && Periods[1].seconds == 2592000;
    case 2 => assert Periods[1].seconds == 2592000 && Periods[2].seconds == 86400;
    case 3 => assert Periods[2].seconds == 86400 && Periods[3].seconds == 3600;
    case 4 => assert Periods[3].seconds == 3600 && Periods[4].seconds == 60;
    case 5 => assert Periods[4].seconds == 60 && Periods[5].seconds == 1;
  }

  /** Whatever reaches a period is less than the period before it, so every
      part after the first period stays below its quota. */
  lemma {:induction false} PartsWithinQuota(seconds: int, i: nat)
    requires 0 <= seconds
    requires i <= |Periods|
    requires i > 0 ==> seconds < Periods[i - 1].seconds
    ensures var cs := ComponentsFrom(seconds, i);
      forall k :: 0 <= k < |cs| && cs[k].index > 0 ==> cs[k].value < Quota(cs[k].index)
    decreases |Periods| - i
  {
    if i < |Periods| {
      var p := Periods[i].seconds;
      if seconds >= p {
        DivMod(seconds, p);
        if i > 0 {
          QuotaStep(seconds, i);
        }
        PartsWithinQuota(seconds % p, i + 1);
      } else {
        PartsWithinQuota(seconds, i + 1);
      }
    }
  }

  /** The bounds for the input as a whole: at most 12 months, fewer than 30
      days, 24 hours, 60 minutes and 60 seconds. */
  lemma ComponentBounds(seconds: int)
    requires 0 <= seconds
    ensures var cs := ComponentsFrom(seconds, 0);
      forall k :: 0 <= k < |cs| && cs[k].index > 0 ==> cs[k].value < Quota(cs[k].index)
  {
    PartsWithinQuota(seconds, 0);
  }

  /** Less than one second left: nothing more is emitted. */
  lemma {:induction false} NothingBelowOneSecond(seconds: int, i: nat)
    requires seconds < 1
    requires i <= |Periods|
    ensures ComponentsFrom(seconds, i) == []
    decreases |Periods| - i
  {
    if i < |Periods| {
      NothingBelowOneSecond(seconds, i + 1);
    }
  }

  lemma {:induction false} JoinEmpty(parts: seq<string>, sep: string)
    requires forall k :: 0 <= k < |parts| ==> parts[k] != ""
    ensures Join(parts, sep) == "" <==> parts == []
    decreases |parts|
  {
    if |parts| > 1 {
      JoinEmpty(parts[1..], sep);
    }
  }

  lemma {:induction false} RenderNonEmpty(cs: seq<Component>)
    requires forall k :: 0 <= k < |cs| ==> cs[k].index < |Periods|
    ensures forall k :: 0 <= k < |cs| ==> Render(cs)[k] != ""
    decreases |cs|
  {
    if cs != [] {
      RenderNonEmpty(cs[1..]);
    }
  }

  /** The text is empty exactly for inputs below one second (0 included). */
  lemma UptimeTextEmpty(seconds: int)
    ensures UptimeText(seconds) == "" <==> seconds < 1
  {
    var cs := ComponentsFrom(seconds, 0);
    RenderNonEmpty(cs);
    JoinEmpty(Render(cs), ", ");
    if seconds < 1 {
      NothingBelowOneSecond(seconds, 0);
    } else {
      ComponentsSum(seconds, 0);
    }
  }

  /** A part ends in "s" exactly when its count is more than one (no period
      name ends in "s"). */
  lemma PluralSuffix(c: Component)
    requires c.index < |Periods|
    ensures var f := Format(c); f[|f| - 1] == 's' <==> c.value > 1
  {
  }

  /** The digits read back as the number they print. */
  lemma {:induction false} DecimalRoundTrip(n: nat)
    ensures ParseDecimal(NatToString(n)) == n
  {
    var s := NatToString(n);
    if n >= 10 {
      DecimalRoundTrip(n / 10);
      assert s[..|s| - 1] == NatToString(n / 10);
    }
  }
}
