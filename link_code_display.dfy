/**
 * The link-code card (apps/aira-web/components/whatsapp/link-code-display.tsx): the refresh
 * button's five-minute countdown, the `m:ss` rendering of the time left and the button
 * text, and the code split into two groups of four for display.
 *
 * Time is discrete: `Tick` is one run of the one-second interval. The interval exists only
 * while the code is not being refreshed and time is left, and it is re-created after each
 * decrement, so each tick lowers the count by one at most.
 */
module LinkCodeDisplay {
  import opened Wrappers
  import opened Strings

  /** Five minutes, in seconds: where the countdown starts and restarts. */
  const InitialSeconds := 300

  // ---------------------------------------------------------------------------
  // The countdown

  /** One second of the interval at `timeLeft`: one less while counting, else unchanged. */
  function TickValue(timeLeft: int, isLoading: bool): (r: int)
    ensures 0 <= timeLeft ==> 0 <= r <= timeLeft
    ensures r == timeLeft - 1 <==> !isLoading && timeLeft > 0
    ensures r != timeLeft - 1 ==> r == timeLeft
  {
    if isLoading || timeLeft <= 0 then timeLeft else timeLeft - 1
  }

  /** The count after `n` seconds without refreshing: it goes down to 0 and stays there. */
  function AfterSeconds(timeLeft: nat, n: nat): (r: nat)
    ensures r == if n >= timeLeft then 0 else timeLeft - n
  {
    if n == 0 then timeLeft else TickValue(AfterSeconds(timeLeft, n - 1), false)
  }

  /** `NumericCountdownButton`'s `timeLeft` state and the `resetKey` it last rendered with. */
  class CountdownTimer {
    var timeLeft: int
    var resetKey: Option<string>

    ghost predicate Valid()
      reads this
    {
      0 <= timeLeft <= InitialSeconds
    }

    /** Mounting: the full five minutes. */
    constructor (resetKey: Option<string>)
      ensures Valid() && timeLeft == InitialSeconds && this.resetKey == resetKey
    {
      timeLeft := InitialSeconds;
      this.resetKey := resetKey;
    }

    /** A render with `newKey`: the reset effect runs, back to five minutes, exactly when the key changed. */
    method Render(newKey: Option<string>)
      requires Valid()
      modifies this
      ensures Valid() && resetKey == newKey
      ensures timeLeft == if newKey != old(resetKey) then InitialSeconds else old(timeLeft)
    {
      if newKey != resetKey {
        timeLeft := InitialSeconds;
      }
      resetKey := newKey;
    }

    /** One second passes: the interval, when there is one, counts down by one. */
    method Tick(isLoading: bool)
      requires Valid()
      modifies this
      ensures Valid() && resetKey == old(resetKey)
      ensures timeLeft == TickValue(old(timeLeft), isLoading)
    {
      if isLoading {
        return;
      }
      if timeLeft <= 0 {
        return;
      }
      timeLeft := timeLeft - 1;
    }
  }

  // ---------------------------------------------------------------------------
  // Time rendering

  /** `${minutes}:${seconds.toString().padStart(2, '0')}` for `t` seconds: it reads back as `t`. */
  function TimeString(t: nat): (s: string)
    ensures ParseTime(s) == Some(t)
    ensures |s| >= 4
  {
    var minutes, sec := t / 60, t % 60;
    MinutesSecondsRoundTrip(minutes, sec);
    NatToString(minutes) + ":" + PadStart(NatToString(sec), 2, '0')
  }

  /** Reads `m:ss` back: digits, a colon, two digits below 60. */
  function ParseTime(s: string): Option<nat> {
    var parts := Split(s, ':');
    if |parts| == 2 && |parts[0]| >= 1 && AllDigits(parts[0]) && |parts[1]| == 2 && AllDigits(parts[1])
      && ParseNat(parts[1]) < 60
    then Some(60 * ParseNat(parts[0]) + ParseNat(parts[1]))
    else None
  }

  /** The padded seconds: two digits whose value is the seconds. */
  lemma {:induction false} PaddedSeconds(sec: nat)
    requires sec < 60
    ensures var p := PadStart(NatToString(sec), 2, '0');
      |p| == 2 && AllDigits(p) && ParseNat(p) == sec
  {
    NatToStringLength(sec);
    ParseNatToString(sec);
    var d := NatToString(sec);
    var p := PadStart(d, 2, '0');
    if sec < 10 {
      assert p == "0" + d;
      ParseNatLeadingZero(d);
    } else {
      assert p == d;
    }
  }

  /** A digit string, a colon and two digits below 60 read back as minutes and seconds. */
  lemma {:induction false} ParseTimeParts(m: string, p: string)
    requires |m| >= 1 && AllDigits(m) && |p| == 2 && AllDigits(p) && ParseNat(p) < 60
    ensures ParseTime(m + ":" + p) == Some(60 * ParseNat(m) + ParseNat(p))
  {
    assert ':' !in m && ':' !in p;
    assert m + ":" + p == m + [':'] + p;
    SplitAtFirstSeparator(m, ':', p);
    SplitWithoutSeparator(p, ':');
    assert Split(m + ":" + p, ':') == [m, p];
  }

  /** `m:ss` built from minutes and seconds reads back as their total. */
  lemma {:induction false} MinutesSecondsRoundTrip(minutes: nat, sec: nat)
    requires sec < 60
    ensures ParseTime(NatToString(minutes) + ":" + PadStart(NatToString(sec), 2, '0')) == Some(60 * minutes + sec)
  {
    PaddedSeconds(sec);
    ParseNatToString(minutes);
    ParseTimeParts(NatToString(minutes), PadStart(NatToString(sec), 2, '0'));
  }

  /** Two times render the same only when they are equal. */
  lemma {:induction false} TimeStringInjective(t1: nat, t2: nat)
    requires TimeString(t1) == TimeString(t2)
    ensures t1 == t2
  {
  }

  /** Fewer than ten minutes render as one digit, a colon and two digits. */
  lemma {:induction false} ShortTimeShape(minutes: nat, sec: nat)
    requires minutes < 10 && sec < 60
    ensures var s := NatToString(minutes) + ":" + PadStart(NatToString(sec), 2, '0');
      |s| == 4 && s[0] == DigitChar(minutes) && s[1] == ':' && IsDigit(s[2]) && IsDigit(s[3])
  {
    PaddedSeconds(sec);
    var p := PadStart(NatToString(sec), 2, '0');
    assert NatToString(minutes) == [DigitChar(minutes)];
    var s := [DigitChar(minutes)] + ":" + p;
    assert s[2] == p[0] && s[3] == p[1];
  }

  /** Within five minutes the time is one digit, a colon and two digits. */
  lemma {:induction false} TimeStringShape(t: nat)
    requires t <= InitialSeconds
    ensures var s := TimeString(t);
      |s| == 4 && s[0] == DigitChar(t / 60) && s[1] == ':' && IsDigit(s[2]) && IsDigit(s[3])
  {
    assert t / 60 <= 5;
    ShortTimeShape(t / 60, t % 60);
  }

  // ---------------------------------------------------------------------------
  // The button

  datatype ButtonView = ButtonView(text: string, disabled: bool, expiredStyle: bool)

  /**
   * The refresh button: "Refreshing..." while loading; otherwise "Code Expired" once the
   * count is 0 (`isExpired`), or "New Code (m:ss)" with the count's TimeString, which reads back as the count. It is disabled
   * exactly while loading, and drawn in the expired colour exactly when the count is 0.
   */
  function ViewButton(isLoading: bool, timeLeft: nat): (v: ButtonView)
    ensures v.disabled <==> isLoading
    ensures v.expiredStyle <==> timeLeft == 0
    ensures isLoading ==> v.text == "Refreshing..."
    ensures !isLoading && timeLeft == 0 ==> v.text == "Code Expired"
    ensures !isLoading && timeLeft > 0 ==>
      |v.text| > 11 && v.text[..10] == "New Code (" && v.text[|v.text| - 1] == ')'
      && ParseTime(v.text[10..|v.text| - 1]) == Some(timeLeft)
    ensures !isLoading && timeLeft > 0 ==> v.text == "New Code (" + TimeString(timeLeft) + ")"
  {
    var timeString := TimeString(timeLeft);
    Bracketed("New Code (", timeString, ')');
    var text :=
      if isLoading then "Refreshing..."
      else if timeLeft == 0 then "Code Expired"
      else "New Code (" + timeString + [')'];
    ButtonView(text, isLoading, timeLeft == 0)
  }

  /** A string put between a prefix and a closing character is what lies between them. */
  lemma Bracketed(prefix: string, middle: string, close: char)
    ensures var s := prefix + middle + [close];
      |s| == |prefix| + |middle| + 1 && s[..|prefix|] == prefix && s[|s| - 1] == close && s[|prefix|..|s| - 1] == middle
  {
    var s := prefix + middle + [close];
    assert s[..|prefix|] == prefix;
    assert s[|prefix|..|s| - 1] == middle;
  }

  /** The countdown button appears only when the card has an `onRefresh` handler. */
  function RefreshButton(hasOnRefresh: bool, isRefreshing: bool, timeLeft: nat): (b: Option<ButtonView>)
    ensures b.Some? <==> hasOnRefresh
    ensures b.Some? ==> b.value == ViewButton(isRefreshing, timeLeft)
  {
    if hasOnRefresh then Some(ViewButton(isRefreshing, timeLeft)) else None
  }

  // ---------------------------------------------------------------------------
  // The code

  /**
   * `code.slice(0, 4) + ' ' + code.slice(4)`: one character longer, a space at position
   * `min(4, |code|)`, and removing that space gives the code back.
   */
  function FormattedCode(code: string): (r: string)
    ensures |r| == |code| + 1
    ensures var k := if |code| < 4 then |code| else 4;
      r[k] == ' ' && r[..k] + r[k + 1..] == code
    ensures |code| >= 4 ==> r[..4] == code[..4]
  {
    var k := if |code| < 4 then |code| else 4;
    var r := code[..k] + " " + code[k..];
    assert r[..k] == code[..k] && r[k + 1..] == code[k..];
    assert code[..k] + code[k..] == code;
    r
  }
}
