/**
 * The payment QR widget: a 60-second countdown that expires the QR code,
 * a refresh that restarts it, and the pure functions that render the time
 * left as `MM:SS`, pick the colour band and pick the status message.
 */
module PaymentQr {
  import opened Options
  import opened Decimal

  /** Seconds a QR code stays valid. */
  const Lifetime := 60

  /** The countdown's state: `timeLeft` and `isExpired`. */
  datatype Countdown = Countdown(timeLeft: int, isExpired: bool)

  const Fresh := Countdown(Lifetime, false)

  /** What every reachable state satisfies: the time is within the lifetime, and it is 0 exactly once expired. */
  predicate Inv(c: Countdown) {
    0 <= c.timeLeft <= Lifetime && (c.isExpired <==> c.timeLeft == 0)
  }

  /** Whether the effect has an interval running for this state. */
  predicate Running(c: Countdown) {
    !c.isExpired && c.timeLeft > 0
  }

  /** One second on the interval: the state updater, or nothing when no interval runs. */
  function Tick(c: Countdown): (r: Countdown)
    ensures c.isExpired || c.timeLeft <= 0 ==> r == c
    ensures Running(c) && c.timeLeft > 1 ==> r == Countdown(c.timeLeft - 1, false)
    ensures Running(c) && c.timeLeft <= 1 ==> r == Countdown(0, true)
  {
    if !Running(c) then c
    else if c.timeLeft <= 1 then Countdown(0, true)
    else Countdown(c.timeLeft - 1, false)
  }

  /** The state after `n` seconds. */
  function Ticks(c: Countdown, n: nat): Countdown {
    if n == 0 then c else Tick(Ticks(c, n - 1))
  }

  /** A tick keeps the invariant, and moves a running countdown down by exactly one second. */
  lemma TickKeepsInv(c: Countdown)
    requires Inv(c)
    ensures Inv(Tick(c))
    ensures Running(c) ==> Tick(c).timeLeft == c.timeLeft - 1
    ensures !Running(c) ==> Tick(c) == c
    ensures Tick(c).isExpired <==> c.timeLeft <= 1
  {
  }

  /** A fresh QR code counts down one second per tick and expires at exactly the 60th. */
  lemma {:induction false} CountdownFromFresh(n: nat)
    requires n <= Lifetime
    ensures Ticks(Fresh, n) == if n < Lifetime then Countdown(Lifetime - n, false) else Countdown(0, true)
  {
    if n > 0 {
      CountdownFromFresh(n - 1);
    }
  }

  /** Once expired, the countdown stays expired until refreshed. */
  lemma {:induction false} ExpiredStays(c: Countdown, n: nat)
    requires c.isExpired
    ensures Ticks(c, n) == c
  {
    if n > 0 {
      ExpiredStays(c, n - 1);
    }
  }

  /**
   * `formatTime`: whole minutes and remaining seconds, each padded to two
   * digits; the seconds always take the last two characters, after the `:`.
   */
  function FormatTime(seconds: nat): (r: string)
    ensures |r| >= 5 && r[|r| - 3] == ':'
  {
    ClockText(seconds / 60, seconds % 60)
  }

  function ClockText(mins: nat, secs: nat): (r: string)
    requires secs < 60
    ensures |r| >= 5 && r[|r| - 3] == ':'
  {
    NatToStringLength2(secs);
    JoinedTail(PadStart2(NatToString(mins)), PadStart2(NatToString(secs)));
    PadStart2(NatToString(mins)) + ":" + PadStart2(NatToString(secs))
  }

  /** At least two characters, `:`, and two more. */
  lemma JoinedTail(mm: string, ss: string)
    requires |mm| >= 2 && |ss| == 2
    ensures var t := mm + ":" + ss; |t| >= 5 && t[|t| - 3] == ':'
  {
  }

  /** Reads `MM:SS` text back into its minutes and seconds. */
  function ParseClock(t: string): Option<(nat, nat)> {
    var k := DigitSpan(t);
    if k == 0 || k >= |t| || t[k] != ':' then None
    else
      match ParseNat(t[k + 1..])
      case None => None
      case Some(secs) => Some((ValueOf(t[..k]), secs))
  }

  /** The formatted time names its minutes and seconds, so `mins * 60 + secs` is the time again. */
  lemma FormatTimeRoundTrip(seconds: nat)
    ensures ParseClock(FormatTime(seconds)) == Some((seconds / 60, seconds % 60))
    ensures (seconds / 60) * 60 + seconds % 60 == seconds
  {
    ClockTextRoundTrip(seconds / 60, seconds % 60);
  }

  lemma ClockTextRoundTrip(mins: nat, secs: nat)
    requires secs < 60
    ensures ParseClock(ClockText(mins, secs)) == Some((mins, secs))
  {
    PadStart2Value(NatToString(mins));
    PadStart2Value(NatToString(secs));
    ValueOfNatToString(mins);
    ValueOfNatToString(secs);
    ParseJoined(PadStart2(NatToString(mins)), PadStart2(NatToString(secs)));
  }

  /** Two digit strings joined by `:` read back as their two values. */
  lemma ParseJoined(mm: string, ss: string)
    requires |mm| >= 1 && AllDigits(mm) && |ss| >= 1 && AllDigits(ss)
    ensures ParseClock(mm + ":" + ss) == Some((ValueOf(mm), ValueOf(ss)))
  {
    var t := mm + (":" + ss);
    assert mm + ":" + ss == t;
    DigitSpanConcat(mm, ":" + ss);
    assert t[..|mm|] == mm;
    assert t[|mm|] == ':';
    assert t[|mm| + 1..] == ss;
  }

  /** Below 100 minutes the text is exactly `MM:SS`. */
  lemma FormatTimeShape(seconds: nat)
    requires seconds < 6000
    ensures |FormatTime(seconds)| == 5 && FormatTime(seconds)[2] == ':'
  {
    ClockTextShape(seconds / 60, seconds % 60);
  }

  lemma ClockTextShape(mins: nat, secs: nat)
    requires mins < 100 && secs < 60
    ensures |ClockText(mins, secs)| == 5 && ClockText(mins, secs)[2] == ':'
  {
    NatToStringLength2(mins);
    NatToStringLength2(secs);
    JoinedShape(PadStart2(NatToString(mins)), PadStart2(NatToString(secs)));
  }

  lemma JoinedShape(mm: string, ss: string)
    requires |mm| == 2 && |ss| == 2
    ensures |mm + ":" + ss| == 5 && (mm + ":" + ss)[2] == ':'
  {
  }

  datatype Band = Green | Yellow | Red

  /** The colour band of the time left: green above 45 seconds, yellow above 15, red otherwise. */
  function BandOf(timeLeft: int): (b: Band)
    ensures b == Green <==> timeLeft > 45
    ensures b == Yellow <==> 15 < timeLeft <= 45
    ensures b == Red <==> timeLeft <= 15
  {
    if timeLeft > 45 then Green else if timeLeft > 15 then Yellow else Red
  }

  /** `getWarningLevel`: the panel classes. */
  function WarningLevel(timeLeft: int): (r: string)
    ensures r == match BandOf(timeLeft)
                 case Green => "bg-green-50 border-green-200"
                 case Yellow => "bg-yellow-50 border-yellow-200"
                 case Red => "bg-red-50 border-red-200"
  {
    if timeLeft > 45 then "bg-green-50 border-green-200"
    else if timeLeft > 15 then "bg-yellow-50 border-yellow-200"
    else "bg-red-50 border-red-200"
  }

  /** `getTimerColor`: the timer's text classes. */
  function TimerColor(timeLeft: int): (r: string)
    ensures r == match BandOf(timeLeft)
                 case Green => "text-green-600"
                 case Yellow => "text-yellow-600"
                 case Red => "text-red-600 animate-pulse"
  {
    if timeLeft > 45 then "text-green-600"
    else if timeLeft > 15 then "text-yellow-600"
    else "text-red-600 animate-pulse"
  }

  /** `getTimerBgColor`: the timer's background class. */
  function TimerBgColor(timeLeft: int): (r: string)
    ensures r == match BandOf(timeLeft)
                 case Green => "bg-green-100"
                 case Yellow => "bg-yellow-100"
                 case Red => "bg-red-100"
  {
    if timeLeft > 45 then "bg-green-100"
    else if timeLeft > 15 then "bg-yellow-100"
    else "bg-red-100"
  }

  /** The status panel: expired, hurry (with the time left) or active (with the time left). */
  datatype StatusMessage = ExpiredNotice | HurryNotice(remaining: string) | ActiveNotice(remaining: string)

  /** The panel is chosen by precedence: expired first, then 15 seconds or less, then active. */
  function StatusOf(c: Countdown): (m: StatusMessage)
    requires c.timeLeft >= 0
    ensures m.ExpiredNotice? <==> c.isExpired
    ensures m.HurryNotice? <==> !c.isExpired && c.timeLeft <= 15
    ensures m.ActiveNotice? <==> !c.isExpired && c.timeLeft > 15
    ensures !m.ExpiredNotice? ==> m.remaining == FormatTime(c.timeLeft)
  {
    if c.isExpired then ExpiredNotice
    else if c.timeLeft <= 15 then HurryNotice(FormatTime(c.timeLeft))
    else ActiveNotice(FormatTime(c.timeLeft))
  }

  /** Each panel has its own headline. */
  function Headline(m: StatusMessage): (h: string)
    ensures h == "QR Code Expired" <==> m.ExpiredNotice?
    ensures h == "Hurry! QR expiring soon" <==> m.HurryNotice?
    ensures h == "QR Code Active" <==> m.ActiveNotice?
  {
    match m
    case ExpiredNotice => "QR Code Expired"
    case HurryNotice(_) => "Hurry! QR expiring soon"
    case ActiveNotice(_) => "QR Code Active"
  }

  /** The refresh button is rendered only for an expired code. */
  function ShowsRefreshButton(c: Countdown): (shown: bool)
    ensures c.timeLeft >= 0 ==> (shown <==> StatusOf(c).ExpiredNotice?)
  {
    c.isExpired
  }

  /**
   * On reachable states: the expired notice is shown exactly at 0 seconds and
   * exactly when the refresh button is, the hurry notice exactly from 1 to 15
   * seconds, and the red band exactly when the code is not active.
   */
  lemma StatusAgreesWithTime(c: Countdown)
    requires Inv(c)
    ensures StatusOf(c).ExpiredNotice? <==> c.timeLeft == 0
    ensures StatusOf(c).ExpiredNotice? <==> ShowsRefreshButton(c)
    ensures StatusOf(c).HurryNotice? <==> 1 <= c.timeLeft <= 15
    ensures StatusOf(c).ActiveNotice? <==> c.timeLeft > 15
    ensures BandOf(c.timeLeft) == Red <==> !StatusOf(c).ActiveNotice?
    ensures !StatusOf(c).ExpiredNotice? ==> StatusOf(c).remaining == FormatTime(c.timeLeft)
    ensures Headline(StatusOf(c)) == "QR Code Expired" <==> c.timeLeft == 0
    ensures Headline(StatusOf(c)) == "Hurry! QR expiring soon" <==> 1 <= c.timeLeft <= 15
  {
  }

  /** The widget's state, updated by its interval and its refresh button. */
  class PaymentQrWidget {
    var timeLeft: int
    var isExpired: bool
    /** `Date.now()` at the last (re)load; re-keys the QR image. */
    var qrKey: int
    /** Whether an `onQRExpired` callback was given. */
    const hasExpiryHandler: bool

    function State(): Countdown
      reads this
    {
      Countdown(timeLeft, isExpired)
    }

    ghost predicate Valid()
      reads this
    {
      Inv(State())
    }

    constructor (now: int, hasExpiryHandler: bool)
      ensures Valid() && State() == Fresh
      ensures qrKey == now && this.hasExpiryHandler == hasExpiryHandler
    {
      timeLeft, isExpired, qrKey := Lifetime, false, now;
      this.hasExpiryHandler := hasExpiryHandler;
    }

    /**
     * One second of the interval. Returns whether `onQRExpired` was called:
     * only on the tick that expires the code, and only if a callback was given.
     */
    method SecondElapsed() returns (notified: bool)
      requires Valid()
      modifies this`timeLeft, this`isExpired
      ensures Valid()
      ensures State() == Tick(old(State()))
      ensures notified <==> hasExpiryHandler && Running(old(State())) && old(timeLeft) <= 1
    {
      notified := false;
      if isExpired || timeLeft <= 0 {
        return;
      }
      if timeLeft <= 1 {
        isExpired := true;
        notified := hasExpiryHandler;
        timeLeft := 0;
      } else {
        timeLeft := timeLeft - 1;
      }
    }

    /** `handleRefreshQR`: a fresh 60-second code with a new key, from any state. */
    method RefreshQr(now: int)
      modifies this`timeLeft, this`isExpired, this`qrKey
      ensures Valid() && State() == Fresh && qrKey == now
    {
      timeLeft := Lifetime;
      isExpired := false;
      qrKey := now;
    }
  }
}
