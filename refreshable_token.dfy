/**
 * hooks/useRefreshableToken.tsx: the status line shown for the access
 * token's remaining lifetime (`updateTokenStatus`), and the hook's state,
 * which is refreshed from the server once the token is within thirty
 * seconds of expiring.
 */
module RefreshableToken {
  import opened Wrappers

  /**
   * What `Date.getTime()` yields: milliseconds since the epoch, or NaN for
   * a date that did not parse.
   */
  datatype TimeValue = Valid(ms: int) | NaN

  /** The three Tailwind colours the status uses. */
  datatype Color = Red | Yellow | Green

  /** A count in a label: a number, or NaN when the date was invalid. */
  datatype Count = Num(n: int) | NotANumber

  /** The label text, before the number is rendered. */
  datatype Label =
    | NoToken
    | Expired
    | SecondsLeft(s: int)
    | MinutesLeft(m: int)
    | HoursLeft(h: int)
    | DaysLeft(d: Count)

  datatype Status = Status(text: Label, color: Color)

  /** The status the hook starts with (line 39). */
  const Initial: Status := Status(NoToken, Red)

  /** `Math.floor(x / k)` for a positive k: Dafny's division already rounds down then. */
  function FloorDiv(x: int, k: int): (q: int)
    requires k > 0
    ensures k * q <= x < k * q + k
  {
    x / k
  }

  /**
   * `updateTokenStatus` (lines 3-34).  `None` is a missing date (the
   * `!tokenExpiry` test); with NaN every comparison is false, so the last
   * branch is taken.
   */
  function TokenStatus(expiry: Option<TimeValue>, now: int): (r: Status)
    ensures r.text == NoToken <==> expiry.None?
    ensures r.text == DaysLeft(NotANumber) <==> expiry == Some(NaN)
    ensures r.text == Expired <==> expiry.Some? && expiry.value.Valid? && expiry.value.ms - now < 1000
    ensures r.text == NoToken || r.text == Expired ==> r.color == Red
  {
    if expiry.None? then Status(NoToken, Red)
    else match expiry.value
      case NaN => Status(DaysLeft(NotANumber), Green)
      case Valid(t) =>
        var s := FloorDiv(t - now, 1000);
        var m := FloorDiv(s, 60);
        var h := FloorDiv(m, 60);
        var d := FloorDiv(h, 24);
        if s <= 0 then Status(Expired, Red)
        else if s < 60 then Status(SecondsLeft(s), Yellow)
        else if m < 60 then Status(MinutesLeft(m), if m < 15 then Red else Yellow)
        else if h < 24 then Status(HoursLeft(h), if h < 2 then Yellow else Green)
        else Status(DaysLeft(Num(d)), Green)
  }

  /** Whole seconds left until `t` at time `now`, rounded down. */
  function SecondsLeftAt(t: int, now: int): int
  {
    FloorDiv(t - now, 1000)
  }

  /**
   * The bands stated in seconds: exactly one applies, and each label
   * carries the whole number of its unit, within the band's range.
   */
  lemma Bands(t: int, now: int)
    ensures var st := TokenStatus(Some(Valid(t)), now);
      var s := SecondsLeftAt(t, now);
      && (st.text == Expired <==> s <= 0)
      && (st.text.SecondsLeft? <==> 0 < s < 60)
      && (st.text.MinutesLeft? <==> 60 <= s < 3600)
      && (st.text.HoursLeft? <==> 3600 <= s < 86400)
      && (st.text.DaysLeft? <==> 86400 <= s)
    ensures var st := TokenStatus(Some(Valid(t)), now);
      var s := SecondsLeftAt(t, now);
      && (st.text.SecondsLeft? ==> st.text.s == s)
      && (st.text.MinutesLeft? ==> 1 <= st.text.m < 60 && 60 * st.text.m <= s < 60 * st.text.m + 60)
      && (st.text.HoursLeft? ==> 1 <= st.text.h < 24 && 3600 * st.text.h <= s < 3600 * st.text.h + 3600)
      && (st.text.DaysLeft? ==>
            (st.text.d.Num? && st.text.d.n >= 1 && 86400 * st.text.d.n <= s < 86400 * st.text.d.n + 86400))
  {
    var s := SecondsLeftAt(t, now);
    var m := FloorDiv(s, 60);
    var h := FloorDiv(m, 60);
    var d := FloorDiv(h, 24);
    assert m < 60 <==> s < 3600;
    assert h < 24 <==> s < 86400;
    assert 3600 * h <= s < 3600 * h + 3600;
    assert 86400 * d <= s < 86400 * d + 86400;
  }

  /**
   * The colour in seconds: red when expired or under fifteen minutes but
   * at least one, yellow under a minute or between fifteen minutes and two
   * hours, green from two hours on.
   */
  lemma Colors(t: int, now: int)
    ensures var c := TokenStatus(Some(Valid(t)), now).color;
      var s := SecondsLeftAt(t, now);
      && (c == Red <==> s <= 0 || 60 <= s < 900)
      && (c == Yellow <==> 0 < s < 60 || 900 <= s < 7200)
      && (c == Green <==> 7200 <= s)
  {
    var s := SecondsLeftAt(t, now);
    var m := FloorDiv(s, 60);
    var h := FloorDiv(m, 60);
    assert m < 15 <==> s < 900;
    assert m < 60 <==> s < 3600;
    assert h < 2 <==> s < 7200;
    assert h < 24 <==> s < 86400;
  }

  /**
   * The colour is not ordered by urgency: thirty seconds left shows
   * yellow, five minutes left shows red.
   */
  lemma UrgencyNotMonotone(now: int)
    ensures TokenStatus(Some(Valid(now + 30000)), now).color == Yellow
    ensures TokenStatus(Some(Valid(now + 300000)), now).color == Red
  {
    Colors(now + 30000, now);
    Colors(now + 300000, now);
  }

  /** A date that did not parse reads as days left, in green; a missing one as no token, in red. */
  lemma UnreadableDates(now: int)
    ensures TokenStatus(Some(NaN), now) == Status(DaysLeft(NotANumber), Green)
    ensures TokenStatus(None, now) == Status(NoToken, Red)
  {
  }

  /**
   * Lines 48-51: a refresh is attempted when thirty seconds from now is
   * not before the expiry; a NaN expiry compares false.
   */
  predicate RefreshDue(now: int, expiry: TimeValue)
    ensures RefreshDue(now, expiry) ==> expiry.Valid? && SecondsLeftAt(expiry.ms, now) <= 30
  {
    expiry.Valid? && now + 30000 >= expiry.ms
  }

  /**
   * A refresh is due once fewer than thirty whole seconds are left, and
   * never while more than thirty are: it is due only while the status
   * shows seconds or that the token has expired.
   */
  lemma DueWithinThirtySeconds(now: int, t: int)
    ensures SecondsLeftAt(t, now) < 30 ==> RefreshDue(now, Valid(t))
    ensures RefreshDue(now, Valid(t)) ==> SecondsLeftAt(t, now) <= 30
    ensures RefreshDue(now, Valid(t)) ==>
      (TokenStatus(Some(Valid(t)), now).text.SecondsLeft? || TokenStatus(Some(Valid(t)), now).text == Expired)
  {
    Bands(t, now);
  }

  /** What `fetch("/auth/refresh?forceRefresh=true")` came to: a failure, or the decoded reply. */
  datatype RefreshReply =
    | FetchFailed
    | Reply(message: string, accessToken: string, expiresAt: string)

  /** Lines 56-59: only a `"RefreshedToken"` reply installs a new token. */
  predicate Accepted(reply: RefreshReply)
  {
    reply.Reply? && reply.message == "RefreshedToken"
  }

  /** The hook's state: the token, the raw `expiresAt` text, and the status shown. */
  class TokenHook {
    var token: Option<string>
    var expiresAt: string
    var status: Status

    /** Lines 37-39: taken from the page's user data, with the initial status. */
    constructor(accessToken: Option<string>, expiry: string)
      ensures token == accessToken && expiresAt == expiry && status == Initial
    {
      token := accessToken;
      expiresAt := expiry;
      status := Initial;
    }

    /** Lines 42-44: the status recomputed from `new Date(expiresAt)`. */
    method UpdateStatus(now: int, parseDate: string -> TimeValue)
      modifies this
      ensures status == TokenStatus(Some(parseDate(expiresAt)), now)
      ensures token == old(token) && expiresAt == old(expiresAt)
    {
      status := TokenStatus(Some(parseDate(expiresAt)), now);
    }

    /**
     * Lines 47-63, one tick of the interval: when a refresh is due the
     * server is asked, and an accepted reply replaces the token and the
     * expiry; otherwise nothing changes.
     */
    method Tick(now: int, parseDate: string -> TimeValue, reply: RefreshReply) returns (asked: bool)
      modifies this
      ensures asked == RefreshDue(now, parseDate(old(expiresAt)))
      ensures asked && Accepted(reply) ==> token == Some(reply.accessToken) && expiresAt == reply.expiresAt
      ensures !(asked && Accepted(reply)) ==> token == old(token) && expiresAt == old(expiresAt)
      ensures status == old(status)
    {
      var tokenExpiry := parseDate(expiresAt);
      asked := tokenExpiry.Valid? && now + 30000 >= tokenExpiry.ms;
      if asked {
        if reply.Reply? && reply.message == "RefreshedToken" {
          token := Some(reply.accessToken);
          expiresAt := reply.expiresAt;
        }
      }
    }
  }
}
