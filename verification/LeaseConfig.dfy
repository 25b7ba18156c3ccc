/**
 * The leasing block of a node's configuration (agent/internal/config/config.go) and the prices
 * and lengths derived from it (agent/internal/escrow/pricing.go, agent/internal/httpapi/sessions.go).
 */
module LeaseConfig {
  import opened Common
  import opened Decimal

  /** The fields the defaulting and validation of a metered session read. */
  datatype Leases = Leases(
    enabled: bool,
    image: string,
    pricePerMinute: string,
    pricePerSecond: string,
    minMinutes: int,
    maxMinutes: int,
    maxTotalMinutes: int,
    graceMinutes: int,
    caKeyPath: string,
    proxyImage: string,
    tunnelMode: string,
    paymentMode: string,
    chunkSeconds: int,
    lowCreditSeconds: int)

  const DEFAULT_LEASES := Leases(
    false, "cleargate/lease-runtime:dev", "200000", "", 5, 120, 1440, 10, "lease-ca",
    "cleargate/lease-egress:dev", "quick", "session", 0, 60)

  function OrString(s: string, fallback: string): string {
    if s == "" then fallback else s
  }

  function OrInt(n: int, fallback: int): int {
    if n <= 0 then fallback else n
  }

  function PaymentMode(mode: string): string {
    var named := OrString(mode, DEFAULT_LEASES.paymentMode);
    if named == "escrow" then "session" else named
  }

  function WithDefaults(l: Leases): Leases {
    var maxMinutes := OrInt(l.maxMinutes, DEFAULT_LEASES.maxMinutes);
    Leases(
      l.enabled,
      OrString(l.image, DEFAULT_LEASES.image),
      OrString(l.pricePerMinute, DEFAULT_LEASES.pricePerMinute),
      l.pricePerSecond,
      OrInt(l.minMinutes, DEFAULT_LEASES.minMinutes),
      maxMinutes,
      OrInt(l.maxTotalMinutes, DEFAULT_LEASES.maxTotalMinutes),
      OrInt(l.graceMinutes, DEFAULT_LEASES.graceMinutes),
      OrString(l.caKeyPath, DEFAULT_LEASES.caKeyPath),
      OrString(l.proxyImage, DEFAULT_LEASES.proxyImage),
      OrString(l.tunnelMode, DEFAULT_LEASES.tunnelMode),
      PaymentMode(l.paymentMode),
      OrInt(l.chunkSeconds, maxMinutes * 60),
      OrInt(l.lowCreditSeconds, DEFAULT_LEASES.lowCreditSeconds))
  }

  datatype ConfigError =
    | NoImage | BadMinutePrice | BadMinuteBounds | TotalBelowMaximum | NoCAKeyPath | BadTunnelMode
    | NoProxyImage | BadPaymentMode | ChunkTooShort | ChunkTooLong | ThresholdNotBelowChunk | BadSecondPrice

  function Validate(l: Leases): Option<ConfigError> {
    if !l.enabled then None
    else if l.image == "" then Some(NoImage)
    else if ParseUint64(l.pricePerMinute).None? then Some(BadMinutePrice)
    else if l.minMinutes <= 0 || l.maxMinutes < l.minMinutes then Some(BadMinuteBounds)
    else if l.maxTotalMinutes < l.maxMinutes then Some(TotalBelowMaximum)
    else if l.caKeyPath == "" then Some(NoCAKeyPath)
    else if l.tunnelMode != "quick" then Some(BadTunnelMode)
    else if l.proxyImage == "" then Some(NoProxyImage)
    else if l.paymentMode != "session" then Some(BadPaymentMode)
    else if l.chunkSeconds < l.minMinutes * 60 then Some(ChunkTooShort)
    else if l.chunkSeconds > l.maxMinutes * 60 then Some(ChunkTooLong)
    else if l.lowCreditSeconds >= l.chunkSeconds then Some(ThresholdNotBelowChunk)
    else if l.pricePerSecond != "" && ParseUint64(l.pricePerSecond).None? then Some(BadSecondPrice)
    else None
  }

  /** Everything a block that is switched on must satisfy to be accepted, and nothing else. */
  lemma AcceptedIff(l: Leases)
    requires l.enabled
    ensures Validate(l).None? <==>
            && l.image != "" && l.caKeyPath != "" && l.proxyImage != ""
            && l.tunnelMode == "quick" && l.paymentMode == "session"
            && 0 < l.minMinutes <= l.maxMinutes <= l.maxTotalMinutes
            && 60 * l.minMinutes <= l.chunkSeconds <= 60 * l.maxMinutes && l.lowCreditSeconds < l.chunkSeconds
            && ParseUint64(l.pricePerMinute).Some? && (l.pricePerSecond == "" || ParseUint64(l.pricePerSecond).Some?)
  {
  }

  /** A refusal names a fault the block has. */
  lemma RefusalsNameAFault(l: Leases)
    requires Validate(l).Some?
    ensures l.enabled
    ensures match Validate(l).value
            case NoImage => l.image == ""
            case BadMinutePrice => ParseUint64(l.pricePerMinute).None?
            case BadMinuteBounds => !(0 < l.minMinutes <= l.maxMinutes)
            case TotalBelowMaximum => l.maxTotalMinutes < l.maxMinutes
            case NoCAKeyPath => l.caKeyPath == ""
            case BadTunnelMode => l.tunnelMode != "quick"
            case NoProxyImage => l.proxyImage == ""
            case BadPaymentMode => l.paymentMode != "session"
            case ChunkTooShort => l.chunkSeconds < 60 * l.minMinutes
            case ChunkTooLong => l.chunkSeconds > 60 * l.maxMinutes
            case ThresholdNotBelowChunk => l.lowCreditSeconds >= l.chunkSeconds
            case BadSecondPrice => l.pricePerSecond != "" && ParseUint64(l.pricePerSecond).None?
  {
  }

  /** A block a running node can hold: defaulted, switched on, and accepted. */
  predicate Running(l: Leases) {
    l.enabled && l.graceMinutes > 0 && l.lowCreditSeconds > 0 && Validate(l).None?
  }

  /** The struct itself, which loading a config file overwrites in place. */
  class LeasesBlock {
    var enabled: bool
    var image: string
    var pricePerMinute: string
    var pricePerSecond: string
    var minMinutes: int
    var maxMinutes: int
    var maxTotalMinutes: int
    var graceMinutes: int
    var caKeyPath: string
    var proxyImage: string
    var tunnelMode: string
    var paymentMode: string
    var chunkSeconds: int
    var lowCreditSeconds: int

    function Value(): Leases
      reads this
    {
      Leases(enabled, image, pricePerMinute, pricePerSecond, minMinutes, maxMinutes, maxTotalMinutes,
             graceMinutes, caKeyPath, proxyImage, tunnelMode, paymentMode, chunkSeconds, lowCreditSeconds)
    }

    constructor (l: Leases)
      ensures Value() == l
    {
      enabled := l.enabled;
      image := l.image;
      pricePerMinute := l.pricePerMinute;
      pricePerSecond := l.pricePerSecond;
      minMinutes := l.minMinutes;
      maxMinutes := l.maxMinutes;
      maxTotalMinutes := l.maxTotalMinutes;
      graceMinutes := l.graceMinutes;
      caKeyPath := l.caKeyPath;
      proxyImage := l.proxyImage;
      tunnelMode := l.tunnelMode;
      paymentMode := l.paymentMode;
      chunkSeconds := l.chunkSeconds;
      lowCreditSeconds := l.lowCreditSeconds;
    }

    method ApplyDefaults()
      modifies this
      ensures Value() == WithDefaults(old(Value()))
    {
      DefaultNames();
      minMinutes := OrInt(minMinutes, DEFAULT_LEASES.minMinutes);
      maxMinutes := OrInt(maxMinutes, DEFAULT_LEASES.maxMinutes);
      maxTotalMinutes := OrInt(maxTotalMinutes, DEFAULT_LEASES.maxTotalMinutes);
      graceMinutes := OrInt(graceMinutes, DEFAULT_LEASES.graceMinutes);
      // Reads the maximum after it has been defaulted.
      if chunkSeconds <= 0 {
        chunkSeconds := maxMinutes * 60;
      }
      lowCreditSeconds := OrInt(lowCreditSeconds, DEFAULT_LEASES.lowCreditSeconds);
    }

    method DefaultNames()
      modifies `image, `pricePerMinute, `caKeyPath, `proxyImage, `tunnelMode, `paymentMode
      ensures image == OrString(old(image), DEFAULT_LEASES.image)
      ensures pricePerMinute == OrString(old(pricePerMinute), DEFAULT_LEASES.pricePerMinute)
      ensures caKeyPath == OrString(old(caKeyPath), DEFAULT_LEASES.caKeyPath)
      ensures proxyImage == OrString(old(proxyImage), DEFAULT_LEASES.proxyImage)
      ensures tunnelMode == OrString(old(tunnelMode), DEFAULT_LEASES.tunnelMode)
      ensures paymentMode == PaymentMode(old(paymentMode))
    {
      image := OrString(image, DEFAULT_LEASES.image);
      pricePerMinute := OrString(pricePerMinute, DEFAULT_LEASES.pricePerMinute);
      caKeyPath := OrString(caKeyPath, DEFAULT_LEASES.caKeyPath);
      proxyImage := OrString(proxyImage, DEFAULT_LEASES.proxyImage);
      tunnelMode := OrString(tunnelMode, DEFAULT_LEASES.tunnelMode);
      paymentMode := OrString(paymentMode, DEFAULT_LEASES.paymentMode);
      // The old spelling of the only payment mode.
      if paymentMode == "escrow" {
        paymentMode := "session";
      }
    }
  }

  /** Loading a config that was saved after defaulting changes nothing. */
  lemma DefaultsIdempotent(l: Leases)
    ensures WithDefaults(WithDefaults(l)) == WithDefaults(l)
    ensures WithDefaults(l).enabled && Validate(WithDefaults(l)).None? ==> Running(WithDefaults(l))
  {
  }

  /** What a field that is set keeps, and one that is not takes. */
  lemma DefaultsFillOnlyWhatIsUnset(l: Leases)
    ensures var d := WithDefaults(l);
      && d.enabled == l.enabled && d.pricePerSecond == l.pricePerSecond
      && (l.image != "" ==> d.image == l.image)
      && (l.pricePerMinute != "" ==> d.pricePerMinute == l.pricePerMinute)
      && (l.minMinutes > 0 ==> d.minMinutes == l.minMinutes) && (l.maxMinutes > 0 ==> d.maxMinutes == l.maxMinutes)
      && (l.maxTotalMinutes > 0 ==> d.maxTotalMinutes == l.maxTotalMinutes)
      && (l.graceMinutes > 0 ==> d.graceMinutes == l.graceMinutes)
      && (l.caKeyPath != "" ==> d.caKeyPath == l.caKeyPath) && (l.proxyImage != "" ==> d.proxyImage == l.proxyImage)
      && (l.tunnelMode != "" ==> d.tunnelMode == l.tunnelMode)
      && (l.paymentMode !in {"", "escrow"} ==> d.paymentMode == l.paymentMode)
      && (l.chunkSeconds > 0 ==> d.chunkSeconds == l.chunkSeconds)
      && (l.lowCreditSeconds > 0 ==> d.lowCreditSeconds == l.lowCreditSeconds)
    ensures var d := WithDefaults(l);
      && d.image != "" && d.pricePerMinute != "" && d.caKeyPath != "" && d.proxyImage != "" && d.tunnelMode != ""
      && d.paymentMode !in {"", "escrow"}
      && d.minMinutes > 0 && d.maxMinutes > 0 && d.maxTotalMinutes > 0 && d.graceMinutes > 0
      && d.chunkSeconds > 0 && d.lowCreditSeconds > 0
  {
  }

  /** A block that runs is left as it is; any one field left out of it takes its default, and no other changes. */
  lemma RunningBlocksAreKept(l: Leases, unset: int)
    requires Running(l) && unset <= 0
    ensures WithDefaults(l) == l
    ensures WithDefaults(l.(paymentMode := "")) == WithDefaults(l.(paymentMode := "escrow")) == l
    ensures WithDefaults(l.(image := "")) == l.(image := DEFAULT_LEASES.image)
    ensures WithDefaults(l.(caKeyPath := "")) == l.(caKeyPath := DEFAULT_LEASES.caKeyPath)
    ensures WithDefaults(l.(proxyImage := "")) == l.(proxyImage := DEFAULT_LEASES.proxyImage)
    ensures WithDefaults(l.(tunnelMode := "")) == l
    ensures WithDefaults(l.(pricePerMinute := "")) == l.(pricePerMinute := DEFAULT_LEASES.pricePerMinute)
    ensures WithDefaults(l.(minMinutes := unset)) == l.(minMinutes := DEFAULT_LEASES.minMinutes)
    ensures WithDefaults(l.(maxMinutes := unset)) == l.(maxMinutes := DEFAULT_LEASES.maxMinutes)
    ensures WithDefaults(l.(maxTotalMinutes := unset)) == l.(maxTotalMinutes := DEFAULT_LEASES.maxTotalMinutes)
    ensures WithDefaults(l.(graceMinutes := unset)) == l.(graceMinutes := DEFAULT_LEASES.graceMinutes)
    ensures WithDefaults(l.(chunkSeconds := unset)) == l.(chunkSeconds := l.maxMinutes * 60)
    ensures WithDefaults(l.(lowCreditSeconds := unset)) == l.(lowCreditSeconds := DEFAULT_LEASES.lowCreditSeconds)
  {
  }

  /**
   * Leaving both session fields out does not always give a config that loads: the defaulted
   * threshold of a minute is refused against the defaulted chunk exactly when the node's longest
   * session is one minute.
   */
  lemma UnsetSessionFieldsLoadIff(l: Leases)
    requires Running(l)
    ensures Validate(WithDefaults(l.(chunkSeconds := 0, lowCreditSeconds := 0))).None? <==> l.maxMinutes > 1
    ensures l.maxMinutes == 1 ==>
              Validate(WithDefaults(l.(chunkSeconds := 0, lowCreditSeconds := 0))) == Some(ThresholdNotBelowChunk)
  {
  }

  // ---- Prices ----

  /** escrow.PricePerSecond: the per-minute price over sixty, rounded up, and never zero. */
  function DerivedPrice(perMinute: string): Result<nat, string> {
    var m := ParseBigInt(perMinute);
    if m.None? then Failure("not an integer tinybar price")
    else if m.value <= 0 then Failure("lease price must be positive")
    else
      var rounded := m.value / 60 + if m.value % 60 != 0 then 1 else 0;
      Success(if rounded == 0 then 1 else rounded)
  }

  /** The same, by the local adjustments the code makes to its big integer. */
  method PricePerSecond(perMinute: string) returns (r: Result<nat, string>)
    ensures r == DerivedPrice(perMinute)
  {
    var m := ParseBigInt(perMinute);
    if m.None? {
      return Failure("not an integer tinybar price");
    }
    if m.value <= 0 {
      return Failure("lease price must be positive");
    }
    var perSecond, remainder := m.value / 60, m.value % 60;
    if remainder != 0 {
      perSecond := perSecond + 1;
    }
    if perSecond == 0 {
      perSecond := 1;
    }
    return Success(perSecond);
  }

  /**
   * The derived price is the least one that charges at least the per-minute price over a
   * minute; over any stretch it overcharges by less than a tinybar a second.
   */
  lemma DerivedPriceRoundsUp(perMinute: string, seconds: nat)
    requires DerivedPrice(perMinute).Success?
    ensures var m, p := ParseBigInt(perMinute).value, DerivedPrice(perMinute).value;
      && p > 0
      && 60 * (p - 1) < m <= 60 * p
      && m * seconds <= 60 * (p * seconds) <= m * seconds + 59 * seconds
  {
    var m, p := ParseBigInt(perMinute).value, DerivedPrice(perMinute).value;
    assert m <= 60 * p <= m + 59;
    OverSeconds(m, p, seconds);
  }

  lemma OverSeconds(m: nat, p: nat, seconds: nat)
    requires m <= 60 * p <= m + 59
    ensures m * seconds <= 60 * (p * seconds) <= m * seconds + 59 * seconds
  {
    MulLe(seconds, m, 60 * p);
    MulLe(seconds, 60 * p, m + 59);
    assert seconds * (60 * p) == 60 * (p * seconds);
    assert seconds * (m + 59) == m * seconds + 59 * seconds;
  }

  function SessionPrice(l: Leases): Result<int, string> {
    if l.pricePerSecond != "" then
      var explicit := ParseBigInt(l.pricePerSecond);
      if explicit.None? then Failure("misconfigured per-second price") else Success(explicit.value)
    else
      match DerivedPrice(l.pricePerMinute)
      case Success(p) => Success(p)
      case Failure(e) => Failure(e)
  }

  /**
   * What validation leaves open about the price. It is never negative, and it is a positive
   * number exactly when the field it comes from is not zero: an explicit zero sells free time,
   * a zero per-minute price sells none.
   */
  lemma RunningPrice(l: Leases)
    requires Running(l)
    ensures SessionPrice(l).Success? ==> SessionPrice(l).value >= 0
    ensures var source := if l.pricePerSecond != "" then l.pricePerSecond else l.pricePerMinute;
      && ParseUint64(source).Some?
      && ((SessionPrice(l).Success? && SessionPrice(l).value > 0) <==> ParseUint64(source).value != 0)
      && (SessionPrice(l).Failure? <==> l.pricePerSecond == "" && ParseUint64(source).value == 0)
  {
    Uint64IsBigInt(if l.pricePerSecond != "" then l.pricePerSecond else l.pricePerMinute);
  }

  // ---- What a session is sold on ----

  /** The bounds, the chunk and the per-second price (None when it cannot be worked out). */
  datatype Terms = Terms(
    enabled: bool,
    minMinutes: int,
    maxMinutes: int,
    maxTotalMinutes: int,
    graceMinutes: int,
    chunkSeconds: int,
    lowCreditSeconds: int,
    price: Option<nat>)

  function TermsOf(l: Leases): Terms {
    var price := SessionPrice(l);
    Terms(l.enabled, l.minMinutes, l.maxMinutes, l.maxTotalMinutes, l.graceMinutes, l.chunkSeconds, l.lowCreditSeconds,
          if price.Success? && price.value >= 0 then Some(price.value) else None)
  }

  /** What the session arithmetic depends on. */
  predicate Sound(t: Terms) {
    && t.enabled
    && 0 < t.minMinutes <= t.maxMinutes <= t.maxTotalMinutes
    && 0 < t.graceMinutes
    && t.minMinutes * 60 <= t.chunkSeconds <= t.maxMinutes * 60
    && 0 < t.lowCreditSeconds < t.chunkSeconds
  }

  /** Every config a node can run with sells on sound terms, and validation refuses all the others. */
  lemma RunningTermsAreSound(l: Leases)
    ensures Running(l) ==> Sound(TermsOf(l)) && (TermsOf(l).price.Some? <==> SessionPrice(l).Success?)
    ensures Sound(TermsOf(l)) && Validate(l).Some? ==>
              Validate(l).value in {NoImage, BadMinutePrice, NoCAKeyPath, BadTunnelMode, NoProxyImage, BadPaymentMode,
                                    BadSecondPrice}
  {
    if Running(l) {
      RunningPrice(l);
    }
  }

  /**
   * The price a node sells at, from what its provider wrote. A per-second price is charged as it
   * stands; otherwise it is the least whole number of tinybars a second that is worth the
   * per-minute price over a minute, and there is none only if that price is zero.
   */
  lemma PriceCharged(l: Leases)
    requires Running(l)
    ensures l.pricePerSecond != "" ==>
              ParseUint64(l.pricePerSecond).Some? && TermsOf(l).price == Some(ParseUint64(l.pricePerSecond).value)
    ensures l.pricePerSecond == "" ==>
              && ParseUint64(l.pricePerMinute).Some?
              && (TermsOf(l).price.None? <==> ParseUint64(l.pricePerMinute).value == 0)
              && (TermsOf(l).price.Some? ==>
                    60 * (TermsOf(l).price.value - 1) < ParseUint64(l.pricePerMinute).value <= 60 * TermsOf(l).price.value)
  {
    RunningPrice(l);
    Uint64IsBigInt(if l.pricePerSecond != "" then l.pricePerSecond else l.pricePerMinute);
    if l.pricePerSecond == "" && DerivedPrice(l.pricePerMinute).Success? {
      DerivedPriceRoundsUp(l.pricePerMinute, 0);
    }
  }

  // ---- Lengths ----

  function SessionChunk(t: Terms, requested: int): int {
    if 0 < requested < t.chunkSeconds then requested else t.chunkSeconds
  }

  /** validateSessionSeconds. */
  predicate LengthAccepted(t: Terms, seconds: int) {
    t.minMinutes * 60 <= seconds <= t.maxMinutes * 60
  }

  function SecondsToMinutes(seconds: nat): nat {
    var minutes := seconds / 60 + if seconds % 60 != 0 then 1 else 0;
    if minutes < 1 then 1 else minutes
  }

  /**
   * Every length the node accepts gives container minutes that pass the lease spec's own
   * bounds, and the container outlasts the paid chunk by less than a minute.
   */
  lemma AcceptedLengthsFitTheContainer(t: Terms, seconds: int)
    requires Sound(t) && LengthAccepted(t, seconds)
    ensures var chunk := SessionChunk(t, seconds);
      && 0 < chunk <= seconds && chunk <= t.chunkSeconds
      && t.minMinutes <= SecondsToMinutes(chunk) <= t.maxMinutes
      && chunk <= 60 * SecondsToMinutes(chunk) < chunk + 60
  {
  }
}
