/**
 * Verified spending receipts and the worst-case holds computed from them
 * (backend/src/app/agent_voice/config.py and live_config.py). Money is an exact `real`.
 */
module VoiceConfig {
  import opened Options
  import opened Sums

  const CLOSE_SECONDS: nat := 10
  const CLEANUP_SECONDS: nat := 4
  const MILLION := 1000000.0
  const GPT_LIVE_USD_PER_MINUTE := 0.05
  const AUDIO_BYTES_PER_SECOND: nat := 48000

  datatype RoutePrice = RoutePrice(
    model: string, validUntil: int, maximumInputTokens: nat,
    inputUsdPerMillion: real, outputUsdPerMillion: real)
  {
    predicate Valid() {
      && 0 < maximumInputTokens <= 1000000
      && inputUsdPerMillion > 0.0 && outputUsdPerMillion > 0.0
    }
  }

  datatype EmbeddingPrice = EmbeddingPrice(
    model: string, validUntil: int, maximumInputTokens: nat, inputUsdPerMillion: real)
  {
    predicate Valid() {
      0 < maximumInputTokens <= 1000000 && inputUsdPerMillion > 0.0
    }
  }

  /** What distinguishes a token-billed realtime session from a duration-billed Live session. */
  datatype Route =
    | Realtime(price: RoutePrice, audioInputUsdPerMillion: real, audioOutputUsdPerMillion: real,
               audioTokensPerSecond: real, maximumResponses: nat, maximumOutputTokens: nat)
    | Live(liveModel: string, liveValidUntil: int, usdPerMinute: real)

  datatype Limits = Limits(
    organization: string, budgetReference: string, validUntil: int,
    remainingBudget: real, sessionCeiling: real,
    reasoning: RoutePrice, embedding: Option<EmbeddingPrice>,
    maximumSeconds: nat, maximumAudioSeconds: nat, maximumTurns: nat, route: Route)
  {
    /** The field constraints and the model validators of both receipt classes. */
    predicate Valid() {
      && remainingBudget > 0.0 && 0.0 < sessionCeiling <= 1.0
      && reasoning.Valid() && (embedding.Some? ==> embedding.value.Valid())
      && 10 <= maximumSeconds <= 300 && 1 <= maximumTurns <= 12
      && match route {
           case Realtime(price, audioIn, audioOut, perSecond, responses, output) =>
             && price.Valid() && audioIn > 0.0 && audioOut > 0.0 && perSecond > 0.0
             && 1 <= maximumAudioSeconds <= 180
             && 2 <= responses <= 24 && 64 <= output <= 4096
             && responses >= 2 * maximumTurns
           case Live(_, _, usdPerMinute) =>
             && usdPerMinute == GPT_LIVE_USD_PER_MINUTE
             && 1 <= maximumAudioSeconds <= 300 && maximumAudioSeconds <= maximumSeconds
         }
    }
  }

  /** The receipt together with the two settings the formulas read. */
  datatype RawTerms = RawTerms(limits: Limits, agentMaxOutputTokens: nat, embeddingsModel: string)

  type Terms = t: RawTerms | t.limits.Valid() witness SAMPLE_TERMS

  const SAMPLE_TERMS := RawTerms(
    Limits("org", "ref", 0, 1.0, 1.0, RoutePrice("m", 0, 1, 1.0, 1.0), None, 10, 1, 1,
           Live("gpt-live-1", 0, GPT_LIVE_USD_PER_MINUTE)), 1, "e")

  function Max(a: real, b: real): real {
    if a >= b then a else b
  }

  function Min(a: real, b: real): real {
    if a <= b then a else b
  }

  // --- Worst cases of one unit of spend, in USD per million.

  /** One realtime response priced at the dearer of the text and audio rates. */
  function PricedResponse(r: Route, input: nat, output: nat): real
    requires r.Realtime?
  {
    Times(input as real, Max(r.price.inputUsdPerMillion, r.audioInputUsdPerMillion))
    + Times(output as real, Max(r.price.outputUsdPerMillion, r.audioOutputUsdPerMillion))
  }

  function WorstResponse(r: Route): real
    requires r.Realtime?
  {
    PricedResponse(r, r.price.maximumInputTokens, r.maximumOutputTokens)
  }

  function WorstReasoning(t: Terms): real {
    Times(t.limits.reasoning.maximumInputTokens as real, t.limits.reasoning.inputUsdPerMillion)
    + Times(t.agentMaxOutputTokens as real, t.limits.reasoning.outputUsdPerMillion)
  }

  function WorstEmbedding(t: Terms): real {
    match t.limits.embedding
    case None => 0.0
    case Some(price) => Times(price.maximumInputTokens as real, price.inputUsdPerMillion)
  }

  /** Submitted audio at the approved token bound, in USD per million. */
  function AudioCost(t: Terms, seconds: real): real
    requires t.limits.route.Realtime?
  {
    Times(seconds, Times(t.limits.route.audioTokensPerSecond, t.limits.route.audioInputUsdPerMillion))
  }

  function UsdPerSecond(t: Terms): real
    requires t.limits.route.Live?
  {
    t.limits.route.usdPerMinute / 60.0
  }

  /** Reasoning and embedding holds shared by both kinds of session, in USD. */
  function SecondaryReservation(t: Terms): real {
    (Times((t.limits.maximumTurns * 4) as real, WorstReasoning(t))
     + Times(t.limits.maximumTurns as real, WorstEmbedding(t))) / MILLION
  }

  /** The Live hold for a session of `seconds`, with the close and cleanup margin. */
  function LiveHold(t: Terms, seconds: nat): real
    requires t.limits.route.Live?
  {
    Times((seconds + CLOSE_SECONDS + CLEANUP_SECONDS) as real, UsdPerSecond(t)) + SecondaryReservation(t)
  }

  /** `VoiceLimits.reservation` and `LiveLimits.reservation`. */
  function Reservation(t: Terms): real {
    match t.limits.route
    case Realtime(_, _, _, _, responses, _) =>
      (Times(responses as real, WorstResponse(t.limits.route))
       + AudioCost(t, t.limits.maximumAudioSeconds as real)) / MILLION
      + SecondaryReservation(t)
    case Live(_, _, _) => LiveHold(t, t.limits.maximumSeconds)
  }

  /** `reserved_tokens`; the realtime form rounds the audio bound up. */
  function ReservedTokens(t: Terms): int {
    var l := t.limits;
    var secondary := l.maximumTurns * 4 * (l.reasoning.maximumInputTokens + t.agentMaxOutputTokens)
                     + (if l.embedding.Some? then l.maximumTurns * l.embedding.value.maximumInputTokens else 0);
    match l.route
    case Realtime(price, _, _, perSecond, responses, output) =>
      responses * (price.maximumInputTokens + output) + secondary
      + Ceiling(l.maximumAudioSeconds as real * perSecond)
    case Live(_, _, _) => secondary
  }

  function Ceiling(x: real): (n: int)
    ensures n as real - 1.0 < x <= n as real
  {
    -((-x).Floor)
  }

  function ReceiptDeadline(t: Terms): int {
    var l := t.limits;
    var routeDeadline := match l.route
      case Realtime(price, _, _, _, _, _) => price.validUntil
      case Live(_, validUntil, _) => validUntil;
    var m := MinInt(MinInt(l.validUntil, routeDeadline), l.reasoning.validUntil);
    if l.embedding.Some? then MinInt(m, l.embedding.value.validUntil) else m
  }

  function MinInt(a: int, b: int): int {
    if a <= b then a else b
  }

  lemma WorstCasesNonNegative(t: Terms)
    ensures WorstReasoning(t) >= 0.0 && WorstEmbedding(t) >= 0.0
    ensures SecondaryReservation(t) >= 0.0
    ensures t.limits.route.Realtime? ==> WorstResponse(t.limits.route) >= 0.0
    ensures t.limits.route.Live? ==> UsdPerSecond(t) > 0.0
    ensures Reservation(t) >= 0.0
  {
    hide Times;
    var l := t.limits;
    TimesNonNegative(l.reasoning.maximumInputTokens as real, l.reasoning.inputUsdPerMillion);
    TimesNonNegative(t.agentMaxOutputTokens as real, l.reasoning.outputUsdPerMillion);
    if l.embedding.Some? {
      TimesNonNegative(l.embedding.value.maximumInputTokens as real, l.embedding.value.inputUsdPerMillion);
    }
    TimesNonNegative((l.maximumTurns * 4) as real, WorstReasoning(t));
    TimesNonNegative(l.maximumTurns as real, WorstEmbedding(t));
    if l.route.Realtime? {
      PricedWithinWorst(l.route, 0, 0);
      AudioMonotone(t, 0.0, l.maximumAudioSeconds as real);
      TimesNonNegative(l.route.maximumResponses as real, WorstResponse(l.route));
    } else {
      TimesNonNegative((l.maximumSeconds + CLOSE_SECONDS + CLEANUP_SECONDS) as real, UsdPerSecond(t));
    }
  }

  /** A receipt within both token ceilings is priced between zero and the worst case. */
  lemma PricedWithinWorst(r: Route, input: nat, output: nat)
    requires r.Realtime? && r.price.Valid()
    requires input <= r.price.maximumInputTokens && output <= r.maximumOutputTokens
    ensures 0.0 <= PricedResponse(r, input, output) <= WorstResponse(r)
  {
    hide Times;
    var inRate := Max(r.price.inputUsdPerMillion, r.audioInputUsdPerMillion);
    var outRate := Max(r.price.outputUsdPerMillion, r.audioOutputUsdPerMillion);
    TimesNonNegative(input as real, inRate);
    TimesMonotone(input as real, r.price.maximumInputTokens as real, inRate);
    TimesNonNegative(output as real, outRate);
    TimesMonotone(output as real, r.maximumOutputTokens as real, outRate);
  }

  lemma AudioMonotone(t: Terms, a: real, b: real)
    requires t.limits.route.Realtime? && a <= b
    ensures AudioCost(t, a) <= AudioCost(t, b)
    ensures AudioCost(t, 0.0) == 0.0
  {
    hide Times;
    TimesNonNegative(t.limits.route.audioTokensPerSecond, t.limits.route.audioInputUsdPerMillion);
    TimesMonotone(a, b, Times(t.limits.route.audioTokensPerSecond, t.limits.route.audioInputUsdPerMillion));
  }

  // --- The longest affordable Live session.

  function Ceil(t: Terms): real {
    Min(t.limits.sessionCeiling, t.limits.remainingBudget)
  }

  /** `LiveLimits.maximum_session_seconds`. */
  function MaximumSessionSeconds(t: Terms): nat
    requires t.limits.route.Live?
  {
    var remaining := Ceil(t) - SecondaryReservation(t);
    if remaining <= 0.0 then 0
    else
      var available := remaining / UsdPerSecond(t) - (CLOSE_SECONDS + CLEANUP_SECONDS) as real;
      if available < 0.0 then 0 else available.Floor
  }

  /** A session of n seconds fits both the ceiling and the budget exactly when n is at most the computed maximum. */
  lemma LongestAffordableSession(t: Terms, n: nat)
    requires t.limits.route.Live? && n >= 1
    ensures LiveHold(t, n) <= t.limits.sessionCeiling && LiveHold(t, n) <= t.limits.remainingBudget <==>
            n <= MaximumSessionSeconds(t)
  {
    hide Times, SecondaryReservation;
    WorstCasesNonNegative(t);
    var rate := UsdPerSecond(t);
    var margin := (CLOSE_SECONDS + CLEANUP_SECONDS) as real;
    var remaining := Ceil(t) - SecondaryReservation(t);
    var total := (n + CLOSE_SECONDS + CLEANUP_SECONDS) as real;
    DivideThreshold(total, remaining, rate);
    if remaining > 0.0 && remaining / rate - margin >= 0.0 {
      assert n as real <= remaining / rate - margin <==> n <= (remaining / rate - margin).Floor;
    }
  }

  lemma DivideThreshold(x: real, total: real, rate: real)
    requires rate > 0.0
    ensures Times(x, rate) <= total <==> x <= total / rate
    ensures total <= 0.0 <==> total / rate <= 0.0
  {
    var q := total / rate;
    assert q * rate == total;
    assert (x - q) * rate == x * rate - total;
  }
}
