/**
 * The facilitator's address risk scoring (apps/facilitator/src/services/riskAnalysis.ts).
 * Three inputs are gathered — address-security insights from GoPlus and
 * Chainalysis, the account's transaction count, and a KYC status that is a
 * placeholder (always unverified) — each is scored on 0..100 (100 = highest
 * risk), and the scores are combined by fixed weights and rounded.
 *
 * Every weight in the source is a multiple of 0.01, so each weighted sum is
 * computed here exactly in hundredths and `Math.round(x)` of a non-negative
 * hundredth count `N` is `(N + 50) / 100` (round half up).
 */
module RiskAnalysis {
  import opened Wrappers

  /** `AddressSecurityInsights`: thirteen flags and the sanctions score. */
  datatype Insights = Insights(
    cyberCrime: bool,
    moneyLaundering: bool,
    financialCrime: bool,
    darkwebTransactions: bool,
    phishingActivities: bool,
    fakeKyc: bool,
    blacklist: bool,
    stealingAttack: bool,
    blackmailActivities: bool,
    sanctioned: bool,
    maliciousMiningActivities: bool,
    honeypot: bool,
    chainalysisSanctioned: bool,
    sanctionsScore: int)

  /** The names of the thirteen boolean insights. */
  datatype Flag =
    | CyberCrime | MoneyLaundering | FinancialCrime | DarkwebTransactions | PhishingActivities
    | FakeKyc | Blacklist | StealingAttack | BlackmailActivities | Sanctioned
    | MaliciousMiningActivities | Honeypot | ChainalysisSanctioned

  const ALL_FLAGS: seq<Flag> := [
    CyberCrime, MoneyLaundering, FinancialCrime, DarkwebTransactions, PhishingActivities,
    FakeKyc, Blacklist, StealingAttack, BlackmailActivities, Sanctioned,
    MaliciousMiningActivities, Honeypot, ChainalysisSanctioned]

  function IsSet(ins: Insights, f: Flag): bool {
    match f
    case CyberCrime => ins.cyberCrime
    case MoneyLaundering => ins.moneyLaundering
    case FinancialCrime => ins.financialCrime
    case DarkwebTransactions => ins.darkwebTransactions
    case PhishingActivities => ins.phishingActivities
    case FakeKyc => ins.fakeKyc
    case Blacklist => ins.blacklist
    case StealingAttack => ins.stealingAttack
    case BlackmailActivities => ins.blackmailActivities
    case Sanctioned => ins.sanctioned
    case MaliciousMiningActivities => ins.maliciousMiningActivities
    case Honeypot => ins.honeypot
    case ChainalysisSanctioned => ins.chainalysisSanctioned
  }

  /** The insights with flag `f` raised and everything else as it was. */
  function With(ins: Insights, f: Flag): (r: Insights)
    ensures IsSet(r, f)
    ensures r.sanctionsScore == ins.sanctionsScore
  {
    match f
    case CyberCrime => ins.(cyberCrime := true)
    case MoneyLaundering => ins.(moneyLaundering := true)
    case FinancialCrime => ins.(financialCrime := true)
    case DarkwebTransactions => ins.(darkwebTransactions := true)
    case PhishingActivities => ins.(phishingActivities := true)
    case FakeKyc => ins.(fakeKyc := true)
    case Blacklist => ins.(blacklist := true)
    case StealingAttack => ins.(stealingAttack := true)
    case BlackmailActivities => ins.(blackmailActivities := true)
    case Sanctioned => ins.(sanctioned := true)
    case MaliciousMiningActivities => ins.(maliciousMiningActivities := true)
    case Honeypot => ins.(honeypot := true)
    case ChainalysisSanctioned => ins.(chainalysisSanctioned := true)
  }

  /** `With` changes flag `f` only. */
  lemma WithChangesOnlyF(ins: Insights, f: Flag, g: Flag)
    ensures g != f ==> IsSet(With(ins, f), g) == IsSet(ins, g)
  {
  }

  /** The weight of each flag in the address-security score, in hundredths. */
  function Weight(f: Flag): nat {
    match f
    case Sanctioned => 20
    case ChainalysisSanctioned => 15
    case Blacklist => 15
    case CyberCrime => 12
    case MoneyLaundering => 12
    case FinancialCrime => 8
    case StealingAttack => 4
    case PhishingActivities => 2
    case DarkwebTransactions => 1
    case BlackmailActivities => 1
    case MaliciousMiningActivities => 0
    case FakeKyc => 0
    case Honeypot => 0
  }

  /** The weight of the sanctions score, in hundredths. */
  const SANCTIONS_SCORE_WEIGHT: nat := 10

  /** A boolean insight as a sub-score: 100 when the risk is present, 0 otherwise. */
  function FlagScore(b: bool): (s: nat)
    ensures s == 100 || s == 0
    ensures s == 100 <==> b
  {
    if b then 100 else 0
  }

  /** Sum of the weights of `fs[i..]`. */
  function WeightTotal(fs: seq<Flag>, i: nat): nat
    decreases |fs| - i
  {
    if i >= |fs| then 0 else Weight(fs[i]) + WeightTotal(fs, i + 1)
  }

  /** Reference definition: Σ weight·sub-score over the flags `fs[i..]`, in hundredths. */
  function FlagSum(ins: Insights, fs: seq<Flag>, i: nat): nat
    decreases |fs| - i
  {
    if i >= |fs| then 0 else FlagTerm(ins, fs[i]) + FlagSum(ins, fs, i + 1)
  }

  /** One flag's contribution: its weight times its sub-score. */
  function FlagTerm(ins: Insights, f: Flag): (t: nat)
    ensures t == Weight(f) * FlagScore(IsSet(ins, f))
  {
    if IsSet(ins, f) then 100 * Weight(f) else 0
  }

  /** The whole weighted sum of the address-security score, in hundredths. */
  function WeightedSum(ins: Insights): int {
    FlagSum(ins, ALL_FLAGS, 0) + SANCTIONS_SCORE_WEIGHT * ins.sanctionsScore
  }

  /** The list sum over all flags, one term per flag. */
  lemma FlagSumUnrolled(ins: Insights)
    ensures FlagSum(ins, ALL_FLAGS, 0) ==
      FlagTerm(ins, CyberCrime) + FlagTerm(ins, MoneyLaundering) + FlagTerm(ins, FinancialCrime)
      + FlagTerm(ins, DarkwebTransactions) + FlagTerm(ins, PhishingActivities) + FlagTerm(ins, FakeKyc)
      + FlagTerm(ins, Blacklist) + FlagTerm(ins, StealingAttack) + FlagTerm(ins, BlackmailActivities)
      + FlagTerm(ins, Sanctioned) + FlagTerm(ins, MaliciousMiningActivities) + FlagTerm(ins, Honeypot)
      + FlagTerm(ins, ChainalysisSanctioned)
  {
    var fs := ALL_FLAGS;
    assert FlagSum(ins, fs, 13) == 0;
    assert FlagSum(ins, fs, 12) == FlagTerm(ins, ChainalysisSanctioned);
    assert FlagSum(ins, fs, 11) == FlagTerm(ins, Honeypot) + FlagSum(ins, fs, 12);
    assert FlagSum(ins, fs, 10) == FlagTerm(ins, MaliciousMiningActivities) + FlagSum(ins, fs, 11);
    assert FlagSum(ins, fs, 9) == FlagTerm(ins, Sanctioned) + FlagSum(ins, fs, 10);
    assert FlagSum(ins, fs, 8) == FlagTerm(ins, BlackmailActivities) + FlagSum(ins, fs, 9);
    assert FlagSum(ins, fs, 7) == FlagTerm(ins, StealingAttack) + FlagSum(ins, fs, 8);
    assert FlagSum(ins, fs, 6) == FlagTerm(ins, Blacklist) + FlagSum(ins, fs, 7);
    assert FlagSum(ins, fs, 5) == FlagTerm(ins, FakeKyc) + FlagSum(ins, fs, 6);
    assert FlagSum(ins, fs, 4) == FlagTerm(ins, PhishingActivities) + FlagSum(ins, fs, 5);
    assert FlagSum(ins, fs, 3) == FlagTerm(ins, DarkwebTransactions) + FlagSum(ins, fs, 4);
    assert FlagSum(ins, fs, 2) == FlagTerm(ins, FinancialCrime) + FlagSum(ins, fs, 3);
    assert FlagSum(ins, fs, 1) == FlagTerm(ins, MoneyLaundering) + FlagSum(ins, fs, 2);
  }

  /** The first seven flag terms as the source writes them: sub-score times weight. */
  lemma FlagTermsFirstHalf(ins: Insights)
    ensures FlagTerm(ins, CyberCrime) == FlagScore(ins.cyberCrime) * 12
    ensures FlagTerm(ins, MoneyLaundering) == FlagScore(ins.moneyLaundering) * 12
    ensures FlagTerm(ins, FinancialCrime) == FlagScore(ins.financialCrime) * 8
    ensures FlagTerm(ins, DarkwebTransactions) == FlagScore(ins.darkwebTransactions) * 1
    ensures FlagTerm(ins, PhishingActivities) == FlagScore(ins.phishingActivities) * 2
    ensures FlagTerm(ins, FakeKyc) == FlagScore(ins.fakeKyc) * 0
    ensures FlagTerm(ins, Blacklist) == FlagScore(ins.blacklist) * 15
  {
  }

  /** The remaining flag terms as the source writes them. */
  lemma FlagTermsSecondHalf(ins: Insights)
    ensures FlagTerm(ins, StealingAttack) == FlagScore(ins.stealingAttack) * 4
    ensures FlagTerm(ins, BlackmailActivities) == FlagScore(ins.blackmailActivities) * 1
    ensures FlagTerm(ins, Sanctioned) == FlagScore(ins.sanctioned) * 20
    ensures FlagTerm(ins, MaliciousMiningActivities) == FlagScore(ins.maliciousMiningActivities) * 0
    ensures FlagTerm(ins, Honeypot) == FlagScore(ins.honeypot) * 0
    ensures FlagTerm(ins, ChainalysisSanctioned) == FlagScore(ins.chainalysisSanctioned) * 15
  {
  }

  /** The weighted sum in the order the source writes its fourteen terms. */
  lemma WeightedSumAsWritten(ins: Insights)
    ensures WeightedSum(ins) ==
      FlagScore(ins.sanctioned) * 20 + FlagScore(ins.chainalysisSanctioned) * 15 + ins.sanctionsScore * 10
      + FlagScore(ins.blacklist) * 15 + FlagScore(ins.cyberCrime) * 12 + FlagScore(ins.moneyLaundering) * 12
      + FlagScore(ins.financialCrime) * 8 + FlagScore(ins.stealingAttack) * 4
      + FlagScore(ins.phishingActivities) * 2 + FlagScore(ins.darkwebTransactions) * 1
      + FlagScore(ins.blackmailActivities) * 1 + FlagScore(ins.maliciousMiningActivities) * 0
      + FlagScore(ins.fakeKyc) * 0 + FlagScore(ins.honeypot) * 0
  {
    FlagSumUnrolled(ins);
    FlagTermsFirstHalf(ins);
    FlagTermsSecondHalf(ins);
  }

  /** `Math.round(N / 100)` for a hundredth count `N >= 0`; the source's sums are never negative here. */
  function RoundHundredths(n: int): (r: int)
    ensures n >= 0 ==> 100 * r - 50 <= n < 100 * r + 50
  {
    (n + 50) / 100
  }

  /** The per-flag sub-scores and the weighted `overall`. */
  datatype SecurityFactors = SecurityFactors(
    overall: int,
    cyberCrime: nat,
    moneyLaundering: nat,
    financialCrime: nat,
    darkwebTransactions: nat,
    phishingActivities: nat,
    fakeKyc: nat,
    blacklist: nat,
    stealingAttack: nat,
    blackmailActivities: nat,
    sanctioned: nat,
    maliciousMiningActivities: nat,
    honeypot: nat,
    chainalysisSanctioned: nat,
    sanctionsScore: int)

  /** `calculateAddressSecurityFactors`, term by term as the source writes it. */
  function CalculateAddressSecurityFactors(ins: Insights): (f: SecurityFactors)
    ensures f.overall == RoundHundredths(WeightedSum(ins))
    ensures f.cyberCrime == FlagScore(ins.cyberCrime) && f.moneyLaundering == FlagScore(ins.moneyLaundering)
    ensures f.financialCrime == FlagScore(ins.financialCrime)
    ensures f.darkwebTransactions == FlagScore(ins.darkwebTransactions)
    ensures f.phishingActivities == FlagScore(ins.phishingActivities) && f.fakeKyc == FlagScore(ins.fakeKyc)
    ensures f.blacklist == FlagScore(ins.blacklist) && f.stealingAttack == FlagScore(ins.stealingAttack)
    ensures f.blackmailActivities == FlagScore(ins.blackmailActivities)
    ensures f.sanctioned == FlagScore(ins.sanctioned)
    ensures f.maliciousMiningActivities == FlagScore(ins.maliciousMiningActivities)
    ensures f.honeypot == FlagScore(ins.honeypot)
    ensures f.chainalysisSanctioned == FlagScore(ins.chainalysisSanctioned)
    ensures f.sanctionsScore == ins.sanctionsScore
  {
    var cyberCrime := FlagScore(ins.cyberCrime);
    var moneyLaundering := FlagScore(ins.moneyLaundering);
    var financialCrime := FlagScore(ins.financialCrime);
    var darkwebTransactions := FlagScore(ins.darkwebTransactions);
    var phishingActivities := FlagScore(ins.phishingActivities);
    var fakeKyc := FlagScore(ins.fakeKyc);
    var blacklist := FlagScore(ins.blacklist);
    var stealingAttack := FlagScore(ins.stealingAttack);
    var blackmailActivities := FlagScore(ins.blackmailActivities);
    var sanctioned := FlagScore(ins.sanctioned);
    var maliciousMiningActivities := FlagScore(ins.maliciousMiningActivities);
    var honeypot := FlagScore(ins.honeypot);
    var chainalysisSanctioned := FlagScore(ins.chainalysisSanctioned);
    var sanctionsScore := ins.sanctionsScore;
    var weighted :=
      sanctioned * 20 + chainalysisSanctioned * 15 + sanctionsScore * 10 + blacklist * 15
      + cyberCrime * 12 + moneyLaundering * 12 + financialCrime * 8 + stealingAttack * 4
      + phishingActivities * 2 + darkwebTransactions * 1 + blackmailActivities * 1
      + maliciousMiningActivities * 0 + fakeKyc * 0 + honeypot * 0;
    WeightedSumAsWritten(ins);
    assert weighted == WeightedSum(ins);
    var overall := RoundHundredths(weighted);
    SecurityFactors(overall, cyberCrime, moneyLaundering, financialCrime, darkwebTransactions,
                    phishingActivities, fakeKyc, blacklist, stealingAttack, blackmailActivities,
                    sanctioned, maliciousMiningActivities, honeypot, chainalysisSanctioned, sanctionsScore)
  }

  /** The weights of the flags add up to 0.90 and, with the sanctions score's 0.10, to 1.00. */
  lemma WeightsSumToOne()
    ensures WeightTotal(ALL_FLAGS, 0) + SANCTIONS_SCORE_WEIGHT == 100
  {
  }

  lemma {:induction false} FlagSumBounds(ins: Insights, fs: seq<Flag>, i: nat)
    ensures 0 <= FlagSum(ins, fs, i) <= 100 * WeightTotal(fs, i)
    decreases |fs| - i
  {
    if i < |fs| {
      FlagSumBounds(ins, fs, i + 1);
    }
  }

  /** The address-security score stays in 0..100 whenever the sanctions score does. */
  lemma OverallInRange(ins: Insights)
    requires 0 <= ins.sanctionsScore <= 100
    ensures 0 <= CalculateAddressSecurityFactors(ins).overall <= 100
  {
    FlagSumBounds(ins, ALL_FLAGS, 0);
    WeightsSumToOne();
  }

  lemma {:induction false} FlagSumMonotone(ins: Insights, f: Flag, fs: seq<Flag>, i: nat)
    ensures FlagSum(ins, fs, i) <= FlagSum(With(ins, f), fs, i)
    decreases |fs| - i
  {
    if i < |fs| {
      FlagSumMonotone(ins, f, fs, i + 1);
      WithChangesOnlyF(ins, f, fs[i]);
      assert FlagScore(IsSet(ins, fs[i])) <= FlagScore(IsSet(With(ins, f), fs[i]));
    }
  }

  /** Raising any one flag, all else fixed, never lowers the address-security score. */
  lemma OverallMonotoneInFlags(ins: Insights, f: Flag)
    ensures CalculateAddressSecurityFactors(ins).overall <= CalculateAddressSecurityFactors(With(ins, f)).overall
  {
    FlagSumMonotone(ins, f, ALL_FLAGS, 0);
  }

  // ---------------------------------------------------------------- sources

  /** `isSanctionedByChainalysis`: the oracle's answer, or `false` when the contract call throws (`None`). */
  function IsSanctionedByChainalysis(oracle: Option<bool>): (sanctioned: bool)
    ensures sanctioned <==> oracle == Some(true)
  {
    match oracle
    case Some(b) => b
    case None => false
  }

  /** The GoPlus `result` fields, each already coerced by `!!Number(...)`. */
  datatype GoPlusFlags = GoPlusFlags(
    cybercrime: bool,
    moneyLaundering: bool,
    financialCrime: bool,
    darkwebTransactions: bool,
    phishingActivities: bool,
    fakeKyc: bool,
    blacklistDoubt: bool,
    stealingAttack: bool,
    blackmailActivities: bool,
    sanctioned: bool,
    maliciousMiningActivities: bool,
    honeypotRelatedAddress: bool)

  /**
   * What the GoPlus request produced: a thrown `fetch` or `res.json()`, or a
   * decoded reply. `usable` is `code === 1 && result` truthy.
   */
  datatype GoPlusOutcome =
    | GoPlusThrew
    | GoPlusReply(usable: bool, flags: GoPlusFlags)

  function AllClear(chainalysisSanctioned: bool, sanctionsScore: int): Insights {
    Insights(false, false, false, false, false, false, false, false, false, false, false, false,
             chainalysisSanctioned, sanctionsScore)
  }

  /**
   * The insights gathered from the two sources: all clear with sanctions score
   * 100 when the request threw; all clear apart from the Chainalysis flag, with
   * the score `chainalysis ? 0 : 100`, for an unusable reply; otherwise the
   * reply's flags, `sanctioned` from either source and the score 100 or 0.
   */
  function SecurityOverview(goPlus: GoPlusOutcome, chainalysisOracle: Option<bool>): Insights {
    match goPlus
    case GoPlusThrew => AllClear(false, 100)
    case GoPlusReply(usable, r) =>
      var c := IsSanctionedByChainalysis(chainalysisOracle);
      if !usable then AllClear(c, if c then 0 else 100)
      else
        var sanctioned := r.sanctioned || c;
        Insights(r.cybercrime, r.moneyLaundering, r.financialCrime, r.darkwebTransactions,
                 r.phishingActivities, r.fakeKyc, r.blacklistDoubt, r.stealingAttack,
                 r.blackmailActivities, sanctioned, r.maliciousMiningActivities,
                 r.honeypotRelatedAddress, c, if sanctioned then 100 else 0)
  }

  /**
   * `getAddressSecurityOverview` after its two fetches: the reply's flags with
   * the two sanctions sources combined, safe defaults for an unusable reply,
   * and other defaults when the request threw.
   */
  method GetAddressSecurityOverview(goPlus: GoPlusOutcome, chainalysisOracle: Option<bool>)
    returns (ins: Insights)
    ensures goPlus.GoPlusThrew? ==> ins == AllClear(false, 100)
    ensures goPlus.GoPlusReply? && !goPlus.usable ==>
      var c := IsSanctionedByChainalysis(chainalysisOracle);
      ins == AllClear(c, if c then 0 else 100)
    ensures goPlus.GoPlusReply? && goPlus.usable ==>
      && ins.sanctioned == (goPlus.flags.sanctioned || IsSanctionedByChainalysis(chainalysisOracle))
      && ins.chainalysisSanctioned == IsSanctionedByChainalysis(chainalysisOracle)
      && ins.sanctionsScore == (if ins.sanctioned then 100 else 0)
      && ins.cyberCrime == goPlus.flags.cybercrime
      && ins.moneyLaundering == goPlus.flags.moneyLaundering
      && ins.financialCrime == goPlus.flags.financialCrime
      && ins.darkwebTransactions == goPlus.flags.darkwebTransactions
      && ins.phishingActivities == goPlus.flags.phishingActivities
      && ins.fakeKyc == goPlus.flags.fakeKyc
      && ins.blacklist == goPlus.flags.blacklistDoubt
      && ins.stealingAttack == goPlus.flags.stealingAttack
      && ins.blackmailActivities == goPlus.flags.blackmailActivities
      && ins.maliciousMiningActivities == goPlus.flags.maliciousMiningActivities
      && ins.honeypot == goPlus.flags.honeypotRelatedAddress
    ensures ins.sanctionsScore == 0 || ins.sanctionsScore == 100
    ensures ins == SecurityOverview(goPlus, chainalysisOracle)
  {
    if goPlus.GoPlusThrew? {
      return AllClear(false, 100);
    }
    var chainalysisSanctioned := IsSanctionedByChainalysis(chainalysisOracle);
    if !goPlus.usable {
      return AllClear(chainalysisSanctioned, if chainalysisSanctioned then 0 else 100);
    }
    var r := goPlus.flags;
    var goPlusSanctioned := r.sanctioned;
    var isSanctioned := goPlusSanctioned || chainalysisSanctioned;
    var sanctionsScore := 0;
    if isSanctioned {
      sanctionsScore := 100;
    } else if goPlusSanctioned || chainalysisSanctioned {
      sanctionsScore := 50;
    }
    ins := Insights(r.cybercrime, r.moneyLaundering, r.financialCrime, r.darkwebTransactions,
                    r.phishingActivities, r.fakeKyc, r.blacklistDoubt, r.stealingAttack,
                    r.blackmailActivities, isSanctioned, r.maliciousMiningActivities,
                    r.honeypotRelatedAddress, chainalysisSanctioned, sanctionsScore);
  }

  /**
   * The address-security score of the two fallback insights: an unusable
   * GoPlus reply scores 15 for a Chainalysis-sanctioned address and 10 for
   * any other; a thrown request scores 10. A usable reply with nothing
   * flagged scores 0, so an unreachable upstream reads as riskier than a
   * clean one.
   */
  lemma FallbackOverall(c: bool)
    ensures CalculateAddressSecurityFactors(AllClear(c, if c then 0 else 100)).overall == (if c then 15 else 10)
    ensures CalculateAddressSecurityFactors(AllClear(false, 100)).overall == 10
    ensures CalculateAddressSecurityFactors(AllClear(false, 0)).overall == 0
  {
    WeightedSumAsWritten(AllClear(c, if c then 0 else 100));
    WeightedSumAsWritten(AllClear(false, 100));
    WeightedSumAsWritten(AllClear(false, 0));
  }

  // ---------------------------------------------------------------- history

  datatype ActivityLevel = Low | Medium | High

  datatype HistoryAnalysis = HistoryAnalysis(
    hasSufficientHistory: bool,
    transactionCount: nat,
    activityLevel: ActivityLevel,
    overallScore: int)

  /** Reference table of the history score by transaction count. */
  function HistoryScoreTable(txCount: nat): nat {
    if txCount <= 5 then 60
    else if txCount <= 10 then 20
    else if txCount <= 50 then 10
    else 0
  }

  /** The activity level by transaction count. */
  function ActivityOf(txCount: nat): ActivityLevel {
    if txCount > 50 then High else if txCount > 10 then Medium else Low
  }

  /** Reference definition of the history record: the zero record when the count could not be read. */
  function HistoryOf(fetched: Option<nat>): HistoryAnalysis {
    match fetched
    case None => HistoryAnalysis(false, 0, Low, 0)
    case Some(n) => HistoryAnalysis(n > 5, n, ActivityOf(n), HistoryScoreTable(n))
  }

  /**
   * `analyzeTransactionHistory` after `getTransactionCount`: `fetched` is the
   * count, or `None` when the RPC call throws.
   */
  method AnalyzeTransactionHistory(fetched: Option<nat>) returns (h: HistoryAnalysis)
    ensures fetched.None? ==> h == HistoryAnalysis(false, 0, Low, 0)
    ensures fetched.Some? ==>
      && h.transactionCount == fetched.value
      && (h.hasSufficientHistory <==> fetched.value > 5)
      && (h.activityLevel == High <==> fetched.value > 50)
      && (h.activityLevel == Medium <==> 10 < fetched.value <= 50)
      && h.overallScore == HistoryScoreTable(fetched.value)
    ensures 0 <= h.overallScore <= 60
    ensures h == HistoryOf(fetched)
  {
    if fetched.None? {
      return HistoryAnalysis(false, 0, Low, 0);
    }
    var txCount := fetched.value;
    var activityLevel := Low;
    if txCount > 50 {
      activityLevel := High;
    } else if txCount > 10 {
      activityLevel := Medium;
    }
    var overallScore := 0;
    if txCount <= 5 {
      overallScore := overallScore + 40;
    }
    if activityLevel == Low {
      overallScore := overallScore + 20;
    } else if activityLevel == Medium {
      overallScore := overallScore + 10;
    }
    h := HistoryAnalysis(txCount > 5, txCount, activityLevel, if overallScore < 100 then overallScore else 100);
  }

  // ---------------------------------------------------------------- overall

  /** `getKycStatusPlaceholder`: KYC is not implemented and every address is unverified. */
  function KycStatusPlaceholder(): (verified: bool)
    ensures !verified
  {
    false
  }

  /** `kycStatus.isKycVerified ? 0 : 70`. */
  function KycRiskScore(verified: bool): (s: nat)
    ensures s == 0 <==> verified
    ensures s <= 70
  {
    if verified then 0 else 70
  }

  /** `Math.round(0.35·address + 0.25·history + 0.40·kyc)`, in hundredths. */
  function CombinedScore(addressOverall: int, historyScore: int, kycScore: int): int {
    RoundHundredths(35 * addressOverall + 25 * historyScore + 40 * kycScore)
  }

  /** Raising any of the three sub-scores never lowers the combined score. */
  lemma CombinedScoreMonotone(a: int, h: int, k: int, a': int, h': int, k': int)
    requires a <= a' && h <= h' && k <= k'
    ensures CombinedScore(a, h, k) <= CombinedScore(a', h', k')
  {
  }

  /** The weights 0.35 + 0.25 + 0.40 make a convex combination: the score stays in 0..100. */
  lemma CombinedScoreInRange(a: int, h: int, k: int)
    requires 0 <= a <= 100 && 0 <= h <= 100 && 0 <= k <= 100
    ensures 0 <= CombinedScore(a, h, k) <= 100
  {
  }

  datatype RiskLevel = LowRisk | MediumRisk | HighRisk | Critical

  /** Severity rank of a level. */
  function Rank(l: RiskLevel): nat {
    match l
    case LowRisk => 0
    case MediumRisk => 1
    case HighRisk => 2
    case Critical => 3
  }

  /** The threshold ladder. */
  function LevelOf(score: int): (l: RiskLevel)
    ensures l == Critical <==> score >= 80
    ensures l == HighRisk <==> 60 <= score < 80
    ensures l == MediumRisk <==> 30 <= score < 60
    ensures l == LowRisk <==> score < 30
  {
    if score >= 80 then Critical
    else if score >= 60 then HighRisk
    else if score >= 30 then MediumRisk
    else LowRisk
  }

  /** A higher score never gives a lower level. */
  lemma LevelMonotone(s: int, t: int)
    requires s <= t
    ensures Rank(LevelOf(s)) <= Rank(LevelOf(t))
  {
  }

  /**
   * `calculateConfidence`: 30 for the insights (always an object, so always
   * counted), 25 for verified KYC, 20 for a non-zero transaction count, and
   * the total subtracted from 100, floored at 0.
   */
  method CalculateConfidence(kycVerified: bool, transactionCount: int) returns (c: int)
    ensures c == 70 - (if kycVerified then 25 else 0) - (if transactionCount > 0 then 20 else 0)
    ensures 25 <= c <= 70
  {
    var confidence := 0;
    confidence := confidence + 30;
    if kycVerified {
      confidence := confidence + 25;
    }
    if transactionCount > 0 {
      confidence := confidence + 20;
    }
    c := if 100 - confidence > 0 then 100 - confidence else 0;
  }

  datatype RiskScore = RiskScore(
    score: int,
    level: RiskLevel,
    addressSecurity: SecurityFactors,
    transactionHistory: HistoryAnalysis,
    kycStatus: bool,
    confidence: int)

  /**
   * `calculateRiskScore` over the outcomes of its three fetches (the GoPlus
   * request, the Chainalysis oracle, the transaction count). The two
   * timestamps of the result's metadata are not modelled.
   */
  method CalculateRiskScore(goPlus: GoPlusOutcome, chainalysisOracle: Option<bool>, txFetched: Option<nat>)
    returns (r: RiskScore)
    ensures r.addressSecurity == CalculateAddressSecurityFactors(SecurityOverview(goPlus, chainalysisOracle))
    ensures r.transactionHistory == HistoryOf(txFetched)
    ensures !r.kycStatus
    ensures r.score == CombinedScore(r.addressSecurity.overall, r.transactionHistory.overallScore, 70)
    ensures r.level == LevelOf(r.score)
    ensures 28 <= r.score <= 78
    ensures r.level != Critical
    ensures r.confidence == (if txFetched.Some? && txFetched.value > 0 then 50 else 70)
  {
    var securityInsights := GetAddressSecurityOverview(goPlus, chainalysisOracle);
    var transactionAnalysis := AnalyzeTransactionHistory(txFetched);
    var kycVerified := KycStatusPlaceholder();
    var addressSecurityFactors := CalculateAddressSecurityFactors(securityInsights);
    assert addressSecurityFactors == CalculateAddressSecurityFactors(SecurityOverview(goPlus, chainalysisOracle));
    var kycRiskScore := KycRiskScore(kycVerified);
    var overallScore := CombinedScore(addressSecurityFactors.overall, transactionAnalysis.overallScore, kycRiskScore);
    OverallInRange(securityInsights);
    UnverifiedScoreRange(addressSecurityFactors.overall, transactionAnalysis.overallScore);
    var level: RiskLevel;
    if overallScore >= 80 {
      level := Critical;
    } else if overallScore >= 60 {
      level := HighRisk;
    } else if overallScore >= 30 {
      level := MediumRisk;
    } else {
      level := LowRisk;
    }
    var confidence := CalculateConfidence(kycVerified, transactionAnalysis.transactionCount);
    r := RiskScore(overallScore, level, addressSecurityFactors, transactionAnalysis, kycVerified, confidence);
  }

  /** With KYC unverified, every address score in 0..100 and history score in 0..60 combine to 28..78. */
  lemma UnverifiedScoreRange(addressOverall: int, historyScore: int)
    requires 0 <= addressOverall <= 100 && 0 <= historyScore <= 60
    ensures 28 <= CombinedScore(addressOverall, historyScore, 70) <= 78
  {
  }

  /**
   * With KYC unverified and a history score from the table, the combined score
   * lies in 28..78 for every address-security score in 0..100, so the level is
   * never CRITICAL.
   */
  lemma PlaceholderScoreRange(addressOverall: int, txCount: nat)
    requires 0 <= addressOverall <= 100
    ensures 28 <= CombinedScore(addressOverall, HistoryScoreTable(txCount), KycRiskScore(KycStatusPlaceholder())) <= 78
    ensures LevelOf(CombinedScore(addressOverall, HistoryScoreTable(txCount), KycRiskScore(KycStatusPlaceholder()))) != Critical
  {
  }
}
