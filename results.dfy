/** The tiered message `showResult` displays at the end of a game (script.js, `showResult`). */
module Results {

  datatype Tier = Berozgari | Tcs | LocalStartup | Cognizant | Oracle | DreamOffer

  /** What the result panel shows: the tier and the score it was chosen for. */
  datatype Verdict = Verdict(tier: Tier, score: int)

  /** The panel's title for each tier. */
  function Title(t: Tier): string
  {
    match t
    case Berozgari => "Berozgari"
    case Tcs => "TCS"
    case LocalStartup => "Local Startup"
    case Cognizant => "Cognizant"
    case Oracle => "ORACLE"
    case DreamOffer => "Dream Offer \U{1F31F}"
  }

  /** Position of a tier, lowest first. */
  function Rank(t: Tier): nat
  {
    match t
    case Berozgari => 0
    case Tcs => 1
    case LocalStartup => 2
    case Cognizant => 3
    case Oracle => 4
    case DreamOffer => 5
  }

  /** A JavaScript property read: `undefined` or a number. */
  datatype JsValue = Undefined | Number(n: int)

  /** `v <= 0` in JavaScript: `undefined` converts to NaN, and every comparison with NaN is false. */
  predicate JsAtMostZero(v: JsValue)
  {
    v.Number? && v.n <= 0
  }

  /** The tier choice as the source writes it: the first test reads `player.score`, a property the
      player object never has, and the other tests read the game's `score`. */
  function TierAsWritten(playerScore: JsValue, score: int): (t: Tier)
    ensures t == Berozgari <==> JsAtMostZero(playerScore)
  {
    if JsAtMostZero(playerScore) then Berozgari
    else if score < 100 then Tcs
    else if score < 200 then LocalStartup
    else if score < 300 then Cognizant
    else if score < 400 then Oracle
    else DreamOffer
  }

  /** The tier choice with the first test reading the game's `score`, as the tier table
      (0, 100, 200, 300, 400 and above) intends. */
  function ResultTier(score: int): (t: Tier)
    ensures t == Berozgari <==> score <= 0
    ensures t == Tcs <==> 0 < score < 100
    ensures t == DreamOffer <==> score >= 400
    ensures Rank(t) == if score <= 0 then 0 else if score >= 400 then 5 else 1 + score / 100
  {
    if score <= 0 then Berozgari
    else if score < 100 then Tcs
    else if score < 200 then LocalStartup
    else if score < 300 then Cognizant
    else if score < 400 then Oracle
    else DreamOffer
  }

  /** The tier the result panel shows for the game's final score: `player.score` is read as
      `undefined`. It is the corrected tier for every positive score, and "TCS" otherwise. */
  function ShownTier(score: int): (t: Tier)
    ensures t == if score <= 0 then Tcs else ResultTier(score)
    ensures t != Berozgari
  {
    TierAsWritten(Undefined, score)
  }

  /** A higher score never earns a lower tier. */
  lemma TierMonotone(s: int, s': int)
    requires s <= s'
    ensures Rank(ResultTier(s)) <= Rank(ResultTier(s'))
  {
  }

  /** As written, the lowest tier can never be shown: `player.score` is always `undefined`. */
  lemma BerozgariUnreachable(score: int)
    ensures TierAsWritten(Undefined, score) != Berozgari
  {
  }

  /** As written, a final score of 0 is shown as "TCS". */
  lemma ZeroScoreShowsTcs()
    ensures TierAsWritten(Undefined, 0) == Tcs
    ensures ResultTier(0) == Berozgari
  {
  }

  /** The two choices differ only for scores at or below 0, and reading the game's score in the
      first test is exactly the corrected choice. */
  lemma CorrectionIsLocal(score: int)
    ensures score > 0 ==> ResultTier(score) == TierAsWritten(Undefined, score)
    ensures ResultTier(score) == TierAsWritten(Number(score), score)
  {
  }
}
