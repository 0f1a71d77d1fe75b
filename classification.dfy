/** The classification labels and the resolver of the detection service
    (`AiDetectionService.determineClassification`). */
module Classification {
  import opened Wrappers

  /** Labels a detection can carry; the last three occur only in the older demo service. */
  datatype Label = AiGenerated | HumanWritten | MixedContent | Uncertain | Unknown | ParseError | ConnectionError
  {
    function Name(): string {
      match this
      case AiGenerated => "AI_GENERATED"
      case HumanWritten => "HUMAN_WRITTEN"
      case MixedContent => "MIXED_CONTENT"
      case Uncertain => "UNCERTAIN"
      case Unknown => "UNKNOWN"
      case ParseError => "PARSE_ERROR"
      case ConnectionError => "CONNECTION_ERROR"
    }
  }

  /** The four labels of a resolved verdict. */
  predicate IsVerdictLabel(l: Label) {
    l == AiGenerated || l == HumanWritten || l == MixedContent || l == Uncertain
  }

  /** Lower bound of the mixed band. */
  const MixedThreshold: real := 0.5
  /** Lower bound of the band in which the flag decides. */
  const VerdictThreshold: real := 0.7

  /** A null flag or confidence is UNCERTAIN; otherwise the confidence band decides before the
      flag does: below 0.5 UNCERTAIN, from 0.5 up to (not including) 0.7 MIXED_CONTENT, and
      from 0.7 on the flag chooses between AI_GENERATED and HUMAN_WRITTEN. */
  function DetermineClassification(isAiGenerated: Option<bool>, confidence: Option<real>): (r: Label)
    ensures IsVerdictLabel(r)
    ensures isAiGenerated.None? || confidence.None? ==> r == Uncertain
    ensures r == AiGenerated <==>
              isAiGenerated == Some(true) && confidence.Some? && confidence.value >= VerdictThreshold
    ensures r == HumanWritten <==>
              isAiGenerated == Some(false) && confidence.Some? && confidence.value >= VerdictThreshold
    ensures r == MixedContent <==>
              isAiGenerated.Some? && confidence.Some? && MixedThreshold <= confidence.value < VerdictThreshold
  {
    if isAiGenerated.None? || confidence.None? then Uncertain
    else if confidence.value < 0.5 then Uncertain
    else if confidence.value >= 0.5 && confidence.value < 0.7 then MixedContent
    else if isAiGenerated.value then AiGenerated
    else HumanWritten
  }

  /** Below 0.7 the flag has no say: a low- or mid-confidence answer is never a hard verdict. */
  lemma BandsOverrideFlag(f1: bool, f2: bool, c: real)
    requires c < VerdictThreshold
    ensures DetermineClassification(Some(f1), Some(c)) == DetermineClassification(Some(f2), Some(c))
    ensures DetermineClassification(Some(f1), Some(c)) != AiGenerated
    ensures DetermineClassification(Some(f1), Some(c)) != HumanWritten
  {
  }

  /** Each boundary belongs to the band above it: 0.5 is mixed, at 0.7 the flag decides. */
  lemma Boundaries(f: bool)
    ensures DetermineClassification(Some(f), Some(0.5)) == MixedContent
    ensures DetermineClassification(Some(f), Some(0.7)) == (if f then AiGenerated else HumanWritten)
  {
  }

  /** How firm a verdict is: no verdict, mixed, or a hard verdict. */
  function Firmness(l: Label): nat {
    if l == AiGenerated || l == HumanWritten then 2 else if l == MixedContent then 1 else 0
  }

  /** With the flag fixed, more confidence never gives a less firm verdict. */
  lemma FirmnessMonotone(f: bool, c1: real, c2: real)
    requires c1 <= c2
    ensures Firmness(DetermineClassification(Some(f), Some(c1))) <= Firmness(DetermineClassification(Some(f), Some(c2)))
  {
  }
}
