/** The timeframe table: the minutes in each selectable timeframe, and the
    timeframe names in declaration order (`Object.keys` of the table). */
module TimeFrames {

  /** `MINUTES_IN_TIME_FRAMES` */
  const MinutesInTimeFrames: map<string, nat> := map[
    "1m" := 1, "5m" := 5, "15m" := 15, "30m" := 30,
    "1h" := 60, "4h" := 240, "1d" := 1440, "1w" := 10080,
    "1mo" := 43200, "1y" := 525600]

  /** `timeframes`: the keys of the table in the order they are declared. */
  const Timeframes: seq<string> := ["1m", "5m", "15m", "30m", "1h", "4h", "1d", "1w", "1mo", "1y"]

  /** The key list names every key of the table exactly once. */
  lemma TimeframesAreTheKeys()
    ensures |Timeframes| == 10
    ensures forall i :: 0 <= i < |Timeframes| ==> Timeframes[i] in MinutesInTimeFrames
    ensures forall k :: k in MinutesInTimeFrames ==> k in Timeframes
    ensures forall i, j :: 0 <= i < j < |Timeframes| ==> Timeframes[i] != Timeframes[j]
  {
  }

  /** The minute counts and how the larger units are built from the smaller. */
  lemma MinutesTable()
    ensures MinutesInTimeFrames["1m"] == 1 && MinutesInTimeFrames["5m"] == 5
    ensures MinutesInTimeFrames["15m"] == 15 && MinutesInTimeFrames["30m"] == 30
    ensures MinutesInTimeFrames["1h"] == 60
    ensures MinutesInTimeFrames["4h"] == 4 * MinutesInTimeFrames["1h"]
    ensures MinutesInTimeFrames["1d"] == 24 * MinutesInTimeFrames["1h"]
    ensures MinutesInTimeFrames["1w"] == 7 * MinutesInTimeFrames["1d"]
    ensures MinutesInTimeFrames["1mo"] == 30 * MinutesInTimeFrames["1d"]
    ensures MinutesInTimeFrames["1y"] == 365 * MinutesInTimeFrames["1d"]
  {
  }

  /** Each timeframe is strictly longer than every one declared before it. */
  lemma MinutesIncreasing()
    ensures forall i, j :: 0 <= i < j < |Timeframes| ==>
      MinutesInTimeFrames[Timeframes[i]] < MinutesInTimeFrames[Timeframes[j]]
  {
  }
}
