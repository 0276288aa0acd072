/**
 The answer to a prediction request: the predicted level together with its
 name, looked up in a three-entry table with Python's list indexing, where
 -1 .. -3 count back from the end and any other index out of range raises an
 error that the request handler turns into an error answer.
 */
module RiskNames {
  import opened Wrappers
  import RiskScore

  const LevelNames: seq<string> := ["Bajo", "Medio", "Alto"]

  /** The message Python gives a list index out of range. */
  const IndexErrorMessage: string := "list index out of range"

  /** Element i of s as Python indexes a list: counting back from the end for
      a negative i, and None where Python raises an index error. */
  function ListIndex<T>(s: seq<T>, i: int): (r: Option<T>)
    ensures r.Some? <==> -|s| <= i < |s|
    ensures 0 <= i < |s| ==> r == Some(s[i])
    ensures -|s| <= i < 0 ==> r == Some(s[|s| + i])
  {
    if 0 <= i < |s| then Some(s[i])
    else if -|s| <= i < 0 then Some(s[|s| + i])
    else None
  }

  function LevelName(level: int): (name: Option<string>)
    ensures name.Some? <==> -3 <= level < 3
  {
    ListIndex(LevelNames, level)
  }

  /** The level a name stands for; the inverse of LevelName on 0 .. 2. */
  function LevelOfName(name: string): (level: Option<int>)
    ensures level.Some? ==> 0 <= level.value <= 2
  {
    if name == LevelNames[0] then Some(0)
    else if name == LevelNames[1] then Some(1)
    else if name == LevelNames[2] then Some(2)
    else None
  }

  datatype Response =
    | Answer(level: int, text: string)
    | Failure(error: string)

  /** The response for a predicted class, leaving out the class probabilities. */
  function Respond(prediction: int): (r: Response)
    ensures r.Answer? <==> -3 <= prediction < 3
    ensures r.Answer? ==> r.level == prediction && r.text in LevelNames
    ensures r.Answer? ==> LevelName(prediction) == Some(r.text)
    ensures r.Failure? ==> r.error == IndexErrorMessage
  {
    match LevelName(prediction)
    case Some(text) => Answer(prediction, text)
    case None => Failure(IndexErrorMessage)
  }

  /** The table names level 0 low, 1 medium and 2 high. */
  lemma NamesOfLevels()
    ensures LevelName(0) == Some("Bajo")
    ensures LevelName(1) == Some("Medio")
    ensures LevelName(2) == Some("Alto")
    ensures forall level :: level >= 3 || level < -3 ==> LevelName(level) == None
  {
  }

  /** Negative indexes wrap around to the same names as their positive counterparts. */
  lemma NegativeLevelsWrap(level: int)
    requires 0 <= level < 3
    ensures LevelName(level - 3) == LevelName(level)
  {
  }

  /** Naming and reading back a level 0 .. 2 gives the level again, and the
      three names are distinct. */
  lemma NameRoundTrip(level: int)
    requires 0 <= level <= 2
    ensures LevelName(level).Some?
    ensures LevelOfName(LevelName(level).value) == Some(level)
  {
  }

  lemma NameRoundTripBack(name: string)
    requires LevelOfName(name).Some?
    ensures LevelName(LevelOfName(name).value) == Some(name)
  {
  }

  /** Every level the labelling rule produces has a name and gets an answer. */
  lemma RiskLevelsAreNamed(s: RiskScore.Sample)
    ensures LevelName(RiskScore.RiskLevel(s)).Some?
    ensures Respond(RiskScore.RiskLevel(s)).Answer?
    ensures Respond(RiskScore.RiskLevel(s)).level == RiskScore.RiskLevel(s)
  {
  }
}
