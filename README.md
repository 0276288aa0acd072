# Risk labelling rule of the Cusco crime-risk demo

The demo trains a classifier on generated crime records of Cusco. Each record
has a latitude, a longitude, an hour (0-23), a weekday (0 Monday .. 6 Sunday),
a month and a crime type (0 robbery, 1 assault, 2 theft, 3 violence, 4 other).
Before training, each record gets a risk label from a fixed rule:

- the hour band earns 2 points at night (20-6) or 1 point in the shoulder
  hours (7, 8, 18, 19);
- a weekend day earns 1 point;
- a position south of latitude -13.4 earns 1 point;
- a robbery or an assault earns 1 point.

A score of 4 or more is level 2 (high). A score of 2 or more is level 1
(medium). Anything lower is level 0 (low). The labels go into a
zero-initialised array, one entry per record. A prediction is answered with
the predicted level and its name from the table Bajo / Medio / Alto.

This project models that rule and the table, and proves facts about them:

- `RiskScore` holds the record type, the score, the level and the lemmas
  about them.
- `RiskLabels` holds the labelling loop as a method over an array. The method
  is proved against a recursive specification of the label column.
- `RiskNames` holds the name table, with Python's list indexing, and the
  prediction answer.

The rule is total. Every integer hour, weekday and crime type, and every real
latitude, has a defined contribution. So no member requires the ranges the
generator draws from. The bounds and the hour table are proved for all
inputs, which is stronger than proving them on the generator's ranges.

## Model

| member | source | states |
|---|---|---|
| RiskScore.HourPoints | server/ml_model/train_model.py:45-48 | the hour band earns between 0 and 2 points |
| RiskScore.HourBands | server/ml_model/train_model.py:45-48 | 2 points exactly for hours up to 6 or from 20; 1 point exactly for 7, 8, 18 and 19; 0 points exactly for 9-17; the three bands cover every hour |
| RiskScore.Indicator | server/ml_model/train_model.py:51-60 | a condition earns exactly one point when it holds and none otherwise (each `score += 1` step) |
| RiskScore.FlagCount | server/ml_model/train_model.py:51-60 | the weekend, south and robbery/assault conditions together add between 0 and 3 points |
| RiskScore.Score | server/ml_model/train_model.py:43-60 | the score lies in 0..5 for every input, and is at most 3 for a daytime hour |
| RiskScore.ScoreBoundsTight | server/ml_model/train_model.py:43-60 | both score bounds, 0 and 5, are reached by some record |
| RiskScore.WeekendAddsOne | server/ml_model/train_model.py:51-52 | switching the weekday to a weekend day, all else unchanged, raises the score by exactly one |
| RiskScore.SouthAddsOne | server/ml_model/train_model.py:55-56 | moving the latitude south of -13.4, all else unchanged, raises the score by exactly one |
| RiskScore.RobberyOrAssaultAddsOne | server/ml_model/train_model.py:59-60 | switching the crime type to robbery or assault, all else unchanged, raises the score by exactly one |
| RiskScore.Level | server/ml_model/train_model.py:63-68 | the level of any score is 0, 1 or 2 |
| RiskScore.LevelThresholds | server/ml_model/train_model.py:63-68 | level 2 exactly when the score is at least 4; level 1 exactly when it is 2 or 3; level 0 exactly when it is below 2 |
| RiskScore.LevelMonotone | server/ml_model/train_model.py:63-68 | a higher score never gives a lower level |
| RiskScore.RiskLevel | server/ml_model/train_model.py:43-68 | the level of a record is 0, 1 or 2 |
| RiskScore.IgnoresLongitudeAndMonth | server/ml_model/train_model.py:43-68 | changing longitude or month never changes the level |
| RiskScore.DaytimeNeverHigh | server/ml_model/train_model.py:45-68 | a record with an hour in 9-17 is never level 2 |
| RiskScore.LevelMonotoneInConditions | server/ml_model/train_model.py:43-68 | a record whose hour band earns at least as much and whose conditions include the other record's has a score and a level at least as high |
| RiskScore.LevelMonotoneSouthward | server/ml_model/train_model.py:55-68 | moving a record further south never lowers its level |
| RiskScore.LevelMatchesDecisionTable | server/ml_model/train_model.py:43-68 | level 2 exactly when it is night with two conditions or a shoulder hour with all three; level 0 exactly when it is daytime with at most one condition or a shoulder hour with none; level 1 otherwise |
| RiskScore.EveryLevelReachable | server/ml_model/train_model.py:63-68 | each of the levels 0, 1 and 2 is the label of some record |
| RiskLabels.Labels | server/ml_model/train_model.py:40-42 | the label column has one entry per row |
| RiskLabels.LabelsAt | server/ml_model/train_model.py:42-68 | entry k of the label column is the level of row k |
| RiskLabels.LabelsInRange | server/ml_model/train_model.py:63-70 | every entry of the label column is 0, 1 or 2 |
| RiskLabels.LabelsLocal | server/ml_model/train_model.py:42-68 | entry k depends on row k alone: tables that agree on row k agree on label k |
| RiskLabels.DaytimeRowsNeverHigh | server/ml_model/train_model.py:45-68 | no row with a daytime hour is labelled 2 |
| RiskLabels.GenerateLabels | server/ml_model/train_model.py:40-68 | returns a fresh array with one entry per row that equals the label column, so entry k is the level of row k; its loop keeps the entries already visited equal to the labels of the rows so far and those not yet visited at 0 |
| RiskNames.ListIndex | server/ml_model/train_model.py:121 | Python list indexing, stated as its definition: an index has an element exactly when it lies in -len..len-1; a non-negative index gives that element, a negative one counts back from the end; any other index is the index error |
| RiskNames.LevelName | server/ml_model/train_model.py:117-121 | a level has a name exactly when it is a valid list index, -3 to 2 |
| RiskNames.NamesOfLevels | server/ml_model/train_model.py:117-121 | 0 is Bajo, 1 is Medio, 2 is Alto; every index from 3 up or below -3 has no name |
| RiskNames.NegativeLevelsWrap | server/ml_model/train_model.py:117-121 | a negative index -3..-1 gives the same name as the index 3 higher |
| RiskNames.LevelOfName | server/ml_model/train_model.py:117 | a name, if it is one of the table's, reads back as a level 0..2 |
| RiskNames.NameRoundTrip | server/ml_model/train_model.py:117-121 | naming a level 0..2 and reading the name back gives the same level, so the three names are distinct |
| RiskNames.NameRoundTripBack | server/ml_model/train_model.py:117-121 | reading a table name as a level and naming that level gives the same name |
| RiskNames.Respond | server/ml_model/train_model.py:114-129 | the answer carries the predicted level and, exactly when the prediction is a valid index, the name the table gives that index; otherwise it is the error answer with the index-error message |
| RiskNames.RiskLevelsAreNamed | server/ml_model/train_model.py:63-68 | every level the labelling rule produces has a name and an answer that carries that level |

## Left out

- Random sampling and the fixed seed of the generator: the rows are inputs of `GenerateLabels`, of any length and any values.
- The table library: the generated table is a sequence of `Sample` rows, and the label column is a sequence or an array.
- Training, the train/test split, the accuracy score and the class probabilities: these come from a foreign machine-learning library whose behaviour is not visible. The prediction is an input of `Respond`, and the probabilities are not part of its answer.
- Saving and loading the trained model, reading the request from standard input, JSON parsing and printing, and the command-line dispatch: these are I/O.
- Floating point: the latitude is a real, and the test against -13.4 is exact. The source compares 64-bit floats, which differs only for a latitude that lies within rounding distance of -13.4.
- The label array is a float array in the source that is later cast to integers. The model keeps integer labels throughout, since every label is 0, 1 or 2 exactly.
- RiskNames.Respond: only an out-of-range index is modelled as an error. Any other exception that the request handler catches comes from model loading or from the foreign library, which are not part of this model.
