/** getBaseOutputs in src/PercentageSlider.js: the fixed table of coefficient
    triples, keyed first by appeal type and then by donor type (the component's
    `calculationType`). Keys are the strings the source uses. */
module BaseOutputs {

  /** The table as the source writes it: appeal type -> donor type -> triple. */
  const Table: map<string, map<string, seq<real>>> := map[
    "Holiday Appeal" := HolidayAppealRow,
    "Papers" := PapersRow,
    "Monthly" := MonthlyRow
  ]

  const HolidayAppealRow: map<string, seq<real>> := map[
    "Major Donor" := [0.9, 1.0, 1.45],
    "OTG" := [1.1, 1.4, 1.9],
    "TBZ" := [5.0, 6.0, 7.5]]

  const PapersRow: map<string, seq<real>> := map[
    "Major Donor" := [0.9, 1.0, 1.45],
    "OTG" := [0.65, 0.8, 0.9],
    "TBZ" := [3.0, 3.3, 3.8]]

  const MonthlyRow: map<string, seq<real>> := map[
    "Major Donor" := [0.9, 1.0, 1.45],
    "OTG" := [0.09, 0.15, 0.2],
    "TBZ" := [1.11, 1.3, 1.4]]

  /** A row holds triples of positive coefficients. */
  predicate PositiveTriples(row: map<string, seq<real>>)
  {
    forall donor :: donor in row ==> |row[donor]| == 3 && row[donor][0] > 0.0 && row[donor][1] > 0.0 && row[donor][2] > 0.0
  }

  lemma TablePositive(appeal: string)
    requires appeal in Table
    ensures PositiveTriples(Table[appeal])
  {
  }

  /** The triple used when the donor type is not in the appeal's row. */
  const Neutral: seq<real> := [1.0, 1.0, 1.0]

  const AppealKeys: set<string> := {"Holiday Appeal", "Papers", "Monthly"}
  const DonorKeys: set<string> := {"Major Donor", "OTG", "TBZ"}

  /** Every row of the table has the same three donor keys, and the rows are
      exactly the three appeal types. */
  lemma TableKeys()
    ensures Table.Keys == AppealKeys
    ensures forall appeal :: appeal in Table ==> Table[appeal].Keys == DonorKeys
  {
  }

  /** `baseOutputs[appealType][calculationType] || [1, 1, 1]`. An appeal type
      that is not a key makes the source index `undefined` and throw, so it is
      a precondition here; an unknown donor type falls back to the neutral
      triple. */
  function GetBaseOutputs(calculationType: string, appealType: string): (r: seq<real>)
    requires appealType in Table
    ensures |r| == 3
    ensures forall i :: 0 <= i < 3 ==> r[i] > 0.0
    ensures calculationType !in DonorKeys ==> r == Neutral
    ensures calculationType == "Major Donor" ==> r == [0.9, 1.0, 1.45]
  {
    TableKeys();
    TablePositive(appealType);
    if calculationType in Table[appealType] then Table[appealType][calculationType] else Neutral
  }

  /** The nine entries of the table. */
  lemma TableEntries()
    ensures GetBaseOutputs("Major Donor", "Holiday Appeal") == [0.9, 1.0, 1.45]
    ensures GetBaseOutputs("OTG", "Holiday Appeal") == [1.1, 1.4, 1.9]
    ensures GetBaseOutputs("TBZ", "Holiday Appeal") == [5.0, 6.0, 7.5]
    ensures GetBaseOutputs("Major Donor", "Papers") == [0.9, 1.0, 1.45]
    ensures GetBaseOutputs("OTG", "Papers") == [0.65, 0.8, 0.9]
    ensures GetBaseOutputs("TBZ", "Papers") == [3.0, 3.3, 3.8]
    ensures GetBaseOutputs("Major Donor", "Monthly") == [0.9, 1.0, 1.45]
    ensures GetBaseOutputs("OTG", "Monthly") == [0.09, 0.15, 0.2]
    ensures GetBaseOutputs("TBZ", "Monthly") == [1.11, 1.3, 1.4]
  {
  }

  /** A Major Donor gets the same triple whatever the appeal type. */
  lemma MajorDonorIndependentOfAppeal(appeal1: string, appeal2: string)
    requires appeal1 in Table && appeal2 in Table
    ensures GetBaseOutputs("Major Donor", appeal1) == GetBaseOutputs("Major Donor", appeal2)
  {
  }

  /** The lookup misses a row only for donor types outside the three keys,
      and then gives the neutral triple. */
  lemma FallbackExactlyForUnknownDonor(calculationType: string, appealType: string)
    requires appealType in Table
    ensures calculationType in Table[appealType] <==> calculationType in DonorKeys
    ensures calculationType !in DonorKeys ==> GetBaseOutputs(calculationType, appealType) == Neutral
  {
    TableKeys();
  }
}
