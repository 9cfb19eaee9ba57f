/** The health record and the part of the health-record store that the pages
    rely on. The store's own source is not part of this model: it is kept
    here as a list of records that `AddHealthRecord` appends to, which is all
    that the assessment page, the heart-rate page and the dashboard use. */
module HealthData {
  import opened Wrappers

  datatype RiskLevel = Low | Medium | High

  /** One dated observation. Every vital is optional: a heart-rate capture
      carries only `heartRate`, an assessment carries blood pressure,
      cholesterol, blood sugar and its outcome. `date` is the ISO day
      (`YYYY-MM-DD`) the caller supplies. */
  datatype HealthRecord = HealthRecord(
    date: string,
    heartRate: Option<int>,
    bloodPressureSystolic: Option<int>,
    bloodPressureDiastolic: Option<int>,
    cholesterol: Option<int>,
    bloodSugar: Option<int>,
    weight: Option<int>,
    riskLevel: Option<RiskLevel>,
    riskPercentage: Option<int>)

  /** The record store as its callers see it: the ordered `healthRecords`
      list, oldest first. */
  class HealthStore {
    var healthRecords: seq<HealthRecord>

    constructor (initial: seq<HealthRecord>)
      ensures healthRecords == initial
    {
      healthRecords := initial;
    }

    /** `addHealthRecord`: the record goes at the end; nothing else changes. */
    method AddHealthRecord(r: HealthRecord)
      modifies this
      ensures healthRecords == old(healthRecords) + [r]
    {
      healthRecords := healthRecords + [r];
    }
  }
}
