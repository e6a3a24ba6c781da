/**
 * The repair catalogue as it is read from `repairs.json` (and from the seed
 * script's built-in data): repair objects keyed by their identifier, each
 * with a list of possible issues. Fields that a JSON record may omit are
 * optional.
 */
module Catalog {
  import opened Wrappers
  import opened Js

  datatype StepRecord = StepRecord(
    step: int,
    action: string,
    time: Option<string>,
    icon: Option<string>,
    hint: Option<string>)

  datatype IssueRecord = IssueRecord(
    id: string,
    name: string,
    description: Option<string>,
    riskScore: Option<int>,
    difficulty: Option<string>,
    timeEstimate: Option<string>,
    tools: Option<seq<string>>,
    steps: Option<seq<StepRecord>>,
    safetyWarnings: Option<seq<string>>)

  datatype Repair = Repair(
    name: string,
    category: Option<string>,
    icon: Option<string>,
    issues: Option<seq<IssueRecord>>)

  /** Repair identifier to repair record, in the file's key order. */
  type RepairMap = Entries<Repair>
}
