/** The cleaning-policy table (`CleaningPolicies`): a constant map from an issue
    type's name to the action a cleaner should take and the reason for it. */
module Policies {

  datatype Action = Drop | Cap | Correct | Impute | Skip

  /** The issue categories the validator emits. */
  datatype IssueType =
    | InvalidTimestamp | OutlierValue | MissingValue | InvalidCity
    | InvalidChannel | InvalidValue | ConstraintViolation | ImpossibleValue
  {
    /** The category's name, as it appears in the issue log and as a table key. */
    function Name(): string
    {
      match this
      case InvalidTimestamp => "INVALID_TIMESTAMP"
      case OutlierValue => "OUTLIER_VALUE"
      case MissingValue => "MISSING_VALUE"
      case InvalidCity => "INVALID_CITY"
      case InvalidChannel => "INVALID_CHANNEL"
      case InvalidValue => "INVALID_VALUE"
      case ConstraintViolation => "CONSTRAINT_VIOLATION"
      case ImpossibleValue => "IMPOSSIBLE_VALUE"
    }
  }

  datatype Policy = Policy(action: Action, justification: string)

  /** `POLICIES` */
  const Table: map<string, Policy> := map[
    "INVALID_TIMESTAMP" := Policy(Drop,
      "Corrupted timestamps cannot be inferred; data integrity > completeness"),
    "OUTLIER_VALUE" := Policy(Cap,
      "Cap at percentile bounds (95th percentile) to preserve data while fixing anomalies"),
    "MISSING_VALUE" := Policy(Impute,
      "discount_pct: set to 0 (no discount); unit_cost: impute as 50% of base_price"),
    "INVALID_CITY" := Policy(Correct,
      "Standardize to valid city names (Dubai default); supports geospatial analysis"),
    "INVALID_CHANNEL" := Policy(Correct,
      "Standardize to valid channel (App default); ensures channel consistency"),
    "INVALID_VALUE" := Policy(Correct,
      "payment_status: default to Paid; preserves transaction data"),
    "CONSTRAINT_VIOLATION" := Policy(Cap,
      "unit_cost > base_price: cap unit_cost at base_price; maintains margin logic"),
    "IMPOSSIBLE_VALUE" := Policy(Correct,
      "Negative stock: set to 0; stock > 1000: cap at 500 (supply chain bounds)")
  ]

  /** The action the table gives each of the eight issue names. */
  lemma TableActions()
    ensures Table["INVALID_TIMESTAMP"].action == Drop && Table["OUTLIER_VALUE"].action == Cap
    ensures Table["MISSING_VALUE"].action == Impute && Table["INVALID_CITY"].action == Correct
    ensures Table["INVALID_CHANNEL"].action == Correct && Table["INVALID_VALUE"].action == Correct
    ensures Table["CONSTRAINT_VIOLATION"].action == Cap && Table["IMPOSSIBLE_VALUE"].action == Correct
  {
  }

  /** What an issue type without an entry gets. */
  const Fallback := Policy(Skip, "No policy defined")

  /** `get_policy`: the table entry, or the SKIP fallback for any other name.
      Only the fallback says SKIP. */
  function GetPolicy(issueType: string): (p: Policy)
    ensures issueType !in Table ==> p == Fallback
    ensures p.action == Skip <==> issueType !in Table
  {
    if issueType in Table then Table[issueType] else Fallback
  }

  /** The table's keys are exactly the names of the issue types. */
  lemma TableKeysAreIssueNames(name: string)
    ensures name in Table <==> exists t: IssueType :: t.Name() == name
  {
    if name in Table {
      var t :|
        t in [InvalidTimestamp, OutlierValue, MissingValue, InvalidCity,
              InvalidChannel, InvalidValue, ConstraintViolation, ImpossibleValue]
        && t.Name() == name;
    }
  }

  /** Distinct issue types have distinct names, so each has its own entry. */
  lemma NamesDistinct(s: IssueType, t: IssueType)
    requires s.Name() == t.Name()
    ensures s == t
  {
  }
}
